/** The facade's lifecycle: the `initialized` flag and the two runtime hook
    slots (the view's `lookup` and the include directive) that `enable`
    replaces and `disable` restores. */
module Lifecycle {
  import opened LoaderTypes
  import opened Registry

  /** What a hook slot currently holds: the runtime's original function, or
      the loader's intercepting replacement. */
  datatype Slot = Original | Intercepting

  datatype Hooks = Hooks(lookupSlot: Slot, includeSlot: Slot)

  const Installed := Hooks(Intercepting, Intercepting)
  const Restored := Hooks(Original, Original)

  /** The whole loader state: registry, flag, hook slots, and the loads that
      intercepted lookups started and that have not settled yet. */
  datatype Loader = Loader(templates: TemplateMap, initialized: bool, hooks: Hooks, inflight: seq<PendingLoad>)

  /** The state at module initialisation: empty registry, not initialized,
      original hooks in place, nothing loading. */
  const Initial := Loader(map[], false, Restored, [])

  /** The hooks are in step with the flag: both installed exactly when
      initialized, both original otherwise. No half-installed state. */
  predicate InStep(s: Loader)
  {
    s.hooks == (if s.initialized then Installed else Restored)
  }

  /** `initializeLookup`: replaces the lookup slot and reports success. */
  function InstallLookup(h: Hooks): (r: (Hooks, bool))
    ensures r.1
    ensures r.0.lookupSlot == Intercepting && r.0.includeSlot == h.includeSlot
  {
    (h.(lookupSlot := Intercepting), true)
  }

  /** `initializeSpacebars`: replaces the include slot and reports success. */
  function InstallInclude(h: Hooks): (r: (Hooks, bool))
    ensures r.1
    ensures r.0.includeSlot == Intercepting && r.0.lookupSlot == h.lookupSlot
  {
    (h.(includeSlot := Intercepting), true)
  }

  /** `enable`: when not initialized, runs the two installers (the second
      only if the first succeeded) and records their conjunction in the
      flag; when initialized, does nothing. */
  function Enable(s: Loader): (r: Loader)
    ensures r.templates == s.templates && r.inflight == s.inflight
    ensures s.initialized ==> r == s
    ensures !s.initialized ==> r.initialized && r.hooks == Installed
    ensures (InStep(s) || !s.initialized) ==> InStep(r)
  {
    if s.initialized then s
    else
      var (h1, ok1) := InstallLookup(s.hooks);
      var (h2, ok2) := if ok1 then InstallInclude(h1) else (h1, false);
      s.(hooks := h2, initialized := ok1 && ok2)
  }

  /** `disable`: when initialized, puts both original hooks back and clears
      the flag; otherwise does nothing. */
  function Disable(s: Loader): (r: Loader)
    ensures r.templates == s.templates && r.inflight == s.inflight
    ensures !s.initialized ==> r == s
    ensures s.initialized ==> !r.initialized && r.hooks == Restored
    ensures (InStep(s) || s.initialized) ==> InStep(r)
  {
    if s.initialized then s.(hooks := Restored, initialized := false) else s
  }

  /** `initialized()`: reports the flag, which in every state where the
      hooks are in step says whether the interceptors are installed. */
  function Initialized(s: Loader): (b: bool)
    ensures InStep(s) ==> (b <==> s.hooks == Installed)
    ensures InStep(s) ==> (!b <==> s.hooks == Restored)
  {
    s.initialized
  }

  /** Enabling twice is enabling once; the same for disabling. */
  lemma EnableDisableIdempotent(s: Loader)
    ensures Enable(Enable(s)) == Enable(s)
    ensures Disable(Disable(s)) == Disable(s)
  {
  }

  /** From a consistent state, `disable` undoes `enable` and `enable` undoes
      `disable`: the two are inverse toggles. */
  lemma EnableDisableInverse(s: Loader)
    requires InStep(s)
    ensures !s.initialized ==> Disable(Enable(s)) == s
    ensures s.initialized ==> Enable(Disable(s)) == s
  {
  }
}
