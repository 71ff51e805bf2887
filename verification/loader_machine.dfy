/** The facade and the lookup interceptor as one sequential state machine.
    Every call the outside world can make, and every settling of a load
    promise, is an event; the asynchronous scheduling of the original is
    reduced to the order of the events. */
module LoaderMachine {
  import opened LoaderTypes
  import opened Registry
  import opened Lifecycle
  import opened LookupHook

  /** `Settled(index, outcome)`: the load started by the `index`-th
      unsettled pending lookup ended with `outcome`. */
  datatype Event =
    | RegisterCall(nameArg: Arg, loadArg: Arg)
    | EnableCall
    | DisableCall
    | LookupCall(name: Name, options: Option<Options>)
    | Settled(index: nat, outcome: CallOutcome)

  /** The name an event adds to the registry if it is not there yet. */
  function Registers(ev: Event): set<Name>
  {
    if ev.RegisterCall? && ev.nameArg.StringArg? && ev.loadArg.FunctionArg? then {ev.nameArg.s} else {}
  }

  /** Every load in flight was started for a registered name. */
  predicate PendingRegistered(s: Loader)
  {
    forall i :: 0 <= i < |s.inflight| ==> s.inflight[i].name in s.templates
  }

  /** The machine invariant: hooks in step with the flag, and in-flight
      loads only for registered names. */
  predicate Invariant(s: Loader)
  {
    InStep(s) && PendingRegistered(s)
  }

  /** The state after one event. A rejected `register` throws before any
      mutation. A lookup that goes pending records the load it started; the
      load's outcome reaches the state only through a later `Settled` event
      naming that load. A settlement that names no load in flight, or an
      outcome an async function cannot have, is not an event that can
      happen and leaves the state as it is. */
  function Step(s: Loader, ev: Event): (r: Loader)
    ensures Advances(s.templates, r.templates)
    ensures InStep(s) ==> InStep(r)
    ensures PendingRegistered(s) ==> PendingRegistered(r)
    ensures PendingRegistered(s) ==> r.templates.Keys <= s.templates.Keys + Registers(ev)
    ensures ev.LookupCall? ==>
      && r.templates == s.templates && r.initialized == s.initialized && r.hooks == s.hooks
      && r.inflight == s.inflight + (match Lookup(s, ev.name, ev.options)
                                     case Pass => []
                                     case Pending(p) => [p])
    ensures ev.RegisterCall? ==>
      r.initialized == s.initialized && r.hooks == s.hooks && r.inflight == s.inflight
    ensures ev.RegisterCall? && Registers(ev) == {} ==> r == s
    ensures ev.RegisterCall? && Registers(ev) != {} && ev.nameArg.s !in s.templates ==>
      r.templates == s.templates[ev.nameArg.s := Unloaded(ev.loadArg.f)]
    ensures ev.RegisterCall? && Registers(ev) != {} && ev.nameArg.s in s.templates ==> r == s
    ensures ev.EnableCall? && !s.initialized ==> r.initialized && r.hooks == Installed
    ensures ev.EnableCall? && s.initialized ==> r == s
    ensures ev.DisableCall? && s.initialized ==> !r.initialized && r.hooks == Restored
    ensures ev.DisableCall? && !s.initialized ==> r == s
    ensures ev.Settled? ==> r.initialized == s.initialized && r.hooks == s.hooks
    ensures ev.Settled? && ev.index < |s.inflight| && Possible(s.inflight[ev.index].load, ev.outcome) ==>
      && |r.inflight| == |s.inflight| - 1
      && r.inflight == s.inflight[..ev.index] + s.inflight[ev.index + 1..]
      && (EventuallyFulfils(ev.outcome) ==> r.templates == MarkLoaded(s.templates, s.inflight[ev.index].name))
      && (!EventuallyFulfils(ev.outcome) ==> r.templates == s.templates)
    ensures ev.Settled? && !(ev.index < |s.inflight| && Possible(s.inflight[ev.index].load, ev.outcome)) ==>
      r == s
    ensures (ev.EnableCall? || ev.DisableCall?) ==>
      r.templates == s.templates && r.inflight == s.inflight
  {
    match ev
    case RegisterCall(name, load) =>
      (match Register(s.templates, name, load)
       case Success(m) => s.(templates := m)
       case Failure(_) => s)
    case EnableCall => Enable(s)
    case DisableCall => Disable(s)
    case LookupCall(name, options) =>
      (match Lookup(s, name, options)
       case Pass => s
       case Pending(p) => s.(inflight := s.inflight + [p]))
    case Settled(i, c) =>
      if i < |s.inflight| && Possible(s.inflight[i].load, c) then
        s.(templates := Apply(s.templates, Settle(s.inflight[i], c)),
           inflight := s.inflight[..i] + s.inflight[i + 1..])
      else s
  }

  /** The state after a sequence of events, in order. */
  function Run(s: Loader, evs: seq<Event>): Loader
    decreases |evs|
  {
    if |evs| == 0 then s else Run(Step(s, evs[0]), evs[1..])
  }

  /** The names a sequence of events registers. */
  function RegisteredNames(evs: seq<Event>): set<Name>
    decreases |evs|
  {
    if |evs| == 0 then {} else Registers(evs[0]) + RegisteredNames(evs[1..])
  }

  /** States reachable from module initialisation. */
  ghost predicate Reachable(s: Loader)
  {
    exists evs :: Run(Initial, evs) == s
  }

  /** Across any sequence of events no name is dropped from the registry and
      no entry moves backwards: a `loaded` flag never returns to false, and
      an unloaded entry keeps the load function it was registered with. */
  lemma {:induction false} RunAdvances(s: Loader, evs: seq<Event>)
    ensures Advances(s.templates, Run(s, evs).templates)
    decreases |evs|
  {
    if |evs| == 0 {
      AdvancesReflexive(s.templates);
    } else {
      var s1 := Step(s, evs[0]);
      RunAdvances(s1, evs[1..]);
      AdvancesTransitive(s.templates, s1.templates, Run(s1, evs[1..]).templates);
    }
  }

  /** Across any sequence of events the invariant is kept. */
  lemma {:induction false} RunKeepsInvariant(s: Loader, evs: seq<Event>)
    requires Invariant(s)
    ensures Invariant(Run(s, evs))
    decreases |evs|
  {
    if |evs| > 0 {
      RunKeepsInvariant(Step(s, evs[0]), evs[1..]);
    }
  }

  /** Every reachable state keeps the invariant: no half-installed hooks,
      and no load in flight for a name that is not registered. */
  lemma ReachableInvariant(s: Loader)
    requires Reachable(s)
    ensures InStep(s) && PendingRegistered(s)
  {
    var evs :| Run(Initial, evs) == s;
    RunKeepsInvariant(Initial, evs);
  }

  /** Across any sequence of events the only names that enter the registry
      are names registered by one of those events. */
  lemma {:induction false} RunKeysRegistered(s: Loader, evs: seq<Event>)
    requires PendingRegistered(s)
    ensures Run(s, evs).templates.Keys <= s.templates.Keys + RegisteredNames(evs)
    decreases |evs|
  {
    if |evs| > 0 {
      var s1 := Step(s, evs[0]);
      RunKeysRegistered(s1, evs[1..]);
    }
  }

  /** Every name in a reachable registry was registered. */
  lemma OnlyRegisteredNames(evs: seq<Event>)
    ensures Run(Initial, evs).templates.Keys <= RegisteredNames(evs)
  {
    RunKeysRegistered(Initial, evs);
  }

  /** A name enters the registry only by a valid `register` of that name,
      and it enters unloaded with that call's load function. */
  lemma NewEntriesAreUnloaded(s: Loader, ev: Event, name: Name)
    requires PendingRegistered(s)
    requires name !in s.templates && name in Step(s, ev).templates
    ensures Registers(ev) == {name}
    ensures Step(s, ev).templates[name] == Unloaded(ev.loadArg.f)
  {
  }

  /** An entry becomes loaded only by the successful settling of a load in
      flight for that very name. */
  lemma LoadedOnlyBySettling(s: Loader, ev: Event, name: Name)
    requires name in s.templates && s.templates[name].Unloaded?
    requires name in Step(s, ev).templates && Step(s, ev).templates[name].Loaded?
    ensures ev.Settled? && ev.index < |s.inflight|
    ensures s.inflight[ev.index].name == name && EventuallyFulfils(ev.outcome)
  {
  }

  /** Once loaded, always loaded. */
  lemma LoadedStaysLoaded(s: Loader, evs: seq<Event>, name: Name)
    requires name in s.templates && s.templates[name].Loaded?
    ensures name in Run(s, evs).templates && Run(s, evs).templates[name].Loaded?
  {
    RunAdvances(s, evs);
  }

  /** The first load function registered for a name is the only one any
      later lookup can invoke: whatever happens afterwards, a pending lookup
      of that name carries exactly that function. */
  lemma FirstLoadIsTheOnlyLoad(s: Loader, evs: seq<Event>, name: Name, f: LoadFn, options: Option<Options>)
    requires name in s.templates && s.templates[name] == Unloaded(f)
    ensures var d := Lookup(Run(s, evs), name, options);
      d.Pending? ==> d.request.load == f
  {
    RunAdvances(s, evs);
  }

  /** Lookups do not de-duplicate loads: two lookups of the same unloaded
      name in a row, with no settlement between them, both start the
      registered load function, and the registry is untouched. */
  lemma NoDeduplication(s: Loader, name: Name, options: Options)
    requires s.hooks.lookupSlot == Intercepting && options.template
    requires name in s.templates && s.templates[name].Unloaded?
    ensures var p := PendingLoad(name, options, s.templates[name].load);
      && var s2 := Run(s, [LookupCall(name, Some(options)), LookupCall(name, Some(options))]);
      && s2.inflight == s.inflight + [p, p]
      && s2.templates == s.templates
  {
    var ev := LookupCall(name, Some(options));
    var s1 := Step(s, ev);
    assert s1.inflight == s.inflight + [PendingLoad(name, options, s.templates[name].load)];
    assert Run(s, [ev, ev]) == Run(s1, [ev]) == Step(s1, ev);
  }

  /** Lazy loading from a freshly loaded module: before `enable` a registered
      name is resolved as if it were unregistered; after `enable` its lookup
      starts the registered function; once that load succeeds the same
      lookup passes through to the original resolver. */
  lemma LazyLoadScenario(name: string, f: LoadFn, options: Options, c: CallOutcome)
    requires options.template
    requires Possible(f, c) && EventuallyFulfils(c)
    ensures var s1 := Run(Initial, [RegisterCall(StringArg(name), FunctionArg(f))]);
      && Lookup(s1, name, Some(options)) == Pass
      && var s2 := Step(s1, EnableCall);
      && var s3 := Step(s2, LookupCall(name, Some(options)));
      && s3.inflight == [PendingLoad(name, options, f)]
      && var s4 := Step(s3, Settled(0, c));
      && s4.templates[name] == Loaded
      && s4.inflight == []
      && Lookup(s4, name, Some(options)) == Pass
  {
  }

  /** Disabling and enabling again restores full interception of a still
      unloaded name. */
  lemma ReEnableRestoresInterception(s: Loader, name: Name, options: Options)
    requires InStep(s) && s.initialized && options.template
    requires name in s.templates && s.templates[name].Unloaded?
    ensures var s' := Run(s, [DisableCall, EnableCall]);
      && s' == s
      && Lookup(Step(s, DisableCall), name, Some(options)) == Pass
      && Lookup(s', name, Some(options)) == Pending(PendingLoad(name, options, s.templates[name].load))
  {
  }
}
