/** The lookup interceptor installed in the view's `lookup` slot, and the
    settling of the load promise it starts. */
module LookupHook {
  import opened LoaderTypes
  import opened Registry
  import opened Lifecycle

  /** What a lookup decides: delegate to the original resolver, or start the
      load recorded in `request` and hand back a promise of its name and
      options. */
  datatype Decision = Pass | Pending(request: PendingLoad)

  /** The intercepting lookup's dispatch. It delegates when the options are
      missing or not asking for a template, when the name is unregistered,
      and when its entry is loaded; otherwise it invokes the entry's load
      function. It never writes the registry itself. */
  function Intercept(m: TemplateMap, name: Name, options: Option<Options>): (d: Decision)
    ensures d.Pass? <==>
      || options.None?
      || !options.value.template
      || name !in m
      || m[name].Loaded?
    ensures d.Pending? ==>
      && options.Some?
      && d.request == PendingLoad(name, options.value, m[name].load)
  {
    if options.None? || !options.value.template then Pass
    else if name !in m || m[name].Loaded? then Pass
    else Pending(PendingLoad(name, options.value, m[name].load))
  }

  /** A lookup as the runtime performs it: through whatever the lookup slot
      holds. With the original resolver in place nothing is intercepted. */
  function Lookup(s: Loader, name: Name, options: Option<Options>): (d: Decision)
    ensures s.hooks.lookupSlot == Original ==> d == Pass
    ensures s.hooks.lookupSlot == Intercepting ==> d == Intercept(s.templates, name, options)
    ensures d.Pending? ==>
      && s.hooks.lookupSlot == Intercepting
      && options.Some? && options.value.template
      && name in s.templates
      && d.request == PendingLoad(name, options.value, s.templates[name].load)
  {
    match s.hooks.lookupSlot
    case Original => Pass
    case Intercepting => Intercept(s.templates, name, options)
  }

  /** The value the runtime receives from a lookup: the original resolver's
      result on a pass, the pending promise otherwise. */
  function LookupRef(s: Loader, name: Name, options: Option<Options>, original: Resolver): (r: Ref)
    ensures r.Plain? <==> Lookup(s, name, options).Pass?
    ensures r.Plain? ==> r.value == original(name, options)
    ensures r.Future? ==> Some(r.options) == options && r.name == name
  {
    match Lookup(s, name, options)
    case Pass => Plain(original(name, options))
    case Pending(p) => Future(p.name, p.options)
  }

  /** How a call `load()` ends for its caller: it throws, it returns a plain
      value, or it returns a promise that eventually fulfils or rejects. */
  datatype CallOutcome = Throws | ReturnsValue | ReturnsPromise(fulfils: bool)

  /** Calling an async function never throws and never returns a bare value:
      its body runs inside the promise it returns, so every outcome of such
      a call is a promise. */
  predicate Possible(f: LoadFn, c: CallOutcome)
  {
    f.style == Async ==> c.ReturnsPromise?
  }

  /** Whether the value a call eventually produces is a success: a plain
      return value is, a promise is when it fulfils, a throw never is. */
  predicate EventuallyFulfils(c: CallOutcome)
  {
    c.ReturnsValue? || (c.ReturnsPromise? && c.fulfils)
  }

  /** Whether the promise the interceptor builds around a load call fulfils.
      For an async function it is the function's own promise. For any other
      function it is `new Promise(resolve => resolve(load()))`: a throw in the
      executor rejects it, a plain value fulfils it, and a returned promise
      is adopted, so it fulfils or rejects with that promise. Whatever the
      style, it fulfils exactly when the call's eventual value does. */
  function LoadPromise(f: LoadFn, c: CallOutcome): (fulfilled: bool)
    requires Possible(f, c)
    ensures fulfilled <==> EventuallyFulfils(c)
  {
    match f.style
    case Async => c.fulfils
    case Sync =>
      match c
      case Throws => false
      case ReturnsValue => true
      case ReturnsPromise(ok) => ok
  }

  /** The settling of the promise a pending lookup returned. */
  datatype Settlement = LoadSucceeded(name: Name, options: Options) | LoadFailed(name: Name)

  /** The settlement of a pending load: on fulfilment the first `.then`
      runs and the promise resolves with the lookup's name and options; on
      rejection it rejects and no handler runs. */
  function Settle(p: PendingLoad, c: CallOutcome): (e: Settlement)
    requires Possible(p.load, c)
    ensures e.name == p.name
    ensures e.LoadSucceeded? <==> EventuallyFulfils(c)
    ensures e.LoadSucceeded? ==> e.options == p.options
  {
    if LoadPromise(p.load, c) then LoadSucceeded(p.name, p.options) else LoadFailed(p.name)
  }

  /** The registry after the promise settled: marked loaded on success (the
      first `.then`), untouched on failure. */
  function Apply(m: TemplateMap, e: Settlement): (r: TemplateMap)
    ensures r.Keys == (if e.LoadSucceeded? then m.Keys + {e.name} else m.Keys)
    ensures e.LoadFailed? ==> r == m
    ensures e.LoadSucceeded? ==> r[e.name] == Loaded
    ensures forall n :: n in m && n != e.name ==> r[n] == m[n]
    ensures Advances(m, r)
  {
    match e
    case LoadSucceeded(name, _) => MarkLoaded(m, name)
    case LoadFailed(_) => m
  }

  /** A plain (non-async) load function that throws, or that returns a
      promise which rejects, still yields a rejected promise and not a
      thrown error; an async function with a rejecting promise likewise.
      Only the eventual value decides, not the style. */
  lemma SettlementIgnoresStyle(p: PendingLoad, c: CallOutcome)
    requires Possible(p.load, c)
    ensures Possible(p.load.(style := Sync), c)
    ensures Settle(p.(load := p.load.(style := Sync)), c) == Settle(p, c)
    ensures c == Throws || c == ReturnsPromise(false) ==> Settle(p, c) == LoadFailed(p.name)
  {
  }

  /** After a successful load the same lookup passes through, so the
      resolution redone by the include continuation reaches the original
      resolver with the original name and options. */
  lemma PassAfterSuccess(s: Loader, name: Name, options: Options, c: CallOutcome, original: Resolver)
    requires name in s.templates && s.templates[name].Unloaded?
    requires s.hooks.lookupSlot == Intercepting && options.template
    requires Possible(s.templates[name].load, c) && EventuallyFulfils(c)
    ensures var d := Lookup(s, name, Some(options));
      && d.Pending?
      && var s' := s.(templates := Apply(s.templates, Settle(d.request, c)));
      && Lookup(s', name, Some(options)) == Pass
      && LookupRef(s', name, Some(options), original) == Plain(original(name, Some(options)))
  {
  }

  /** After a failed load the entry is still unloaded, so the next lookup
      starts the same load again. */
  lemma RetryAfterFailure(s: Loader, name: Name, options: Options, c: CallOutcome)
    requires name in s.templates && s.templates[name].Unloaded?
    requires s.hooks.lookupSlot == Intercepting && options.template
    requires Possible(s.templates[name].load, c) && !EventuallyFulfils(c)
    ensures var d := Lookup(s, name, Some(options));
      && d.Pending?
      && var s' := s.(templates := Apply(s.templates, Settle(d.request, c)));
      && Lookup(s', name, Some(options)) == d
  {
  }

  /** A name that was never registered is resolved by the original resolver
      whether or not the loader is installed. */
  lemma UnregisteredPassesThrough(s: Loader, name: Name, options: Option<Options>, original: Resolver)
    requires name !in s.templates
    ensures LookupRef(s, name, options, original) == Plain(original(name, options))
  {
  }
}
