# Template loader, modelled in Dafny

A model of the Meteor package `jkuester:template-loader`, which lets Blaze
templates be registered under a name together with a load function and
imported only when the runtime first looks the name up. The package hooks two
places of the rendering runtime: the view's `lookup` (name resolution) and
Spacebars' `include` directive. An intercepted lookup of a registered,
not yet loaded template starts its load and returns a promise instead of a
template; the intercepted include recognises that promise, returns a
placeholder view at once, and when the promise resolves redoes the lookup
(which now passes through) and stores the template in the placeholder's
reactive cell.

The model is functional: an immutable `Loader` record (registry, the
`initialized` flag, and the two hook slots) with pure transition functions.

- `LoaderTypes` (`loader_types.dfy`): names, load functions (an opaque id
  plus the sync/async tag), `register`'s dynamically typed arguments, lookup
  options, resolver values, `Ref`, the plain-value-or-promise a lookup
  hands to `include`, and `PendingLoad`, a load started and not yet settled.
- `Registry` (`registry.dfy`): the `templateMap`, `register`, and the
  success continuation's mark-loaded write; `Advances` says an entry only
  ever moves from unloaded to loaded.
- `Lifecycle` (`lifecycle.dfy`): the `Loader` state (registry, flag, hook
  slots, loads in flight), the two installers,
  `enable`, `disable`, `initialized`; `InStep` says both slots are replaced
  exactly when the flag is set.
- `LookupHook` (`lookup_hook.dfy`): the lookup decision as a tagged union
  `Pass | Pending(request)`, the value the runtime receives, the promise the
  interceptor builds around a load call (the async function's own promise,
  or a `new Promise` executor around a plain function), and its settling as
  `LoadSucceeded` / `LoadFailed`.
- `IncludeHook` (`include_hook.dfy`): the include decision, the placeholder
  view with its cell, the continuation that fills the cell, and the three-way
  render step.
- `LoaderMachine` (`loader_machine.dfy`): `register`, `enable`, `disable`,
  intercepted lookups and load settlements as one event-driven state machine
  whose state records the loads in flight, with properties over arbitrary
  event sequences. The include interceptor and its placeholders are not
  events of this machine; `IncludeHook`'s lemmas compose them with the
  lookup and settlement steps directly.

The original resolver is a function parameter `Resolver` of the name and the
options; the original include directive is represented by the arguments it
is delegated (`Delegated`). The promise machinery is replaced by explicit
events: a pending lookup records the load it started, and a later `Settled`
event names one of the loads in flight and the way its call ended. The argument check of `register` only demands a string,
so the empty string is accepted as a name; the model follows that.

## Model

| member | source | states |
|---|---|---|
| Registry.Register | template-loader.js:26-35 | a non-string name fails first, then a non-function load, neither touching the map; an absent name gains exactly an unloaded entry with that load and no other entry changes; a present name leaves the whole map unchanged |
| Registry.FirstRegistrationWins | template-loader.js:30-32 | registering a name a second time with any load function changes nothing, so the entry keeps the first load function |
| Registry.MarkLoaded | template-loader.js:94 | after a successful load the entry is exactly the loaded marker (load dropped), every other entry is kept, and nothing moves backwards |
| Lifecycle.InstallLookup | template-loader.js:72-100 | the lookup installer replaces only the lookup slot and always reports success |
| Lifecycle.InstallInclude | template-loader.js:105-142 | the include installer replaces only the include slot and always reports success |
| Lifecycle.Enable | template-loader.js:41-47 | from the disabled state both hooks end up installed and the flag set; when already initialized nothing changes; the registry is never touched; hooks stay in step with the flag |
| Lifecycle.Disable | template-loader.js:60-67 | when initialized both original hooks are restored and the flag cleared; otherwise nothing changes; the registry is never touched |
| Lifecycle.Initialized | template-loader.js:53 | the reported flag is true exactly when both interceptors are installed and false exactly when both originals are in place |
| Lifecycle.EnableDisableIdempotent | template-loader.js:41-67 | enabling twice equals enabling once, disabling twice equals disabling once |
| Lifecycle.EnableDisableInverse | template-loader.js:41-67 | from a consistent state disable undoes enable and enable undoes disable |
| LookupHook.Intercept | template-loader.js:78-97 | the intercepted lookup passes through exactly when the options are missing or not asking for a template, the name is unregistered, or its entry is loaded; otherwise it is pending on that name, those options and the registered load function |
| LookupHook.Lookup | template-loader.js:78-86 | with the original lookup in place nothing is intercepted; with the interceptor installed the decision is exactly the interceptor's, so a pending lookup always had template options and a registered unloaded name, and carries its registered load function |
| LookupHook.LookupRef | template-loader.js:78-96 | a pass yields the original resolver's value for the same name and options; a pending lookup yields a promise of the same name and options |
| LookupHook.LoadPromise | template-loader.js:88-91 | an async load's own promise, or the executor promise around a plain load (a throw rejects, a value fulfils, a returned promise is adopted), fulfils exactly when the call's eventual value is a success |
| LookupHook.Settle | template-loader.js:88-96 | a pending load succeeds exactly when its call's eventual value fulfils, and then resolves with the lookup's name and options; otherwise it fails for that name |
| LookupHook.Apply | template-loader.js:93-96 | a successful load adds or marks only its own name as loaded, a failed one leaves the registry unchanged; no other entry changes and nothing moves backwards |
| LookupHook.SettlementIgnoresStyle | template-loader.js:88-91 | the settlement does not depend on the sync/async style, and a throw or a rejecting returned promise always gives a failure rather than a thrown error |
| LookupHook.PassAfterSuccess | template-loader.js:83-96 | after a load whose eventual value fulfils the same lookup passes through and yields the original resolver's value |
| LookupHook.RetryAfterFailure | template-loader.js:88-96 | after a load whose eventual value does not fulfil the entry stays unloaded and the same lookup starts the same load again |
| LookupHook.UnregisteredPassesThrough | template-loader.js:83-86 | an unregistered name resolves to the original resolver's value whether or not the loader is enabled |
| IncludeHook.Include | template-loader.js:111-139 | a placeholder is built exactly when the installed include receives a promise; otherwise the original directive gets the unchanged arguments; a placeholder starts with a null cell, keeps both builders and the promise's name and options, and starts a new lexical scope |
| IncludeHook.Render | template-loader.js:117-128 | the placeholder renders nothing exactly when its cell is null, constructs the view with both builders exactly when the cell holds a template, and raises an error naming the cell's value otherwise |
| IncludeHook.Resume | template-loader.js:133-136 | when its own promise fulfils the cell is set to the lookup redone with the awaited name and options, which for a loaded name is the original resolver's value; when it rejects the placeholder is unchanged |
| IncludeHook.FreshPlaceholderRendersNothing | template-loader.js:116-121 | a placeholder built for a promise renders nothing until it is filled |
| IncludeHook.LazyIncludeRenders | template-loader.js:111-136 | lookup, include, successful load and continuation together render what the original resolver resolves: nothing for null, the template's view, or an error for any other value |
| IncludeHook.FailedLoadRendersNothing | template-loader.js:133-136 | after a failed load the placeholder still renders nothing and the entry stays unloaded |
| IncludeHook.PlainValueDelegated | template-loader.js:112-114 | a plain value always reaches the original include directive unchanged |
| LoaderMachine.Step | template-loader.js:26-96 | a valid register of an absent name adds exactly that name unloaded with its load function, of a present name or with a bad argument changes nothing; enable from disabled sets the flag and installs both hooks, disable from enabled clears it and restores both, each otherwise changes nothing; a pending lookup appends exactly its load and changes nothing else; a settlement consumes exactly its load and marks that name loaded when the call's eventual value fulfils, leaving the registry unchanged otherwise; every event keeps the registry advancing and the hooks in step with the flag, and when every load in flight is for a registered name that stays so and only a valid register adds a key |
| LoaderMachine.RunAdvances | template-loader.js:30-94 | over any event sequence no name is removed and every entry either stays as it was or becomes loaded |
| LoaderMachine.RunKeepsInvariant | template-loader.js:41-96 | over any event sequence the hook slots stay in step with the flag and every load in flight is for a registered name |
| LoaderMachine.ReachableInvariant | template-loader.js:10-96 | every state reachable from module initialisation has both hooks installed or both original, matching the flag, and loads in flight only for registered names |
| LoaderMachine.RunKeysRegistered | template-loader.js:30-94 | over any event sequence the registry gains only names that one of the events registered |
| LoaderMachine.OnlyRegisteredNames | template-loader.js:12-94 | every name in a reachable registry was registered |
| LoaderMachine.NewEntriesAreUnloaded | template-loader.js:30-32 | a name enters the registry only through a valid register of that name, and enters unloaded with that call's load function |
| LoaderMachine.LoadedOnlyBySettling | template-loader.js:93-95 | an entry becomes loaded only when a load in flight for that very name settles with a fulfilling value |
| LoaderMachine.LoadedStaysLoaded | template-loader.js:93-95 | a loaded entry is still loaded after any event sequence |
| LoaderMachine.FirstLoadIsTheOnlyLoad | template-loader.js:30-91 | once a name is registered with a load function, every later pending lookup of it invokes exactly that function |
| LoaderMachine.NoDeduplication | template-loader.js:88-96 | two lookups of the same unloaded name in a row both start the registered load function, so two loads are in flight, and the registry is untouched |
| LoaderMachine.LazyLoadScenario | template-loader.js:26-96 | a registered name passes through before enable; after enable its lookup starts its load function; once that load settles successfully the name is loaded, nothing is in flight and the lookup passes through |
| LoaderMachine.ReEnableRestoresInterception | template-loader.js:41-86 | disable then enable returns to the same state, the lookup passes through while disabled and is intercepted again afterwards |

## Left out

- `package.js`: package metadata only, no behaviour.
- Promise scheduling, the event loop and `.then` continuations: a load's outcome is an explicit `Settled` event; the include continuation (`Resume`) is applied to the state after that event, which matches the order of the two chained `.then` callbacks.
- Blaze view construction, `ReactiveVar` invalidation and re-rendering, `constructView`: only the cell's value and the three-way render decision are kept; `Construct` names the template and builders the view would be built from.
- The type sniffing by `Object.prototype.toString` (`isPromise`, `isAsyncFn`): replaced by explicit tags, `LoadStyle` on load functions and `Plain` / `Future` on lookup results.
- The bodies of the original lookup, the original include and the load functions: uninterpreted; the original resolver is a parameter that sees only the name and the options, not the view it is called on.
- The unhandled rejection of a failed load: the model keeps only its effect, the cell stays null and the entry stays unloaded.
- The text of the render error: `Raise` carries the offending value instead of the formatted message.
- The returned `this` of `register`, `enable` and `disable` (chaining) and the `__templateVar` field of the placeholder view.
- Promise identity: a `Settled` event names a load in flight by its position. An event that names no load in flight, or gives an async function an outcome other than a promise, cannot happen and leaves the state unchanged.
- Placeholders are not part of the machine state: a placeholder waits on its own promise, and `Resume` receives only whether that promise fulfilled.
- A plain load function that returns a thenable other than a native promise is treated like one returning a promise, which is how `resolve` adopts it.
- `options.template` is reduced to its truthiness and the rest of the options object to an opaque value.
