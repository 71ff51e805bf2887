/** Values shared by every part of the template loader: template names, the
    caller-supplied load functions, lookup options, and what the rendering
    runtime's resolver hands back. The runtime itself is opaque; only the
    distinctions the loader branches on are kept. */
module LoaderTypes {

  /** A template name, the key of the registry. */
  type Name = string

  /** Content and else builders passed through the include directive; opaque. */
  type Builder = nat

  datatype Option<+T> = None | Some(value: T)

  datatype Result<+T, +E> = Success(value: T) | Failure(error: E)

  /** Whether a load function is declared `async` (an `AsyncFunction`) or is
      an ordinary function. */
  datatype LoadStyle = Sync | Async

  /** A caller-supplied load function. Its body is never interpreted: `id`
      only tells two functions apart. */
  datatype LoadFn = LoadFn(id: nat, style: LoadStyle)

  /** A dynamically typed argument of `register`, reduced to what the two
      argument checks distinguish: a string, a function, anything else. */
  datatype Arg = StringArg(s: string) | FunctionArg(f: LoadFn) | OtherArg(tag: nat)

  /** The options object of a lookup. `template` is the truthiness of
      `options.template`; `rest` stands for every other field and is only
      carried along. A missing options object is `None`. */
  datatype Options = Options(template: bool, rest: nat)

  /** What the runtime's original resolver may return: `null`, a template,
      or any other value (a helper, `undefined`, ...). */
  datatype Value = Null | Template(id: nat) | NonTemplate(id: nat)

  /** What a lookup hands to the include directive: either a plain value from
      the original resolver, or a promise that resolves to the name and
      options needed to redo the lookup. */
  datatype Ref = Plain(value: Value) | Future(name: Name, options: Options)

  /** A load started by an intercepted lookup and not yet settled: the name
      and options its promise will resolve with, and the load function the
      lookup invoked. */
  datatype PendingLoad = PendingLoad(name: Name, options: Options, load: LoadFn)

  /** The runtime's original name resolver, treated as an uninterpreted
      function of the name and the options. */
  type Resolver = (Name, Option<Options>) -> Value
}
