/** The include interceptor installed in the include directive's slot: it
    passes plain values through, and turns a pending promise into a
    placeholder view whose reactive cell is filled once the load settles. */
module IncludeHook {
  import opened LoaderTypes
  import opened Registry
  import opened Lifecycle
  import opened LookupHook

  /** The placeholder view: its reactive cell (initially `null`), the builders
      it will hand to the real template, the lexical-scope flag, and the
      name and options the awaited promise resolves with. */
  datatype Placeholder = Placeholder(
    cell: Ref,
    content: Builder,
    elseContent: Builder,
    startsNewLexicalScope: bool,
    awaitedName: Name,
    awaitedOptions: Options)

  /** What an include call produces: the original directive applied to the
      unchanged arguments, or a placeholder view. */
  datatype Included =
    | Delegated(arg: Ref, content: Builder, elseContent: Builder)
    | Deferred(view: Placeholder)

  /** One run of the placeholder's render function. */
  datatype Rendered =
    | Nothing
    | Raise(found: Ref)
    | Construct(template: nat, content: Builder, elseContent: Builder)

  /** An include as the runtime performs it, through whatever the include
      slot holds. Only a promise reaching the intercepting include gets a
      placeholder; everything else goes to the original directive as is. */
  function Include(s: Loader, arg: Ref, content: Builder, elseContent: Builder): (r: Included)
    ensures r.Deferred? <==> s.hooks.includeSlot == Intercepting && arg.Future?
    ensures r.Delegated? ==> r == Delegated(arg, content, elseContent)
    ensures r.Deferred? ==>
      && r.view.cell == Plain(Null)
      && r.view.content == content && r.view.elseContent == elseContent
      && r.view.startsNewLexicalScope
      && r.view.awaitedName == arg.name && r.view.awaitedOptions == arg.options
  {
    if s.hooks.includeSlot == Intercepting && arg.Future? then
      Deferred(Placeholder(Plain(Null), content, elseContent, true, arg.name, arg.options))
    else
      Delegated(arg, content, elseContent)
  }

  /** The placeholder's render function: nothing while the cell holds `null`,
      the real view once it holds a template, and an error naming the value
      for anything else. */
  function Render(v: Placeholder): (r: Rendered)
    ensures r.Nothing? <==> v.cell == Plain(Null)
    ensures r.Construct? <==> v.cell.Plain? && v.cell.value.Template?
    ensures r.Construct? ==>
      r.template == v.cell.value.id && r.content == v.content && r.elseContent == v.elseContent
    ensures r.Raise? ==> r.found == v.cell
  {
    match v.cell
    case Plain(Null) => Nothing
    case Plain(Template(t)) => Construct(t, v.content, v.elseContent)
    case _ => Raise(v.cell)
  }

  /** The include continuation once the awaited promise settled in state
      `s`: if it fulfilled, the lookup of the awaited name and options is
      redone through the view and its result stored in the cell; if it
      rejected, no continuation runs and the placeholder is unchanged. */
  function Resume(v: Placeholder, s: Loader, fulfilled: bool, original: Resolver): (r: Placeholder)
    ensures r.content == v.content && r.elseContent == v.elseContent
    ensures r.startsNewLexicalScope == v.startsNewLexicalScope
    ensures r.awaitedName == v.awaitedName && r.awaitedOptions == v.awaitedOptions
    ensures !fulfilled ==> r == v
    ensures fulfilled ==> r.cell == LookupRef(s, v.awaitedName, Some(v.awaitedOptions), original)
    ensures fulfilled && v.awaitedName in s.templates && s.templates[v.awaitedName].Loaded? ==>
      r.cell == Plain(original(v.awaitedName, Some(v.awaitedOptions)))
  {
    if fulfilled then v.(cell := LookupRef(s, v.awaitedName, Some(v.awaitedOptions), original))
    else v
  }

  /** A fresh placeholder renders nothing. */
  lemma FreshPlaceholderRendersNothing(s: Loader, name: Name, options: Options, content: Builder, elseContent: Builder)
    requires s.hooks.includeSlot == Intercepting
    ensures var r := Include(s, Future(name, options), content, elseContent);
      r.Deferred? && Render(r.view) == Nothing
  {
  }

  /** A lazily loaded template, end to end: the intercepted lookup of an
      unloaded name yields a promise, include turns it into a placeholder,
      and once the load succeeds the redone lookup passes through, so the
      placeholder renders exactly what the original resolver resolves. */
  lemma LazyIncludeRenders(s: Loader, name: Name, options: Options, c: CallOutcome, content: Builder, elseContent: Builder, original: Resolver)
    requires InStep(s) && s.initialized
    requires name in s.templates && s.templates[name].Unloaded?
    requires options.template
    requires Possible(s.templates[name].load, c) && EventuallyFulfils(c)
    ensures var d := Lookup(s, name, Some(options));
      && d.Pending?
      && var inc := Include(s, LookupRef(s, name, Some(options), original), content, elseContent);
      && inc.Deferred?
      && var e := Settle(d.request, c);
      && var s' := s.(templates := Apply(s.templates, e));
      && var out := Render(Resume(inc.view, s', e.LoadSucceeded?, original));
      && match original(name, Some(options))
         case Null => out == Nothing
         case Template(t) => out == Construct(t, content, elseContent)
         case NonTemplate(_) => out == Raise(Plain(original(name, Some(options))))
  {
    var d := Lookup(s, name, Some(options));
    var e := Settle(d.request, c);
    var s' := s.(templates := Apply(s.templates, e));
    assert s'.templates[name] == Loaded;
  }

  /** A failed load leaves the placeholder empty: it keeps rendering
      nothing, and the entry stays unloaded. */
  lemma FailedLoadRendersNothing(s: Loader, name: Name, options: Options, c: CallOutcome, content: Builder, elseContent: Builder, original: Resolver)
    requires InStep(s) && s.initialized
    requires name in s.templates && s.templates[name].Unloaded?
    requires options.template
    requires Possible(s.templates[name].load, c) && !EventuallyFulfils(c)
    ensures var d := Lookup(s, name, Some(options));
      && d.Pending?
      && var inc := Include(s, LookupRef(s, name, Some(options), original), content, elseContent);
      && inc.Deferred?
      && var e := Settle(d.request, c);
      && var s' := s.(templates := Apply(s.templates, e));
      && Render(Resume(inc.view, s', e.LoadSucceeded?, original)) == Nothing
      && s'.templates[name] == s.templates[name]
  {
  }

  /** A plain value reaches the original include directive unchanged,
      whether or not the loader is installed. */
  lemma PlainValueDelegated(s: Loader, v: Value, content: Builder, elseContent: Builder)
    ensures Include(s, Plain(v), content, elseContent) == Delegated(Plain(v), content, elseContent)
  {
  }
}
