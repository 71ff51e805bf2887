/** The registry: a map from template name to its load state, written by
    `register` and by the success continuation of an intercepted lookup. */
module Registry {
  import opened LoaderTypes

  /** `Unloaded(load)` is the stored `{load, loaded: false}`; `Loaded` is the
      `{loaded: true}` marker that replaces it once loading succeeded, with the
      load function dropped. */
  datatype Entry = Unloaded(load: LoadFn) | Loaded

  type TemplateMap = map<Name, Entry>

  /** The two argument checks of `register`, in the order they run. */
  datatype RegisterError = NameNotString | LoadNotFunction

  /** An entry only moves forward: it stays as it is or becomes `Loaded`. */
  predicate EntryAdvances(e: Entry, e': Entry)
  {
    e' == e || e' == Loaded
  }

  /** No name is removed and no entry moves backwards from `m` to `m'`. */
  predicate Advances(m: TemplateMap, m': TemplateMap)
  {
    forall n :: n in m ==> n in m' && EntryAdvances(m[n], m'[n])
  }

  /** `register(template, load)`: both arguments are checked before anything
      is touched; an absent name gets an unloaded entry, a present name is
      left alone, so the first registration wins. */
  function Register(m: TemplateMap, name: Arg, load: Arg): (r: Result<TemplateMap, RegisterError>)
    ensures !name.StringArg? ==> r == Failure(NameNotString)
    ensures name.StringArg? && !load.FunctionArg? ==> r == Failure(LoadNotFunction)
    ensures r.Success? <==> name.StringArg? && load.FunctionArg?
    ensures r.Success? && name.s in m ==> r.value == m
    ensures r.Success? && name.s !in m ==>
      && r.value.Keys == m.Keys + {name.s}
      && r.value[name.s] == Unloaded(load.f)
      && forall n :: n in m ==> r.value[n] == m[n]
    ensures r.Success? ==> Advances(m, r.value)
  {
    if !name.StringArg? then Failure(NameNotString)
    else if !load.FunctionArg? then Failure(LoadNotFunction)
    else if name.s in m then Success(m)
    else Success(m[name.s := Unloaded(load.f)])
  }

  /** The success continuation's `templateMap.set(name, {loaded: true})`. */
  function MarkLoaded(m: TemplateMap, name: Name): (r: TemplateMap)
    ensures r.Keys == m.Keys + {name}
    ensures r[name] == Loaded
    ensures forall n :: n in m && n != name ==> r[n] == m[n]
    ensures Advances(m, r)
  {
    m[name := Loaded]
  }

  /** Registering the same name again, with any load function, changes
      nothing: the first load function is the one kept. */
  lemma FirstRegistrationWins(m: TemplateMap, name: string, first: LoadFn, second: LoadFn)
    ensures Register(m, StringArg(name), FunctionArg(first)).Success?
    ensures var m1 := Register(m, StringArg(name), FunctionArg(first)).value;
      && Register(m1, StringArg(name), FunctionArg(second)) == Success(m1)
      && m1[name] == (if name in m then m[name] else Unloaded(first))
  {
  }

  /** `Advances` is a preorder, so it can be chained across a sequence of
      operations. */
  lemma AdvancesReflexive(m: TemplateMap)
    ensures Advances(m, m)
  {
  }

  lemma AdvancesTransitive(m1: TemplateMap, m2: TemplateMap, m3: TemplateMap)
    requires Advances(m1, m2) && Advances(m2, m3)
    ensures Advances(m1, m3)
  {
  }
}
