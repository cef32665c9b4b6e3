/** The endpoint builder of lib/routing.ts (MakeEndpoints): the route tree
    is walked depth first; every page becomes an endpoint carrying its path
    pattern, its parameter names, the identifiers of its layouts (outermost
    first) and of its module, and the methods the module exports. Module
    identifiers come from the shared import table. */
module Endpoints {
  import opened Text
  import opened Walker
  import opened PageRegex
  import opened ImportTable
  import opened Exports

  /** The error renderer of an endpoint: `defaultError` (a paragraph with
      the error message) or the `(_) => ''` of an index page. */
  datatype ErrorPage = DefaultError | EmptyError

  datatype Endpoint = Endpoint(
    pattern: string,
    parameters: seq<string>,
    error: ErrorPage,
    layouts: seq<string>,
    literal: string,
    moduleId: string,
    methods: seq<string>,
    hasDefaultExport: bool)

  const LayoutPrefix: string := "__LAYOUT__"
  const PagePrefix: string := "__PAGE__"

  /** `!root.isDir && root.subroutes == null`: a page file of the walk. */
  predicate IsLeaf(r: Route) {
    r.isDir != Some(true) && r.subroutes.Null?
  }

  /** The layout chain of a route, from the chain it inherits: its layout is
      registered in the table (and written back); a nested layout is added
      innermost, an override layout replaces the whole chain. */
  function Chain(t: Table, r: Route, layouts: seq<string>): (res: (seq<string>, Table))
    ensures r.layout.None? ==> res == (layouts, t)
    ensures r.layout.Some? ==>
      var (id, t') := GetSet(t, r.layout.value.path, LayoutPrefix);
      && res.1 == t'
      && res.0 == (if r.layout.value.kind == Nested then layouts + [id] else [id])
  {
    if r.layout.Some? then
      var (id, t1) := GetSet(t, r.layout.value.path, LayoutPrefix);
      AssignReturned(t, r.layout.value.path, LayoutPrefix);
      var t2 := Assign(t1, r.layout.value.path, id);
      (if r.layout.value.kind == Nested then layouts + [id] else [id], t2)
    else (layouts, t)
  }

  /** The endpoint of a page module at `path` serving the route `name`. */
  function Page(t: Table, name: string, path: string, layouts: seq<string>, error: ErrorPage,
                exportsOf: string -> seq<string>): (Endpoint, Table)
  {
    var (id, t1) := GetSet(t, path, PagePrefix);
    var d := Discover(exportsOf(path));
    (Endpoint(ReplaceTokens(name), TokenNames(name), error, layouts, name, id, d.methods, d.hasDefaultExport), t1)
  }

  /** MakeEndpoints on a route: the endpoints it yields, and the table
      after it. */
  function Compile(t: Table, r: Route, layouts: seq<string>, exportsOf: string -> seq<string>): (seq<Endpoint>, Table)
    decreases r, 2
  {
    var (chain, t1) := Chain(t, r, layouts);
    if IsLeaf(r) then
      var (e, t2) := Page(t1, r.name, r.path, chain, DefaultError, exportsOf);
      ([e], t2)
    else Directory(t1, r, chain, exportsOf)
  }

  /** The endpoints of a directory route once its chain is computed: its
      index page, if any, then those of its subroutes in order. */
  function Directory(t: Table, r: Route, chain: seq<string>, exportsOf: string -> seq<string>): (seq<Endpoint>, Table)
    decreases r, 1
  {
    var (first, t1) := IndexPage(t, r, chain, exportsOf);
    var (rest, t2) :=
      if r.subroutes.List? then CompileList(t1, r.subroutes.value, |r.subroutes.value|, chain, exportsOf)
      else ([], t1);
    (first + rest, t2)
  }

  /** The endpoint of a directory's index page, if it has one. */
  function IndexPage(t: Table, r: Route, chain: seq<string>, exportsOf: string -> seq<string>): (seq<Endpoint>, Table) {
    if r.defaultPath.Some? then
      var (e, t1) := Page(t, r.name, r.defaultPath.value, chain, EmptyError, exportsOf);
      ([e], t1)
    else ([], t)
  }

  /** The endpoints of the first `n` subroutes, in order, each compiled with
      the same inherited chain. */
  function CompileList(t: Table, subs: seq<Route>, n: nat, layouts: seq<string>,
                       exportsOf: string -> seq<string>): (seq<Endpoint>, Table)
    requires n <= |subs|
    decreases subs, n
  {
    if n == 0 then ([], t)
    else
      var (es, t1) := CompileList(t, subs, n - 1, layouts, exportsOf);
      var (more, t2) := Compile(t1, subs[n - 1], layouts, exportsOf);
      (es + more, t2)
  }

  /** The number of pages of a route: one for a page file, and for a
      directory its index page, if any, and the pages of its subroutes. */
  function PageCount(r: Route): nat
    decreases r, 1
  {
    if IsLeaf(r) then 1
    else
      (if r.defaultPath.Some? then 1 else 0)
      + (if r.subroutes.List? then PageCountList(r.subroutes.value, |r.subroutes.value|) else 0)
  }

  function PageCountList(subs: seq<Route>, n: nat): nat
    requires n <= |subs|
    decreases subs, n
  {
    if n == 0 then 0 else PageCountList(subs, n - 1) + PageCount(subs[n - 1])
  }

  /** Exactly one endpoint per page. */
  lemma {:induction false} CompileCount(t: Table, r: Route, layouts: seq<string>, exportsOf: string -> seq<string>)
    ensures |Compile(t, r, layouts, exportsOf).0| == PageCount(r)
    decreases r, 2
  {
    if !IsLeaf(r) {
      var (chain, t1) := Chain(t, r, layouts);
      DirectoryCount(t1, r, chain, exportsOf);
    }
  }

  lemma {:induction false} DirectoryCount(t: Table, r: Route, chain: seq<string>, exportsOf: string -> seq<string>)
    requires !IsLeaf(r)
    ensures |Directory(t, r, chain, exportsOf).0| == PageCount(r)
    decreases r, 1
  {
    if r.subroutes.List? {
      var t1 := IndexPage(t, r, chain, exportsOf).1;
      CompileListCount(t1, r.subroutes.value, |r.subroutes.value|, chain, exportsOf);
    }
  }

  lemma {:induction false} CompileListCount(t: Table, subs: seq<Route>, n: nat, layouts: seq<string>,
                                            exportsOf: string -> seq<string>)
    requires n <= |subs|
    ensures |CompileList(t, subs, n, layouts, exportsOf).0| == PageCountList(subs, n)
    decreases subs, n
  {
    if n > 0 {
      CompileListCount(t, subs, n - 1, layouts, exportsOf);
      var t1 := CompileList(t, subs, n - 1, layouts, exportsOf).1;
      CompileCount(t1, subs[n - 1], layouts, exportsOf);
    }
  }

  /** A page file yields exactly one endpoint, without recursing: its
      literal is the route name, its pattern and parameters those of the
      name, its module the identifier of its own path, its layouts the
      computed chain, its error renderer the default one, and its methods
      and default-export flag those its module's exports give. */
  lemma LeafEndpoint(t: Table, r: Route, layouts: seq<string>, exportsOf: string -> seq<string>)
    requires IsLeaf(r)
    ensures var (es, t') := Compile(t, r, layouts, exportsOf);
      var (chain, t1) := Chain(t, r, layouts);
      && |es| == 1
      && es[0].literal == r.name
      && es[0].pattern == ReplaceTokens(r.name) && es[0].parameters == TokenNames(r.name)
      && es[0].layouts == chain
      && es[0].error == DefaultError
      && r.path in t'.ids && es[0].moduleId == t'.ids[r.path]
      && es[0].methods == Discover(exportsOf(r.path)).methods
      && es[0].hasDefaultExport == Discover(exportsOf(r.path)).hasDefaultExport
  {
    var (chain, t1) := Chain(t, r, layouts);
    if r.layout.Some? {
      GetSetWellFormed(t, r.layout.value.path, LayoutPrefix);
    }
    GetSetWellFormed(t1, r.path, PagePrefix);
  }

  /** Every identifier of the table starts with `_`, as all the prefixes
      the compiler uses do. */
  predicate Underscored(t: Table) {
    forall p :: p in t.ids ==> |t.ids[p]| > 0 && t.ids[p][0] == '_'
  }

  /** The table only grows: compiling keeps a consistent table consistent,
      never changes an identifier already given, and only adds identifiers
      that start with `_`. */
  lemma {:induction false} CompileExtends(t: Table, r: Route, layouts: seq<string>, exportsOf: string -> seq<string>)
    ensures var t' := Compile(t, r, layouts, exportsOf).1;
      (WellFormed(t) ==> WellFormed(t')) && Extends(t, t') && (Underscored(t) ==> Underscored(t'))
    decreases r, 2
  {
    var (chain, t1) := Chain(t, r, layouts);
    ChainExtends(t, r, layouts);
    if IsLeaf(r) {
      PageExtends(t1, r.name, r.path, chain, DefaultError, exportsOf);
    } else {
      DirectoryExtends(t1, r, chain, exportsOf);
    }
    ExtendsTrans(t, t1, Compile(t, r, layouts, exportsOf).1);
  }

  lemma {:induction false} DirectoryExtends(t: Table, r: Route, chain: seq<string>, exportsOf: string -> seq<string>)
    ensures var t' := Directory(t, r, chain, exportsOf).1;
      (WellFormed(t) ==> WellFormed(t')) && Extends(t, t') && (Underscored(t) ==> Underscored(t'))
    decreases r, 1
  {
    var t1 := IndexPage(t, r, chain, exportsOf).1;
    if r.defaultPath.Some? {
      PageExtends(t, r.name, r.defaultPath.value, chain, EmptyError, exportsOf);
    }
    if r.subroutes.List? {
      CompileListExtends(t1, r.subroutes.value, |r.subroutes.value|, chain, exportsOf);
      ExtendsTrans(t, t1, Directory(t, r, chain, exportsOf).1);
    }
  }

  lemma ExtendsTrans(t1: Table, t2: Table, t3: Table)
    requires Extends(t1, t2) && Extends(t2, t3)
    ensures Extends(t1, t3)
  {
  }

  /** Registering a route's layout extends the table. */
  lemma ChainExtends(t: Table, r: Route, layouts: seq<string>)
    ensures var t' := Chain(t, r, layouts).1;
      (WellFormed(t) ==> WellFormed(t')) && Extends(t, t') && (Underscored(t) ==> Underscored(t'))
  {
    if r.layout.Some? {
      GetSetWellFormed(t, r.layout.value.path, LayoutPrefix);
    }
  }

  /** Registering a page module extends the table. */
  lemma PageExtends(t: Table, name: string, path: string, layouts: seq<string>, error: ErrorPage,
                    exportsOf: string -> seq<string>)
    ensures var t' := Page(t, name, path, layouts, error, exportsOf).1;
      (WellFormed(t) ==> WellFormed(t')) && Extends(t, t') && (Underscored(t) ==> Underscored(t'))
  {
    GetSetWellFormed(t, path, PagePrefix);
  }

  lemma {:induction false} CompileListExtends(t: Table, subs: seq<Route>, n: nat, layouts: seq<string>,
                                              exportsOf: string -> seq<string>)
    requires n <= |subs|
    ensures var t' := CompileList(t, subs, n, layouts, exportsOf).1;
      (WellFormed(t) ==> WellFormed(t')) && Extends(t, t') && (Underscored(t) ==> Underscored(t'))
    decreases subs, n
  {
    if n > 0 {
      CompileListExtends(t, subs, n - 1, layouts, exportsOf);
      var t1 := CompileList(t, subs, n - 1, layouts, exportsOf).1;
      CompileExtends(t1, subs[n - 1], layouts, exportsOf);
    }
  }

  /** Registering a route's layout keeps the identifiers tagged with
      their positions. */
  lemma ChainTagged(t: Table, r: Route, layouts: seq<string>)
    requires WellFormed(t) && Tagged(t)
    ensures Tagged(Chain(t, r, layouts).1)
  {
    if r.layout.Some? {
      PrefixesSeparate();
      GetSetTagged(t, r.layout.value.path, LayoutPrefix);
    }
  }

  /** Registering a page module keeps the identifiers tagged. */
  lemma PageTagged(t: Table, name: string, path: string, layouts: seq<string>, error: ErrorPage,
                   exportsOf: string -> seq<string>)
    requires WellFormed(t) && Tagged(t)
    ensures Tagged(Page(t, name, path, layouts, error, exportsOf).1)
  {
    PrefixesSeparate();
    GetSetTagged(t, path, PagePrefix);
  }

  /** Compiling keeps the identifiers tagged: each one still carries the
      position of its path in the insertion order. */
  lemma {:induction false} CompileTagged(t: Table, r: Route, layouts: seq<string>, exportsOf: string -> seq<string>)
    requires WellFormed(t) && Tagged(t)
    ensures Tagged(Compile(t, r, layouts, exportsOf).1)
    decreases r, 2
  {
    ChainTagged(t, r, layouts);
    ChainExtends(t, r, layouts);
    var chain, t1 := Chain(t, r, layouts).0, Chain(t, r, layouts).1;
    if IsLeaf(r) {
      PageTagged(t1, r.name, r.path, chain, DefaultError, exportsOf);
    } else {
      DirectoryTagged(t1, r, chain, exportsOf);
      assert Compile(t, r, layouts, exportsOf) == Directory(t1, r, chain, exportsOf);
    }
  }

  lemma {:induction false} DirectoryTagged(t: Table, r: Route, chain: seq<string>, exportsOf: string -> seq<string>)
    requires WellFormed(t) && Tagged(t)
    ensures Tagged(Directory(t, r, chain, exportsOf).1)
    decreases r, 1
  {
    if r.defaultPath.Some? {
      PageTagged(t, r.name, r.defaultPath.value, chain, EmptyError, exportsOf);
      PageExtends(t, r.name, r.defaultPath.value, chain, EmptyError, exportsOf);
    }
    var t1 := IndexPage(t, r, chain, exportsOf).1;
    if r.subroutes.List? {
      CompileListTagged(t1, r.subroutes.value, |r.subroutes.value|, chain, exportsOf);
    }
  }

  lemma {:induction false} CompileListTagged(t: Table, subs: seq<Route>, n: nat, layouts: seq<string>,
                                             exportsOf: string -> seq<string>)
    requires n <= |subs|
    requires WellFormed(t) && Tagged(t)
    ensures Tagged(CompileList(t, subs, n, layouts, exportsOf).1)
    decreases subs, n
  {
    if n > 0 {
      CompileListTagged(t, subs, n - 1, layouts, exportsOf);
      CompileListExtends(t, subs, n - 1, layouts, exportsOf);
      CompileTagged(CompileList(t, subs, n - 1, layouts, exportsOf).1, subs[n - 1], layouts, exportsOf);
    }
  }

  /** Compiling a route tree from the empty table gives every module path
      its own identifier: no two `import * as ID` lines of the generated
      route file share an `ID`. */
  lemma CompiledIdsDistinct(r: Route, exportsOf: string -> seq<string>, p: string, q: string)
    requires p in Compile(Empty, r, [], exportsOf).1.ids && q in Compile(Empty, r, [], exportsOf).1.ids && p != q
    ensures Compile(Empty, r, [], exportsOf).1.ids[p] != Compile(Empty, r, [], exportsOf).1.ids[q]
  {
    EmptyWellFormed();
    CompileTagged(Empty, r, [], exportsOf);
    CompileExtends(Empty, r, [], exportsOf);
    DistinctIds(Compile(Empty, r, [], exportsOf).1, p, q);
  }

  /** `t2` keeps every identifier of `t1`. */
  predicate Extends(t1: Table, t2: Table) {
    forall p :: p in t1.ids ==> p in t2.ids && t2.ids[p] == t1.ids[p]
  }

  /** The identifiers the table imports modules under. */
  function Imports(t: Table): set<string> {
    t.ids.Values
  }

  /** The identifiers an endpoint uses, module and layouts, are all imported
      by the table. */
  predicate Imported(t: Table, e: Endpoint) {
    e.moduleId in Imports(t) && forall l :: l in e.layouts ==> l in Imports(t)
  }

  /** An extended table still imports every identifier it imported. */
  lemma ValuesKept(t1: Table, t2: Table)
    requires Extends(t1, t2)
    ensures Imports(t1) <= Imports(t2)
  {
    forall v | v in t1.ids.Values
      ensures v in t2.ids.Values
    {
      var p :| p in t1.ids && t1.ids[p] == v;
      assert t2.ids[p] == v;
    }
  }

  /** Every identifier the endpoints of a route use is imported by the final
      table, provided the inherited layouts are: the generated route file
      never names a module it does not import. */
  lemma {:induction false} CompileImported(t: Table, r: Route, layouts: seq<string>, exportsOf: string -> seq<string>)
    requires forall l :: l in layouts ==> l in Imports(t)
    ensures forall e :: e in Compile(t, r, layouts, exportsOf).0 ==> Imported(Compile(t, r, layouts, exportsOf).1, e)
    decreases r, 2
  {
    ChainImported(t, r, layouts);
    var chain, t1 := Chain(t, r, layouts).0, Chain(t, r, layouts).1;
    if IsLeaf(r) {
      PageImported(t1, r.name, r.path, chain, DefaultError, exportsOf);
    } else {
      DirectoryImported(t1, r, chain, exportsOf);
      assert Compile(t, r, layouts, exportsOf) == Directory(t1, r, chain, exportsOf);
    }
  }

  lemma {:induction false} DirectoryImported(t: Table, r: Route, chain: seq<string>, exportsOf: string -> seq<string>)
    requires forall l :: l in chain ==> l in Imports(t)
    ensures forall e :: e in Directory(t, r, chain, exportsOf).0 ==> Imported(Directory(t, r, chain, exportsOf).1, e)
    decreases r, 1
  {
    var first, t1 := IndexPage(t, r, chain, exportsOf).0, IndexPage(t, r, chain, exportsOf).1;
    if r.defaultPath.Some? {
      PageImported(t, r.name, r.defaultPath.value, chain, EmptyError, exportsOf);
    }
    ValuesKept(t, t1);
    if r.subroutes.List? {
      var subs := r.subroutes.value;
      CompileListImported(t1, subs, |subs|, chain, exportsOf);
      CompileListGrows(t1, subs, |subs|, chain, exportsOf);
      var rest, t2 := CompileList(t1, subs, |subs|, chain, exportsOf).0, CompileList(t1, subs, |subs|, chain, exportsOf).1;
      ImportedKept(t1, t2, first);
      ImportedAppend(t2, first, rest);
    }
  }

  /** The layout chain is imported by the table after it. */
  lemma ChainImported(t: Table, r: Route, layouts: seq<string>)
    requires forall l :: l in layouts ==> l in Imports(t)
    ensures var (chain, t') := Chain(t, r, layouts);
      Extends(t, t') && forall l :: l in chain ==> l in Imports(t')
  {
    if r.layout.Some? {
      GetSetWellFormed(t, r.layout.value.path, LayoutPrefix);
      var t' := Chain(t, r, layouts).1;
      ValuesKept(t, t');
      assert t'.ids[r.layout.value.path] in Imports(t');
    }
  }

  /** A page endpoint is imported by the table after it. */
  lemma PageImported(t: Table, name: string, path: string, layouts: seq<string>, error: ErrorPage,
                     exportsOf: string -> seq<string>)
    requires forall l :: l in layouts ==> l in Imports(t)
    ensures var (e, t') := Page(t, name, path, layouts, error, exportsOf);
      Extends(t, t') && Imported(t', e)
  {
    GetSetWellFormed(t, path, PagePrefix);
    var t' := Page(t, name, path, layouts, error, exportsOf).1;
    ValuesKept(t, t');
    assert t'.ids[path] in Imports(t');
  }

  lemma {:induction false} CompileListImported(t: Table, subs: seq<Route>, n: nat, layouts: seq<string>,
                                               exportsOf: string -> seq<string>)
    requires n <= |subs|
    requires forall l :: l in layouts ==> l in Imports(t)
    ensures forall e :: e in CompileList(t, subs, n, layouts, exportsOf).0 ==>
      Imported(CompileList(t, subs, n, layouts, exportsOf).1, e)
    decreases subs, n
  {
    if n > 0 {
      CompileListImported(t, subs, n - 1, layouts, exportsOf);
      CompileListGrows(t, subs, n - 1, layouts, exportsOf);
      var es, t1 := CompileList(t, subs, n - 1, layouts, exportsOf).0, CompileList(t, subs, n - 1, layouts, exportsOf).1;
      ValuesKept(t, t1);
      CompileImported(t1, subs[n - 1], layouts, exportsOf);
      CompileGrows(t1, subs[n - 1], layouts, exportsOf);
      var more, t2 := Compile(t1, subs[n - 1], layouts, exportsOf).0, Compile(t1, subs[n - 1], layouts, exportsOf).1;
      ImportedKept(t1, t2, es);
      ImportedAppend(t2, es, more);
      assert CompileList(t, subs, n, layouts, exportsOf) == (es + more, t2);
    }
  }

  /** The growth of the table alone, without the facts about its
      consistency. */
  lemma CompileGrows(t: Table, r: Route, layouts: seq<string>, exportsOf: string -> seq<string>)
    ensures Extends(t, Compile(t, r, layouts, exportsOf).1)
  {
    CompileExtends(t, r, layouts, exportsOf);
  }

  lemma CompileListGrows(t: Table, subs: seq<Route>, n: nat, layouts: seq<string>, exportsOf: string -> seq<string>)
    requires n <= |subs|
    ensures Extends(t, CompileList(t, subs, n, layouts, exportsOf).1)
  {
    CompileListExtends(t, subs, n, layouts, exportsOf);
  }

  lemma ImportedAppend(t: Table, es: seq<Endpoint>, more: seq<Endpoint>)
    requires forall e :: e in es ==> Imported(t, e)
    requires forall e :: e in more ==> Imported(t, e)
    ensures forall e :: e in es + more ==> Imported(t, e)
  {
  }

  /** Endpoints imported by a table stay imported by any extension of it. */
  lemma ImportedKept(t1: Table, t2: Table, es: seq<Endpoint>)
    requires Extends(t1, t2)
    requires forall e :: e in es ==> Imported(t1, e)
    ensures forall e :: e in es ==> Imported(t2, e)
  {
    ValuesKept(t1, t2);
  }

  /** No route of the tree has an override layout. */
  predicate NoOverride(r: Route)
    decreases r, 1
  {
    && (r.layout.Some? ==> r.layout.value.kind == Nested)
    && (r.subroutes.List? ==> NoOverrideList(r.subroutes.value, |r.subroutes.value|))
  }

  predicate NoOverrideList(subs: seq<Route>, n: nat)
    requires n <= |subs|
    decreases subs, n
  {
    n > 0 ==> NoOverrideList(subs, n - 1) && NoOverride(subs[n - 1])
  }

  /** Without override layouts, every endpoint is wrapped in the layouts
      its route inherits, outermost first, before any of its own. */
  lemma {:induction false} InheritedLayoutsKept(t: Table, r: Route, layouts: seq<string>, exportsOf: string -> seq<string>)
    requires NoOverride(r)
    ensures forall e :: e in Compile(t, r, layouts, exportsOf).0 ==>
              |layouts| <= |e.layouts| && e.layouts[..|layouts|] == layouts
    decreases r, 2
  {
    var (chain, t1) := Chain(t, r, layouts);
    assert |layouts| <= |chain| && chain[..|layouts|] == layouts;
    if !IsLeaf(r) {
      DirectoryLayouts(t1, r, chain, exportsOf);
      forall e | e in Directory(t1, r, chain, exportsOf).0
        ensures |layouts| <= |e.layouts| && e.layouts[..|layouts|] == layouts
      {
        assert e.layouts[..|chain|][..|layouts|] == e.layouts[..|layouts|];
      }
    }
  }

  lemma {:induction false} DirectoryLayouts(t: Table, r: Route, chain: seq<string>, exportsOf: string -> seq<string>)
    requires NoOverride(r)
    ensures forall e :: e in Directory(t, r, chain, exportsOf).0 ==>
              |chain| <= |e.layouts| && e.layouts[..|chain|] == chain
    decreases r, 1
  {
    if r.subroutes.List? {
      var t1 := IndexPage(t, r, chain, exportsOf).1;
      InheritedLayoutsKeptList(t1, r.subroutes.value, |r.subroutes.value|, chain, exportsOf);
    }
  }

  lemma {:induction false} InheritedLayoutsKeptList(t: Table, subs: seq<Route>, n: nat, layouts: seq<string>,
                                                    exportsOf: string -> seq<string>)
    requires n <= |subs| && NoOverrideList(subs, n)
    ensures forall e :: e in CompileList(t, subs, n, layouts, exportsOf).0 ==>
              |layouts| <= |e.layouts| && e.layouts[..|layouts|] == layouts
    decreases subs, n
  {
    if n > 0 {
      InheritedLayoutsKeptList(t, subs, n - 1, layouts, exportsOf);
      var t1 := CompileList(t, subs, n - 1, layouts, exportsOf).1;
      InheritedLayoutsKept(t1, subs[n - 1], layouts, exportsOf);
    }
  }

  /** The layout part of MakeEndpoints: registers the route's layout and
      extends or replaces the inherited chain. */
  method ComputeLayouts(importMap: ImportMap, root: Route, layouts: seq<string>) returns (computedLayouts: seq<string>)
    requires importMap.Valid()
    modifies importMap
    ensures importMap.Valid()
    ensures (computedLayouts, importMap.State()) == Chain(old(importMap.State()), root, layouts)
  {
    computedLayouts := layouts;
    if root.layout.Some? {
      var layoutId := importMap.SafeGetSetImport(root.layout.value.path, LayoutPrefix);
      importMap.Set(root.layout.value.path, layoutId);
      if root.layout.value.kind == Nested {
        computedLayouts := computedLayouts + [layoutId];
      } else {
        computedLayouts := [layoutId];
      }
    }
  }

  /** The endpoint record MakeEndpoints builds for a page module. */
  method MakePage(importMap: ImportMap, name: string, path: string, layouts: seq<string>, error: ErrorPage,
                  exportsOf: string -> seq<string>) returns (e: Endpoint)
    requires importMap.Valid()
    modifies importMap
    ensures importMap.Valid()
    ensures (e, importMap.State()) == Page(old(importMap.State()), name, path, layouts, error, exportsOf)
  {
    var pattern, params := MakePageRegex(name);
    var importId := importMap.SafeGetSetImport(path, PagePrefix);
    var d := GetExportedMethods(exportsOf(path), name);
    e := Endpoint(pattern, params, error, layouts, name, importId, d.methods, d.hasDefaultExport);
  }

  /** MakeEndpoints, with the module loader given as the export names of
      every module path. */
  method MakeEndpoints(importMap: ImportMap, root: Route, layouts: seq<string>, exportsOf: string -> seq<string>)
    returns (endpoints: seq<Endpoint>)
    requires importMap.Valid()
    modifies importMap
    ensures importMap.Valid()
    ensures (endpoints, importMap.State()) == Compile(old(importMap.State()), root, layouts, exportsOf)
    decreases root, 1
  {
    endpoints := [];
    var computedLayouts := ComputeLayouts(importMap, root, layouts);
    ghost var t1 := importMap.State();

    if IsLeaf(root) {
      var e := MakePage(importMap, root.name, root.path, computedLayouts, DefaultError, exportsOf);
      return [e];
    }

    if root.defaultPath.Some? {
      var e := MakePage(importMap, root.name, root.defaultPath.value, computedLayouts, EmptyError, exportsOf);
      endpoints := [e];
    }
    ghost var first, t2 := endpoints, importMap.State();

    var more := [];
    if root.subroutes.List? {
      more := MakeSubEndpoints(importMap, root.subroutes.value, computedLayouts, exportsOf);
    }
    endpoints := endpoints + more;
  }

  /** The loop of MakeEndpoints over the subroutes: the endpoints of each
      subroute, in order, with the chain computed for the directory. */
  method MakeSubEndpoints(importMap: ImportMap, subs: seq<Route>, layouts: seq<string>, exportsOf: string -> seq<string>)
    returns (endpoints: seq<Endpoint>)
    requires importMap.Valid()
    modifies importMap
    ensures importMap.Valid()
    ensures (endpoints, importMap.State()) == CompileList(old(importMap.State()), subs, |subs|, layouts, exportsOf)
    decreases subs, |subs| + 1
  {
    endpoints := [];
    for i := 0 to |subs|
      invariant importMap.Valid()
      invariant (endpoints, importMap.State()) == CompileList(old(importMap.State()), subs, i, layouts, exportsOf)
    {
      var more := MakeEndpoints(importMap, subs[i], layouts, exportsOf);
      endpoints := endpoints + more;
    }
  }
}
