/** The route walker of lib/routing.ts (navigateRoutes): a directory listing
    becomes a route tree. Files named `index`, `__layout`,
    `__layout.override` and `__error` (extension stripped) configure the
    route of their directory; every other file becomes a leaf route and
    every other entry is walked as a sub-directory. */
module Walker {
  import opened Text

  /** A directory entry, listed ahead of time: a file, or a non-file entry
      together with its own listing. */
  datatype Entry = File(name: string) | Directory(name: string, entries: seq<Entry>)

  datatype LayoutKind = Nested | Override

  /** The layout module of a route and how it combines with the inherited
      ones. */
  datatype Layout = Layout(kind: LayoutKind, path: string)

  /** The `subroutes` of a route: `null`, or a list. */
  datatype Subroutes = Null | List(value: seq<Route>)

  /** A node of the route tree. The modules (index page, error page) are
      represented by their file paths, the only field the walker sets. */
  datatype Route = Route(
    name: string,
    path: string,
    defaultPath: Option<string>,
    subroutes: Subroutes,
    layout: Option<Layout>,
    error: Option<string>,
    isDir: Option<bool>)

  /** What a file does to the route of its directory. */
  datatype Role = Index | NestedLayout | OverrideLayout | ErrorPage | Page

  /** The last position of `c` in `s`, or -1. */
  function LastIndexOf(s: string, c: char): (k: int)
    ensures -1 <= k < |s|
    ensures k >= 0 ==> s[k] == c
    ensures forall j :: k < j < |s| ==> s[j] != c
    decreases |s|
  {
    if |s| == 0 then -1
    else if s[|s| - 1] == c then |s| - 1
    else LastIndexOf(s[..|s| - 1], c)
  }

  /** path.parse(name).name: the name without its extension, the extension
      starting at the last dot unless that dot is the first character. */
  function BaseName(name: string): string {
    var k := LastIndexOf(name, '.');
    if k > 0 then name[..k] else name
  }

  function RoleOf(base: string): Role {
    if base == "index" then Index
    else if base == "__layout.override" then OverrideLayout
    else if base == "__layout" then NestedLayout
    else if base == "__error" then ErrorPage
    else Page
  }

  /** The route a walk starts from. */
  function Root(basePath: string, pathName: string): Route {
    Route(pathName, basePath, None, List([]), None, None, Some(pathName == "/"))
  }

  /** The leaf route of a page file. */
  function Leaf(basePath: string, pathName: string, name: string): Route {
    Route(PathJoin(pathName, BaseName(name)), PathJoin(basePath, name), None, Null, None, None, None)
  }

  /** `route?.subroutes?.push(child)`. */
  function Push(r: Route, child: Route): Route {
    if r.subroutes.List? then r.(subroutes := List(r.subroutes.value + [child])) else r
  }

  /** The route after the first `n` entries of a listing. */
  function WalkPrefix(basePath: string, pathName: string, listing: seq<Entry>, n: nat): Route
    requires n <= |listing|
    decreases listing, n
  {
    if n == 0 then Root(basePath, pathName)
    else Step(basePath, pathName, WalkPrefix(basePath, pathName, listing, n - 1), listing[n - 1])
  }

  /** What one entry does to the route being built. */
  function Step(basePath: string, pathName: string, r: Route, e: Entry): Route
    decreases e, 0
  {
    match e
    case File(name) =>
      var resolved := PathJoin(basePath, name);
      (match RoleOf(BaseName(name))
       case Index => r.(defaultPath := Some(resolved))
       case NestedLayout => r.(layout := Some(Layout(Nested, resolved)))
       case OverrideLayout => r.(layout := Some(Layout(Override, resolved)))
       case ErrorPage => r.(error := Some(resolved))
       case Page => Push(r, Leaf(basePath, pathName, name)))
    case Directory(name, entries) =>
      if r.subroutes.List? then
        var sub := WalkPrefix(PathJoin(basePath, name), PathJoin(pathName, name), entries, |entries|);
        Push(r, sub.(isDir := Some(true)))
      else r
  }

  function Walk(basePath: string, pathName: string, listing: seq<Entry>): Route {
    WalkPrefix(basePath, pathName, listing, |listing|)
  }

  /** The subroute one entry contributes, if any. */
  function ChildOf(basePath: string, pathName: string, e: Entry): seq<Route> {
    match e
    case File(name) =>
      if RoleOf(BaseName(name)) == Page then [Leaf(basePath, pathName, name)] else []
    case Directory(name, entries) =>
      [Walk(PathJoin(basePath, name), PathJoin(pathName, name), entries).(isDir := Some(true))]
  }

  /** The subroutes of the first `n` entries, in listing order. */
  function Children(basePath: string, pathName: string, listing: seq<Entry>, n: nat): seq<Route>
    requires n <= |listing|
  {
    if n == 0 then [] else Children(basePath, pathName, listing, n - 1) + ChildOf(basePath, pathName, listing[n - 1])
  }

  /** The path of the last of the first `n` entries that is a file with the
      given role. */
  function LastWith(basePath: string, listing: seq<Entry>, n: nat, role: Role): Option<string>
    requires n <= |listing|
  {
    if n == 0 then None
    else
      var e := listing[n - 1];
      if RoleOfEntry(e) == role then Some(PathJoin(basePath, e.name))
      else LastWith(basePath, listing, n - 1, role)
  }

  /** The layout given by the last layout file among the first `n` entries. */
  function LastLayout(basePath: string, listing: seq<Entry>, n: nat): Option<Layout>
    requires n <= |listing|
  {
    if n == 0 then None
    else
      var e := listing[n - 1];
      if RoleOfEntry(e) == NestedLayout then Some(Layout(Nested, PathJoin(basePath, e.name)))
      else if RoleOfEntry(e) == OverrideLayout then Some(Layout(Override, PathJoin(basePath, e.name)))
      else LastLayout(basePath, listing, n - 1)
  }

  /** What the file or directory `e` contributes to each field. */
  function RoleOfEntry(e: Entry): Role {
    if e.File? then RoleOf(BaseName(e.name)) else Page
  }

  /** What one entry does to each field of a route that has subroutes. */
  lemma StepFields(basePath: string, pathName: string, r: Route, e: Entry)
    requires r.subroutes.List?
    ensures Step(basePath, pathName, r, e).name == r.name
    ensures Step(basePath, pathName, r, e).path == r.path
    ensures Step(basePath, pathName, r, e).isDir == r.isDir
    ensures Step(basePath, pathName, r, e).subroutes == List(r.subroutes.value + ChildOf(basePath, pathName, e))
    ensures Step(basePath, pathName, r, e).defaultPath
         == if RoleOfEntry(e) == Index then Some(PathJoin(basePath, e.name)) else r.defaultPath
    ensures Step(basePath, pathName, r, e).error
         == if RoleOfEntry(e) == ErrorPage then Some(PathJoin(basePath, e.name)) else r.error
    ensures Step(basePath, pathName, r, e).layout
         == if RoleOfEntry(e) == NestedLayout then Some(Layout(Nested, PathJoin(basePath, e.name)))
            else if RoleOfEntry(e) == OverrideLayout then Some(Layout(Override, PathJoin(basePath, e.name)))
            else r.layout
  {
    if RoleOfEntry(e) != Page {
      assert r.subroutes.value + [] == r.subroutes.value;
    }
  }

  /** The walk, field by field: the last index, layout and error files win,
      the subroutes are the other files and the sub-directories in listing
      order, and the root is a directory exactly when its name is `/`. */
  lemma {:induction false} WalkFields(basePath: string, pathName: string, listing: seq<Entry>, n: nat)
    requires n <= |listing|
    ensures WalkPrefix(basePath, pathName, listing, n).name == pathName
    ensures WalkPrefix(basePath, pathName, listing, n).path == basePath
    ensures WalkPrefix(basePath, pathName, listing, n).defaultPath == LastWith(basePath, listing, n, Index)
    ensures WalkPrefix(basePath, pathName, listing, n).subroutes == List(Children(basePath, pathName, listing, n))
    ensures WalkPrefix(basePath, pathName, listing, n).layout == LastLayout(basePath, listing, n)
    ensures WalkPrefix(basePath, pathName, listing, n).error == LastWith(basePath, listing, n, ErrorPage)
    ensures WalkPrefix(basePath, pathName, listing, n).isDir == Some(pathName == "/")
  {
    if n > 0 {
      WalkFields(basePath, pathName, listing, n - 1);
      var before := WalkPrefix(basePath, pathName, listing, n - 1);
      StepFields(basePath, pathName, before, listing[n - 1]);
      assert WalkPrefix(basePath, pathName, listing, n) == Step(basePath, pathName, before, listing[n - 1]);
      assert Children(basePath, pathName, listing, n)
          == Children(basePath, pathName, listing, n - 1) + ChildOf(basePath, pathName, listing[n - 1]);
    }
  }

  /** Reserved files never become subroutes: a file contributes a subroute
      exactly when its base name is not one of the four reserved ones. */
  lemma ReservedNotChild(basePath: string, pathName: string, name: string)
    ensures ChildOf(basePath, pathName, File(name)) == [] <==>
              BaseName(name) in {"index", "__layout", "__layout.override", "__error"}
  {
  }

  /** Every subroute is either a page leaf (no subroutes, no `isDir`, no
      modules) or a walked directory (`isDir` set, subroutes present). */
  predicate WellShaped(c: Route) {
    || (c.isDir == Some(true) && c.subroutes.List?)
    || (c.isDir.None? && c.subroutes.Null? && c.defaultPath.None? && c.layout.None? && c.error.None?)
  }

  /** A walk always ends with a list of subroutes. */
  lemma {:induction false} WalkHasSubroutes(basePath: string, pathName: string, listing: seq<Entry>, n: nat)
    requires n <= |listing|
    ensures WalkPrefix(basePath, pathName, listing, n).subroutes.List?
  {
    if n > 0 {
      WalkHasSubroutes(basePath, pathName, listing, n - 1);
      StepFields(basePath, pathName, WalkPrefix(basePath, pathName, listing, n - 1), listing[n - 1]);
    }
  }

  /** The subroute an entry contributes is well shaped. */
  lemma ChildShape(basePath: string, pathName: string, e: Entry)
    ensures forall c :: c in ChildOf(basePath, pathName, e) ==> WellShaped(c)
  {
    if e.Directory? {
      WalkHasSubroutes(PathJoin(basePath, e.name), PathJoin(pathName, e.name), e.entries, |e.entries|);
    }
  }

  lemma {:induction false} ChildrenShape(basePath: string, pathName: string, listing: seq<Entry>, n: nat)
    requires n <= |listing|
    ensures forall c :: c in Children(basePath, pathName, listing, n) ==> WellShaped(c)
  {
    if n > 0 {
      ChildrenShape(basePath, pathName, listing, n - 1);
      ChildShape(basePath, pathName, listing[n - 1]);
      var before, added := Children(basePath, pathName, listing, n - 1), ChildOf(basePath, pathName, listing[n - 1]);
      assert Children(basePath, pathName, listing, n) == before + added;
      forall c | c in before + added
        ensures WellShaped(c)
      {
        assert c in before || c in added;
      }
    }
  }

  /** navigateRoutes: walks the listing in order, updating the route of the
      directory, and recurses into every non-file entry. */
  method NavigateRoutes(basePath: string, pathName: string, listing: seq<Entry>) returns (route: Route)
    ensures route == Walk(basePath, pathName, listing)
    ensures route.isDir == Some(pathName == "/")
    ensures route.subroutes.List?
    decreases listing
  {
    route := Route(pathName, basePath, None, List([]), None, None, Some(pathName == "/"));
    for i := 0 to |listing|
      invariant route == WalkPrefix(basePath, pathName, listing, i)
      invariant route.subroutes.List? && route.isDir == Some(pathName == "/")
    {
      match listing[i]
      case File(name) => {
        var base := BaseName(name);
        var resolved := PathJoin(basePath, name);
        match RoleOf(base) {
          case Index =>
            route := route.(defaultPath := Some(resolved));
          case OverrideLayout =>
            route := route.(layout := Some(Layout(Override, resolved)));
          case NestedLayout =>
            route := route.(layout := Some(Layout(Nested, resolved)));
          case ErrorPage =>
            route := route.(error := Some(resolved));
          case Page =>
            var leaf := Route(PathJoin(pathName, base), PathJoin(basePath, name), None, Null, None, None, None);
            route := route.(subroutes := List(route.subroutes.value + [leaf]));
        }
      }
      case Directory(name, entries) => {
        assert listing[i] in listing;
        var sub := NavigateRoutes(PathJoin(basePath, name), PathJoin(pathName, name), entries);
        route := route.(subroutes := List(route.subroutes.value + [sub.(isDir := Some(true))]));
      }
    }
  }
}
