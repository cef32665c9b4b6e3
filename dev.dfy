/** The development server of lib/dev.ts: the endpoints of a generated
    route file are registered in one bucket per HTTP method, and a request
    is answered by the first entry of its method's bucket whose pattern
    matches the path. */
module Dev {
  import opened Text

  datatype Method = GET | HEAD | POST | PUT | DELETE | CONNECT | OPTIONS | TRACE | PATCH

  function MethodName(m: Method): string {
    match m
    case GET => "GET"
    case HEAD => "HEAD"
    case POST => "POST"
    case PUT => "PUT"
    case DELETE => "DELETE"
    case CONNECT => "CONNECT"
    case OPTIONS => "OPTIONS"
    case TRACE => "TRACE"
    case PATCH => "PATCH"
  }

  /** The bucket `Endpoints[name]` names, if any. */
  function MethodNamed(name: string): (m: Option<Method>)
    ensures m.Some? ==> MethodName(m.value) == name
    ensures m.None? ==> forall k: Method :: MethodName(k) != name
  {
    if name == "GET" then Some(GET)
    else if name == "HEAD" then Some(HEAD)
    else if name == "POST" then Some(POST)
    else if name == "PUT" then Some(PUT)
    else if name == "DELETE" then Some(DELETE)
    else if name == "CONNECT" then Some(CONNECT)
    else if name == "OPTIONS" then Some(OPTIONS)
    else if name == "TRACE" then Some(TRACE)
    else if name == "PATCH" then Some(PATCH)
    else None
  }

  /** An endpoint as the generated route file exports it: its module, its
      pattern, its parameter names, the keys of its `methods` record (all
      of them method names, since only names of `Methods` are kept) and
      whether its module has a default export. */
  datatype Loaded = Loaded(moduleId: string, regex: string, parameters: seq<string>, methods: seq<Method>, hasDefault: bool)

  /** The closures the registration loop creates. */
  datatype Fn =
    | ModuleGet(endpoint: Loaded)          // (params) => endpoint.module.get(params)
    | RenderInLayout(endpoint: Loaded)     // (params) => endpoint.layout(endpoint.module.default(params)).emit()
    | RenderDefault(endpoint: Loaded)      // (params) => endpoint.module.default().emit()
    | ModuleCall(endpoint: Loaded, name: string)  // (params) => endpoint.module[name](params)

  /** A single handler, or the two steps of a page with a data loader. */
  datatype Handler = Single(fn: Fn) | TwoStep(load: Fn, render: Fn)

  datatype ContentType = TextHtml | ApplicationJson

  function ContentTypeText(c: ContentType): string {
    match c
    case TextHtml => "text/html"
    case ApplicationJson => "application/json"
  }

  /** A `[regex, handler, parameters, type]` tuple of a bucket. */
  datatype Entry = Entry(regex: string, handler: Handler, parameters: seq<string>, contentType: ContentType)

  /** The GET entry of a loaded endpoint. */
  function GetEntry(e: Loaded): Entry {
    if e.hasDefault && GET in e.methods then
      Entry(e.regex, TwoStep(ModuleGet(e), RenderInLayout(e)), e.parameters, TextHtml)
    else if e.hasDefault then
      Entry(e.regex, Single(RenderDefault(e)), e.parameters, TextHtml)
    else
      Entry(e.regex, Single(ModuleGet(e)), e.parameters, ApplicationJson)
  }

  /** The entry a non-GET method key of a loaded endpoint adds. */
  function CallEntry(e: Loaded, m: Method): Entry {
    Entry(e.regex, Single(ModuleCall(e, Lower(MethodName(m)))), e.parameters, ApplicationJson)
  }

  /** What registering `e` has added to the bucket of `m` once its first
      `j` method keys are done. */
  function Added(m: Method, e: Loaded, j: nat): seq<Entry>
    requires j <= |e.methods|
  {
    if j == 0 then (if m == GET then [GetEntry(e)] else [])
    else Added(m, e, j - 1) + (if e.methods[j - 1] == m && m != GET then [CallEntry(e, m)] else [])
  }

  /** What registering the first `n` endpoints adds to the bucket of `m`. */
  function EntriesFor(m: Method, endpoints: seq<Loaded>, n: nat): seq<Entry>
    requires n <= |endpoints|
  {
    if n == 0 then [] else EntriesFor(m, endpoints, n - 1) + Added(m, endpoints[n - 1], |endpoints[n - 1].methods|)
  }

  /** Registering an endpoint adds its GET entry to the GET bucket, and
      nothing else there. */
  lemma {:induction false} AddedGet(e: Loaded, j: nat)
    requires j <= |e.methods|
    ensures Added(GET, e, j) == [GetEntry(e)]
  {
    if j > 0 {
      AddedGet(e, j - 1);
    }
  }

  /** Every loaded endpoint adds exactly one GET entry, in the order of the
      route file. */
  lemma {:induction false} OneGetEach(endpoints: seq<Loaded>, n: nat)
    requires n <= |endpoints|
    ensures |EntriesFor(GET, endpoints, n)| == n
    ensures forall i :: 0 <= i < n ==> EntriesFor(GET, endpoints, n)[i] == GetEntry(endpoints[i])
  {
    if n > 0 {
      OneGetEach(endpoints, n - 1);
      AddedGet(endpoints[n - 1], |endpoints[n - 1].methods|);
    }
  }

  /** The GET entry runs in two steps exactly when the module has a default
      export and a `get` method, and answers HTML exactly when it has a
      default export. */
  lemma GetEntryShape(e: Loaded)
    ensures GetEntry(e).handler.TwoStep? <==> e.hasDefault && GET in e.methods
    ensures GetEntry(e).contentType == TextHtml <==> e.hasDefault
    ensures GetEntry(e).regex == e.regex && GetEntry(e).parameters == e.parameters
  {
  }

  /** The number of times `m` is a key of `keys`. */
  function Occurrences(m: Method, keys: seq<Method>, j: nat): nat
    requires j <= |keys|
  {
    if j == 0 then 0 else Occurrences(m, keys, j - 1) + (if keys[j - 1] == m then 1 else 0)
  }

  /** A key other than GET adds one single JSON entry per occurrence to its
      bucket. */
  lemma {:induction false} AddedOther(m: Method, e: Loaded, j: nat)
    requires m != GET && j <= |e.methods|
    ensures |Added(m, e, j)| == Occurrences(m, e.methods, j)
    ensures forall k :: 0 <= k < |Added(m, e, j)| ==> Added(m, e, j)[k] == CallEntry(e, m)
  {
    if j > 0 {
      AddedOther(m, e, j - 1);
    }
  }

  /** Record keys are distinct, so a key occurs at most once. */
  lemma {:induction false} OccurrencesDistinct(m: Method, keys: seq<Method>, j: nat)
    requires j <= |keys|
    requires forall a, b :: 0 <= a < b < |keys| ==> keys[a] != keys[b]
    ensures Occurrences(m, keys, j) == (if m in keys[..j] then 1 else 0)
  {
    if j > 0 {
      OccurrencesDistinct(m, keys, j - 1);
      assert keys[..j] == keys[..j - 1] + [keys[j - 1]];
      if keys[j - 1] == m {
        assert m !in keys[..j - 1];
      }
    }
  }

  /** The first `n` endpoints whose methods record has the key `m`, in
      order. */
  function Declarers(m: Method, endpoints: seq<Loaded>, n: nat): seq<Loaded>
    requires n <= |endpoints|
  {
    if n == 0 then []
    else Declarers(m, endpoints, n - 1) + (if m in endpoints[n - 1].methods then [endpoints[n - 1]] else [])
  }

  function CallEntries(m: Method, declarers: seq<Loaded>): seq<Entry>
  {
    seq(|declarers|, i requires 0 <= i < |declarers| => CallEntry(declarers[i], m))
  }

  /** For a method other than GET, the bucket receives, in route-file
      order, one single JSON entry calling the lower-cased export for each
      endpoint whose methods record has that key (record keys being
      distinct). */
  lemma {:induction false} OtherMethodEntries(m: Method, endpoints: seq<Loaded>, n: nat)
    requires m != GET && n <= |endpoints|
    requires forall i :: 0 <= i < |endpoints| ==>
      forall a, b :: 0 <= a < b < |endpoints[i].methods| ==> endpoints[i].methods[a] != endpoints[i].methods[b]
    ensures EntriesFor(m, endpoints, n) == CallEntries(m, Declarers(m, endpoints, n))
  {
    if n > 0 {
      var e := endpoints[n - 1];
      var extra := if m in e.methods then [e] else [];
      var before := Declarers(m, endpoints, n - 1);
      assert EntriesFor(m, endpoints, n - 1) == CallEntries(m, before) by {
        OtherMethodEntries(m, endpoints, n - 1);
      }
      assert Added(m, e, |e.methods|) == CallEntries(m, extra) by {
        AddedIsCall(m, e);
      }
      assert CallEntries(m, before + extra) == CallEntries(m, before) + CallEntries(m, extra) by {
        CallEntriesAppend(m, before, extra);
      }
      assert Declarers(m, endpoints, n) == before + extra;
    }
  }

  /** One endpoint adds to the bucket of a method other than GET its call
      entry when it declares that method, and nothing otherwise. */
  lemma AddedIsCall(m: Method, e: Loaded)
    requires m != GET
    requires forall a, b :: 0 <= a < b < |e.methods| ==> e.methods[a] != e.methods[b]
    ensures Added(m, e, |e.methods|) == CallEntries(m, if m in e.methods then [e] else [])
  {
    AddedOther(m, e, |e.methods|);
    OccurrencesDistinct(m, e.methods, |e.methods|);
    assert e.methods[..|e.methods|] == e.methods;
  }

  lemma CallEntriesAppend(m: Method, d: seq<Loaded>, extra: seq<Loaded>)
    ensures CallEntries(m, d + extra) == CallEntries(m, d) + CallEntries(m, extra)
  {
    var lhs, rhs := CallEntries(m, d + extra), CallEntries(m, d) + CallEntries(m, extra);
    assert |lhs| == |rhs|;
    forall i | 0 <= i < |lhs|
      ensures lhs[i] == rhs[i]
    {
      if i < |d| {
        assert (d + extra)[i] == d[i];
      } else {
        assert (d + extra)[i] == extra[i - |d|];
      }
    }
  }

  /** A request: its method name, its URL and its header entries. */
  datatype Request = Request(verb: string, url: string, headers: seq<(string, string)>)

  /** The values of the object handed to a data loader. */
  datatype Value = Text(s: string) | Undefined | HeaderRecord(entries: seq<(string, string)>) | Url(href: string)

  /** The `headers` a data loader returns: absent (or another falsy value,
      which `|| []` replaces), an iterable of name-value pairs, or a value
      `for…of` cannot iterate, such as a plain record of headers. */
  datatype LoadedHeaders = NoHeaders | Pairs(entries: seq<(string, string)>) | NotIterable

  /** What a data loader returns: an optional status, its headers and the
      props for the page. */
  datatype LoadResult<P> = LoadResult(status: Option<int>, headers: LoadedHeaders, props: P)

  /** The pairs `for (const [name, value] of result.headers || [])` visits;
      only meaningful for iterable headers. */
  function HeaderPairs(h: LoadedHeaders): seq<(string, string)> {
    if h.Pairs? then h.entries else []
  }

  /** The WebIDL conversion of a number to `unsigned short` that
      `ResponseInit.status` undergoes: the value modulo 2^16. */
  function UnsignedShort(x: int): (s: int)
    ensures 0 <= s < 0x1_0000
    ensures (x - s) % 0x1_0000 == 0
    ensures 0 <= x < 0x1_0000 ==> s == x
  {
    x % 0x1_0000
  }

  /** `result.status || 200` as the Response constructor sees it. */
  function LoadedStatus(status: Option<int>): int {
    UnsignedShort(if status.None? || status.value == 0 then 200 else status.value)
  }

  /** The parts of the runtime the handler relies on: RegExp.exec on the
      path (the match array, with `None` for a group that did not take
      part), the URL parser's path name, and the closures' results. */
  datatype Runtime<!P> = Runtime(
    exec: (string, string) -> Option<seq<Option<string>>>,
    pathname: string -> string,
    call: Fn -> string,
    load: (Fn, map<string, Value>) -> LoadResult<P>,
    render: (Fn, P) -> string)

  datatype Response = Thrown | Response(status: int, headers: seq<(string, string)>, body: string)

  /** The path names of a response that the Response constructor refuses:
      a status outside 200 to 599 (RangeError) or one that must have no
      body (TypeError). */
  predicate RefusedStatus(status: int) {
    status < 200 || status > 599 || status == 204 || status == 205 || status == 304
  }

  const NotFound: Response := Response(404, [("Content-Type", "text/plain;charset=UTF-8")], "404 not found")

  /** `match[i]`, or undefined past its end. */
  function Group(groups: seq<Option<string>>, i: nat): Option<string> {
    if i < |groups| then groups[i] else None
  }

  /** The last position of `name` in `names`. */
  function LastIndex(names: seq<string>, name: string): (k: nat)
    requires name in names
    ensures k < |names| && names[k] == name && name !in names[k + 1..]
    decreases |names|
  {
    if names[|names| - 1] == name then |names| - 1
    else
      assert name in names[..|names| - 1] by {
        var j :| 0 <= j < |names| && names[j] == name;
        assert names[..|names| - 1][j] == name;
      }
      LastIndex(names[..|names| - 1], name)
  }

  /** The route parameters: every name is bound to the group after its
      last position, so a repeated name takes the later group. */
  function RouteParams(names: seq<string>, groups: seq<Option<string>>): map<string, Option<string>> {
    map name | name in names :: Group(groups, LastIndex(names, name) + 1)
  }

  /** The object handed to a data loader: `headers` and `url`, overridden
      by route parameters of the same name. */
  function Bundle(req: Request, params: map<string, Option<string>>): map<string, Value> {
    map["headers" := HeaderRecord(req.headers), "url" := Url(req.url)]
    + map name | name in params :: if params[name].Some? then Text(params[name].value) else Undefined
  }

  /** The position of the first entry whose pattern matches the path. */
  function FirstMatch<P>(entries: seq<Entry>, path: string, rt: Runtime<P>, from: nat): (k: Option<nat>)
    requires from <= |entries|
    ensures k.Some? ==> from <= k.value < |entries| && Matches(entries[k.value], path, rt)
    ensures forall j :: from <= j < |entries| && (k.None? || j < k.value) ==> !Matches(entries[j], path, rt)
    decreases |entries| - from
  {
    if from == |entries| then None
    else if Matches(entries[from], path, rt) then Some(from)
    else FirstMatch(entries, path, rt, from + 1)
  }

  /** `match != null && match.length != 0`. */
  predicate Matches<P>(e: Entry, path: string, rt: Runtime<P>) {
    rt.exec(e.regex, path).Some? && |rt.exec(e.regex, path).value| != 0
  }

  /** Whether the function a closure calls exists on the module: a module
      without a `GET` key has no `get` method, so `endpoint.module.get` is
      undefined and calling it throws a TypeError. */
  predicate Callable(f: Fn) {
    f.ModuleGet? ==> GET in f.endpoint.methods
  }

  /** The response of a matching entry. */
  function Answer<P>(e: Entry, req: Request, groups: seq<Option<string>>, rt: Runtime<P>): Response {
    var contentType := ("Content-Type", ContentTypeText(e.contentType));
    match e.handler
    case Single(f) => if !Callable(f) then Thrown else Response(200, [contentType], rt.call(f))
    case TwoStep(load, render) =>
      if !Callable(load) then Thrown else
      var result := rt.load(load, Bundle(req, RouteParams(e.parameters, groups)));
      var status := LoadedStatus(result.status);
      if result.headers.NotIterable? then Thrown else
      var headers := [contentType] + HeaderPairs(result.headers);
      var body := rt.render(render, result.props);
      if RefusedStatus(status) then Thrown else Response(status, headers, body)
  }

  /** The handler's answer to a request, given the buckets. */
  function Dispatch<P>(buckets: map<Method, seq<Entry>>, req: Request, rt: Runtime<P>): Response {
    var m := MethodNamed(req.verb);
    if m.None? || m.value !in buckets then Thrown
    else
      var path := rt.pathname(req.url);
      var entries := buckets[m.value];
      match FirstMatch(entries, path, rt, 0)
      case None => NotFound
      case Some(k) => Answer(entries[k], req, rt.exec(entries[k].regex, path).value, rt)
  }

  /** A request whose method has no bucket makes the handler throw. */
  lemma UnknownMethodThrows<P>(buckets: map<Method, seq<Entry>>, req: Request, rt: Runtime<P>)
    requires forall m: Method :: MethodName(m) != req.verb
    ensures Dispatch(buckets, req, rt) == Thrown
  {
  }

  /** The first entry of the bucket that matches answers the request;
      later entries are never consulted. */
  lemma FirstMatchAnswers<P>(buckets: map<Method, seq<Entry>>, req: Request, rt: Runtime<P>, m: Method, k: nat)
    requires MethodName(m) == req.verb && m in buckets
    requires k < |buckets[m]| && Matches(buckets[m][k], rt.pathname(req.url), rt)
    requires forall j :: 0 <= j < k ==> !Matches(buckets[m][j], rt.pathname(req.url), rt)
    ensures Dispatch(buckets, req, rt) == Answer(buckets[m][k], req, rt.exec(buckets[m][k].regex, rt.pathname(req.url)).value, rt)
  {
    var r := MethodNamed(req.verb);
    assert r == Some(m);
    var f := FirstMatch(buckets[m], rt.pathname(req.url), rt, 0);
    assert f == Some(k);
  }

  /** When no entry of the bucket matches, the answer is 404 with body
      `404 not found`. */
  lemma NoMatchNotFound<P>(buckets: map<Method, seq<Entry>>, req: Request, rt: Runtime<P>, m: Method)
    requires MethodName(m) == req.verb && m in buckets
    requires forall j :: 0 <= j < |buckets[m]| ==> !Matches(buckets[m][j], rt.pathname(req.url), rt)
    ensures Dispatch(buckets, req, rt) == NotFound
  {
    var r := MethodNamed(req.verb);
    assert r == Some(m);
  }

  /** A single handler throws when the function it calls does not exist,
      and otherwise answers status 200 with the entry's content type as the
      only header; a two-step handler throws when its loader does not
      exist or its headers cannot be iterated, otherwise answers the
      loader's status (200 when it gives none or 0) modulo 2^16, or throws
      when the Response constructor refuses that status, and its headers
      are the content type followed by the loader's headers. */
  lemma AnswerShape<P>(e: Entry, req: Request, groups: seq<Option<string>>, rt: Runtime<P>)
    ensures e.handler.Single? ==>
      && (Answer(e, req, groups, rt).Thrown? <==> !Callable(e.handler.fn))
      && (Callable(e.handler.fn) ==>
            Answer(e, req, groups, rt) == Response(200, [("Content-Type", ContentTypeText(e.contentType))], rt.call(e.handler.fn)))
    ensures e.handler.TwoStep? && !Callable(e.handler.load) ==> Answer(e, req, groups, rt).Thrown?
    ensures e.handler.TwoStep? && Callable(e.handler.load) ==>
      var result := rt.load(e.handler.load, Bundle(req, RouteParams(e.parameters, groups)));
      var status := (if result.status.Some? && result.status.value != 0 then result.status.value else 200) % 0x1_0000;
      && (Answer(e, req, groups, rt).Thrown? <==> result.headers.NotIterable? || RefusedStatus(status))
      && (Answer(e, req, groups, rt).Response? ==>
            && Answer(e, req, groups, rt).status == status
            && Answer(e, req, groups, rt).headers[0] == ("Content-Type", ContentTypeText(e.contentType))
            && Answer(e, req, groups, rt).headers[1..] == (if result.headers.Pairs? then result.headers.entries else [])
            && Answer(e, req, groups, rt).body == rt.render(e.handler.render, result.props))
  {
  }

  /** A loader status and the same status plus 2^16 reach the Response
      constructor as the same number: a loader returning 65736 answers
      200. */
  lemma StatusPeriodic(status: int)
    requires status != 0 && status + 0x1_0000 != 0
    ensures LoadedStatus(Some(status + 0x1_0000)) == LoadedStatus(Some(status))
    ensures LoadedStatus(Some(200 + 0x1_0000)) == 200
  {
  }

  /** The GET entry of an endpoint with neither a default export nor a
      `GET` key calls the missing `get` and throws; every other GET entry
      calls a function the module has. */
  lemma MissingGetThrows<P>(e: Loaded, req: Request, groups: seq<Option<string>>, rt: Runtime<P>)
    ensures !e.hasDefault ==> (Answer(GetEntry(e), req, groups, rt).Thrown? <==> GET !in e.methods)
    ensures e.hasDefault && GET !in e.methods ==> Answer(GetEntry(e), req, groups, rt).Response?
  {
    AnswerShape(GetEntry(e), req, groups, rt);
  }

  /** Route parameters override `headers` and `url` in the loader's
      argument, and every other parameter is passed as bound. */
  lemma BundleOverride(req: Request, params: map<string, Option<string>>)
    ensures var b := Bundle(req, params);
      && b.Keys == params.Keys + {"headers", "url"}
      && ("headers" !in params ==> b["headers"] == HeaderRecord(req.headers))
      && ("url" !in params ==> b["url"] == Url(req.url))
      && forall name :: name in params ==> b[name] == (if params[name].Some? then Text(params[name].value) else Undefined)
  {
  }

  /** A later repeated parameter name wins. */
  lemma RepeatedNameLaterWins(a: string, b: string, groups: seq<Option<string>>)
    ensures RouteParams([a, b, a], groups)[a] == Group(groups, 3)
  {
    var names := [a, b, a];
    assert names[3..] == [];
  }

  /** The module-level `Endpoints` record of lib/dev.ts. */
  class Server {
    var buckets: map<Method, seq<Entry>>

    /** Every method has its bucket. */
    ghost predicate Valid()
      reads this
    {
      forall m: Method :: m in buckets
    }

    constructor ()
      ensures Valid()
      ensures forall m: Method :: buckets[m] == []
    {
      buckets := map[GET := [], HEAD := [], POST := [], PUT := [], DELETE := [],
                     CONNECT := [], OPTIONS := [], TRACE := [], PATCH := []];
      new;
      forall m: Method
        ensures m in buckets && buckets[m] == []
      {
        match m
        case GET =>
        case HEAD =>
        case POST =>
        case PUT =>
        case DELETE =>
        case CONNECT =>
        case OPTIONS =>
        case TRACE =>
        case PATCH =>
      }
    }

    /** pushRoute. */
    method PushRoute(verb: Method, regex: string, handler: Handler, parameters: seq<string>, contentType: ContentType)
      requires Valid()
      modifies this
      ensures Valid()
      ensures buckets[verb] == old(buckets[verb]) + [Entry(regex, handler, parameters, contentType)]
      ensures forall m :: m != verb ==> buckets[m] == old(buckets[m])
    {
      buckets := buckets[verb := buckets[verb] + [Entry(regex, handler, parameters, contentType)]];
    }

    /** The registration loop of Server, over the endpoints of the loaded
        route file. */
    method Register(endpoints: seq<Loaded>)
      requires Valid()
      modifies this
      ensures Valid()
      ensures forall m :: buckets[m] == old(buckets[m]) + EntriesFor(m, endpoints, |endpoints|)
    {
      for i := 0 to |endpoints|
        invariant Valid()
        invariant forall m :: buckets[m] == old(buckets[m]) + EntriesFor(m, endpoints, i)
      {
        ghost var before := buckets;
        RegisterOne(endpoints[i]);
        RegisteredNext(old(buckets), before, buckets, endpoints, i);
      }
    }

    /** One pass of the registration loop: the GET entry, then one entry
        for every other method key, in key order. */
    method RegisterOne(endpoint: Loaded)
      requires Valid()
      modifies this
      ensures Valid()
      ensures forall m :: buckets[m] == old(buckets[m]) + Added(m, endpoint, |endpoint.methods|)
    {
      if endpoint.hasDefault && GET in endpoint.methods {
        PushRoute(GET, endpoint.regex, TwoStep(ModuleGet(endpoint), RenderInLayout(endpoint)), endpoint.parameters, TextHtml);
      } else if endpoint.hasDefault {
        PushRoute(GET, endpoint.regex, Single(RenderDefault(endpoint)), endpoint.parameters, TextHtml);
      } else {
        PushRoute(GET, endpoint.regex, Single(ModuleGet(endpoint)), endpoint.parameters, ApplicationJson);
      }
      for j := 0 to |endpoint.methods|
        invariant Valid()
        invariant forall m :: buckets[m] == old(buckets[m]) + Added(m, endpoint, j)
      {
        var verb := endpoint.methods[j];
        ghost var before := buckets;
        if verb == GET {
          KeyStep(old(buckets), before, buckets, endpoint, j);
          continue;
        }
        PushRoute(verb, endpoint.regex, Single(ModuleCall(endpoint, Lower(MethodName(verb)))), endpoint.parameters, ApplicationJson);
        KeyStep(old(buckets), before, buckets, endpoint, j);
      }
    }

    /** The request handler. */
    method Handle<P>(req: Request, rt: Runtime<P>) returns (response: Response)
      ensures response == Dispatch(buckets, req, rt)
    {
      var m := MethodNamed(req.verb);
      if m.None? || m.value !in buckets {
        return Thrown;
      }
      var entries := buckets[m.value];
      var path := rt.pathname(req.url);
      for k := 0 to |entries|
        invariant FirstMatch(entries, path, rt, 0) == FirstMatch(entries, path, rt, k)
      {
        var entry := entries[k];
        var found := rt.exec(entry.regex, path);
        if found.None? || |found.value| == 0 {
          continue;
        }
        var groups := found.value;
        var routeParams: map<string, Option<string>> := map[];
        for i := 0 to |entry.parameters|
          invariant routeParams == RouteParams(entry.parameters[..i], groups)
        {
          routeParams := routeParams[entry.parameters[i] := Group(groups, i + 1)];
          ParamsStep(entry.parameters, groups, i);
        }
        assert entry.parameters[..|entry.parameters|] == entry.parameters;
        var contentType := ("Content-Type", ContentTypeText(entry.contentType));
        match entry.handler {
          case Single(f) =>
            if !Callable(f) {
              return Thrown;
            }
            return Response(200, [contentType], rt.call(f));
          case TwoStep(load, render) =>
            var passedParams := Bundle(req, routeParams);
            if !Callable(load) {
              return Thrown;
            }
            var result := rt.load(load, passedParams);
            var status := if result.status.None? || result.status.value == 0 then 200 else result.status.value;
            if result.headers.NotIterable? {
              return Thrown;
            }
            var headers := [contentType];
            var extra := HeaderPairs(result.headers);
            for h := 0 to |extra|
              invariant headers == [contentType] + extra[..h]
            {
              headers := headers + [extra[h]];
            }
            assert extra[..|extra|] == extra;
            var body := rt.render(render, result.props);
            status := UnsignedShort(status);
            if RefusedStatus(status) {
              return Thrown;
            }
            return Response(status, headers, body);
        }
      }
      return NotFound;
    }
  }

  /** One method key of the registration loop: GET adds nothing, any other
      key one call entry to its own bucket. */
  lemma KeyStep(b0: map<Method, seq<Entry>>, b1: map<Method, seq<Entry>>, b2: map<Method, seq<Entry>>,
                e: Loaded, j: nat)
    requires j < |e.methods|
    requires forall m: Method :: m in b0 && m in b1 && m in b2
    requires forall m :: b1[m] == b0[m] + Added(m, e, j)
    requires e.methods[j] == GET ==> b2 == b1
    requires e.methods[j] != GET ==> b2[e.methods[j]] == b1[e.methods[j]] + [CallEntry(e, e.methods[j])]
    requires e.methods[j] != GET ==> forall m :: m != e.methods[j] ==> b2[m] == b1[m]
    ensures forall m :: b2[m] == b0[m] + Added(m, e, j + 1)
  {
    forall m: Method
      ensures b2[m] == b0[m] + Added(m, e, j + 1)
    {
      if m == e.methods[j] && m != GET {
        AppendAssoc(b0[m], Added(m, e, j), [CallEntry(e, m)]);
      } else {
        AppendEmpty(Added(m, e, j));
      }
    }
  }

  /** Registering one more endpoint extends every bucket by what it adds. */
  lemma RegisteredNext(b0: map<Method, seq<Entry>>, b1: map<Method, seq<Entry>>, b2: map<Method, seq<Entry>>,
                       endpoints: seq<Loaded>, i: nat)
    requires i < |endpoints|
    requires forall m: Method :: m in b0 && m in b1 && m in b2
    requires forall m :: b1[m] == b0[m] + EntriesFor(m, endpoints, i)
    requires forall m :: b2[m] == b1[m] + Added(m, endpoints[i], |endpoints[i].methods|)
    ensures forall m :: b2[m] == b0[m] + EntriesFor(m, endpoints, i + 1)
  {
    forall m: Method
      ensures b2[m] == b0[m] + EntriesFor(m, endpoints, i + 1)
    {
      AppendAssoc(b0[m], EntriesFor(m, endpoints, i), Added(m, endpoints[i], |endpoints[i].methods|));
    }
  }

  /** The last position of a name after one more name is added. */
  lemma LastIndexSnoc(names: seq<string>, x: string, name: string)
    requires name in names + [x]
    ensures name == x ==> LastIndex(names + [x], name) == |names|
    ensures name != x ==> name in names && LastIndex(names + [x], name) == LastIndex(names, name)
  {
    var s := names + [x];
    assert s[|s| - 1] == x;
    if name != x {
      assert s[..|s| - 1] == names;
    }
  }

  lemma RouteParamsAt(names: seq<string>, groups: seq<Option<string>>, name: string)
    requires name in names
    ensures name in RouteParams(names, groups)
    ensures RouteParams(names, groups)[name] == Group(groups, LastIndex(names, name) + 1)
  {
    var params := RouteParams(names, groups);
    assert name in params.Keys;
  }

  /** Binding one more name keeps the later-wins parameters. */
  lemma ParamsStep(names: seq<string>, groups: seq<Option<string>>, i: nat)
    requires i < |names|
    ensures RouteParams(names[..i], groups)[names[i] := Group(groups, i + 1)] == RouteParams(names[..i + 1], groups)
  {
    var before, x := names[..i], names[i];
    var after := before + [x];
    assert names[..i + 1] == after;
    var old_ := RouteParams(before, groups);
    var lhs := old_[x := Group(groups, i + 1)];
    var rhs := RouteParams(after, groups);
    forall name | name in after
      ensures name in lhs && lhs[name] == rhs[name]
    {
      LastIndexSnoc(before, x, name);
      RouteParamsAt(after, groups, name);
      if name != x {
        RouteParamsAt(before, groups, name);
        assert lhs[name] == old_[name];
      }
    }
    assert lhs.Keys == rhs.Keys;
  }
}
