/** The route-file generator of lib/routing.ts (serializeEndpoints): the
    import table becomes one `import * as ID from "PATH";` line per module,
    in insertion order, and every endpoint one object literal of the
    exported `routes` array. */
module Serializer {
  import opened Text
  import opened ImportTable
  import opened Walker
  import opened Endpoints

  /** The layout call chain of an endpoint: the outermost layout's default
      export applied to the next one's, down to the page slot. */
  function Nest(layouts: seq<string>): (s: string)
    ensures |layouts| == 0 ==> s == "slot"
    decreases |layouts|
  {
    if |layouts| == 0 then "slot" else layouts[0] + ".default(" + Nest(layouts[1..]) + ")"
  }

  /** The opening calls of the first `n` layouts, outermost first. */
  function Opens(layouts: seq<string>, n: nat): string
    requires n <= |layouts|
  {
    if n == 0 then "" else Opens(layouts, n - 1) + layouts[n - 1] + ".default("
  }

  lemma {:induction false} RepeatSnoc(s: string, n: nat)
    ensures Repeat(s, n + 1) == Repeat(s, n) + s
    decreases n
  {
    if n > 0 {
      RepeatSnoc(s, n - 1);
    }
  }

  /** The opening calls, the slot and the closing parentheses form the
      nested call chain. */
  lemma {:induction false} OpensNest(layouts: seq<string>)
    ensures Opens(layouts, |layouts|) + "slot" + Repeat(")", |layouts|) == Nest(layouts)
    decreases |layouts|
  {
    if |layouts| > 0 {
      var n := |layouts|;
      var rest := layouts[1..];
      OpensNest(rest);
      OpensShift(layouts, n);
      RepeatSnoc(")", n - 1);
      var l := layouts[0] + ".default(";
      calc {
        Opens(layouts, n) + "slot" + Repeat(")", n);
        l + Opens(rest, n - 1) + "slot" + (Repeat(")", n - 1) + ")");
        { AppendAssoc(l + Opens(rest, n - 1) + "slot", Repeat(")", n - 1), ")"); }
        l + Opens(rest, n - 1) + "slot" + Repeat(")", n - 1) + ")";
        { AppendAssoc(l, Opens(rest, n - 1) + "slot", Repeat(")", n - 1));
          AppendAssoc(l, Opens(rest, n - 1), "slot"); }
        l + (Opens(rest, n - 1) + "slot" + Repeat(")", n - 1)) + ")";
        l + Nest(rest) + ")";
      }
      AppendAssoc(layouts[0], ".default(", Nest(rest));
    }
  }

  /** Opening calls split off their first layout. */
  lemma {:induction false} OpensShift(layouts: seq<string>, n: nat)
    requires 0 < n <= |layouts|
    ensures Opens(layouts, n) == layouts[0] + ".default(" + Opens(layouts[1..], n - 1)
  {
    if n > 1 {
      OpensShift(layouts, n - 1);
      var l := layouts[0] + ".default(";
      AppendAssoc(l, Opens(layouts[1..], n - 2), layouts[n - 1] + ".default(");
      AppendAssoc(l + Opens(layouts[1..], n - 2), layouts[n - 1], ".default(");
      AppendAssoc(l, Opens(layouts[1..], n - 2) + layouts[n - 1], ".default(");
      AppendAssoc(l, Opens(layouts[1..], n - 2), layouts[n - 1]);
    }
  }

  /** The loop building `layoutString`: the call chain after two spaces,
      trimmed. */
  method LayoutString(layouts: seq<string>) returns (layoutString: string)
    ensures layoutString == Trim("  " + Nest(layouts))
  {
    layoutString := "  ";
    for i := 0 to |layouts|
      invariant layoutString == "  " + Opens(layouts, i)
    {
      layoutString := layoutString + layouts[i] + ".default(";
    }
    layoutString := layoutString + "slot" + Repeat(")", |layouts|);
    OpensNest(layouts);
    AppendAssoc("  ", Opens(layouts, |layouts|), "slot");
    AppendAssoc("  ", Opens(layouts, |layouts|) + "slot", Repeat(")", |layouts|));
    layoutString := Trim(layoutString);
  }

  lemma {:induction false} TrimSpaces(s: string)
    requires |s| > 0 && !IsSpace(s[0]) && !IsSpace(s[|s| - 1])
    ensures Trim("  " + s) == s
  {
    var t := "  " + s;
    assert TrimEnd(t) == t;
    assert t[1..][1..] == s;
    assert TrimStart(t) == TrimStart(t[1..]) == TrimStart(s) == s;
  }

  /** The call chain never ends with white space, and starts with the first
      layout identifier or with `slot`. */
  lemma {:induction false} NestEnds(layouts: seq<string>)
    ensures |Nest(layouts)| > 0 && Nest(layouts)[|Nest(layouts)| - 1] in {')', 't'}
    ensures |layouts| > 0 ==> Nest(layouts)[..|layouts[0]|] == layouts[0]
    ensures |layouts| > 0 && |layouts[0]| == 0 ==> Nest(layouts)[0] == '.'
  {
    if |layouts| > 0 {
      var s := Nest(layouts);
      assert s == layouts[0] + (".default(" + Nest(layouts[1..])) + ")";
    }
  }

  /** The trimmed `layoutString` is exactly the call chain, unless the
      outermost layout identifier starts with white space (generated
      identifiers start with `_`). */
  lemma LayoutNest(layouts: seq<string>)
    requires |layouts| == 0 || |layouts[0]| == 0 || !IsSpace(layouts[0][0])
    ensures Trim("  " + Nest(layouts)) == Nest(layouts)
  {
    NestEnds(layouts);
    var s := Nest(layouts);
    if |layouts| > 0 && |layouts[0]| > 0 {
      assert s[0] == s[..|layouts[0]|][0] == layouts[0][0];
    }
    TrimSpaces(s);
  }

  /** For the endpoints compiled from the root, with identifiers all
      generated by the compiler, every `layout` field of the route file is
      the nested call chain of the endpoint's layouts. */
  lemma GeneratedLayouts(t: Table, root: Route, exportsOf: string -> seq<string>)
    requires WellFormed(t) && Underscored(t)
    ensures var (es, t') := Compile(t, root, [], exportsOf);
      forall e :: e in es ==> Trim("  " + Nest(e.layouts)) == Nest(e.layouts)
  {
    CompileImported(t, root, [], exportsOf);
    CompileExtends(t, root, [], exportsOf);
    var (es, t') := Compile(t, root, [], exportsOf);
    forall e | e in es
      ensures Trim("  " + Nest(e.layouts)) == Nest(e.layouts)
    {
      if |e.layouts| > 0 {
        assert Imported(t', e);
        assert e.layouts[0] in Imports(t');
        var p :| p in t'.ids && t'.ids[p] == e.layouts[0];
      }
      LayoutNest(e.layouts);
    }
  }

  /** A page wrapped in two layouts: the first one is the outer call. */
  lemma TwoLayouts(outer: string, inner: string)
    ensures Nest([outer, inner]) == outer + ".default(" + inner + ".default(slot))"
  {
    var layouts := [outer, inner];
    assert layouts[1..] == [inner] && layouts[1..][1..] == [];
    assert Nest([inner]) == inner + ".default(slot)";
  }

  function Quoted(s: string): string {
    "\"" + s + "\""
  }

  /** Every item in double quotes, in order. */
  function QuoteAll(items: seq<string>): seq<string>
  {
    seq(|items|, i requires 0 <= i < |items| => Quoted(items[i]))
  }

  /** JSON.stringify of the `methods` record, whose keys are method names
      (no escaping needed) and whose values are all `true`. */
  function MethodsJson(methods: seq<string>): string {
    "{" + Join(seq(|methods|, i requires 0 <= i < |methods| => Quoted(methods[i]) + ":true"), ",") + "}"
  }

  function BoolText(b: bool): string {
    if b then "true" else "false"
  }

  /** The object literal of one endpoint, with its layout expression
      given. `regexText` is RegExp.prototype.toString and `errorText` the
      source text of the error renderer. */
  function Record(e: Endpoint, layout: string, regexText: string -> string, errorText: ErrorPage -> string): string {
    " { module: " + e.moduleId
    + ", regex: " + regexText(e.pattern)
    + ", parameters: [" + Join(QuoteAll(e.parameters), ", ")
    + "], methods: " + MethodsJson(e.methods)
    + ", hasDefault: " + BoolText(e.hasDefaultExport)
    + ", layout: (slot) => " + layout
    + ", error: " + errorText(e.error)
    + ", literal: " + Quoted(e.literal) + ", }"
  }

  /** The records of the endpoints, in order, each with its call chain. */
  function Records(endpoints: seq<Endpoint>, regexText: string -> string, errorText: ErrorPage -> string): (r: seq<string>)
    ensures |r| == |endpoints|
  {
    if |endpoints| == 0 then []
    else
      var last := endpoints[|endpoints| - 1];
      Records(endpoints[..|endpoints| - 1], regexText, errorText) + [Record(last, Trim("  " + Nest(last.layouts)), regexText, errorText)]
  }

  /** The `i`th record is the `i`th endpoint's. */
  lemma {:induction false} RecordAt(endpoints: seq<Endpoint>, regexText: string -> string, errorText: ErrorPage -> string, i: nat)
    requires i < |endpoints|
    ensures Records(endpoints, regexText, errorText)[i]
         == Record(endpoints[i], Trim("  " + Nest(endpoints[i].layouts)), regexText, errorText)
    decreases |endpoints|
  {
    var init := endpoints[..|endpoints| - 1];
    var last := endpoints[|endpoints| - 1];
    var record := Record(last, Trim("  " + Nest(last.layouts)), regexText, errorText);
    assert Records(endpoints, regexText, errorText) == Records(init, regexText, errorText) + [record];
    if i < |endpoints| - 1 {
      RecordAt(init, regexText, errorText, i);
      assert init[i] == endpoints[i];
    }
  }

  function ImportLine(path: string, id: string): string {
    "import * as " + id + " from " + Quoted(path) + ";"
  }

  /** One import line per entry of the table, in insertion order. */
  function ImportLines(t: Table): seq<string>
    requires forall p :: p in t.paths ==> p in t.ids
  {
    seq(|t.paths|, k requires 0 <= k < |t.paths| => ImportLine(t.paths[k], t.ids[t.paths[k]]))
  }

  /** The generated route file. */
  function RouteFile(t: Table, endpoints: seq<Endpoint>, regexText: string -> string, errorText: ErrorPage -> string): string
    requires forall p :: p in t.paths ==> p in t.ids
  {
    var routesList := "[\n" + Join(Records(endpoints, regexText, errorText), ",\n") + "\n]";
    Join(ImportLines(t), "\n") + "\n\nexport const routes = " + routesList + ";"
  }

  /** serializeEndpoints, reading the import table. */
  method SerializeEndpoints(t: Table, endpoints: seq<Endpoint>, regexText: string -> string, errorText: ErrorPage -> string)
    returns (file: string)
    requires WellFormed(t)
    ensures file == RouteFile(t, endpoints, regexText, errorText)
  {
    var records: seq<string> := [];
    for i := 0 to |endpoints|
      invariant records == Records(endpoints[..i], regexText, errorText)
    {
      var layoutString := LayoutString(endpoints[i].layouts);
      records := records + [Record(endpoints[i], layoutString, regexText, errorText)];
      assert endpoints[..i + 1][..i] == endpoints[..i];
    }
    assert endpoints[..|endpoints|] == endpoints;
    var routesList := "[\n" + Join(records, ",\n") + "\n]";
    var imports := Join(ImportLines(t), "\n");
    file := imports + "\n\nexport const routes = " + routesList + ";";
  }

  /** The import block has one line per table entry, in insertion order,
      when no path or identifier holds a line break. */
  lemma ImportBlockLines(t: Table)
    requires WellFormed(t) && |t.paths| > 0
    requires forall p :: p in t.ids ==> '\n' !in p && '\n' !in t.ids[p]
    ensures Split(Join(ImportLines(t), "\n"), '\n') == ImportLines(t)
  {
    var lines := ImportLines(t);
    forall k | 0 <= k < |lines|
      ensures '\n' !in lines[k]
    {
      var p := t.paths[k];
      assert lines[k] == "import * as " + t.ids[p] + " from \"" + p + "\";";
    }
    SplitJoin(lines, '\n');
  }
}
