/** The server-side renderer of lib/ui.ts: elements emit HTML into a
    `Context`, which collects their styles, with every class and id
    selector scoped to the element that declared it. */
module LibUi {
  import opened Text
  import opened PageRegex

  /** The length of the word run after a `.` or `#` at `k`; 0 when there
      is no selector there. */
  function SelectorRun(s: string, k: nat): (w: nat)
    requires k < |s|
    ensures k + 1 + w <= |s|
  {
    if s[k] == '.' || s[k] == '#' then WordRun(s, k + 1) else 0
  }

  /** Style scoping (`addStyle`): every `.` or `#` followed by a run of word
      characters gets the element id and `_` inserted after it, the run
      being taken whole; the scan resumes after the run. */
  function ScopeFrom(s: string, id: string, k: nat): string
    requires k <= |s|
    decreases |s| - k
  {
    if k == |s| then ""
    else if SelectorRun(s, k) > 0 then
      var w := SelectorRun(s, k);
      [s[k]] + id + "_" + s[k + 1..k + 1 + w] + ScopeFrom(s, id, k + 1 + w)
    else [s[k]] + ScopeFrom(s, id, k + 1)
  }

  function Scope(s: string, id: string): string {
    ScopeFrom(s, id, 0)
  }

  /** The number of selectors the scan rewrites from position `k`. */
  function Selectors(s: string, k: nat): nat
    requires k <= |s|
    decreases |s| - k
  {
    if k == |s| then 0
    else if SelectorRun(s, k) > 0 then 1 + Selectors(s, k + 1 + SelectorRun(s, k))
    else Selectors(s, k + 1)
  }

  /** Scoping inserts the id and `_` once per selector and changes nothing
      else in length. */
  lemma {:induction false} ScopeLength(s: string, id: string, k: nat)
    requires k <= |s|
    ensures |ScopeFrom(s, id, k)| == |s| - k + |Repeat(id + "_", Selectors(s, k))|
    decreases |s| - k
  {
    if k < |s| {
      if SelectorRun(s, k) > 0 {
        ScopeLength(s, id, k + 1 + SelectorRun(s, k));
        SelectorLength(s, id, k);
      } else {
        ScopeLength(s, id, k + 1);
        ScopeStep(s, id, k);
      }
    }
  }

  /** The length law carries over a rewritten selector. */
  lemma SelectorLength(s: string, id: string, k: nat)
    requires k < |s| && SelectorRun(s, k) > 0
    requires |ScopeFrom(s, id, k + 1 + SelectorRun(s, k))|
             == |s| - (k + 1 + SelectorRun(s, k)) + |Repeat(id + "_", Selectors(s, k + 1 + SelectorRun(s, k)))|
    ensures |ScopeFrom(s, id, k)| == |s| - k + |Repeat(id + "_", Selectors(s, k))|
  {
    var n := Selectors(s, k + 1 + SelectorRun(s, k));
    assert Selectors(s, k) == 1 + n;
    ScopeStep(s, id, k);
    assert |Repeat(id + "_", n + 1)| == |id| + 1 + |Repeat(id + "_", n)|;
  }

  /** One step of the scan. */
  lemma ScopeStep(s: string, id: string, k: nat)
    requires k < |s|
    ensures SelectorRun(s, k) > 0 ==>
      |ScopeFrom(s, id, k)| == 2 + |id| + SelectorRun(s, k) + |ScopeFrom(s, id, k + 1 + SelectorRun(s, k))|
    ensures SelectorRun(s, k) == 0 ==>
      |ScopeFrom(s, id, k)| == 1 + |ScopeFrom(s, id, k + 1)| && Selectors(s, k) == Selectors(s, k + 1)
  {
  }

  /** Text without `.` and `#` is left as it is. */
  lemma {:induction false} ScopeNoSelector(s: string, id: string, k: nat)
    requires k <= |s|
    requires forall j :: k <= j < |s| ==> s[j] != '.' && s[j] != '#'
    ensures ScopeFrom(s, id, k) == s[k..]
    decreases |s| - k
  {
    if k < |s| {
      ScopeNoSelector(s, id, k + 1);
      assert s[k..] == [s[k]] + s[k + 1..];
    }
  }

  /** The number of `id_` insertions the scan from `k` has made before it
      emits the character at `j`. */
  function Shift(s: string, k: nat, j: nat): nat
    requires k <= j < |s|
    decreases |s| - k
  {
    if j == k then 0
    else if SelectorRun(s, k) > 0 then
      if k + 1 + SelectorRun(s, k) <= j then 1 + Shift(s, k + 1 + SelectorRun(s, k), j) else 1
    else Shift(s, k + 1, j)
  }

  /** The scan from `k` stops at `j`, rather than passing over it as part
      of a selector's word run. */
  predicate Reached(s: string, k: nat, j: nat)
    requires k <= j < |s|
    decreases |s| - k
  {
    if j == k then true
    else if SelectorRun(s, k) > 0 then
      k + 1 + SelectorRun(s, k) <= j && Reached(s, k + 1 + SelectorRun(s, k), j)
    else Reached(s, k + 1, j)
  }

  /** Where the character at `j` lands in the style scoped from `k`. */
  function Place(s: string, id: string, k: nat, j: nat): nat
    requires k <= j < |s|
  {
    j - k + (|id| + 1) * Shift(s, k, j)
  }

  /** Character `c` sits at `p` in `out`, followed by `id_` when `sel`. */
  predicate Lands(out: string, c: char, id: string, p: int, sel: bool) {
    0 <= p < |out| && out[p] == c
    && (sel ==> p + 2 + |id| <= |out| && out[p + 1..p + 2 + |id|] == id + "_")
  }

  /** Prefixing text moves a landing place right by the prefix length. */
  lemma LandsAfter(head: string, t: string, c: char, id: string, p: int, sel: bool)
    requires Lands(t, c, id, p, sel)
    ensures Lands(head + t, c, id, |head| + p, sel)
  {
    if sel {
      assert (head + t)[|head| + p + 1..|head| + p + 2 + |id|] == t[p + 1..p + 2 + |id|];
    }
  }

  /** Text behind a selector, `id_` and a word run lands further right by
      their length. */
  lemma LandsPastSelector(c: char, run: string, rest: string, ch: char, id: string, p: int, sel: bool)
    requires Lands(rest, ch, id, p, sel)
    ensures Lands([c] + ((id + "_") + (run + rest)), ch, id, 2 + |id| + |run| + p, sel)
  {
    LandsAfter(run, rest, ch, id, p, sel);
    LandsAfter(id + "_", run + rest, ch, id, |run| + p, sel);
    LandsAfter([c], (id + "_") + (run + rest), ch, id, |id + "_"| + (|run| + p), sel);
  }

  /** A character put in front of `id_` lands first, followed by `id_`. */
  lemma TagLands(c: char, id: string, rest: string)
    ensures Lands([c] + ((id + "_") + rest), c, id, 0, true)
  {
    assert ([c] + ((id + "_") + rest))[1..2 + |id|] == id + "_";
  }

  /** A character of the text after `id_` lands after it. */
  lemma AfterTagLands(c: char, id: string, run: string, rest: string, q: nat)
    requires q < |run|
    ensures Lands([c] + ((id + "_") + (run + rest)), run[q], id, q + 2 + |id|, false)
  {
    assert ([c] + ((id + "_") + (run + rest)))[q + 2 + |id|] == run[q];
  }

  /** The selector or character the scan starts at lands first. */
  lemma HeadLands(s: string, id: string, k: nat)
    requires k < |s|
    ensures Lands(ScopeFrom(s, id, k), s[k], id, 0, SelectorRun(s, k) > 0)
  {
    var w := SelectorRun(s, k);
    var out := ScopeFrom(s, id, k);
    if w > 0 {
      var rest := s[k + 1..k + 1 + w] + ScopeFrom(s, id, k + 1 + w);
      assert out == [s[k]] + ((id + "_") + rest) by {
        ScopeCons(s, id, k);
      }
      TagLands(s[k], id, rest);
    } else {
      assert out == [s[k]] + ScopeFrom(s, id, k + 1) by {
        ScopeCons(s, id, k);
      }
    }
  }

  /** One step of the scan, with its pieces grouped from the right. */
  lemma ScopeCons(s: string, id: string, k: nat)
    requires k < |s|
    ensures SelectorRun(s, k) > 0 ==>
      ScopeFrom(s, id, k) == [s[k]] + ((id + "_") + (s[k + 1..k + 1 + SelectorRun(s, k)] + ScopeFrom(s, id, k + 1 + SelectorRun(s, k))))
    ensures SelectorRun(s, k) == 0 ==> ScopeFrom(s, id, k) == [s[k]] + ScopeFrom(s, id, k + 1)
  {
  }

  /** A character of a selector's word run lands after the inserted `id_`. */
  lemma RunLands(s: string, id: string, k: nat, j: nat)
    requires k < j < |s| && j < k + 1 + SelectorRun(s, k)
    ensures Lands(ScopeFrom(s, id, k), s[j], id, Place(s, id, k, j), Reached(s, k, j) && SelectorRun(s, j) > 0)
  {
    var next := k + 1 + SelectorRun(s, k);
    var run := s[k + 1..next];
    assert ScopeFrom(s, id, k) == [s[k]] + ((id + "_") + (run + ScopeFrom(s, id, next))) by {
      ScopeCons(s, id, k);
    }
    assert run[j - k - 1] == s[j];
    assert Place(s, id, k, j) == j - k + |id| + 1 && !Reached(s, k, j);
    AfterTagLands(s[k], id, run, ScopeFrom(s, id, next), j - k - 1);
  }

  /** Scoping keeps every character, each moved right by `id_` once per
      selector rewritten before it, and puts `id_` right after every
      selector the scan rewrites. */
  lemma {:induction false} ScopeAt(s: string, id: string, k: nat, j: nat)
    requires k <= j < |s|
    ensures Lands(ScopeFrom(s, id, k), s[j], id, Place(s, id, k, j), Reached(s, k, j) && SelectorRun(s, j) > 0)
    decreases |s| - k
  {
    var w := SelectorRun(s, k);
    if j == k {
      HeadLands(s, id, k);
    } else if w > 0 && k + 1 + w <= j {
      ScopeAt(s, id, k + 1 + w, j);
      SelectorStep(s, id, k, j);
    } else if w > 0 {
      RunLands(s, id, k, j);
    } else {
      ScopeAt(s, id, k + 1, j);
      PlainStep(s, id, k, j);
    }
  }

  /** The landing place carries over a rewritten selector before `j`. */
  lemma SelectorStep(s: string, id: string, k: nat, j: nat)
    requires k < j < |s| && SelectorRun(s, k) > 0 && k + 1 + SelectorRun(s, k) <= j
    requires Lands(ScopeFrom(s, id, k + 1 + SelectorRun(s, k)), s[j], id, Place(s, id, k + 1 + SelectorRun(s, k), j),
                   Reached(s, k + 1 + SelectorRun(s, k), j) && SelectorRun(s, j) > 0)
    ensures Lands(ScopeFrom(s, id, k), s[j], id, Place(s, id, k, j), Reached(s, k, j) && SelectorRun(s, j) > 0)
  {
    var next := k + 1 + SelectorRun(s, k);
    var run, rest := s[k + 1..next], ScopeFrom(s, id, next);
    var p, sel := Place(s, id, next, j), Reached(s, next, j) && SelectorRun(s, j) > 0;
    LandsPastSelector(s[k], run, rest, s[j], id, p, sel);
    assert ScopeFrom(s, id, k) == [s[k]] + ((id + "_") + (run + rest)) by {
      ScopeCons(s, id, k);
    }
    PlaceAfterSelector(s, id, k, j);
  }

  /** Past a rewritten selector, a character lands further right by the
      selector, `id_` and the word run. */
  lemma PlaceAfterSelector(s: string, id: string, k: nat, j: nat)
    requires k < j < |s| && SelectorRun(s, k) > 0 && k + 1 + SelectorRun(s, k) <= j
    ensures Place(s, id, k, j) == 2 + |id| + SelectorRun(s, k) + Place(s, id, k + 1 + SelectorRun(s, k), j)
    ensures Reached(s, k, j) == Reached(s, k + 1 + SelectorRun(s, k), j)
  {
    var next := k + 1 + SelectorRun(s, k);
    assert Shift(s, k, j) == 1 + Shift(s, next, j);
    assert (|id| + 1) * (1 + Shift(s, next, j)) == |id| + 1 + (|id| + 1) * Shift(s, next, j);
  }

  /** The landing place carries over a character that is no selector. */
  lemma PlainStep(s: string, id: string, k: nat, j: nat)
    requires k < j < |s| && SelectorRun(s, k) == 0
    requires Lands(ScopeFrom(s, id, k + 1), s[j], id, Place(s, id, k + 1, j), Reached(s, k + 1, j) && SelectorRun(s, j) > 0)
    ensures Lands(ScopeFrom(s, id, k), s[j], id, Place(s, id, k, j), Reached(s, k, j) && SelectorRun(s, j) > 0)
  {
    assert ScopeFrom(s, id, k) == [s[k]] + ScopeFrom(s, id, k + 1) by {
      ScopeCons(s, id, k);
    }
    assert Place(s, id, k, j) == 1 + Place(s, id, k + 1, j);
    assert Reached(s, k, j) == Reached(s, k + 1, j);
    LandsAfter([s[k]], ScopeFrom(s, id, k + 1), s[j], id, Place(s, id, k + 1, j), Reached(s, k + 1, j) && SelectorRun(s, j) > 0);
  }

  /** Every character of the style appears in the scoped style, in order,
      shifted right by `|id| + 1` for each selector rewritten before it. */
  lemma ScopeKeeps(s: string, id: string)
    ensures forall j :: 0 <= j < |s| ==>
      Place(s, id, 0, j) < |Scope(s, id)| && Scope(s, id)[Place(s, id, 0, j)] == s[j]
  {
    forall j | 0 <= j < |s|
      ensures Place(s, id, 0, j) < |Scope(s, id)| && Scope(s, id)[Place(s, id, 0, j)] == s[j]
    {
      ScopeAt(s, id, 0, j);
    }
  }

  /** The scoped style is empty exactly when the style is. */
  lemma ScopeEmpty(s: string, id: string)
    ensures |Scope(s, id)| == 0 <==> |s| == 0
  {
    ScopeLength(s, id, 0);
  }

  /** The styles `addStyle` keeps for an element: the scoped style, when
      there is one and it is not empty. */
  function OwnStyle(style: Option<string>, id: string): seq<string> {
    if style.Some? && |Scope(style.value, id)| != 0 then [Scope(style.value, id)] else []
  }

  datatype Kind = Base | ParagraphKind | ListKind | ContainerKind

  /** The value of an element and of everything below it. */
  datatype Node = Node(kind: Kind, id: string, text: string, styles: Option<string>, classes: seq<string>,
                       size: Option<string>, children: seq<Node>)

  /** `${x}` of an optional string inside a join: undefined gives the empty
      string. */
  function OrEmpty(r: Option<string>): string {
    if r.Some? then r.value else ""
  }

  /** What `emit` returns; the base element returns undefined. */
  function Render(n: Node): Option<string>
    decreases n, 1
  {
    match n.kind
    case Base => None
    case ParagraphKind =>
      Some("<p id=" + n.id + " " + (if n.size.Some? then " style=\"font-size: " + n.size.value + "\"" else "")
           + ">" + n.text + "</p>")
    case ListKind => Some(Join(Renders(n.children), " "))
    case ContainerKind =>
      var classAttr := if |n.classes| > 0 then "class=\"" + Join(n.classes, " ") + "\"" else "";
      Some("<div  id=" + n.id + " " + classAttr + ">" + Join(Renders(n.children), " ") + "</div>")
  }

  /** The children's outputs, undefined ones as empty strings. */
  function Renders(ns: seq<Node>): (r: seq<string>)
    ensures |r| == |ns|
    decreases ns, 0
  {
    if |ns| == 0 then [] else Renders(ns[..|ns| - 1]) + [OrEmpty(Render(ns[|ns| - 1]))]
  }

  /** The styles `emit` adds to the context, in order: its own first
      (except for a list), then those of its children in order. */
  function Collected(n: Node): seq<string>
    decreases n, 1
  {
    match n.kind
    case Base => OwnStyle(n.styles, n.id)
    case ParagraphKind => OwnStyle(n.styles, n.id)
    case ListKind => CollectedAll(n.children)
    case ContainerKind => OwnStyle(n.styles, n.id) + CollectedAll(n.children)
  }

  function CollectedAll(ns: seq<Node>): seq<string>
    decreases ns, 0
  {
    if |ns| == 0 then [] else CollectedAll(ns[..|ns| - 1]) + Collected(ns[|ns| - 1])
  }

  /** The document `Context.emit` returns. */
  function Document(head: seq<string>, styles: seq<string>, res: Option<string>): string {
    "<!DOCTYPE html>\n<html>\n    <head>\n      " + Join(head, "\n")
    + "\n      <style>\n        " + Join(styles, "\n")
    + "\n      </style>\n    </head>\n    <body>\n      " + (if res.Some? then res.value else "undefined")
    + "\n    </body>\n</html>"
  }

  /** A paragraph carries a `style` attribute exactly when it is sized: its
      output is the same as without a size, with the attribute inserted
      before the closing `>` of the tag. */
  lemma ParagraphSize(n: Node, size: string)
    requires n.kind == ParagraphKind && n.size.None?
    ensures var sized := Render(n.(size := Some(size))).value;
      var plain := Render(n).value;
      var cut := |"<p id=" + n.id + " "|;
      && sized == plain[..cut] + " style=\"font-size: " + size + "\"" + plain[cut..]
  {
    var head := "<p id=" + n.id + " ";
    var tail := ">" + n.text + "</p>";
    var plain := Render(n).value;
    assert plain == head + tail;
    assert plain[..|head|] == head;
    assert plain[|head|..] == tail;
  }

  /** A container's class attribute is empty exactly when it has no
      classes. */
  lemma ContainerClasses(n: Node)
    requires n.kind == ContainerKind
    ensures var out := Render(n).value;
      var head := "<div  id=" + n.id + " ";
      && |out| > |head| && out[..|head|] == head
      && (out[|head|] == '>' <==> |n.classes| == 0)
  {
    var out := Render(n).value;
    var head := "<div  id=" + n.id + " ";
    var classAttr := if |n.classes| > 0 then "class=\"" + Join(n.classes, " ") + "\"" else "";
    var rest := classAttr + ">" + Join(Renders(n.children), " ") + "</div>";
    assert out == head + rest;
    assert out[..|head|] == head;
    assert out[|head|] == rest[0];
  }

  /** A list registers no style of its own: an empty list collects
      nothing and outputs the empty string, whatever its styles. */
  lemma EmptyList(n: Node)
    requires n.kind == ListKind && |n.children| == 0
    ensures Collected(n) == [] && Render(n) == Some("")
  {
  }

  /** A container registers its own style before any of its children's. */
  lemma ContainerStyleFirst(n: Node)
    requires n.kind == ContainerKind && n.styles.Some? && |n.styles.value| > 0
    ensures |Collected(n)| > 0 && Collected(n)[0] == Scope(n.styles.value, n.id)
  {
    ScopeEmpty(n.styles.value, n.id);
  }

  class Context {
    var head: seq<string>
    var styles: seq<string>

    constructor ()
      ensures head == [] && styles == []
    {
      head, styles := [], [];
    }

    /** addStyle. */
    method AddStyle(style: Option<string>, id: string)
      modifies this
      ensures styles == old(styles) + OwnStyle(style, id)
      ensures head == old(head)
    {
      var scoped := if style.Some? then Some(Scope(style.value, id)) else None;
      if scoped.Some? && !(|scoped.value| == 0) {
        styles := styles + [scoped.value];
      }
    }

    /** Context.emit: the root is emitted first, so that every style it
        collects is in the document. */
    method Emit(root: Element) returns (doc: string)
      requires root.Valid()
      modifies this
      ensures doc == Document(old(head), old(styles) + Collected(root.Tree()), Render(root.Tree()))
      ensures styles == old(styles) + Collected(root.Tree())
      ensures head == old(head)
    {
      var res := root.Emit(this);
      doc := "<!DOCTYPE html>\n<html>\n    <head>\n      " + Join(head, "\n")
        + "\n      <style>\n        " + Join(styles, "\n")
        + "\n      </style>\n    </head>\n    <body>\n      " + (if res.Some? then res.value else "undefined")
        + "\n    </body>\n</html>";
    }
  }

  /** An element of any of the four kinds. A paragraph's size and the
      children of a list (the elements its template gives) or container
      are part of it. */
  class Element {
    var kind: Kind
    var id: string
    var text: string
    var styles: Option<string>
    var classes: seq<string>
    var size: Option<string>
    var children: seq<Element>
    ghost var Repr: set<Element>

    /** The element and its descendants form a finite acyclic structure. */
    ghost predicate Valid()
      reads this, Repr
      decreases Repr
    {
      && this in Repr
      && forall c :: c in children ==>
           && c in Repr && c.Repr <= Repr && this !in c.Repr
           && c.Valid()
    }

    ghost function Tree(): Node
      reads this, Repr
      requires Valid()
      decreases Repr, 1
    {
      Node(kind, id, text, styles, classes, size, SubTrees(|children|))
    }

    /** The values of the first `n` children. */
    ghost function SubTrees(n: nat): (r: seq<Node>)
      reads this, Repr
      requires Valid() && n <= |children|
      ensures |r| == n
      decreases Repr, 0, n
    {
      if n == 0 then [] else SubTrees(n - 1) + [children[n - 1].Tree()]
    }

    /** The `i`th of the children's values is the `i`th child's. */
    lemma {:induction false} SubTreesAt(n: nat)
      requires Valid() && n <= |children|
      ensures forall j :: 0 <= j < n ==> SubTrees(n)[j] == children[j].Tree()
      decreases n
    {
      if n > 0 {
        SubTreesAt(n - 1);
      }
    }

    /** `new Element()`, with the id `uniqueString` would draw. */
    constructor (id: string)
      ensures Valid() && Repr == {this}
      ensures Tree() == Node(Base, id, "", None, [], None, [])
    {
      this.kind, this.id, this.text, this.styles, this.classes, this.size, this.children := Base, id, "", None, [], None, [];
      Repr := {this};
    }

    /** `new Paragraph(text)`. */
    constructor Paragraph(id: string, text: string)
      ensures Valid() && Repr == {this}
      ensures Tree() == Node(ParagraphKind, id, text, None, [], None, [])
    {
      this.kind, this.id, this.text, this.styles, this.classes, this.size, this.children := ParagraphKind, id, text, None, [], None, [];
      Repr := {this};
    }

    /** `new List(template, ...children)`, given the elements the template
        yields for the children, in order. */
    constructor List(id: string, items: seq<Element>)
      requires forall c :: c in items ==> c.Valid()
      ensures Valid() && children == items && kind == ListKind && this.id == id
      ensures text == "" && styles == None && classes == [] && size == None
      ensures Tree().kind == ListKind && Tree().id == id && Tree().text == "" && Tree().styles == None
      ensures Tree().classes == [] && Tree().size == None && |Tree().children| == |items|
      ensures forall j :: 0 <= j < |items| ==> Tree().children[j] == items[j].Tree()
      ensures fresh(Repr - ReprOf(items))
    {
      this.kind, this.id, this.text, this.styles, this.classes, this.size, this.children := ListKind, id, "", None, [], None, items;
      Repr := {this} + ReprOf(items);
      new;
      ReprOfContains(items);
      SubTreesAt(|items|);
    }

    /** `new Container(...children)`. */
    constructor Container(id: string, items: seq<Element>)
      requires forall c :: c in items ==> c.Valid()
      ensures Valid() && children == items && kind == ContainerKind && this.id == id
      ensures text == "" && styles == None && classes == [] && size == None
      ensures Tree().kind == ContainerKind && Tree().id == id && Tree().text == "" && Tree().styles == None
      ensures Tree().classes == [] && Tree().size == None && |Tree().children| == |items|
      ensures forall j :: 0 <= j < |items| ==> Tree().children[j] == items[j].Tree()
      ensures fresh(Repr - ReprOf(items))
    {
      this.kind, this.id, this.text, this.styles, this.classes, this.size, this.children := ContainerKind, id, "", None, [], None, items;
      Repr := {this} + ReprOf(items);
      new;
      ReprOfContains(items);
      SubTreesAt(|items|);
    }

    /** addClass: the class name scoped to the element, added last. */
    method AddClass(name: string) returns (self: Element)
      requires Valid()
      modifies this
      ensures Valid() && self == this
      ensures classes == old(classes) + [id + "_" + name]
      ensures unchanged(this`kind, this`id, this`text, this`styles, this`size, this`children, this`Repr)
    {
      classes := classes + [id + "_" + name];
      return this;
    }

    /** styled: replaces the element's style. */
    method Styled(style: string) returns (self: Element)
      requires Valid()
      modifies this
      ensures Valid() && self == this
      ensures styles == Some(style)
      ensures unchanged(this`kind, this`id, this`text, this`classes, this`size, this`children, this`Repr)
    {
      styles := Some(style);
      return this;
    }

    /** Paragraph.sized. */
    method Sized(size: string) returns (self: Element)
      requires Valid() && kind == ParagraphKind
      modifies this
      ensures Valid() && self == this
      ensures this.size == Some(size)
      ensures unchanged(this`kind, this`id, this`text, this`styles, this`classes, this`children, this`Repr)
    {
      this.size := Some(size);
      return this;
    }

    /** emit: the element's output, with the styles it registers added to
        the context. */
    method Emit(context: Context) returns (r: Option<string>)
      requires Valid()
      modifies context
      ensures r == Render(old(Tree()))
      ensures context.styles == old(context.styles + Collected(Tree()))
      ensures context.head == old(context.head)
      decreases Repr, 1
    {
      ghost var tree := Tree();
      ghost var start := context.styles;
      if kind != ListKind {
        context.AddStyle(styles, id);
      }
      if kind == Base {
        return None;
      }
      if kind == ParagraphKind {
        return Some("<p id=" + id + " " + (if size.Some? then " style=\"font-size: " + size.value + "\"" else "")
                    + ">" + text + "</p>");
      }
      var parts := EmitChildren(context);
      if kind == ContainerKind {
        AppendAssoc(start, OwnStyle(styles, id), CollectedAll(tree.children));
      }
      var joined := Join(parts, " ");
      if kind == ListKind {
        return Some(joined);
      }
      var classAttr := if |classes| > 0 then "class=\"" + Join(classes, " ") + "\"" else "";
      return Some("<div  id=" + id + " " + classAttr + ">" + joined + "</div>");
    }

    /** The outputs of the children, in order, each emitted into the
        context in turn. */
    method EmitChildren(context: Context) returns (parts: seq<string>)
      requires Valid()
      modifies context
      ensures parts == old(Renders(SubTrees(|children|)))
      ensures context.styles == old(context.styles + CollectedAll(SubTrees(|children|)))
      ensures context.head == old(context.head)
      decreases Repr, 0
    {
      ghost var trees := SubTrees(|children|);
      SubTreesAt(|children|);
      parts := [];
      for i := 0 to |children|
        invariant parts == Renders(trees[..i])
        invariant context.styles == old(context.styles) + CollectedAll(trees[..i])
        invariant context.head == old(context.head)
        invariant forall j :: i <= j < |children| ==> children[j].Valid() && children[j].Tree() == trees[j]
      {
        var out := children[i].Emit(context);
        parts := parts + [if out.Some? then out.value else ""];
        PrefixNext(trees, i, old(context.styles));
      }
      assert trees[..|children|] == trees;
    }
  }

  /** One more value's output and styles. */
  lemma PrefixNext(ts: seq<Node>, i: nat, start: seq<string>)
    requires i < |ts|
    ensures Renders(ts[..i + 1]) == Renders(ts[..i]) + [OrEmpty(Render(ts[i]))]
    ensures start + CollectedAll(ts[..i + 1]) == start + CollectedAll(ts[..i]) + Collected(ts[i])
  {
    assert ts[..i + 1][..i] == ts[..i];
    AppendAssoc(start, CollectedAll(ts[..i]), Collected(ts[i]));
  }

  /** The elements below any of `items`, and the items themselves. */
  ghost function ReprOf(items: seq<Element>): set<Element>
    reads set c | c in items
  {
    if |items| == 0 then {} else ReprOf(items[..|items| - 1]) + items[|items| - 1].Repr
  }

  lemma {:induction false} ReprOfContains(items: seq<Element>)
    requires forall c :: c in items ==> c.Valid()
    ensures forall c :: c in items ==> c in ReprOf(items) && c.Repr <= ReprOf(items)
  {
    if |items| > 0 {
      var init := items[..|items| - 1];
      ReprOfContains(init);
      forall c | c in items
        ensures c in ReprOf(items) && c.Repr <= ReprOf(items)
      {
        if c != items[|items| - 1] {
          assert c in init;
        }
      }
    }
  }
}
