/** The static renderer of ui.ts: every element is a value fixed at
    construction, and `emit`/`construct` are string expressions over it. */
module RootUi {
  import opened Text

  /** The four element classes. A list holds the elements its template
      makes from its items, in order. */
  datatype Element =
    | Base(text: string)
    | Paragraph(text: string)
    | List(items: seq<Element>)
    | Container(children: seq<Element>)

  /** emit. */
  function Emit(e: Element): string
    decreases e, 1
  {
    match e
    case Base(_) => ""
    case Paragraph(text) => "<p>" + text + "</p>"
    case List(items) => Join(Emits(items), " ")
    case Container(children) => "<div>" + Join(Emits(children), " ") + "</div>"
  }

  /** The outputs of the elements, one for each, in the same order. */
  function Emits(es: seq<Element>): (r: seq<string>)
    ensures |r| == |es|
    ensures forall i :: 0 <= i < |es| ==> r[i] == Emit(es[i])
    decreases es, 0
  {
    if |es| == 0 then [] else Emits(es[..|es| - 1]) + [Emit(es[|es| - 1])]
  }

  /** construct, which only a paragraph overrides. */
  function Construct(e: Element): string {
    if e.Paragraph? then "<p>" + e.text + "</p>" else ""
  }

  /** A base element and a paragraph construct what they emit; only a
      paragraph constructs anything. */
  lemma ConstructEmit(e: Element)
    ensures e.Base? || e.Paragraph? ==> Construct(e) == Emit(e)
    ensures Construct(e) != "" <==> e.Paragraph?
  {
  }

  /** A list emits nothing, and a container an empty `div`, exactly when
      there is no item, or a single item that itself emits nothing: the
      separator between two items is always there. */
  lemma EmptyOutput(items: seq<Element>)
    ensures Emit(List(items)) == "" <==> |items| == 0 || (|items| == 1 && Emit(items[0]) == "")
    ensures Emit(Container(items)) == "<div></div>" <==> |items| == 0 || (|items| == 1 && Emit(items[0]) == "")
  {
    var parts := Emits(items);
    if |items| >= 2 {
      assert Join(parts, " ") == parts[0] + " " + Join(parts[1..], " ");
    }
    assert Emit(Container(items)) == "<div>" + Emit(List(items)) + "</div>";
    if Emit(Container(items)) == "<div></div>" {
      assert |Emit(List(items))| == 0;
    }
  }

  /** A container emits what a list of its children emits, wrapped in a
      `div`. */
  lemma ContainerWrapsList(children: seq<Element>)
    ensures Emit(Container(children)) == "<div>" + Emit(List(children)) + "</div>"
  {
  }

  /** A list of one element emits what the element emits. */
  lemma SingleItem(e: Element)
    ensures Emit(List([e])) == Emit(e)
  {
    assert Emits([e]) == [Emit(e)];
  }

  /** The outputs of two lists side by side are the output of one list of
      all their items, in order. */
  lemma ListAppend(xs: seq<Element>, ys: seq<Element>)
    requires |xs| > 0 && |ys| > 0
    ensures Emit(List(xs + ys)) == Emit(List(xs)) + " " + Emit(List(ys))
  {
    assert Emits(xs + ys) == Emits(xs) + Emits(ys);
    JoinAppend(Emits(xs), Emits(ys), " ");
  }

  /** A paragraph emits its text between `<p>` and `</p>`, and nothing
      else. */
  lemma ParagraphText(e: Element)
    requires e.Paragraph?
    ensures var out := Emit(e);
      |out| == |e.text| + 7 && out[..3] == "<p>" && out[3..|out| - 4] == e.text && out[|out| - 4..] == "</p>"
  {
  }
}
