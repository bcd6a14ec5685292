/**
 * The presentation library's object model, abstracted: a presentation is a
 * sequence of slides, a slide a sequence of shapes in document order, and
 * the slide-layout table maps the tool's slide types to layout numbers.
 */
module Slides {
  import opened Optional

  /**
   * A shape on a slide: its placeholder idx when it is a placeholder, whether
   * it has a text frame (Python's `hasattr(shape, "text")`), its text, and the
   * image file it shows when it is a picture.
   */
  datatype Shape = Shape(placeholder: Option<int>, holdsText: bool, text: string, image: Option<string>)

  /** A slide remembers the layout it was made from and holds its shapes in order. */
  datatype Slide = Slide(layout: nat, shapes: seq<Shape>)

  /** The picture shape `add_picture` appends: no placeholder, no text frame. */
  function Picture(file: string): Shape {
    Shape(None, false, "", Some(file))
  }

  /** The slide types the tool accepts. */
  const SlideTypes: set<string> := {"title", "content", "two_content", "section", "blank"}

  /** The tool's `_slide_layouts` table. */
  function LayoutIndex(slideType: string): (r: Option<nat>)
    ensures r.Some? <==> slideType in SlideTypes
    ensures r.Some? ==> r.value in {0, 1, 2, 3, 5}
  {
    match slideType
    case "title" => Some(0)
    case "content" => Some(1)
    case "two_content" => Some(3)
    case "section" => Some(2)
    case "blank" => Some(5)
    case _ => None
  }

  /** Distinct slide types use distinct layouts. */
  lemma LayoutIndexInjective(s: string, t: string)
    requires s in SlideTypes && t in SlideTypes && s != t
    ensures LayoutIndex(s) != LayoutIndex(t)
  {
  }

  /** What a shape lookup searches for. */
  datatype Want = TextFrame | PlaceholderIdx(idx: int)

  predicate Matches(s: Shape, w: Want) {
    match w
    case TextFrame => s.holdsText
    case PlaceholderIdx(i) => s.placeholder == Some(i)
  }

  /**
   * The position of the first shape, in shape order, that matches `w`.
   * `PlaceholderIdx(i)` is python-pptx's `slide.placeholders[i]` (and, for
   * idx 0, `slide.shapes.title`); `TextFrame` is the first text-capable shape.
   */
  function FirstMatch(shapes: seq<Shape>, w: Want): (k: Option<nat>)
    ensures k.Some? ==> k.value < |shapes| && Matches(shapes[k.value], w)
    ensures k.Some? ==> forall j | 0 <= j < k.value :: !Matches(shapes[j], w)
    ensures k.None? ==> forall j | 0 <= j < |shapes| :: !Matches(shapes[j], w)
  {
    if shapes == [] then None
    else if Matches(shapes[0], w) then Some(0)
    else match FirstMatch(shapes[1..], w)
      case None => None
      case Some(j) => Some(j + 1)
  }

  /** The slide after `shape.text = text` on its `j`-th shape: no other shape changes. */
  function WithText(slide: Slide, j: nat, text: string): (r: Slide)
    requires j < |slide.shapes|
    ensures r.layout == slide.layout && |r.shapes| == |slide.shapes|
    ensures r.shapes[j] == slide.shapes[j].(text := text)
    ensures forall m | 0 <= m < |r.shapes| && m != j :: r.shapes[m] == slide.shapes[m]
  {
    slide.(shapes := slide.shapes[j := slide.shapes[j].(text := text)])
  }
}
