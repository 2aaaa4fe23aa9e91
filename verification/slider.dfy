/**
 * The before/after comparison slider: a position in percent, moved by
 * dragging with the mouse, by a click, or by the arrow keys, and the two
 * presentational values derived from it (the clip of the "before" image
 * and the handle's caption).
 */
module ComparisonSlider {

  datatype Slider = Slider(position: real, dragging: bool)

  const Initial: Slider := Slider(50.0, false)
  const KeyStep: real := 5.0

  /**
   * What reaches the container. `raw` is the pointer's horizontal offset as
   * a percentage of the container's width, `((x - left) / width) * 100`,
   * which may lie outside [0, 100].
   */
  datatype Event =
    | MouseMove(raw: real)
    | TouchStart
    | TouchMove(raw: real)
    | TouchEnd
    | MouseDown
    | MouseUp
    | MouseLeave
    | Click(raw: real)
    | KeyDown(key: string)

  function Max(a: real, b: real): real { if a >= b then a else b }
  function Min(a: real, b: real): real { if a <= b then a else b }

  /** `Math.min(Math.max(p, 0), 100)`. */
  function Clamp(p: real): (r: real)
    ensures 0.0 <= r <= 100.0
    ensures 0.0 <= p <= 100.0 ==> r == p
    ensures p < 0.0 ==> r == 0.0
    ensures p > 100.0 ==> r == 100.0
  {
    Min(Max(p, 0.0), 100.0)
  }

  /** A pointer move takes effect while dragging, and a click always does. */
  function Move(s: Slider, raw: real, isClick: bool): (r: Slider)
    ensures r.dragging == s.dragging
    ensures !s.dragging && !isClick ==> r == s
    ensures s.dragging || isClick ==> r.position == Clamp(raw)
  {
    if !s.dragging && !isClick then s
    else s.(position := Clamp(raw))
  }

  /** The arrow keys move the handle by five points within [0, 100]; any other key does nothing. */
  function Key(s: Slider, key: string): (r: Slider)
    ensures r.dragging == s.dragging
    ensures key == "ArrowLeft" ==> r.position == Max(0.0, s.position - KeyStep)
    ensures key == "ArrowRight" ==> r.position == Min(100.0, s.position + KeyStep)
    ensures key != "ArrowLeft" && key != "ArrowRight" ==> r == s
  {
    if key == "ArrowLeft" then s.(position := Max(0.0, s.position - KeyStep))
    else if key == "ArrowRight" then s.(position := Min(100.0, s.position + KeyStep))
    else s
  }

  /** The container's handlers as written: no handler for the touch start or end. */
  function Handle(s: Slider, e: Event): Slider {
    match e
    case MouseMove(raw) => Move(s, raw, false)
    case TouchMove(raw) => Move(s, raw, false)
    case Click(raw) => Move(s, raw, true)
    case MouseDown => s.(dragging := true)
    case MouseUp => s.(dragging := false)
    case MouseLeave => s.(dragging := false)
    case KeyDown(k) => Key(s, k)
    case TouchStart => s
    case TouchEnd => s
  }

  /** The handlers with touch dragging wired up like mouse dragging. */
  function HandleWithTouch(s: Slider, e: Event): Slider {
    match e
    case TouchStart => s.(dragging := true)
    case TouchEnd => s.(dragging := false)
    case _ => Handle(s, e)
  }

  function Step(s: Slider, e: Event, touch: bool): Slider {
    if touch then HandleWithTouch(s, e) else Handle(s, e)
  }

  function Run(s: Slider, es: seq<Event>, touch: bool): Slider
    decreases |es|
  {
    if |es| == 0 then s
    else Run(Step(s, es[0], touch), es[1..], touch)
  }

  predicate InRange(s: Slider) {
    0.0 <= s.position <= 100.0
  }

  lemma HandleKeepsRange(s: Slider, e: Event, touch: bool)
    requires InRange(s)
    ensures InRange(Handle(s, e)) && InRange(HandleWithTouch(s, e))
  {
  }

  /** Whatever the events, the handle stays within [0, 100]. */
  lemma {:induction false} RunKeepsRange(s: Slider, es: seq<Event>, touch: bool)
    requires InRange(s)
    ensures InRange(Run(s, es, touch))
    decreases |es|
  {
    if |es| > 0 {
      HandleKeepsRange(s, es[0], touch);
      RunKeepsRange(Step(s, es[0], touch), es[1..], touch);
    }
  }

  lemma InitialInRange(es: seq<Event>, touch: bool)
    ensures InRange(Run(Initial, es, touch))
  {
    RunKeepsRange(Initial, es, touch);
  }

  /** Releasing or leaving ends the drag: a move right after it changes nothing. */
  lemma ReleaseStopsDragging(s: Slider, release: Event, raw: real)
    requires release == MouseUp || release == MouseLeave
    ensures Handle(Handle(s, release), MouseMove(raw)) == Handle(s, release)
  {
  }

  /** One step left then one step right returns the handle wherever the left step was not cut short. */
  lemma ArrowRoundTrip(s: Slider)
    requires KeyStep <= s.position <= 100.0
    ensures Key(Key(s, "ArrowLeft"), "ArrowRight") == s
  {
  }

  /** The clip removes `100 - position` percent from the right of the "before" image. */
  function ClipRight(s: Slider): (inset: real)
    requires InRange(s)
    ensures 0.0 <= inset <= 100.0
    ensures inset + s.position == 100.0
  {
    100.0 - s.position
  }

  datatype Caption = PointsToAfter | PointsToBefore {
    function Text(): string {
      match this
      case PointsToAfter => "DESPUÉS →"
      case PointsToBefore => "← ANTES"
    }
  }

  /** Left of the middle the caption points right towards "after"; from the middle on it points back to "before". */
  function CaptionOf(s: Slider): (c: Caption)
    ensures c == PointsToAfter <==> s.position < 50.0
  {
    if s.position < 50.0 then PointsToAfter else PointsToBefore
  }

  lemma InitialCaption()
    ensures CaptionOf(Initial) == PointsToBefore
    ensures CaptionOf(Initial).Text() == "← ANTES"
  {
  }

  /** As written, a touch drag never moves the handle: nothing sets the dragging flag for touch. */
  lemma TouchDragIgnored(raw: real)
    ensures Run(Initial, [TouchStart, TouchMove(raw), TouchEnd], false) == Initial
  {
    TouchSequence(Initial, raw, false);
  }

  /** With touch dragging wired up, a touch drag puts the handle under the finger and releases it at the end. */
  lemma TouchDragFollowsFinger(s: Slider, raw: real)
    ensures Run(s, [TouchStart, TouchMove(raw), TouchEnd], true) == Slider(Clamp(raw), false)
  {
    TouchSequence(s, raw, true);
  }

  /** Unfolds a run over the three events of a touch drag. */
  lemma TouchSequence(s: Slider, raw: real, touch: bool)
    ensures Run(s, [TouchStart, TouchMove(raw), TouchEnd], touch)
      == Step(Step(Step(s, TouchStart, touch), TouchMove(raw), touch), TouchEnd, touch)
  {
    var es := [TouchStart, TouchMove(raw), TouchEnd];
    var s1 := Step(s, TouchStart, touch);
    var s2 := Step(s1, TouchMove(raw), touch);
    var s3 := Step(s2, TouchEnd, touch);
    assert es[1..] == [TouchMove(raw), TouchEnd];
    assert es[1..][1..] == [TouchEnd];
    assert Run(s3, [], touch) == s3;
    assert Run(s2, [TouchEnd], touch) == s3;
    assert Run(s1, es[1..], touch) == s3;
  }

  /** The two differ only on touch start and end; mouse, click and key events behave alike. */
  lemma TouchFixKeepsOtherEvents(s: Slider, e: Event)
    requires !e.TouchStart? && !e.TouchEnd?
    ensures HandleWithTouch(s, e) == Handle(s, e)
  {
  }
}
