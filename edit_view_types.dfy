/**
  The scale editor's zoom levels and the styles of its vertical grid lines.
  A zoom level names the shortest note the grid shows; its raw value is how many
  such notes fit in a bar.
*/
module EditGrid {
  import opened Wrappers
  import opened Positions

  datatype ZoomLevel =
    | WholeNotes | HalfNotes | QuarterNotes | EighthNotes | SixteenthNotes | ThirtySecondNotes | SixtyFourthNotes

  /** The enum's raw value. */
  function RawValue(z: ZoomLevel): nat {
    match z
    case WholeNotes => 1
    case HalfNotes => 2
    case QuarterNotes => 4
    case EighthNotes => 8
    case SixteenthNotes => 16
    case ThirtySecondNotes => 32
    case SixtyFourthNotes => 64
  }

  /** `noteValue`: the same-named note type. */
  function ZoomNoteValue(z: ZoomLevel): (t: NoteType)
    ensures t != DoubleWhole
    ensures NoteValueOf(NoteDuration(t)) == if t == Sixteenth then None else Some(t)
  {
    match z
    case WholeNotes => Whole
    case HalfNotes => Half
    case QuarterNotes => Quarter
    case EighthNotes => Eighth
    case SixteenthNotes => Sixteenth
    case ThirtySecondNotes => ThirtySecond
    case SixtyFourthNotes => SixtyFourth
  }

  /** `zoomedIn`: the level showing notes half as long. */
  function ZoomedIn(z: ZoomLevel): (r: Option<ZoomLevel>)
    ensures r.None? <==> z == SixtyFourthNotes
    ensures r.Some? ==> RawValue(r.value) == 2 * RawValue(z)
  {
    match z
    case WholeNotes => Some(HalfNotes)
    case HalfNotes => Some(QuarterNotes)
    case QuarterNotes => Some(EighthNotes)
    case EighthNotes => Some(SixteenthNotes)
    case SixteenthNotes => Some(ThirtySecondNotes)
    case ThirtySecondNotes => Some(SixtyFourthNotes)
    case SixtyFourthNotes => None
  }

  /** `zoomedOut`: the level showing notes twice as long. */
  function ZoomedOut(z: ZoomLevel): (r: Option<ZoomLevel>)
    ensures r.None? <==> z == WholeNotes
    ensures r.Some? ==> 2 * RawValue(r.value) == RawValue(z)
  {
    match z
    case WholeNotes => None
    case HalfNotes => Some(WholeNotes)
    case QuarterNotes => Some(HalfNotes)
    case EighthNotes => Some(QuarterNotes)
    case SixteenthNotes => Some(EighthNotes)
    case ThirtySecondNotes => Some(SixteenthNotes)
    case SixtyFourthNotes => Some(ThirtySecondNotes)
  }

  /** The note types whose lines may carry a ruler text, longest first. */
  const MeasureTextOrder: seq<NoteType> := [Whole, Half, Quarter, Eighth, Sixteenth]

  /** `renderingMeasureTexts`: the note types whose lines carry a ruler text at this level. */
  function RenderingMeasureTexts(z: ZoomLevel): (r: seq<NoteType>)
    ensures 1 <= |r| <= |MeasureTextOrder| && r == MeasureTextOrder[..|r|]
  {
    match z
    case WholeNotes => [Whole]
    case HalfNotes => [Whole]
    case QuarterNotes => [Whole]
    case EighthNotes => [Whole, Half]
    case SixteenthNotes => [Whole, Half, Quarter]
    case ThirtySecondNotes => [Whole, Half, Quarter, Eighth]
    case SixtyFourthNotes => [Whole, Half, Quarter, Eighth, Sixteenth]
  }

  lemma RawValueInjective(y: ZoomLevel, z: ZoomLevel)
    requires RawValue(y) == RawValue(z)
    ensures y == z
  {
  }

  /** One grid step of a level, taken `RawValue` times, fills exactly one bar. */
  lemma ZoomStepFillsBar(z: ZoomLevel)
    ensures ToCents(NoteDuration(ZoomNoteValue(z))) * RawValue(z) == CentsPerBar
  {
    NoteDurationFillsTwoBars(ZoomNoteValue(z));
  }

  /** Zooming in and out undo each other wherever they are defined. */
  lemma ZoomRoundTrip(z: ZoomLevel)
    ensures ZoomedIn(z).Some? ==> ZoomedOut(ZoomedIn(z).value) == Some(z)
    ensures ZoomedOut(z).Some? ==> ZoomedIn(ZoomedOut(z).value) == Some(z)
  {
    if ZoomedIn(z).Some? {
      var y := ZoomedIn(z).value;
      assert ZoomedOut(y).Some?;
      RawValueInjective(ZoomedOut(y).value, z);
    }
    if ZoomedOut(z).Some? {
      var y := ZoomedOut(z).value;
      assert ZoomedIn(y).Some?;
      RawValueInjective(ZoomedIn(y).value, z);
    }
  }

  /** Zooming in never removes a ruler text: the list at a level is a prefix of the list one level in. */
  lemma RenderingTextsGrow(z: ZoomLevel)
    ensures ZoomedIn(z).Some? ==> RenderingMeasureTexts(z) <= RenderingMeasureTexts(ZoomedIn(z).value)
  {
  }

  /** Line styles; widths and colours are not modelled. `DefaultLine` is `GridLine.default`. */
  datatype GridLine =
    | DefaultLine | BarLine | HalfLine | QuarterLine | EighthLine | SixteenthLine | ThirtySecondLine | SixtyFourthLine

  /** The inner switch of `GridLine(from:)`: the line style for a note type. */
  function LineFor(t: NoteType): Option<GridLine> {
    match t
    case Whole => Some(BarLine)
    case Half => Some(HalfLine)
    case Quarter => Some(QuarterLine)
    case Eighth => Some(EighthLine)
    case Sixteenth => Some(SixteenthLine)
    case ThirtySecond => Some(ThirtySecondLine)
    case SixtyFourth => Some(SixtyFourthLine)
    case DoubleWhole => None
  }

  /** `GridLine(from:)`: the style of the line at a grid position, if it reads as a note type. */
  function GridLineFrom(p: ScaleNotePosition): (r: Option<GridLine>)
    ensures r.None? <==> NoteValueOf(p).None?
    ensures r == Some(BarLine) <==> IsBarPosition(p)
    ensures r == Some(HalfLine) <==> p.beat == 2 && p.subbeat == 0 && p.cent == 0
    ensures r != Some(DefaultLine) && r != Some(SixteenthLine)
  {
    match NoteValueOf(p)
    case Some(t) => LineFor(t)
    case None => None
  }
}
