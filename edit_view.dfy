/**
  The scale edit grid: turning a paint stroke between two grid positions into a note,
  stepping the zoom level, and laying out the measure lines along the top of the grid.
  Screen geometry is not modelled; positions arrive already read off the grid.
*/
module EditView {
  import opened Wrappers
  import opened Positions
  import opened PositionText
  import opened Notes
  import opened EditGrid

  /** The position with its cent field forced to 0. */
  function WithoutCent(p: ScaleNotePosition): (r: ScaleNotePosition)
    ensures r.cent == 0 && Beats(r) == Beats(p)
    ensures Normalized(p) ==> Normalized(r) && ToCents(r) <= ToCents(p)
  {
    BeatsIgnoreCent(p, 0);
    p.(cent := 0)
  }

  /** The length of a tap, and of a preview note: one subbeat. */
  const OneSubbeat := ScaleNotePosition(0, 0, 1, 0)

  /** `positions.sort()` on the two grid positions of a stroke. */
  function Sorted2(a: ScaleNotePosition, b: ScaleNotePosition): (r: (ScaleNotePosition, ScaleNotePosition))
    ensures !Less(r.1, r.0)
    ensures (r.0 == a && r.1 == b) || (r.0 == b && r.1 == a)
  {
    LessTrichotomy(a, b);
    if Less(b, a) then (b, a) else (a, b)
  }

  /** Forcing the cents to 0 keeps positions in order (not necessarily strictly). */
  lemma WithoutCentMonotone(a: ScaleNotePosition, b: ScaleNotePosition)
    requires !Less(b, a)
    ensures !Less(WithoutCent(b), WithoutCent(a))
  {
  }

  /** `noteForGesture`: the note a paint stroke from `startLoc` to `endLoc` draws in the row of `pitch`. */
  function NoteForGesture(pitch: Byte, startLoc: ScaleNotePosition, endLoc: ScaleNotePosition): (n: ScaleNote)
    ensures n.midiNote == pitch && n.velocity == 90
    ensures n.position == WithoutCent(startLoc) || n.position == WithoutCent(endLoc)
    ensures !Less(WithoutCent(startLoc), n.position) && !Less(WithoutCent(endLoc), n.position)
    ensures n.position.cent == 0
    ensures n.duration != Zero && n.duration.bar >= 0
  {
    var (s, e) := Sorted2(startLoc, endLoc);
    WithoutCentMonotone(s, e);
    LessTrichotomy(WithoutCent(s), WithoutCent(s));
    var sPos := WithoutCent(s);
    var ePos := WithoutCent(e);
    var duration := Sub(ePos, sPos);
    ScaleNote(pitch, 90, sPos, if duration == Zero then OneSubbeat else duration)
  }

  /** The preview note shown when a stroke begins: one subbeat at the cent-zeroed start. */
  function BeganPreviewNote(pitch: Byte, r: ScaleNotePosition): (n: ScaleNote)
    ensures n.midiNote == pitch && n.velocity == 90
    ensures n.position == WithoutCent(r) && n.duration == OneSubbeat
    ensures n.position.cent == 0 && Beats(n.position) == Beats(r)
    ensures ToCents(EndPosition(n)) == ToCents(n.position) + CentsPerSubbeat
  {
    ScaleNote(pitch, 90, WithoutCent(r), OneSubbeat)
  }

  /** A stroke that ends where it began draws exactly the preview note. */
  lemma PreviewIsTap(pitch: Byte, r: ScaleNotePosition)
    ensures NoteForGesture(pitch, r, r) == BeganPreviewNote(pitch, r)
  {
    SubSelf(WithoutCent(r));
  }

  /**
    The strokes that `noteForGesture` draws wrongly, given the sorted ends: the later end lies three
    beats before the earlier one within its bar and at an earlier subbeat, so the subtraction as
    written borrows two beats. A one-bar stroke from subbeat 3 to subbeat 0 escapes: the subtraction
    floors to zero and the tap length happens to be right.
  */
  predicate MisdrawnStroke(s: ScaleNotePosition, e: ScaleNotePosition) {
    e.beat - s.beat == -3 && e.subbeat < s.subbeat && !(e.bar - s.bar == 1 && e.subbeat - s.subbeat == -3)
  }

  /**
    On normalized grid positions every stroke except a misdrawn one is covered: the note ends at
    the later cent-zeroed position, or one subbeat after the start for a tap.
  */
  lemma GestureCoversStroke(pitch: Byte, a: ScaleNotePosition, b: ScaleNotePosition)
    requires Normalized(a) && Normalized(b)
    requires var (s, e) := Sorted2(a, b); !MisdrawnStroke(s, e)
    ensures var n := NoteForGesture(pitch, a, b);
      var ca, cb := ToCents(WithoutCent(a)), ToCents(WithoutCent(b));
      ToCents(EndPosition(n)) == if ca == cb then ca + CentsPerSubbeat else if ca < cb then cb else ca
  {
    var (s, e) := Sorted2(a, b);
    var sPos, ePos := WithoutCent(s), WithoutCent(e);
    if e.beat - s.beat == -3 && e.subbeat < s.subbeat {
      SubTwoUnitBeatBorrow(ePos, sPos);
      assert ToCents(ePos) == ToCents(sPos) + CentsPerSubbeat;
    } else {
      SubAgreesWhenSingleBorrow(ePos, sPos);
      assert NoteForGesture(pitch, a, b) == NoteForGestureIntended(pitch, a, b);
      GestureCoversStrokeIntended(pitch, a, b);
    }
  }

  /** A misdrawn stroke is not covered: the note ends neither at the later end nor one subbeat after the start. */
  lemma GestureMissesStroke(pitch: Byte, a: ScaleNotePosition, b: ScaleNotePosition)
    requires Normalized(a) && Normalized(b)
    requires var (s, e) := Sorted2(a, b); MisdrawnStroke(s, e)
    ensures var n := NoteForGesture(pitch, a, b);
      var ca, cb := ToCents(WithoutCent(a)), ToCents(WithoutCent(b));
      ToCents(EndPosition(n)) != if ca == cb then ca + CentsPerSubbeat else if ca < cb then cb else ca
  {
    var (s, e) := Sorted2(a, b);
    var sPos, ePos := WithoutCent(s), WithoutCent(e);
    SubTwoUnitBeatBorrow(ePos, sPos);
    assert ToCents(ePos) > ToCents(sPos);
  }

  /**
    The note drawn from `sPos` with the duration rule of `noteForGesture` ends at `ePos`, or one
    subbeat after `sPos` when the two coincide, provided `d` is the exact, normalized difference.
  */
  lemma StrokeEnd(pitch: Byte, sPos: ScaleNotePosition, ePos: ScaleNotePosition, d: ScaleNotePosition)
    requires Normalized(d) && ToCents(d) == ToCents(ePos) - ToCents(sPos)
    ensures var n := ScaleNote(pitch, 90, sPos, if d == Zero then OneSubbeat else d);
      ToCents(EndPosition(n)) == if ToCents(sPos) == ToCents(ePos) then ToCents(sPos) + CentsPerSubbeat else ToCents(ePos)
  {
    if d != Zero && ToCents(d) == 0 {
      NormalizedUnique(d, Zero);
    }
  }

  /**
    What the subtraction quirk does to a stroke: dragging from `0.3.1` to `1` covers three
    subbeats, yet the note is one subbeat long, because the subtraction floors the difference to zero.
  */
  lemma GestureQuirkExample()
    ensures var n := NoteForGesture(60, ScaleNotePosition(0, 3, 1, 0), ScaleNotePosition(1, 0, 0, 0));
      n.position == ScaleNotePosition(0, 3, 1, 0) && n.duration == OneSubbeat
    ensures ToCents(ScaleNotePosition(1, 0, 0, 0)) - ToCents(ScaleNotePosition(0, 3, 1, 0)) == 3 * CentsPerSubbeat
  {
    SubFloorsPositiveDifference();
  }

  /** `noteForGesture` with the intended subtraction in place of the source's `-`. */
  function NoteForGestureIntended(pitch: Byte, startLoc: ScaleNotePosition, endLoc: ScaleNotePosition): (n: ScaleNote)
    ensures n.midiNote == pitch && n.velocity == 90
    ensures n.position == WithoutCent(startLoc) || n.position == WithoutCent(endLoc)
    ensures !Less(WithoutCent(startLoc), n.position) && !Less(WithoutCent(endLoc), n.position)
    ensures n.position.cent == 0
    ensures n.duration != Zero && n.duration.bar >= 0
  {
    var (s, e) := Sorted2(startLoc, endLoc);
    WithoutCentMonotone(s, e);
    LessTrichotomy(WithoutCent(s), WithoutCent(s));
    var sPos := WithoutCent(s);
    var ePos := WithoutCent(e);
    var duration := SubIntended(ePos, sPos);
    ScaleNote(pitch, 90, sPos, if duration == Zero then OneSubbeat else duration)
  }

  /**
    With the intended subtraction every stroke over normalized positions is covered: the note
    ends at the later cent-zeroed position, or one subbeat after the start for a tap.
  */
  lemma GestureCoversStrokeIntended(pitch: Byte, a: ScaleNotePosition, b: ScaleNotePosition)
    requires Normalized(a) && Normalized(b)
    ensures var n := NoteForGestureIntended(pitch, a, b);
      var ca, cb := ToCents(WithoutCent(a)), ToCents(WithoutCent(b));
      ToCents(EndPosition(n)) == if ca == cb then ca + CentsPerSubbeat else if ca < cb then cb else ca
  {
    var (s, e) := Sorted2(a, b);
    var sPos, ePos := WithoutCent(s), WithoutCent(e);
    WithoutCentMonotone(s, e);
    LessMatchesCents(ePos, sPos);
    StrokeEnd(pitch, sPos, ePos, SubIntended(ePos, sPos));
  }

  /** On the stroke the source mishandles, the intended subtraction gives the three-subbeat note. */
  lemma GestureIntendedExample()
    ensures var n := NoteForGestureIntended(60, ScaleNotePosition(0, 3, 1, 0), ScaleNotePosition(1, 0, 0, 0));
      n.position == ScaleNotePosition(0, 3, 1, 0) && n.duration == ScaleNotePosition(0, 0, 3, 0)
  {
    SubFloorsPositiveDifference();
  }

  // ---------------------------------------------------------------------------
  // Measure lines

  /** `k` steps of `step` from zero, each added to the position before. */
  function Repeated(step: ScaleNotePosition, k: nat): ScaleNotePosition {
    if k == 0 then Zero else Add(Repeated(step, k - 1), step)
  }

  /** The position of the `k`-th measure line: `k` steps of the zoom level's note length from zero. */
  function LinePosition(z: ZoomLevel, k: nat): ScaleNotePosition {
    Repeated(NoteDuration(ZoomNoteValue(z)), k)
  }

  lemma NextLine(z: ZoomLevel, k: nat)
    ensures LinePosition(z, k + 1) == Add(LinePosition(z, k), NoteDuration(ZoomNoteValue(z)))
  {
  }

  /** `k` copies of `c` added up. */
  function Times(k: nat, c: int): int {
    if k == 0 then 0 else Times(k - 1, c) + c
  }

  lemma {:induction false} TimesIsProduct(k: nat, c: int)
    ensures Times(k, c) == k * c
  {
    if k > 0 {
      TimesIsProduct(k - 1, c);
      MulSucc(k - 1, c);
    }
  }

  /** `k` steps land `k` step values from zero. */
  lemma {:induction false} RepeatedCents(step: ScaleNotePosition, k: nat)
    ensures ToCents(Repeated(step, k)) == Times(k, ToCents(step))
  {
    if k > 0 {
      RepeatedCents(step, k - 1);
    }
  }

  /** Non-negative steps keep the position normalized and non-negative. */
  lemma {:induction false} RepeatedNormalized(step: ScaleNotePosition, k: nat)
    requires NonNegative(step)
    ensures Normalized(Repeated(step, k)) && NonNegative(Repeated(step, k))
  {
    if k > 0 {
      RepeatedNormalized(step, k - 1);
    }
  }

  /** The `k`-th line lies `k` note lengths after the start, in normalized form. */
  lemma LinePositionCents(z: ZoomLevel, k: nat)
    ensures ToCents(LinePosition(z, k)) == k * ToCents(NoteDuration(ZoomNoteValue(z)))
    ensures Normalized(LinePosition(z, k)) && NonNegative(LinePosition(z, k))
  {
    RepeatedCents(NoteDuration(ZoomNoteValue(z)), k);
    TimesIsProduct(k, ToCents(NoteDuration(ZoomNoteValue(z))));
    RepeatedNormalized(NoteDuration(ZoomNoteValue(z)), k);
  }

  lemma MulSucc(k: int, c: int)
    ensures k * c + c == (k + 1) * c
  {
  }

  /** Lines run strictly left to right. */
  lemma LinesIncrease(z: ZoomLevel, k: nat)
    ensures Less(LinePosition(z, k), LinePosition(z, k + 1))
  {
    LinePositionCents(z, k);
    LinePositionCents(z, k + 1);
    LessMatchesCents(LinePosition(z, k), LinePosition(z, k + 1));
  }

  /** `k` steps of a bar's `n`-th part make whole bars exactly when `n` divides `k`. */
  lemma WholeBarSteps(k: nat, c: nat, n: nat)
    requires 0 < n && 0 < c && c * n == CentsPerBar
    ensures (k * c) % CentsPerBar == 0 <==> k % n == 0
  {
    var q, r := k / n, k % n;
    assert k * c == q * CentsPerBar + r * c by {
      assert k == q * n + r;
      assert k * c == (q * n + r) * c == q * (n * c) + r * c;
    }
    assert 0 <= r * c < CentsPerBar by {
      assert r * c <= (n - 1) * c == n * c - c;
    }
    ModOfWholeBars(q, r * c);
    assert r * c == 0 <==> r == 0;
  }

  /** Exactly every `RawValue(z)`-th line falls on a bar. */
  lemma LineIsBar(z: ZoomLevel, k: nat)
    ensures IsBarPosition(LinePosition(z, k)) <==> k % RawValue(z) == 0
  {
    LinePositionCents(z, k);
    BarPositionIsWholeBars(LinePosition(z, k));
    ZoomStepFillsBar(z);
    WholeBarSteps(k, ToCents(NoteDuration(ZoomNoteValue(z))), RawValue(z));
  }

  lemma MulAssociates(a: int, b: int, c: int)
    ensures a * b * c == a * (b * c)
  {
  }

  /** After `barCount` bars' worth of lines the last one is the bar line `barCount`. */
  lemma LastLineClosesTheBars(z: ZoomLevel, barCount: nat)
    ensures LinePosition(z, barCount * RawValue(z)) == ScaleNotePosition(barCount, 0, 0, 0)
  {
    var n, c := RawValue(z), ToCents(NoteDuration(ZoomNoteValue(z)));
    var last := LinePosition(z, barCount * n);
    LinePositionCents(z, barCount * n);
    ZoomStepFillsBar(z);
    MulAssociates(barCount, n, c);
    assert ToCents(last) == barCount * CentsPerBar;
    NormalizedUnique(last, ScaleNotePosition(barCount, 0, 0, 0));
  }

  /** A line on the measure ruler: where it is, its style, and the text drawn beside it, if any. */
  datatype MeasureLine = MeasureLine(linePosition: ScaleNotePosition, style: GridLine, beatText: Option<string>)

  /** Whether the line at `p` carries a ruler text at zoom level `z`. */
  predicate ShowsBeatText(z: ZoomLevel, p: ScaleNotePosition) {
    NoteValueOf(p).Some? && NoteValueOf(p).value in RenderingMeasureTexts(z)
  }

  /** The line the measure loop creates at `p`: styled after its note value, labelled with `description`. */
  function MeasureLineAt(z: ZoomLevel, p: ScaleNotePosition): (m: MeasureLine)
    ensures m.linePosition == p
    ensures m.style == DefaultLine <==> NoteValueOf(p).None?
    ensures m.style == BarLine <==> IsBarPosition(p)
    ensures m.beatText.Some? <==> ShowsBeatText(z, p)
  {
    var style := match GridLineFrom(p) case Some(s) => s case None => DefaultLine;
    if ShowsBeatText(z, p) then
      MeasureLine(p, style, Some(Description(p)))
    else
      MeasureLine(p, style, None)
  }

  /** A ruler text reads back as the position of its line. */
  lemma BeatTextReadsBack(z: ZoomLevel, p: ScaleNotePosition)
    ensures MeasureLineAt(z, p).beatText.Some? ==> ParseDescription(MeasureLineAt(z, p).beatText.value) == Some(p)
  {
    DescriptionRoundTrip(p);
  }

  /** Every bar line is drawn as a bar and labelled with its bar number, at every zoom level. */
  lemma BarLinesLabelled(z: ZoomLevel, k: nat)
    requires k % RawValue(z) == 0
    ensures MeasureLineAt(z, LinePosition(z, k)).style == BarLine
    ensures MeasureLineAt(z, LinePosition(z, k)).beatText == Some(Description(LinePosition(z, k)))
  {
    LineIsBar(z, k);
    assert RenderingMeasureTexts(z)[0] == Whole;
  }

  /** `lines` are the first `n` measure lines and `verticals` their grid lines' styles. */
  ghost predicate RulerPrefix(z: ZoomLevel, lines: seq<MeasureLine>, verticals: seq<GridLine>, n: nat) {
    && |lines| == n && |verticals| == n
    && forall k {:trigger lines[k]} :: 0 <= k < n ==>
      lines[k] == MeasureLineAt(z, LinePosition(z, k)) && verticals[k] == lines[k].style
  }

  /** One pass of the measure loop extends the prefix by the line at the current position. */
  lemma RulerPrefixExtend(z: ZoomLevel, lines: seq<MeasureLine>, verticals: seq<GridLine>, n: nat, m: MeasureLine)
    requires RulerPrefix(z, lines, verticals, n)
    requires m == MeasureLineAt(z, LinePosition(z, n))
    ensures RulerPrefix(z, lines + [m], verticals + [m.style], n + 1)
  {
    var lines', verticals' := lines + [m], verticals + [m.style];
    forall k | 0 <= k < n + 1
      ensures lines'[k] == MeasureLineAt(z, LinePosition(z, k)) && verticals'[k] == lines'[k].style
    {
      if k < n {
        assert lines'[k] == lines[k] && verticals'[k] == verticals[k];
      }
    }
  }

  /**
    The loop of `resetMeasureViewsIfNeeded`: `lineCount + 1` measure lines starting from zero,
    each one note length of the zoom level after the previous, and the style of each vertical grid line.
  */
  method BuildRuler(z: ZoomLevel, lineCount: nat) returns (lines: seq<MeasureLine>, verticals: seq<GridLine>)
    ensures |lines| == lineCount + 1 && |verticals| == |lines|
    ensures forall k {:trigger lines[k]} :: 0 <= k < |lines| ==>
      lines[k] == MeasureLineAt(z, LinePosition(z, k)) && verticals[k] == lines[k].style
  {
    var step := NoteDuration(ZoomNoteValue(z));
    lines := [];
    verticals := [];
    var linePosition := Zero;
    for i := 0 to lineCount + 1
      invariant linePosition == LinePosition(z, i)
      invariant RulerPrefix(z, lines, verticals, i)
    {
      var measureLine := MeasureLineAt(z, linePosition);
      RulerPrefixExtend(z, lines, verticals, i, measureLine);
      lines := lines + [measureLine];
      verticals := verticals + [measureLine.style];
      NextLine(z, i);
      linePosition := Add(linePosition, step);
    }
  }

  /** The coarsest and finest levels a pinch may reach. */
  const MinZoomLevel := WholeNotes
  const MaxZoomLevel := ThirtySecondNotes

  /** The measure ruler of the edit grid and the vertical grid lines beneath it. */
  class MeasureGrid {
    var zoomLevel: ZoomLevel
    var needsRedrawBar: bool
    var measureLines: seq<MeasureLine>
    var verticalGridLines: seq<GridLine>

    /** A pinch never zooms the grid in past thirty-second notes. */
    predicate Valid()
      reads this
    {
      zoomLevel != SixtyFourthNotes
    }

    constructor ()
      ensures Valid()
      ensures zoomLevel == QuarterNotes && !needsRedrawBar && measureLines == [] && verticalGridLines == []
    {
      zoomLevel := QuarterNotes;
      needsRedrawBar := false;
      measureLines := [];
      verticalGridLines := [];
    }

    /** The level step of `didZoom` once a horizontal pinch has widened the beats past their maximum. */
    method ZoomIn()
      requires Valid()
      modifies this
      ensures Valid()
      ensures if old(zoomLevel) != MaxZoomLevel
        then ZoomedIn(old(zoomLevel)) == Some(zoomLevel) && needsRedrawBar
        else zoomLevel == old(zoomLevel) && needsRedrawBar == old(needsRedrawBar)
      ensures measureLines == old(measureLines) && verticalGridLines == old(verticalGridLines)
    {
      var zoom := ZoomedIn(zoomLevel);
      if zoom.Some? && zoom != ZoomedIn(MaxZoomLevel) {
        zoomLevel := zoom.value;
        needsRedrawBar := true;
      }
    }

    /** The level step of `didZoom` once a horizontal pinch has narrowed the beats past their minimum. */
    method ZoomOut()
      requires Valid()
      modifies this
      ensures Valid()
      ensures if old(zoomLevel) != MinZoomLevel
        then ZoomedOut(old(zoomLevel)) == Some(zoomLevel) && needsRedrawBar
        else zoomLevel == old(zoomLevel) && needsRedrawBar == old(needsRedrawBar)
      ensures measureLines == old(measureLines) && verticalGridLines == old(verticalGridLines)
    {
      var zoom := ZoomedOut(zoomLevel);
      if zoom.Some? && Some(zoom.value) != ZoomedOut(MinZoomLevel) {
        zoomLevel := zoom.value;
        needsRedrawBar := true;
      }
    }

    /**
      `resetMeasureViewsIfNeeded`: when a redraw is pending, rebuild one line per step of the
      zoom level's note length across `barCount` bars, both ends included.
    */
    method ResetMeasureViewsIfNeeded(barCount: nat)
      modifies this
      ensures zoomLevel == old(zoomLevel) && !needsRedrawBar
      ensures !old(needsRedrawBar) ==> measureLines == old(measureLines) && verticalGridLines == old(verticalGridLines)
      ensures old(needsRedrawBar) ==>
        && |measureLines| == barCount * RawValue(zoomLevel) + 1
        && |verticalGridLines| == |measureLines|
        && (forall k {:trigger measureLines[k]} :: 0 <= k < |measureLines| ==>
              measureLines[k] == MeasureLineAt(zoomLevel, LinePosition(zoomLevel, k))
              && verticalGridLines[k] == measureLines[k].style)
    {
      if !needsRedrawBar {
        return;
      }
      measureLines, verticalGridLines := BuildRuler(zoomLevel, barCount * RawValue(zoomLevel));
      needsRedrawBar := false;
    }
  }

  /** The eight bars of a new scale at quarter-note zoom: 33 lines, the last one the bar line `8`. */
  method DefaultRulerFixture() returns (count: nat, last: MeasureLine)
    ensures count == 33
    ensures last.linePosition == ScaleNotePosition(8, 0, 0, 0) && last.style == BarLine
    ensures last.beatText == Some("8")
  {
    var grid := new MeasureGrid();
    grid.needsRedrawBar := true;
    grid.ResetMeasureViewsIfNeeded(8);
    count := |grid.measureLines|;
    last := grid.measureLines[32];
    LastLineClosesTheBars(QuarterNotes, 8);
    BarLinesLabelled(QuarterNotes, 32);
  }
}
