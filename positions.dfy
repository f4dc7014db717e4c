/**
  Exact musical time positions `bar.beat.subbeat.cent`, the mixed-radix numbers
  (radices 4 beats per bar, 4 subbeats per beat, 240 cents per subbeat) that the
  scale editor and the player use for note starts and note lengths.

  Fields are unbounded integers and nothing forces them into range: the source
  normalises only as a side effect of `+` and `-`, and its operators compute with
  Swift's truncating integer division, written out here as `TruncDiv`.
*/
module Positions {
  import opened Wrappers

  const CentsPerSubbeat := 240
  const SubbeatsPerBeat := 4
  const BeatsPerBar := 4
  const CentsPerBeat := 960
  const CentsPerBar := 3840

  /** A grid position or a note length. Equality is structural: `{0,4,0,0}` and `{1,0,0,0}` differ. */
  datatype ScaleNotePosition = ScaleNotePosition(bar: int, beat: int, subbeat: int, cent: int)

  /** The position at the very start of the grid. */
  const Zero := ScaleNotePosition(0, 0, 0, 0)

  /** Total value of a position in cents, reading every field with its place value. */
  function ToCents(p: ScaleNotePosition): int {
    p.bar * CentsPerBar + p.beat * CentsPerBeat + p.subbeat * CentsPerSubbeat + p.cent
  }

  /** Every field below the bar lies in its digit range. */
  predicate Normalized(p: ScaleNotePosition) {
    0 <= p.beat < BeatsPerBar && 0 <= p.subbeat < SubbeatsPerBeat && 0 <= p.cent < CentsPerSubbeat
  }

  predicate NonNegative(p: ScaleNotePosition) {
    p.bar >= 0 && p.beat >= 0 && p.subbeat >= 0 && p.cent >= 0
  }

  /** Every field below the bar is smaller than its radix in magnitude (the fields `+` leaves alone). */
  predicate WithinRadix(p: ScaleNotePosition) {
    -BeatsPerBar < p.beat < BeatsPerBar && -SubbeatsPerBeat < p.subbeat < SubbeatsPerBeat
    && -CentsPerSubbeat < p.cent < CentsPerSubbeat
  }

  /** Integer division rounding toward zero, which is what Swift's `/` on `Int` does. */
  function TruncDiv(a: int, b: int): (q: int)
    requires b > 0
    ensures a >= 0 ==> 0 <= q && q * b <= a < q * b + b
    ensures a < 0 ==> q <= 0 && q * b - b < a <= q * b
  {
    if a >= 0 then
      DivBounds(a, b);
      a / b
    else
      DivBounds(-a, b);
      -((-a) / b)
  }

  /** Euclidean division of a natural number brackets it between two multiples of the divisor. */
  lemma DivBounds(a: nat, b: int)
    requires b > 0
    ensures 0 <= a / b && (a / b) * b <= a < (a / b) * b + b
  {
    assert a == (a / b) * b + a % b;
  }

  /** `+`: field-wise sum with a carry from cents up to bars; bars are unbounded. */
  function Add(lhs: ScaleNotePosition, rhs: ScaleNotePosition): (r: ScaleNotePosition)
    ensures ToCents(r) == ToCents(lhs) + ToCents(rhs)
    ensures WithinRadix(r)
    ensures NonNegative(lhs) && NonNegative(rhs) ==> Normalized(r) && NonNegative(r)
  {
    var cents := lhs.cent + rhs.cent;
    var subbeatCarry := TruncDiv(cents, CentsPerSubbeat);
    var newCent := cents - subbeatCarry * CentsPerSubbeat;
    var subbeats := lhs.subbeat + rhs.subbeat + subbeatCarry;
    var beatCarry := TruncDiv(subbeats, SubbeatsPerBeat);
    var newSubbeat := subbeats - beatCarry * SubbeatsPerBeat;
    var beats := lhs.beat + rhs.beat + beatCarry;
    var barCarry := TruncDiv(beats, BeatsPerBar);
    var newBeat := beats - barCarry * BeatsPerBar;
    ScaleNotePosition(lhs.bar + rhs.bar + barCarry, newBeat, newSubbeat, newCent)
  }

  /**
    One borrow step of `-` exactly as written: when `diff` is negative, borrow
    `1 + (-diff) / radix` units and set the field to `radix + diff * units`.
    The field is right only when a single unit is borrowed.
  */
  function BorrowAsWritten(diff: int, radix: int): (r: (int, int))
    requires radix > 0
    ensures diff >= 0 ==> r == (0, diff)
    ensures -radix < diff < 0 ==> r == (1, diff + radix)
    ensures diff <= -radix ==> r.0 >= 2
  {
    if diff < 0 then
      var units := 1 + TruncDiv(-diff, radix);
      (units, radix + diff * units)
    else
      (0, diff)
  }

  /** `-`: field-wise difference with the source's borrow formula; a negative bar gives `Zero`. */
  function Sub(lhs: ScaleNotePosition, rhs: ScaleNotePosition): (r: ScaleNotePosition)
    ensures r.bar >= 0
    ensures Less(lhs, rhs) ==> r == Zero
  {
    var (subbeatCarry, newCent) := BorrowAsWritten(lhs.cent - rhs.cent, CentsPerSubbeat);
    var (beatCarry, newSubbeat) := BorrowAsWritten(lhs.subbeat - rhs.subbeat - subbeatCarry, SubbeatsPerBeat);
    var (barCarry, newBeat) := BorrowAsWritten(lhs.beat - rhs.beat - beatCarry, BeatsPerBar);
    var newBar := lhs.bar - rhs.bar - barCarry;
    if newBar < 0 then Zero else ScaleNotePosition(newBar, newBeat, newSubbeat, newCent)
  }

  /** One borrow step as intended: borrow as many units as make the field non-negative. */
  function BorrowIntended(diff: int, radix: int): (r: (int, int))
    requires radix > 0
    ensures r.0 >= 0 && r.1 == diff + r.0 * radix
    ensures diff < radix ==> 0 <= r.1 < radix
    ensures diff >= 0 ==> r == (0, diff)
  {
    if diff < 0 then
      var units := (-diff + radix - 1) / radix;
      (units, diff + units * radix)
    else
      (0, diff)
  }

  /** `-` with the intended borrow: each field borrows as many units as bring it into range, so the difference is exact and saturates at zero. */
  function SubIntended(lhs: ScaleNotePosition, rhs: ScaleNotePosition): (r: ScaleNotePosition)
    ensures r.bar >= 0
    ensures Normalized(lhs) && Normalized(rhs) ==>
      Normalized(r) && ToCents(r) == if ToCents(lhs) < ToCents(rhs) then 0 else ToCents(lhs) - ToCents(rhs)
  {
    var (subbeatCarry, newCent) := BorrowIntended(lhs.cent - rhs.cent, CentsPerSubbeat);
    var (beatCarry, newSubbeat) := BorrowIntended(lhs.subbeat - rhs.subbeat - subbeatCarry, SubbeatsPerBeat);
    var (barCarry, newBeat) := BorrowIntended(lhs.beat - rhs.beat - beatCarry, BeatsPerBar);
    var newBar := lhs.bar - rhs.bar - barCarry;
    if newBar < 0 then Zero else ScaleNotePosition(newBar, newBeat, newSubbeat, newCent)
  }

  /** `<`: lexicographic on (bar, beat, subbeat, cent). */
  predicate Less(lhs: ScaleNotePosition, rhs: ScaleNotePosition) {
    if lhs.bar < rhs.bar then true
    else if lhs.bar == rhs.bar then
      if lhs.beat < rhs.beat then true
      else if lhs.beat == rhs.beat then
        if lhs.subbeat < rhs.subbeat then true
        else lhs.subbeat == rhs.subbeat && lhs.cent < rhs.cent
      else false
    else false
  }

  /** `isBarPosition`: the position is the first instant of a bar. */
  predicate IsBarPosition(p: ScaleNotePosition) {
    p.beat == 0 && p.subbeat == 0 && p.cent == 0
  }

  /** `beats()`: linear beats with 4 beats to the bar; cents are dropped. Exact here, `Float32` there. */
  function Beats(p: ScaleNotePosition): (r: real)
    ensures r * 960.0 == (ToCents(p) - p.cent) as real
  {
    p.beat as real + p.bar as real * 4.0 + p.subbeat as real / 4.0
  }

  /** The values `hash(into:)` feeds to the hasher, in order. */
  function HashFeed(p: ScaleNotePosition): seq<int> {
    [p.bar, p.beat, p.subbeat, p.cent]
  }

  /** Note types of the music-theory library (its dotted/triplet modifiers are not used here). */
  datatype NoteType = DoubleWhole | Whole | Half | Quarter | Eighth | Sixteenth | ThirtySecond | SixtyFourth

  /** How many notes of type `t` fill two bars. */
  function NotesPerTwoBars(t: NoteType): nat {
    match t
    case DoubleWhole => 1
    case Whole => 2
    case Half => 4
    case Quarter => 8
    case Eighth => 16
    case Sixteenth => 32
    case ThirtySecond => 64
    case SixtyFourth => 128
  }

  /** `noteValue`: the note type a length reads as; the checks are tried in the source's order. */
  function NoteValueOf(p: ScaleNotePosition): (r: Option<NoteType>)
    ensures r == Some(Whole) <==> p.beat == 0 && p.subbeat == 0 && p.cent == 0
    ensures r == Some(Half) <==> p.beat == 2 && p.subbeat == 0 && p.cent == 0
    ensures r == Some(Quarter) <==> p.beat != 0 && p.beat != 2 && p.subbeat == 0 && p.cent == 0
    ensures r == Some(Eighth) <==> p.subbeat == 2 && p.cent == 0
    ensures r == Some(ThirtySecond) <==> p.cent == 120
    ensures r == Some(SixtyFourth) <==> p.cent == 60
    ensures r != Some(DoubleWhole) && r != Some(Sixteenth)
  {
    if p.beat == 0 && p.subbeat == 0 && p.cent == 0 then Some(Whole)
    else if p.beat == 2 && p.subbeat == 0 && p.cent == 0 then Some(Half)
    else if p.subbeat == 0 && p.cent == 0 then Some(Quarter)
    else if p.subbeat == 2 && p.cent == 0 then Some(Eighth)
    else if p.cent == 120 then Some(ThirtySecond)
    else if p.cent == 60 then Some(SixtyFourth)
    else None
  }

  /** `noteDuration`: the length of one note of type `t`; a whole note lasts one bar. */
  function NoteDuration(t: NoteType): (r: ScaleNotePosition)
    ensures Normalized(r) && NonNegative(r)
    ensures t != DoubleWhole && t != Sixteenth ==> NoteValueOf(r) == Some(t)
    ensures t == DoubleWhole ==> NoteValueOf(r) == Some(Whole)
    ensures t == Sixteenth ==> NoteValueOf(r) == None
  {
    match t
    case DoubleWhole => ScaleNotePosition(2, 0, 0, 0)
    case Whole => ScaleNotePosition(1, 0, 0, 0)
    case Half => ScaleNotePosition(0, 2, 0, 0)
    case Quarter => ScaleNotePosition(0, 1, 0, 0)
    case Eighth => ScaleNotePosition(0, 0, 2, 0)
    case Sixteenth => ScaleNotePosition(0, 0, 1, 0)
    case ThirtySecond => ScaleNotePosition(0, 0, 0, 120)
    case SixtyFourth => ScaleNotePosition(0, 0, 0, 60)
  }

  /** `NotesPerTwoBars(t)` notes of type `t` fill exactly two bars. */
  lemma NoteDurationFillsTwoBars(t: NoteType)
    ensures ToCents(NoteDuration(t)) * NotesPerTwoBars(t) == 2 * CentsPerBar
  {
  }

  // ---------------------------------------------------------------------------
  // Addition

  lemma AddCommutes(a: ScaleNotePosition, b: ScaleNotePosition)
    ensures Add(a, b) == Add(b, a)
  {
  }

  /** `Zero` is an identity of `+` exactly for the positions whose fields are within their radix. */
  lemma AddZeroIdentity(p: ScaleNotePosition)
    ensures Add(p, Zero) == Add(Zero, p)
    ensures Add(p, Zero) == p <==> WithinRadix(p)
    ensures Normalized(p) ==> Add(p, Zero) == p
  {
    AddCommutes(p, Zero);
    if Add(p, Zero) == p {
      assert WithinRadix(Add(p, Zero));
    }
  }

  /** Normalized positions are determined by their total value. */
  lemma NormalizedUnique(p: ScaleNotePosition, q: ScaleNotePosition)
    requires Normalized(p) && Normalized(q)
    requires ToCents(p) == ToCents(q)
    ensures p == q
  {
    if Less(p, q) {
      LessMatchesCents(p, q);
    } else if Less(q, p) {
      LessMatchesCents(q, p);
    } else {
      LessTrichotomy(p, q);
    }
  }

  /** On non-negative positions `+` is associative. */
  lemma AddAssociative(a: ScaleNotePosition, b: ScaleNotePosition, c: ScaleNotePosition)
    requires NonNegative(a) && NonNegative(b) && NonNegative(c)
    ensures Add(Add(a, b), c) == Add(a, Add(b, c))
  {
    NormalizedUnique(Add(Add(a, b), c), Add(a, Add(b, c)));
  }

  // ---------------------------------------------------------------------------
  // Order

  /** `<` with structural equality is a strict total order. */
  lemma LessTrichotomy(a: ScaleNotePosition, b: ScaleNotePosition)
    ensures !Less(a, a)
    ensures Less(a, b) || a == b || Less(b, a)
    ensures !(Less(a, b) && Less(b, a))
  {
  }

  lemma LessTransitive(a: ScaleNotePosition, b: ScaleNotePosition, c: ScaleNotePosition)
    requires Less(a, b) && Less(b, c)
    ensures Less(a, c)
  {
  }

  /** On normalized positions the lexicographic order is the order of total values. */
  lemma LessMatchesCents(p: ScaleNotePosition, q: ScaleNotePosition)
    requires Normalized(p) && Normalized(q)
    ensures Less(p, q) <==> ToCents(p) < ToCents(q)
  {
    if Less(p, q) {
      assert ToCents(p) < ToCents(q);
    } else if p == q {
    } else {
      LessTrichotomy(p, q);
      assert ToCents(q) < ToCents(p);
    }
  }

  // ---------------------------------------------------------------------------
  // Subtraction

  lemma SubSelf(p: ScaleNotePosition)
    ensures Sub(p, p) == Zero
  {
  }

  lemma SubZero(p: ScaleNotePosition)
    requires NonNegative(p)
    ensures Sub(p, Zero) == p
  {
  }

  /**
    No field of `a - b` borrows more than one unit. The cent field never does on normalized
    operands; the subbeat and the beat field do once their difference, less the borrow from
    below, reaches minus the radix.
  */
  predicate SingleBorrows(a: ScaleNotePosition, b: ScaleNotePosition) {
    var subbeatDiff := a.subbeat - b.subbeat - (if a.cent < b.cent then 1 else 0);
    var beatDiff := a.beat - b.beat - (if subbeatDiff < 0 then 1 else 0);
    subbeatDiff > -SubbeatsPerBeat && beatDiff > -BeatsPerBar
  }

  /**
    When no field needs more than one unit of borrow, the source's `-` agrees with the
    intended one, and so it is exact.
  */
  lemma SubAgreesWhenSingleBorrow(a: ScaleNotePosition, b: ScaleNotePosition)
    requires Normalized(a) && Normalized(b) && SingleBorrows(a, b)
    ensures Sub(a, b) == SubIntended(a, b)
  {
    var (subbeatCarry, _) := BorrowIntended(a.cent - b.cent, CentsPerSubbeat);
    SingleBorrowAgrees(a.cent - b.cent, CentsPerSubbeat);
    var (beatCarry, _) := BorrowIntended(a.subbeat - b.subbeat - subbeatCarry, SubbeatsPerBeat);
    SingleBorrowAgrees(a.subbeat - b.subbeat - subbeatCarry, SubbeatsPerBeat);
    SingleBorrowAgrees(a.beat - b.beat - beatCarry, BeatsPerBar);
  }

  /**
    With equal cents, the one way in which normalized operands make the source's `-` borrow more
    than one unit: the beat difference is −3 and the subbeat borrows too, so the beat field borrows
    two units and the bar comes out one too low.
  */
  lemma SubTwoUnitBeatBorrow(a: ScaleNotePosition, b: ScaleNotePosition)
    requires Normalized(a) && Normalized(b) && a.cent == b.cent
    requires a.beat - b.beat == -3 && a.subbeat < b.subbeat
    ensures Sub(a, b) ==
      if a.bar - b.bar < 2 then Zero
      else ScaleNotePosition(a.bar - b.bar - 2, -4, a.subbeat - b.subbeat + 4, 0)
  {
    assert BorrowAsWritten(0, CentsPerSubbeat) == (0, 0);
    assert BorrowAsWritten(a.subbeat - b.subbeat, SubbeatsPerBeat) == (1, a.subbeat - b.subbeat + 4);
    assert BorrowAsWritten(-4, BeatsPerBar) == (2, -4);
  }

  /** Within one unit of borrow, the source's borrow step and the intended one agree. */
  lemma SingleBorrowAgrees(diff: int, radix: int)
    requires radix == CentsPerSubbeat || radix == SubbeatsPerBeat
    requires diff > -radix
    ensures BorrowAsWritten(diff, radix) == BorrowIntended(diff, radix)
  {
    if diff < 0 {
      assert radix <= -diff + radix - 1 < 2 * radix;
      assert (-diff + radix - 1) / radix == 1;
    }
  }

  /** A more-than-one-unit borrow leaves a negative subbeat: `{1,0,0,0} - {0,0,3,1}`. */
  lemma SubMultiUnitBorrow()
    ensures Sub(ScaleNotePosition(1, 0, 0, 0), ScaleNotePosition(0, 0, 3, 1)) == ScaleNotePosition(0, 2, -4, 239)
    ensures SubIntended(ScaleNotePosition(1, 0, 0, 0), ScaleNotePosition(0, 0, 3, 1)) == ScaleNotePosition(0, 3, 0, 239)
  {
    assert BorrowAsWritten(-1, CentsPerSubbeat) == (1, 239);
    assert BorrowAsWritten(-4, SubbeatsPerBeat) == (2, -4);
    assert BorrowAsWritten(-2, BeatsPerBar) == (1, 2);
    assert BorrowIntended(-1, CentsPerSubbeat) == (1, 239);
    assert BorrowIntended(-4, SubbeatsPerBeat) == (1, 0);
    assert BorrowIntended(-1, BeatsPerBar) == (1, 3);
  }

  /** The source's `-` can floor a positive difference to zero: `{1,0,0,0} - {0,3,1,0}` is three subbeats. */
  lemma SubFloorsPositiveDifference()
    ensures Less(ScaleNotePosition(0, 3, 1, 0), ScaleNotePosition(1, 0, 0, 0))
    ensures Sub(ScaleNotePosition(1, 0, 0, 0), ScaleNotePosition(0, 3, 1, 0)) == Zero
    ensures SubIntended(ScaleNotePosition(1, 0, 0, 0), ScaleNotePosition(0, 3, 1, 0)) == ScaleNotePosition(0, 0, 3, 0)
  {
  }

  // ---------------------------------------------------------------------------
  // Beats and bar positions

  lemma BeatsIgnoreCent(p: ScaleNotePosition, cent: int)
    ensures Beats(p.(cent := cent)) == Beats(p)
  {
  }

  /** A normalized position is a bar position exactly when its value is a whole number of bars. */
  lemma BarPositionIsWholeBars(p: ScaleNotePosition)
    requires Normalized(p)
    ensures IsBarPosition(p) <==> ToCents(p) % CentsPerBar == 0
  {
    var rest := p.beat * CentsPerBeat + p.subbeat * CentsPerSubbeat + p.cent;
    assert 0 <= rest < CentsPerBar;
    assert ToCents(p) == p.bar * CentsPerBar + rest;
    ModOfWholeBars(p.bar, rest);
  }

  lemma ModOfWholeBars(q: int, r: int)
    requires 0 <= r < CentsPerBar
    ensures (q * CentsPerBar + r) % CentsPerBar == r
  {
  }

  /** `hash(into:)` agrees with structural equality. */
  lemma HashFeedInjective(p: ScaleNotePosition, q: ScaleNotePosition)
    ensures HashFeed(p) == HashFeed(q) <==> p == q
  {
    if HashFeed(p) == HashFeed(q) {
      assert HashFeed(p)[0] == HashFeed(q)[0] && HashFeed(p)[1] == HashFeed(q)[1];
      assert HashFeed(p)[2] == HashFeed(q)[2] && HashFeed(p)[3] == HashFeed(q)[3];
    }
  }

  // ---------------------------------------------------------------------------
  // Examples the source's tests pin down

  lemma AdditionExamples()
    ensures Add(Zero, ScaleNotePosition(0, 0, 0, 240)) == ScaleNotePosition(0, 0, 1, 0)
    ensures Add(ScaleNotePosition(0, 3, 3, 239), ScaleNotePosition(0, 0, 0, 1)) == ScaleNotePosition(1, 0, 0, 0)
    ensures Add(ScaleNotePosition(0, 4, 0, 0), Zero) == ScaleNotePosition(1, 0, 0, 0)
    ensures ScaleNotePosition(0, 4, 0, 0) != ScaleNotePosition(1, 0, 0, 0)
  {
  }

  lemma SubtractionExamples()
    ensures Sub(ScaleNotePosition(2, 3, 3, 123), ScaleNotePosition(1, 4, 2, 232)) == ScaleNotePosition(0, 3, 0, 131)
    ensures Sub(ScaleNotePosition(1, 4, 2, 232), ScaleNotePosition(2, 3, 3, 123)) == Zero
    ensures Less(ScaleNotePosition(1, 4, 2, 232), ScaleNotePosition(2, 3, 3, 123))
  {
  }
}
