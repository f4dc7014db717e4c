/** `ScaleBuilder`: a fluent helper that strings notes and rests together behind a moving cursor. */
module Builder {
  import opened Positions
  import opened Notes

  /** Where the cursor stands after advancing by `steps` in order: each step is added in front, `d + offset`. */
  function Advanced(steps: seq<ScaleNotePosition>): ScaleNotePosition {
    if steps == [] then Zero else Add(steps[|steps| - 1], Advanced(steps[..|steps| - 1]))
  }

  function SumCents(steps: seq<ScaleNotePosition>): int {
    if steps == [] then 0 else SumCents(steps[..|steps| - 1]) + ToCents(steps[|steps| - 1])
  }

  /** The cursor's value is the total of every length it advanced by. */
  lemma {:induction false} AdvancedCents(steps: seq<ScaleNotePosition>)
    ensures ToCents(Advanced(steps)) == SumCents(steps)
  {
    if steps != [] {
      AdvancedCents(steps[..|steps| - 1]);
    }
  }

  predicate AllNonNegative(steps: seq<ScaleNotePosition>) {
    forall k :: 0 <= k < |steps| ==> NonNegative(steps[k])
  }

  /** With non-negative lengths the cursor never moves back. */
  lemma {:induction false} AdvancedMonotone(steps: seq<ScaleNotePosition>, i: nat, j: nat)
    requires i <= j <= |steps|
    requires AllNonNegative(steps)
    ensures ToCents(Advanced(steps[..i])) <= ToCents(Advanced(steps[..j]))
  {
    if i < j {
      AdvancedMonotone(steps, i, j - 1);
      assert steps[..j][..j - 1] == steps[..j - 1];
      assert ToCents(steps[j - 1]) >= 0;
    }
  }

  /**
    How built notes sit on the steps: note `i` starts at the total of the first `starts[i]` steps and
    lasts step `starts[i]`, and later notes come after later steps.
  */
  ghost predicate Layout(notes: seq<ScaleNote>, steps: seq<ScaleNotePosition>, starts: seq<nat>) {
    && |starts| == |notes|
    && (forall i :: 0 <= i < |notes| ==> starts[i] < |steps|)
    && (forall i, j :: 0 <= i < j < |notes| ==> starts[i] < starts[j])
    && (forall i :: 0 <= i < |notes| ==>
          notes[i].position == Advanced(steps[..starts[i]]) && notes[i].duration == steps[starts[i]])
  }

  /** One more step moves the cursor by that step, and keeps the steps non-negative if it is. */
  lemma AdvancedStep(steps: seq<ScaleNotePosition>, d: ScaleNotePosition)
    ensures Advanced(steps + [d]) == Add(d, Advanced(steps))
    ensures AllNonNegative(steps) && NonNegative(d) ==> AllNonNegative(steps + [d])
  {
    assert (steps + [d])[..|steps|] == steps;
  }

  /** A rest adds a step and keeps the layout. */
  lemma LayoutRest(notes: seq<ScaleNote>, steps: seq<ScaleNotePosition>, starts: seq<nat>, d: ScaleNotePosition)
    requires Layout(notes, steps, starts)
    ensures Layout(notes, steps + [d], starts)
  {
    PrefixesOfAppend(steps, d);
  }

  /** A played note at the cursor, followed by its step, keeps the layout. */
  lemma LayoutPlay(notes: seq<ScaleNote>, steps: seq<ScaleNotePosition>, starts: seq<nat>, n: ScaleNote)
    requires Layout(notes, steps, starts)
    requires n.position == Advanced(steps)
    ensures Layout(notes + [n], steps + [n.duration], starts + [|steps|])
  {
    LayoutRest(notes, steps, starts, n.duration);
    assert (steps + [n.duration])[..|steps|] == steps;
    LayoutAddNote(notes, steps + [n.duration], starts, n, |steps|);
  }

  /** A note on step `k`, after every note so far, extends the layout. */
  lemma LayoutAddNote(notes: seq<ScaleNote>, steps: seq<ScaleNotePosition>, starts: seq<nat>, n: ScaleNote, k: nat)
    requires Layout(notes, steps, starts)
    requires k < |steps| && forall i :: 0 <= i < |starts| ==> starts[i] < k
    requires n.position == Advanced(steps[..k]) && n.duration == steps[k]
    ensures Layout(notes + [n], steps, starts + [k])
  {
    var notes', starts' := notes + [n], starts + [k];
    forall i | 0 <= i < |notes'|
      ensures starts'[i] < |steps|
      ensures notes'[i].position == Advanced(steps[..starts'[i]]) && notes'[i].duration == steps[starts'[i]]
    {
      if i < |notes| {
        assert notes'[i] == notes[i] && starts'[i] == starts[i];
      }
    }
    forall i, j | 0 <= i < j < |notes'|
      ensures starts'[i] < starts'[j]
    {
      if j < |notes| {
        assert starts'[i] == starts[i] && starts'[j] == starts[j];
      }
    }
  }

  /** Appending a step keeps every earlier prefix of the steps. */
  lemma PrefixesOfAppend(steps: seq<ScaleNotePosition>, d: ScaleNotePosition)
    ensures forall k :: 0 <= k <= |steps| ==> (steps + [d])[..k] == steps[..k]
  {
  }

  /**
    The builder's bookkeeping on values: the cursor is the total of the steps, the notes sit on
    the steps as `Layout` says, and while `nonNegative` holds no step nor the current length is negative.
  */
  ghost predicate Built(offset: ScaleNotePosition, d: ScaleNotePosition, notes: seq<ScaleNote>,
                        steps: seq<ScaleNotePosition>, starts: seq<nat>, nonNegative: bool) {
    && offset == Advanced(steps)
    && Layout(notes, steps, starts)
    && (nonNegative ==> AllNonNegative(steps) && NonNegative(d))
  }

  /** `rest()` on the bookkeeping. */
  lemma BuiltRest(offset: ScaleNotePosition, d: ScaleNotePosition, notes: seq<ScaleNote>,
                  steps: seq<ScaleNotePosition>, starts: seq<nat>, nonNegative: bool)
    requires Built(offset, d, notes, steps, starts, nonNegative)
    ensures Built(Add(d, offset), d, notes, steps + [d], starts, nonNegative)
  {
    AdvancedStep(steps, d);
    LayoutRest(notes, steps, starts, d);
  }

  /** `play(_:)` on the bookkeeping. */
  lemma BuiltPlay(offset: ScaleNotePosition, d: ScaleNotePosition, notes: seq<ScaleNote>,
                  steps: seq<ScaleNotePosition>, starts: seq<nat>, nonNegative: bool, midiNote: Byte)
    requires Built(offset, d, notes, steps, starts, nonNegative)
    ensures Built(Add(d, offset), d, notes + [ScaleNote(midiNote, 60, offset, d)], steps + [d],
                  starts + [|steps|], nonNegative)
  {
    AdvancedStep(steps, d);
    LayoutPlay(notes, steps, starts, ScaleNote(midiNote, 60, offset, d));
  }

  class ScaleBuilder {
    var currentDuration: ScaleNotePosition
    var offset: ScaleNotePosition
    var notes: seq<ScaleNote>
    /** Every length the cursor has advanced by, oldest first. */
    ghost var steps: seq<ScaleNotePosition>
    /** For each note, how many steps came before it. */
    ghost var starts: seq<nat>
    /** No length set so far, current one included, was negative. */
    ghost var lengthsNonNegative: bool

    /** Each note starts at the total of the steps before it and lasts one step; the cursor is the total. */
    ghost predicate Valid()
      reads this
    {
      Built(offset, currentDuration, notes, steps, starts, lengthsNonNegative)
    }

    constructor ()
      ensures Valid() && lengthsNonNegative
      ensures currentDuration == ScaleNotePosition(0, 1, 0, 0) && offset == Zero && notes == []
    {
      currentDuration := ScaleNotePosition(0, 1, 0, 0);
      offset := Zero;
      notes := [];
      steps := [];
      starts := [];
      lengthsNonNegative := true;
    }

    /** `rest()`: advance the cursor by the current length without a note. */
    method Rest() returns (self: ScaleBuilder)
      requires Valid()
      modifies this
      ensures Valid() && self == this
      ensures offset == Add(currentDuration, old(offset))
      ensures currentDuration == old(currentDuration) && notes == old(notes)
      ensures lengthsNonNegative == old(lengthsNonNegative)
    {
      BuiltRest(offset, currentDuration, notes, steps, starts, lengthsNonNegative);
      steps := steps + [currentDuration];
      offset := Add(currentDuration, offset);
      self := this;
    }

    /** `play(_:)`: a note of the current length and velocity 60 at the cursor, then advance. */
    method Play(midiNote: Byte) returns (self: ScaleBuilder)
      requires Valid()
      modifies this
      ensures Valid() && self == this
      ensures notes == old(notes) + [ScaleNote(midiNote, 60, old(offset), currentDuration)]
      ensures offset == Add(currentDuration, old(offset))
      ensures currentDuration == old(currentDuration)
      ensures lengthsNonNegative == old(lengthsNonNegative)
    {
      BuiltPlay(offset, currentDuration, notes, steps, starts, lengthsNonNegative, midiNote);
      notes := notes + [ScaleNote(midiNote, 60, offset, currentDuration)];
      starts := starts + [|steps|];
      steps := steps + [currentDuration];
      offset := Add(currentDuration, offset);
      self := this;
    }

    /** `duration(beat:subbeat:)`: later notes and rests last `beat` beats and `subbeat` subbeats. */
    method Duration(beat: int, subbeat: int := 0) returns (self: ScaleBuilder)
      requires Valid()
      modifies this
      ensures Valid() && self == this
      ensures currentDuration == ScaleNotePosition(0, beat, subbeat, 0)
      ensures offset == old(offset) && notes == old(notes)
      ensures lengthsNonNegative == (old(lengthsNonNegative) && beat >= 0 && subbeat >= 0)
    {
      currentDuration := ScaleNotePosition(0, beat, subbeat, 0);
      lengthsNonNegative := lengthsNonNegative && beat >= 0 && subbeat >= 0;
      self := this;
    }
  }

  /** The notes of a builder that was never given a negative length follow one another without overlap. */
  lemma NotesInSequence(b: ScaleBuilder, i: nat, j: nat)
    requires b.Valid() && b.lengthsNonNegative
    requires i < j < |b.notes|
    ensures ToCents(EndPosition(b.notes[i])) <= ToCents(b.notes[j].position)
  {
    var s := b.starts[i];
    assert b.steps[..s + 1][..s] == b.steps[..s];
    assert Advanced(b.steps[..s + 1]) == Add(b.steps[s], Advanced(b.steps[..s]));
    AdvancedMonotone(b.steps, s + 1, b.starts[j]);
  }

  /** Whole beats within one bar add as plain numbers. */
  lemma BeatsAdd(x: int, y: int)
    requires 0 <= x && 0 <= y && x + y < BeatsPerBar
    ensures Add(ScaleNotePosition(0, x, 0, 0), ScaleNotePosition(0, y, 0, 0)) == ScaleNotePosition(0, x + y, 0, 0)
  {
    NormalizedUnique(Add(ScaleNotePosition(0, x, 0, 0), ScaleNotePosition(0, y, 0, 0)), ScaleNotePosition(0, x + y, 0, 0));
  }

  /** `ScaleBuilder().play(65).play(66)`: the first two notes of the three-note chain. */
  method TwoNotes() returns (b: ScaleBuilder)
    ensures fresh(b) && b.Valid() && b.lengthsNonNegative
    ensures b.notes == [
      ScaleNote(65, 60, ScaleNotePosition(0, 0, 0, 0), ScaleNotePosition(0, 1, 0, 0)),
      ScaleNote(66, 60, ScaleNotePosition(0, 1, 0, 0), ScaleNotePosition(0, 1, 0, 0))]
    ensures b.offset == ScaleNotePosition(0, 2, 0, 0) && b.currentDuration == ScaleNotePosition(0, 1, 0, 0)
  {
    var beat := ScaleNotePosition(0, 1, 0, 0);
    b := new ScaleBuilder();
    b := b.Play(65);
    BeatsAdd(1, 0);
    assert b.offset == beat;
    assert b.notes == [ScaleNote(65, 60, Zero, beat)];
    b := b.Play(66);
    BeatsAdd(1, 1);
    assert b.offset == ScaleNotePosition(0, 2, 0, 0);
  }

  /** `ScaleBuilder().play(65).play(66).play(77).notes`: three one-beat notes on consecutive beats. */
  method ThreeNoteFixture() returns (notes: seq<ScaleNote>)
    ensures notes == [
      ScaleNote(65, 60, ScaleNotePosition(0, 0, 0, 0), ScaleNotePosition(0, 1, 0, 0)),
      ScaleNote(66, 60, ScaleNotePosition(0, 1, 0, 0), ScaleNotePosition(0, 1, 0, 0)),
      ScaleNote(77, 60, ScaleNotePosition(0, 2, 0, 0), ScaleNotePosition(0, 1, 0, 0))]
    ensures forall i, j :: 0 <= i < j < |notes| ==> ToCents(EndPosition(notes[i])) <= ToCents(notes[j].position)
  {
    var b := TwoNotes();
    b := b.Play(77);
    notes := b.notes;
    forall i, j | 0 <= i < j < |notes|
      ensures ToCents(EndPosition(notes[i])) <= ToCents(notes[j].position)
    {
      NotesInSequence(b, i, j);
    }
  }

  /** `duration(beat: 1).play(60).duration(beat: 2).rest()`: one note, then a two-beat rest. */
  method NoteThenRest() returns (b: ScaleBuilder)
    ensures fresh(b) && b.Valid() && b.lengthsNonNegative
    ensures b.notes == [ScaleNote(60, 60, ScaleNotePosition(0, 0, 0, 0), ScaleNotePosition(0, 1, 0, 0))]
    ensures b.offset == ScaleNotePosition(0, 3, 0, 0) && b.currentDuration == ScaleNotePosition(0, 2, 0, 0)
  {
    var one := ScaleNotePosition(0, 1, 0, 0);
    b := new ScaleBuilder();
    b := b.Duration(1);
    b := b.Play(60);
    BeatsAdd(1, 0);
    assert b.offset == one;
    assert b.notes == [ScaleNote(60, 60, Zero, one)];
    b := b.Duration(2);
    b := b.Rest();
    BeatsAdd(2, 1);
    assert b.offset == ScaleNotePosition(0, 3, 0, 0);
  }

  /** `duration(beat: 1).play(60).duration(beat: 2).rest().play(62)`: the rest moves the second note to beat 3. */
  method RestFixture() returns (notes: seq<ScaleNote>)
    ensures notes == [
      ScaleNote(60, 60, ScaleNotePosition(0, 0, 0, 0), ScaleNotePosition(0, 1, 0, 0)),
      ScaleNote(62, 60, ScaleNotePosition(0, 3, 0, 0), ScaleNotePosition(0, 2, 0, 0))]
    ensures ToCents(EndPosition(notes[0])) <= ToCents(notes[1].position)
  {
    var b := NoteThenRest();
    b := b.Play(62);
    notes := b.notes;
    NotesInSequence(b, 0, 1);
  }
}
