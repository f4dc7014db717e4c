/** A note on the scale grid: a MIDI pitch and velocity, a start position and a length. */
module Notes {
  import opened Positions

  /** `UInt8`: MIDI note numbers and velocities. */
  type Byte = x: int | 0 <= x < 256

  /** `ScaleNote`; equality is structural over all four fields. */
  datatype ScaleNote = ScaleNote(midiNote: Byte, velocity: Byte, position: ScaleNotePosition, duration: ScaleNotePosition)

  /** Where the note ends: `position + duration`. */
  function EndPosition(n: ScaleNote): (r: ScaleNotePosition)
    ensures ToCents(r) == ToCents(n.position) + ToCents(n.duration)
  {
    Add(n.position, n.duration)
  }

  /** `endPositionInBeats()`. */
  function EndPositionInBeats(n: ScaleNote): (r: real)
    ensures n.position.cent == 0 && n.duration.cent == 0 ==> r == Beats(n.position) + Beats(n.duration)
    ensures NonNegative(n.position) && NonNegative(n.duration) ==> r >= Beats(n.position)
  {
    EndNotBeforeStart(n.position, n.duration);
    Beats(EndPosition(n))
  }

  /** For non-negative fields the end, in whole subbeats, is not before the start. */
  lemma EndNotBeforeStart(a: ScaleNotePosition, b: ScaleNotePosition)
    ensures NonNegative(a) && NonNegative(b) ==> Beats(Add(a, b)) >= Beats(a)
  {
    if !(NonNegative(a) && NonNegative(b)) {
      return;
    }
    var r := Add(a, b);
    var kr := r.bar * 16 + r.beat * 4 + r.subbeat;
    var ka := a.bar * 16 + a.beat * 4 + a.subbeat;
    assert ToCents(r) == kr * 240 + r.cent;
    assert ToCents(a) == ka * 240 + a.cent;
    assert ka * 240 < kr * 240 + 240;
    assert ka <= kr;
  }

  /** The values `hash(into:)` feeds to the hasher: pitch, velocity, then both positions' own feeds. */
  function NoteHashFeed(n: ScaleNote): seq<int> {
    [n.midiNote, n.velocity] + HashFeed(n.position) + HashFeed(n.duration)
  }

  /** The hash feed agrees with structural equality, so equal notes hash alike and the feed loses nothing. */
  lemma NoteHashFeedInjective(m: ScaleNote, n: ScaleNote)
    ensures NoteHashFeed(m) == NoteHashFeed(n) <==> m == n
  {
    if NoteHashFeed(m) == NoteHashFeed(n) {
      var f, g := NoteHashFeed(m), NoteHashFeed(n);
      assert f[0] == g[0] && f[1] == g[1];
      assert f[2..6] == HashFeed(m.position) && g[2..6] == HashFeed(n.position);
      assert f[6..] == HashFeed(m.duration) && g[6..] == HashFeed(n.duration);
      HashFeedInjective(m.position, n.position);
      HashFeedInjective(m.duration, n.duration);
    }
  }

  lemma EndExample()
    ensures EndPosition(ScaleNote(60, 60, ScaleNotePosition(0, 1, 0, 0), ScaleNotePosition(0, 2, 0, 0)))
            == ScaleNotePosition(0, 3, 0, 0)
    ensures EndPositionInBeats(ScaleNote(60, 60, ScaleNotePosition(0, 1, 0, 0), ScaleNotePosition(0, 2, 0, 0))) == 3.0
  {
  }
}
