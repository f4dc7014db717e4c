/**
  The scale editor's view model: the note list the grid edits, the playback flags,
  the scale's name, and saving into the stored scale.
  The data store, the player and the responder are outside the model: the stored scale
  is a value field, the player's commands and the responder's calls are recorded in order,
  and the data store's duplicate-name check is a parameter.
*/
module ScaleEdit {
  import opened Wrappers
  import opened Positions
  import opened Notes

  /** The fields of a stored `PracticeScale` that the editor writes. */
  datatype StoredScale = StoredScale(name: string, notes: seq<ScaleNote>)

  /** A call the view model makes on the MIDI player. */
  datatype PlayerCommand = Stop | Play(notes: seq<ScaleNote>)

  /** `removeAll { n in n == note }`: every copy of `note` dropped, the rest in order. */
  function RemoveAll(xs: seq<ScaleNote>, note: ScaleNote): (r: seq<ScaleNote>)
    ensures note !in r
    ensures forall x :: x != note ==> multiset(r)[x] == multiset(xs)[x]
  {
    if xs == [] then []
    else
      assert xs == [xs[0]] + xs[1..];
      (if xs[0] == note then [] else [xs[0]]) + RemoveAll(xs[1..], note)
  }

  /** Removing a note that is not there changes nothing. */
  lemma {:induction false} RemoveAllAbsent(xs: seq<ScaleNote>, note: ScaleNote)
    requires note !in xs
    ensures RemoveAll(xs, note) == xs
  {
    if xs != [] {
      RemoveAllAbsent(xs[1..], note);
      assert xs == [xs[0]] + xs[1..];
    }
  }

  /** Removal works piece by piece, so the notes that stay keep their order. */
  lemma {:induction false} RemoveAllConcat(a: seq<ScaleNote>, b: seq<ScaleNote>, note: ScaleNote)
    ensures RemoveAll(a + b, note) == RemoveAll(a, note) + RemoveAll(b, note)
  {
    if a != [] {
      assert (a + b)[1..] == a[1..] + b;
      RemoveAllConcat(a[1..], b, note);
    } else {
      assert a + b == b;
    }
  }

  /** Removing twice is removing once. */
  lemma RemoveAllIdempotent(xs: seq<ScaleNote>, note: ScaleNote)
    ensures RemoveAll(RemoveAll(xs, note), note) == RemoveAll(xs, note)
  {
    RemoveAllAbsent(RemoveAll(xs, note), note);
  }

  /** Where each note ends, in list order: `notes.map { $0.position + $0.duration }`. */
  function Ends(notes: seq<ScaleNote>): (r: seq<ScaleNotePosition>)
    ensures |r| == |notes|
    ensures forall i :: 0 <= i < |notes| ==> r[i] == EndPosition(notes[i])
  {
    if notes == [] then [] else [EndPosition(notes[0])] + Ends(notes[1..])
  }

  /** Keeping the lesser of `a` and a least element `m` of `qs` gives a least element of both. */
  lemma KeepLeast(a: ScaleNotePosition, m: ScaleNotePosition, qs: seq<ScaleNotePosition>)
    requires forall p :: p in qs ==> !Less(p, m)
    ensures var r := if Less(m, a) then m else a;
      !Less(a, r) && forall p :: p in qs ==> !Less(p, r)
  {
    LessTrichotomy(a, m);
    var r := if Less(m, a) then m else a;
    forall p | p in qs
      ensures !Less(p, r)
    {
      if !Less(m, a) && Less(p, a) {
        LessTrichotomy(p, m);
        if Less(m, p) {
          LessTransitive(m, p, a);
        }
      }
    }
  }

  /** The first element after sorting ascending: a least position of the list. */
  function MinPosition(ps: seq<ScaleNotePosition>): (m: ScaleNotePosition)
    requires |ps| >= 1
    ensures m in ps
    ensures forall p :: p in ps ==> !Less(p, m)
  {
    if |ps| == 1 then ps[0]
    else
      var rest := MinPosition(ps[1..]);
      KeepLeast(ps[0], rest, ps[1..]);
      assert ps == [ps[0]] + ps[1..];
      if Less(rest, ps[0]) then rest else ps[0]
  }

  /** Keeping the greater of `a` and a greatest element `m` of `qs` gives a greatest element of both. */
  lemma KeepGreatest(a: ScaleNotePosition, m: ScaleNotePosition, qs: seq<ScaleNotePosition>)
    requires forall p :: p in qs ==> !Less(m, p)
    ensures var r := if Less(a, m) then m else a;
      !Less(r, a) && forall p :: p in qs ==> !Less(r, p)
  {
    LessTrichotomy(a, m);
    var r := if Less(a, m) then m else a;
    forall p | p in qs
      ensures !Less(r, p)
    {
      if !Less(a, m) && Less(a, p) {
        LessTrichotomy(p, m);
        if Less(p, m) {
          LessTransitive(a, p, m);
        }
      }
    }
  }

  /** A greatest position of the list. */
  function MaxPosition(ps: seq<ScaleNotePosition>): (m: ScaleNotePosition)
    requires |ps| >= 1
    ensures m in ps
    ensures forall p :: p in ps ==> !Less(m, p)
  {
    if |ps| == 1 then ps[0]
    else
      var rest := MaxPosition(ps[1..]);
      KeepGreatest(ps[0], rest, ps[1..]);
      assert ps == [ps[0]] + ps[1..];
      if Less(ps[0], rest) then rest else ps[0]
  }

  /** `lastBar` as written: the bar of the earliest end position, or 0 without notes. */
  function LastBarOf(notes: seq<ScaleNote>): (r: int)
    ensures notes == [] ==> r == 0
    ensures notes != [] ==>
      exists i :: 0 <= i < |notes| && r == EndPosition(notes[i]).bar &&
        (forall j :: 0 <= j < |notes| ==> !Less(EndPosition(notes[j]), EndPosition(notes[i])))
  {
    if notes == [] then 0
    else
      var m := MinPosition(Ends(notes));
      var i :| 0 <= i < |notes| && Ends(notes)[i] == m;
      assert forall j :: 0 <= j < |notes| ==> Ends(notes)[j] in Ends(notes);
      m.bar
  }

  /** The last bar a note reaches, as the grid's comment describes it: the bar of the latest end position. */
  function LastBarIntended(notes: seq<ScaleNote>): (r: int)
    ensures notes == [] ==> r == 0
    ensures notes != [] ==>
      exists i :: 0 <= i < |notes| && r == EndPosition(notes[i]).bar &&
        (forall j :: 0 <= j < |notes| ==> !Less(EndPosition(notes[i]), EndPosition(notes[j])))
  {
    if notes == [] then 0
    else
      var m := MaxPosition(Ends(notes));
      var i :| 0 <= i < |notes| && Ends(notes)[i] == m;
      assert forall j :: 0 <= j < |notes| ==> Ends(notes)[j] in Ends(notes);
      m.bar
  }

  /** With normalized end positions no note ends in a bar after `LastBarIntended`. */
  lemma LastBarIntendedBounds(notes: seq<ScaleNote>, j: nat)
    requires j < |notes|
    requires forall k :: 0 <= k < |notes| ==> Normalized(EndPosition(notes[k]))
    ensures EndPosition(notes[j]).bar <= LastBarIntended(notes)
  {
    var r := LastBarIntended(notes);
    var i :| 0 <= i < |notes| && r == EndPosition(notes[i]).bar
      && forall j :: 0 <= j < |notes| ==> !Less(EndPosition(notes[i]), EndPosition(notes[j]));
    LessMatchesCents(EndPosition(notes[i]), EndPosition(notes[j]));
  }

  /** Two notes, ending in bars 1 and 3: `lastBar` as written says 1, the latest end is in bar 3. */
  lemma LastBarTakesEarliestEnd()
    ensures var notes := [
        ScaleNote(60, 90, ScaleNotePosition(0, 0, 0, 0), ScaleNotePosition(1, 0, 0, 0)),
        ScaleNote(62, 90, ScaleNotePosition(2, 0, 0, 0), ScaleNotePosition(1, 0, 0, 0))];
      LastBarOf(notes) == 1 && LastBarIntended(notes) == 3
  {
    var notes := [
      ScaleNote(60, 90, ScaleNotePosition(0, 0, 0, 0), ScaleNotePosition(1, 0, 0, 0)),
      ScaleNote(62, 90, ScaleNotePosition(2, 0, 0, 0), ScaleNotePosition(1, 0, 0, 0))];
    assert EndPosition(notes[0]) == ScaleNotePosition(1, 0, 0, 0);
    assert EndPosition(notes[1]) == ScaleNotePosition(3, 0, 0, 0);
  }

  const NewScaleTitle := "<new scale>"

  class ScaleEditViewModel {
    var notes: seq<ScaleNote>
    var isPlaying: bool
    var title: string
    var name: string
    var barCount: int
    var currentPlayingNote: Option<ScaleNote>
    var editSessionComplete: bool
    var scaleUpdated: bool
    var scale: Option<StoredScale>
    /** Calls made on the MIDI player, oldest first. */
    var playerCommands: seq<PlayerCommand>
    /** Scales handed to the responder's `editComplete`, oldest first. */
    var completions: seq<StoredScale>
    /** How many times the data store's context was saved. */
    var contextSaves: nat

    /** `editingCompleted` force-unwraps the scale once it has been updated; bars are only ever added. */
    predicate Valid()
      reads this
    {
      (scaleUpdated ==> scale.Some?) && barCount >= 8
    }

    /** `init(scale:coordinator:responder:)`: an existing scale's name and notes, or an empty new scale. */
    constructor (scale: Option<StoredScale>)
      ensures Valid()
      ensures this.scale == scale
      ensures notes == (if scale.Some? then scale.value.notes else [])
      ensures name == (if scale.Some? then scale.value.name else "")
      ensures title == (if scale.Some? then scale.value.name else NewScaleTitle)
      ensures !isPlaying && barCount == 8 && currentPlayingNote == None
      ensures !editSessionComplete && !scaleUpdated
      ensures playerCommands == [] && completions == [] && contextSaves == 0
    {
      this.scale := scale;
      isPlaying := false;
      title := NewScaleTitle;
      name := "";
      barCount := 8;
      currentPlayingNote := None;
      editSessionComplete := false;
      scaleUpdated := false;
      playerCommands := [];
      completions := [];
      contextSaves := 0;
      if scale.Some? {
        title := scale.value.name;
        name := scale.value.name;
      }
      notes := if scale.Some? then scale.value.notes else [];
    }

    /** `lastBar`. */
    function LastBar(): (r: int)
      reads this
      ensures notes == [] ==> r == 0
      ensures notes != [] ==>
        exists i :: 0 <= i < |notes| && r == EndPosition(notes[i]).bar &&
          (forall j :: 0 <= j < |notes| ==> !Less(EndPosition(notes[j]), EndPosition(notes[i])))
    {
      LastBarOf(notes)
    }

    /** The `name` setter: its observer copies the name into the title. */
    method SetName(newName: string)
      modifies this
      ensures name == newName && title == newName
      ensures notes == old(notes) && scale == old(scale) && isPlaying == old(isPlaying)
      ensures barCount == old(barCount) && currentPlayingNote == old(currentPlayingNote)
      ensures editSessionComplete == old(editSessionComplete) && scaleUpdated == old(scaleUpdated)
      ensures playerCommands == old(playerCommands) && completions == old(completions)
      ensures contextSaves == old(contextSaves)
    {
      name := newName;
      title := newName;
    }

    /** `togglePlay`: stop when playing, otherwise play the current notes. */
    method TogglePlay()
      modifies this
      ensures isPlaying == !old(isPlaying)
      ensures playerCommands == old(playerCommands) + [if old(isPlaying) then Stop else Play(notes)]
      ensures notes == old(notes) && name == old(name) && title == old(title) && scale == old(scale)
      ensures barCount == old(barCount) && currentPlayingNote == old(currentPlayingNote)
      ensures editSessionComplete == old(editSessionComplete) && scaleUpdated == old(scaleUpdated)
      ensures completions == old(completions) && contextSaves == old(contextSaves)
    {
      if isPlaying {
        isPlaying := false;
        playerCommands := playerCommands + [Stop];
      } else {
        isPlaying := true;
        playerCommands := playerCommands + [Play(notes)];
      }
    }

    /** `clearSequence`. */
    method ClearSequence()
      modifies this
      ensures notes == []
      ensures isPlaying == old(isPlaying) && name == old(name) && title == old(title) && scale == old(scale)
      ensures barCount == old(barCount) && currentPlayingNote == old(currentPlayingNote)
      ensures editSessionComplete == old(editSessionComplete) && scaleUpdated == old(scaleUpdated)
      ensures playerCommands == old(playerCommands) && completions == old(completions)
      ensures contextSaves == old(contextSaves)
    {
      notes := [];
    }

    /** `addNote(_:)`: the note goes at the end. */
    method AddNote(note: ScaleNote)
      modifies this
      ensures notes == old(notes) + [note]
      ensures isPlaying == old(isPlaying) && name == old(name) && title == old(title) && scale == old(scale)
      ensures barCount == old(barCount) && currentPlayingNote == old(currentPlayingNote)
      ensures editSessionComplete == old(editSessionComplete) && scaleUpdated == old(scaleUpdated)
      ensures playerCommands == old(playerCommands) && completions == old(completions)
      ensures contextSaves == old(contextSaves)
    {
      notes := notes + [note];
    }

    /** `addMeasure`. */
    method AddMeasure()
      requires Valid()
      modifies this
      ensures Valid()
      ensures barCount == old(barCount) + 1
      ensures notes == old(notes) && isPlaying == old(isPlaying) && name == old(name) && title == old(title)
      ensures scale == old(scale) && currentPlayingNote == old(currentPlayingNote)
      ensures editSessionComplete == old(editSessionComplete) && scaleUpdated == old(scaleUpdated)
      ensures playerCommands == old(playerCommands) && completions == old(completions)
      ensures contextSaves == old(contextSaves)
    {
      barCount := barCount + 1;
    }

    /** `removeNote(_:)`: every note equal to `note` goes. */
    method RemoveNote(note: ScaleNote)
      modifies this
      ensures notes == RemoveAll(old(notes), note)
      ensures isPlaying == old(isPlaying) && name == old(name) && title == old(title) && scale == old(scale)
      ensures barCount == old(barCount) && currentPlayingNote == old(currentPlayingNote)
      ensures editSessionComplete == old(editSessionComplete) && scaleUpdated == old(scaleUpdated)
      ensures playerCommands == old(playerCommands) && completions == old(completions)
      ensures contextSaves == old(contextSaves)
    {
      notes := RemoveAll(notes, note);
    }

    /** `editingCompleted`: hand the scale to the responder if it was updated, then end the session. */
    method EditingCompleted()
      requires Valid()
      modifies this
      ensures Valid()
      ensures editSessionComplete
      ensures completions == old(completions) + (if scaleUpdated then [scale.value] else [])
      ensures notes == old(notes) && isPlaying == old(isPlaying) && name == old(name) && title == old(title)
      ensures scale == old(scale) && barCount == old(barCount) && currentPlayingNote == old(currentPlayingNote)
      ensures scaleUpdated == old(scaleUpdated) && playerCommands == old(playerCommands)
      ensures contextSaves == old(contextSaves)
    {
      if scaleUpdated {
        completions := completions + [scale.value];
      }
      editSessionComplete := true;
    }

    /** `save`: without a name nothing changes (the name dialog is shown instead); otherwise store and finish. */
    method Save()
      requires Valid()
      modifies this
      ensures Valid()
      ensures old(name) == "" ==>
        && notes == old(notes) && isPlaying == old(isPlaying) && title == old(title) && scale == old(scale)
        && barCount == old(barCount) && currentPlayingNote == old(currentPlayingNote)
        && editSessionComplete == old(editSessionComplete) && scaleUpdated == old(scaleUpdated)
        && playerCommands == old(playerCommands) && completions == old(completions)
        && contextSaves == old(contextSaves)
      ensures old(name) != "" ==>
        && scale == Some(StoredScale(name, notes))
        && scaleUpdated && editSessionComplete
        && contextSaves == old(contextSaves) + 1
        && completions == old(completions) + [StoredScale(name, notes)]
        && notes == old(notes) && isPlaying == old(isPlaying) && title == old(title)
        && barCount == old(barCount) && currentPlayingNote == old(currentPlayingNote)
        && playerCommands == old(playerCommands)
      ensures name == old(name)
    {
      if name == "" {
        return;
      }
      scale := Some(StoredScale(name, notes));
      contextSaves := contextSaves + 1;
      scaleUpdated := true;
      EditingCompleted();
    }

    /** `cancel`. */
    method Cancel()
      requires Valid()
      modifies this
      ensures Valid()
      ensures editSessionComplete
      ensures completions == old(completions) + (if scaleUpdated then [scale.value] else [])
      ensures notes == old(notes) && isPlaying == old(isPlaying) && name == old(name) && title == old(title)
      ensures scale == old(scale) && barCount == old(barCount) && currentPlayingNote == old(currentPlayingNote)
      ensures scaleUpdated == old(scaleUpdated) && playerCommands == old(playerCommands)
      ensures contextSaves == old(contextSaves)
    {
      EditingCompleted();
    }

    /**
      `updateName(_:)`: ignored when the data store already has the name (`isDuplicate`); otherwise
      the name is set, and written to an existing scale when it is not empty.
    */
    method UpdateName(newName: string, isDuplicate: bool)
      requires Valid()
      modifies this
      ensures Valid()
      ensures isDuplicate ==>
        name == old(name) && title == old(title) && scale == old(scale) &&
        scaleUpdated == old(scaleUpdated) && contextSaves == old(contextSaves)
      ensures !isDuplicate ==> name == newName && title == newName
      ensures !isDuplicate && newName != "" && old(scale).Some? ==>
        scale == Some(old(scale).value.(name := newName)) && scaleUpdated && contextSaves == old(contextSaves) + 1
      ensures !isDuplicate && (newName == "" || old(scale).None?) ==>
        scale == old(scale) && scaleUpdated == old(scaleUpdated) && contextSaves == old(contextSaves)
      ensures notes == old(notes) && isPlaying == old(isPlaying)
      ensures barCount == old(barCount) && currentPlayingNote == old(currentPlayingNote)
      ensures editSessionComplete == old(editSessionComplete)
      ensures playerCommands == old(playerCommands) && completions == old(completions)
    {
      if isDuplicate {
        return;
      }
      SetName(newName);
      if newName != "" {
        if scale.Some? {
          scale := Some(scale.value.(name := newName));
          scaleUpdated := true;
          contextSaves := contextSaves + 1;
        }
      }
    }

    /** `noteUpdated(index:)`: the player reports the note it reached, or a negative index for none. */
    method NoteUpdated(index: int)
      requires index < |notes|
      modifies this
      ensures notes == old(notes)
      ensures currentPlayingNote == if index >= 0 then Some(notes[index]) else None
      ensures isPlaying == old(isPlaying) && name == old(name) && title == old(title)
      ensures scale == old(scale) && barCount == old(barCount)
      ensures editSessionComplete == old(editSessionComplete) && scaleUpdated == old(scaleUpdated)
      ensures playerCommands == old(playerCommands) && completions == old(completions)
      ensures contextSaves == old(contextSaves)
    {
      if index >= 0 {
        currentPlayingNote := Some(notes[index]);
      } else {
        currentPlayingNote := None;
      }
    }

    /** `playbackStopped(completed:)`: a finished playback clears the playing note; `isPlaying` is left alone. */
    method PlaybackStopped(completed: bool)
      modifies this
      ensures currentPlayingNote == if completed then None else old(currentPlayingNote)
      ensures notes == old(notes) && isPlaying == old(isPlaying) && name == old(name) && title == old(title)
      ensures scale == old(scale) && barCount == old(barCount)
      ensures editSessionComplete == old(editSessionComplete) && scaleUpdated == old(scaleUpdated)
      ensures playerCommands == old(playerCommands) && completions == old(completions)
      ensures contextSaves == old(contextSaves)
    {
      if completed {
        currentPlayingNote := None;
      }
    }
  }

  /** Drawing two notes and erasing the first leaves only the second; toggling twice plays then stops. */
  method EditSessionFixture(a: ScaleNote, b: ScaleNote) returns (notes: seq<ScaleNote>, isPlaying: bool)
    requires a != b
    ensures notes == [b] && !isPlaying
  {
    var vm := new ScaleEditViewModel(None);
    vm.AddNote(a);
    vm.AddNote(b);
    vm.RemoveNote(a);
    RemoveAllAbsent([b], a);
    RemoveAllConcat([a], [b], a);
    vm.TogglePlay();
    vm.TogglePlay();
    notes, isPlaying := vm.notes, vm.isPlaying;
  }
}
