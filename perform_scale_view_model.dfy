/**
  The perform screen's view model: it plays one scale, or the scales of a routine one after
  another, transposing by a semitone up or down after each pass while auto-repeat is on.
  The MIDI player is outside the model: the commands sent to it and the values forwarded to it
  are recorded, and its callbacks are methods.
*/
module PerformScale {
  import opened Wrappers
  import opened Notes
  import opened ScaleEdit

  /** One entry of a routine as the perform screen reads it: the linked scale and its tempo. */
  datatype RoutineEntry = RoutineEntry(scale: StoredScale, tempo: int)

  const DefaultTempo := 120

  /** The rule of `currentScaleIndex`'s `didSet` for the next button: another routine scale must follow. */
  function NextEnabled(routine: Option<seq<RoutineEntry>>, index: Option<nat>): (r: bool)
    ensures r <==> routine.Some? && index.Some? && index.value + 1 < |routine.value|
  {
    match (routine, index)
    case (Some(entries), Some(i)) => i < |entries| - 1
    case _ => false
  }

  /** Stepping through a routine with `nextScale` ends with the button disabled on the last scale. */
  lemma LastScaleDisablesNext(entries: seq<RoutineEntry>, i: nat)
    requires i < |entries|
    ensures !NextEnabled(Some(entries), Some(i)) <==> i == |entries| - 1
  {
  }

  /** The transposition step after `n` passes in one direction without a swipe against it. */
  function TranspositionAfter(start: int, direction: int, n: nat): (r: int)
    ensures direction == 1 ==> r == start + n
    ensures direction == -1 ==> r == start - n
  {
    if n == 0 then start else TranspositionAfter(start, direction, n - 1) + direction
  }

  class PerformScaleViewModel {
    const routine: Option<seq<RoutineEntry>>
    var scale: StoredScale
    var octaveChangeDirection: int
    var autoRepeat: bool
    var currentNoteIndex: Option<nat>
    var currentNoteName: string
    var isPlaying: bool
    var transposition: int
    var tempo: int
    var shouldShowNextButton: bool
    var isShowNextButtonEnabled: bool
    var currentBeat: int
    var currentScaleIndex: Option<nat>
    /** The tempo last forwarded to the MIDI player. */
    var playerTempo: int
    /** Every `play(notes:)` and `stop()` sent to the MIDI player, oldest first. */
    var playerCommands: seq<PlayerCommand>
    /** Plays scheduled to start a second after a key change. */
    var scheduledPlays: nat

    /**
      The direction is one semitone up or down. With a routine the index points into it,
      the shown scale is the indexed one and the next button is enabled exactly when another
      scale follows; without one there is no index and no next button.
    */
    predicate Valid()
      reads this
    {
      && (octaveChangeDirection == 1 || octaveChangeDirection == -1)
      && (routine.None? ==> currentScaleIndex.None? && !shouldShowNextButton)
      && (routine.Some? ==>
            && shouldShowNextButton
            && currentScaleIndex.Some? && currentScaleIndex.value < |routine.value|
            && scale == routine.value[currentScaleIndex.value].scale)
      && isShowNextButtonEnabled == NextEnabled(routine, currentScaleIndex)
    }

    /** The fields the routine navigation sets. */
    function Navigation(): (StoredScale, Option<nat>, bool, bool)
      reads this
    {
      (scale, currentScaleIndex, shouldShowNextButton, isShowNextButtonEnabled)
    }

    /** The transpose and repeat state. */
    function Transport(): (int, bool, int)
      reads this
    {
      (octaveChangeDirection, autoRepeat, transposition)
    }

    /** The fields the player's callbacks and the note display set. */
    function Display(): (Option<nat>, string, bool, int)
      reads this
    {
      (currentNoteIndex, currentNoteName, isPlaying, currentBeat)
    }

    /** What was sent or forwarded to the player. */
    function Player(): (int, int, seq<PlayerCommand>, nat)
      reads this
    {
      (tempo, playerTempo, playerCommands, scheduledPlays)
    }

    /** `init(scale:)`: a single scale, no routine, and the default tempo forwarded to the player. */
    constructor (scale: StoredScale)
      ensures Valid()
      ensures routine.None? && this.scale == scale && currentScaleIndex.None?
      ensures !shouldShowNextButton && !isShowNextButtonEnabled
      ensures Transport() == (1, true, 0)
      ensures Display() == (None, "-", false, 0)
      ensures Player() == (DefaultTempo, DefaultTempo, [], 0)
    {
      routine := None;
      this.scale := scale;
      octaveChangeDirection := 1;
      autoRepeat := true;
      currentNoteIndex := None;
      currentNoteName := "-";
      isPlaying := false;
      transposition := 0;
      shouldShowNextButton := false;
      isShowNextButtonEnabled := false;
      currentBeat := 0;
      currentScaleIndex := None;
      playerCommands := [];
      scheduledPlays := 0;
      tempo := DefaultTempo;
      playerTempo := DefaultTempo;
    }

    /**
      `init(routine:)`: the next button is shown and the index set to 0, whose `didSet`
      selects the first scale and forwards its tempo. The routine must have a scale:
      the lookup of index 0 has no guard.
    */
    constructor FromRoutine(entries: seq<RoutineEntry>)
      requires |entries| > 0
      ensures Valid()
      ensures routine == Some(entries) && currentScaleIndex == Some(0)
      ensures scale == entries[0].scale && shouldShowNextButton
      ensures isShowNextButtonEnabled <==> |entries| > 1
      ensures Transport() == (1, true, 0)
      ensures Display() == (None, "-", false, 0)
      ensures Player() == (0, entries[0].tempo, [], 0)
    {
      routine := Some(entries);
      scale := entries[0].scale;
      octaveChangeDirection := 1;
      autoRepeat := true;
      currentNoteIndex := None;
      currentNoteName := "-";
      isPlaying := false;
      transposition := 0;
      shouldShowNextButton := true;
      isShowNextButtonEnabled := false;
      currentBeat := 0;
      currentScaleIndex := None;
      playerCommands := [];
      scheduledPlays := 0;
      tempo := 0;
      playerTempo := 0;
      new;
      SetCurrentScaleIndex(0);
    }

    /** `currentScaleIndex = index` with its `didSet`; with a routine the index must be in range. */
    method SetCurrentScaleIndex(index: nat)
      requires routine.Some? ==> index < |routine.value|
      modifies this
      ensures currentScaleIndex == Some(index)
      ensures isShowNextButtonEnabled == NextEnabled(routine, Some(index))
      ensures routine.Some? ==> scale == routine.value[index].scale && playerTempo == routine.value[index].tempo
      ensures routine.None? ==> scale == old(scale) && playerTempo == old(playerTempo)
      ensures shouldShowNextButton == old(shouldShowNextButton)
      ensures Transport() == old(Transport()) && Display() == old(Display())
      ensures tempo == old(tempo) && playerCommands == old(playerCommands) && scheduledPlays == old(scheduledPlays)
    {
      currentScaleIndex := Some(index);
      match routine
      case Some(entries) =>
        isShowNextButtonEnabled := index < |entries| - 1;
        scale := entries[index].scale;
        playerTempo := entries[index].tempo;
      case None =>
        isShowNextButtonEnabled := false;
    }

    /** `toggleRepeat()`. */
    method ToggleRepeat()
      requires Valid()
      modifies this
      ensures Valid()
      ensures autoRepeat == !old(autoRepeat)
      ensures octaveChangeDirection == old(octaveChangeDirection) && transposition == old(transposition)
      ensures Navigation() == old(Navigation()) && Display() == old(Display()) && Player() == old(Player())
    {
      autoRepeat := !autoRepeat;
    }

    /** `togglePlay()`: stop the player while it plays, otherwise play the scale's notes. */
    method TogglePlay()
      requires Valid()
      modifies this
      ensures Valid()
      ensures playerCommands == old(playerCommands) + [if isPlaying then PlayerCommand.Stop else Play(scale.notes)]
      ensures tempo == old(tempo) && playerTempo == old(playerTempo) && scheduledPlays == old(scheduledPlays)
      ensures Navigation() == old(Navigation()) && Transport() == old(Transport()) && Display() == old(Display())
    {
      if isPlaying {
        Stop();
      } else {
        playerCommands := playerCommands + [Play(scale.notes)];
      }
    }

    /** `toggleTransposeDirection()`: up becomes down and down becomes up. */
    method ToggleTransposeDirection()
      requires Valid()
      modifies this
      ensures Valid()
      ensures octaveChangeDirection == -old(octaveChangeDirection)
      ensures autoRepeat == old(autoRepeat) && transposition == old(transposition)
      ensures Navigation() == old(Navigation()) && Display() == old(Display()) && Player() == old(Player())
    {
      octaveChangeDirection := octaveChangeDirection * -1;
    }

    /** `changeKeyAndPlay()`: one step in the current direction, and a play scheduled a second later. */
    method ChangeKeyAndPlay()
      requires Valid()
      modifies this
      ensures Valid()
      ensures transposition == old(transposition) + octaveChangeDirection
      ensures scheduledPlays == old(scheduledPlays) + 1
      ensures octaveChangeDirection == old(octaveChangeDirection) && autoRepeat == old(autoRepeat)
      ensures tempo == old(tempo) && playerTempo == old(playerTempo) && playerCommands == old(playerCommands)
      ensures Navigation() == old(Navigation()) && Display() == old(Display())
    {
      transposition := transposition + octaveChangeDirection;
      scheduledPlays := scheduledPlays + 1;
    }

    /**
      `swipe(dir:)`: a swipe against the current direction only turns it round; a swipe
      along it changes the key.
    */
    method Swipe(dir: int)
      requires Valid()
      modifies this
      ensures Valid()
      ensures dir != old(octaveChangeDirection) ==>
        octaveChangeDirection == -old(octaveChangeDirection) &&
        transposition == old(transposition) && scheduledPlays == old(scheduledPlays)
      ensures dir == old(octaveChangeDirection) ==>
        octaveChangeDirection == old(octaveChangeDirection) &&
        transposition == old(transposition) + dir && scheduledPlays == old(scheduledPlays) + 1
      ensures autoRepeat == old(autoRepeat)
      ensures tempo == old(tempo) && playerTempo == old(playerTempo) && playerCommands == old(playerCommands)
      ensures Navigation() == old(Navigation()) && Display() == old(Display())
    {
      if dir != octaveChangeDirection {
        ToggleTransposeDirection();
      } else {
        ChangeKeyAndPlay();
      }
    }

    /** `stop()`. */
    method Stop()
      requires Valid()
      modifies this
      ensures Valid()
      ensures playerCommands == old(playerCommands) + [PlayerCommand.Stop]
      ensures tempo == old(tempo) && playerTempo == old(playerTempo) && scheduledPlays == old(scheduledPlays)
      ensures Navigation() == old(Navigation()) && Transport() == old(Transport()) && Display() == old(Display())
    {
      playerCommands := playerCommands + [PlayerCommand.Stop];
    }

    /** `close()`. */
    method Close()
      requires Valid()
      modifies this
      ensures Valid()
      ensures playerCommands == old(playerCommands) + [PlayerCommand.Stop]
      ensures tempo == old(tempo) && playerTempo == old(playerTempo) && scheduledPlays == old(scheduledPlays)
      ensures Navigation() == old(Navigation()) && Transport() == old(Transport()) && Display() == old(Display())
    {
      Stop();
    }

    /**
      `noteUpdated(index:)`: the player reports the note it reached, or a negative index for none.
      `keyName` stands for the note-name lookup of the music theory library.
    */
    method NoteUpdated(index: int, keyName: Byte -> string)
      requires Valid() && index < |scale.notes|
      modifies this
      ensures Valid()
      ensures Navigation() == old(Navigation()) && Transport() == old(Transport()) && Player() == old(Player())
      ensures index >= 0 ==> currentNoteIndex == Some(index) && currentNoteName == keyName(scale.notes[index].midiNote)
      ensures index < 0 ==> currentNoteIndex == None && currentNoteName == "-"
      ensures isPlaying == old(isPlaying) && currentBeat == old(currentBeat)
    {
      currentNoteIndex := if index >= 0 then Some(index) else None;
      if index >= 0 {
        currentNoteName := keyName(scale.notes[index].midiNote);
      } else {
        currentNoteName := "-";
      }
    }

    /** `nextScale()`: the routine's next scale; the source stops with a fatal error when there is no index. */
    method NextScale()
      requires Valid() && routine.Some? && currentScaleIndex.value + 1 < |routine.value|
      modifies this
      ensures Valid()
      ensures currentScaleIndex == Some(old(currentScaleIndex).value + 1)
      ensures scale == routine.value[currentScaleIndex.value].scale
      ensures playerTempo == routine.value[currentScaleIndex.value].tempo
      ensures isShowNextButtonEnabled <==> currentScaleIndex.value + 1 < |routine.value|
      ensures Transport() == old(Transport()) && Display() == old(Display())
      ensures tempo == old(tempo) && playerCommands == old(playerCommands) && scheduledPlays == old(scheduledPlays)
    {
      SetCurrentScaleIndex(currentScaleIndex.value + 1);
    }

    /** `tempoDidChange(tempo:)`: the new tempo, forwarded to the player. */
    method TempoDidChange(newTempo: int)
      requires Valid()
      modifies this
      ensures Valid()
      ensures tempo == newTempo && playerTempo == newTempo
      ensures playerCommands == old(playerCommands) && scheduledPlays == old(scheduledPlays)
      ensures Navigation() == old(Navigation()) && Transport() == old(Transport()) && Display() == old(Display())
    {
      tempo := newTempo;
      playerTempo := newTempo;
    }

    /** `playbackBegan()`. */
    method PlaybackBegan()
      requires Valid()
      modifies this
      ensures Valid()
      ensures isPlaying
      ensures currentNoteIndex == old(currentNoteIndex) && currentNoteName == old(currentNoteName)
      ensures currentBeat == old(currentBeat)
      ensures Navigation() == old(Navigation()) && Transport() == old(Transport()) && Player() == old(Player())
    {
      isPlaying := true;
    }

    /**
      `playbackStopped(completed:)`: a pass that ran to its end repeats in the next key while
      auto-repeat is on; otherwise playing stops.
    */
    method PlaybackStopped(completed: bool)
      requires Valid()
      modifies this
      ensures Valid()
      ensures autoRepeat && completed ==>
        transposition == old(transposition) + octaveChangeDirection &&
        scheduledPlays == old(scheduledPlays) + 1 && isPlaying == old(isPlaying)
      ensures !(autoRepeat && completed) ==>
        transposition == old(transposition) && scheduledPlays == old(scheduledPlays) && !isPlaying
      ensures octaveChangeDirection == old(octaveChangeDirection) && autoRepeat == old(autoRepeat)
      ensures currentNoteIndex == old(currentNoteIndex) && currentNoteName == old(currentNoteName)
      ensures currentBeat == old(currentBeat)
      ensures tempo == old(tempo) && playerTempo == old(playerTempo) && playerCommands == old(playerCommands)
      ensures Navigation() == old(Navigation())
    {
      if autoRepeat && completed {
        ChangeKeyAndPlay();
      } else {
        isPlaying := false;
      }
    }

    /** `beat(num:)`. */
    method Beat(num: int)
      requires Valid()
      modifies this
      ensures Valid()
      ensures currentBeat == num
      ensures currentNoteIndex == old(currentNoteIndex) && currentNoteName == old(currentNoteName)
      ensures isPlaying == old(isPlaying)
      ensures Navigation() == old(Navigation()) && Transport() == old(Transport()) && Player() == old(Player())
    {
      currentBeat := num;
    }

    /** `n` completed passes with auto-repeat on move the key `n` steps in the current direction. */
    method RepeatPasses(n: nat)
      requires Valid() && autoRepeat
      modifies this
      ensures Valid()
      ensures transposition == TranspositionAfter(old(transposition), octaveChangeDirection, n)
      ensures octaveChangeDirection == old(octaveChangeDirection) && autoRepeat
      ensures scheduledPlays == old(scheduledPlays) + n
      ensures Navigation() == old(Navigation())
    {
      for i := 0 to n
        invariant Valid() && autoRepeat
        invariant octaveChangeDirection == old(octaveChangeDirection)
        invariant transposition == TranspositionAfter(old(transposition), octaveChangeDirection, i)
        invariant scheduledPlays == old(scheduledPlays) + i
        invariant Navigation() == old(Navigation())
      {
        PlaybackStopped(true);
      }
    }
  }

  /** Two swipes down from the start: the first turns the direction round, the second lowers the key. */
  method SwipeFixture(s: StoredScale) returns (vm: PerformScaleViewModel)
    ensures vm.octaveChangeDirection == -1 && vm.transposition == -1
  {
    vm := new PerformScaleViewModel(s);
    vm.Swipe(-1);
    assert vm.transposition == 0;
    vm.Swipe(-1);
  }

  /** A two-scale routine: the next button is enabled on the first scale and disabled after `nextScale`. */
  method RoutineFixture(a: StoredScale, b: StoredScale) returns (vm: PerformScaleViewModel)
    ensures vm.scale == b && vm.playerTempo == 90 && !vm.isShowNextButtonEnabled
  {
    vm := new PerformScaleViewModel.FromRoutine([RoutineEntry(a, 60), RoutineEntry(b, 90)]);
    assert vm.isShowNextButtonEnabled;
    vm.NextScale();
  }
}
