/**
  The routine editor's view model: an ordered list of links to practice scales that the
  user reorders, trims and extends, a name, and the save and cancel flows. The scale type
  is a parameter `S`; a link is an object of its own, compared by identity.
*/
module RoutineEdit {
  import opened Wrappers
  import opened Collections

  /** `RoutineScale`: one entry of a routine, pointing at a practice scale. */
  class RoutineScale<S> {
    const scale: S

    constructor (scale: S)
      ensures this.scale == scale
    {
      this.scale := scale;
    }
  }

  /** The scales a list of links points at, in list order. */
  function ScalesOf<S>(links: seq<RoutineScale<S>>): (r: seq<S>)
    ensures |r| == |links| && forall k :: 0 <= k < |links| ==> r[k] == links[k].scale
  {
    if links == [] then [] else ScalesOf(links[..|links| - 1]) + [links[|links| - 1].scale]
  }

  /** `scales.remove(at: i)`: the list without its `i`-th element. */
  function RemovedAt<T>(xs: seq<T>, i: nat): (r: seq<T>)
    requires i < |xs|
    ensures |r| == |xs| - 1
    ensures forall k :: 0 <= k < i ==> r[k] == xs[k]
    ensures forall k :: i <= k < |r| ==> r[k] == xs[k + 1]
  {
    xs[..i] + xs[i + 1..]
  }

  /** `scales.insert(x, at: i)`: `x` placed in front of the `i`-th element. */
  function InsertedAt<T>(xs: seq<T>, x: T, i: nat): (r: seq<T>)
    requires i <= |xs|
    ensures |r| == |xs| + 1 && r[i] == x
    ensures forall k :: 0 <= k < i ==> r[k] == xs[k]
    ensures forall k :: i < k < |r| ==> r[k] == xs[k - 1]
  {
    xs[..i] + [x] + xs[i..]
  }

  /** `moveScaleFromIndex(_:to:)`: take the element at `s` out, then insert it at `d`. */
  function Moved<T>(xs: seq<T>, s: nat, d: nat): seq<T>
    requires s < |xs| && d < |xs|
  {
    InsertedAt(RemovedAt(xs, s), xs[s], d)
  }

  /** Removing drops exactly one occurrence of the removed element. */
  lemma RemovedAtMultiset<T>(xs: seq<T>, i: nat)
    requires i < |xs|
    ensures multiset(RemovedAt(xs, i)) + multiset{xs[i]} == multiset(xs)
  {
    assert xs == xs[..i] + [xs[i]] + xs[i + 1..];
  }

  /** A move is a rearrangement: same length, same elements with the same counts, the moved element at `d`. */
  lemma MovedPermutation<T>(xs: seq<T>, s: nat, d: nat)
    requires s < |xs| && d < |xs|
    ensures |Moved(xs, s, d)| == |xs| && Moved(xs, s, d)[d] == xs[s]
    ensures multiset(Moved(xs, s, d)) == multiset(xs)
  {
    var r := RemovedAt(xs, s);
    RemovedAtMultiset(xs, s);
    assert Moved(xs, s, d) == r[..d] + [xs[s]] + r[d..];
    assert r == r[..d] + r[d..];
  }

  /**
    Where each element ends up: a move from `s` to `d` shifts the elements between the two
    places by one towards `s` and leaves the rest in place.
  */
  lemma MovedElements<T>(xs: seq<T>, s: nat, d: nat, k: nat)
    requires s < |xs| && d < |xs| && k < |xs|
    ensures Moved(xs, s, d)[k] ==
      if k == d then xs[s]
      else if s <= k < d then xs[k + 1]
      else if d < k <= s then xs[k - 1]
      else xs[k]
  {
  }

  /** Moving back from `d` to `s` restores the list. */
  lemma MoveBack<T>(xs: seq<T>, s: nat, d: nat)
    requires s < |xs| && d < |xs|
    ensures Moved(Moved(xs, s, d), d, s) == xs
  {
    var m := Moved(xs, s, d);
    MovedPermutation(xs, s, d);
    forall k | 0 <= k < |xs|
      ensures Moved(m, d, s)[k] == xs[k]
    {
      MovedElements(m, d, s, k);
      if k != s {
        if d <= k < s {
          MovedElements(xs, s, d, k + 1);
        } else if s < k <= d {
          MovedElements(xs, s, d, k - 1);
        } else {
          MovedElements(xs, s, d, k);
        }
      }
    }
  }

  lemma MoveAndRemoveExamples(a: int, b: int, c: int)
    ensures Moved([a, b, c], 0, 2) == [b, c, a]
    ensures RemovedAt([a, b, c], 1) == [a, c]
  {
  }

  /** A list without repetitions keeps that property under moves and removals. */
  lemma MovedDistinct<T>(xs: seq<T>, s: nat, d: nat)
    requires Distinct(xs) && s < |xs| && d < |xs|
    ensures Distinct(Moved(xs, s, d))
  {
    MovedPermutation(xs, s, d);
    DistinctPermutation(xs, Moved(xs, s, d));
  }

  lemma RemovedDistinct<T>(xs: seq<T>, i: nat)
    requires Distinct(xs) && i < |xs|
    ensures Distinct(RemovedAt(xs, i))
  {
    var r := RemovedAt(xs, i);
    forall k, l | 0 <= k < l < |r|
      ensures r[k] != r[l]
    {
      var k', l' := if k < i then k else k + 1, if l < i then l else l + 1;
      assert r[k] == xs[k'] && r[l] == xs[l'];
    }
  }

  /** `PracticeRoutine` as saved: its name and its ordered set of links. */
  datatype StoredRoutine<S> = StoredRoutine(name: string, scales: seq<RoutineScale<S>>)

  const NewRoutineTitle := "<New Routine>"

  class RoutineEditViewModel<S> {
    var name: string
    var title: string
    var scales: seq<RoutineScale<S>>
    var editSessionComplete: bool
    /** The routine being edited; `None` for a new one. */
    var routine: Option<StoredRoutine<S>>
    var routineUpdated: bool
    /** How many times the Core Data context was saved. */
    var contextSaves: nat
    /** Every routine handed to the responder's `editCompleted(routine:)`, oldest first. */
    var completions: seq<StoredRoutine<S>>

    /**
      An update is only recorded for an existing routine, and no link appears twice, so
      saving the list as an ordered set keeps it as it is.
    */
    predicate Valid()
      reads this
    {
      (routineUpdated ==> routine.Some?) && Distinct(scales)
    }

    /** `init(routine:coordinator:responder:)`; a stored routine's links come from an ordered set. */
    constructor (routine: Option<StoredRoutine<S>>)
      requires routine.Some? ==> Distinct(routine.value.scales)
      ensures Valid()
      ensures this.routine == routine && !routineUpdated && !editSessionComplete
      ensures routine.None? ==> name == "" && title == NewRoutineTitle && scales == []
      ensures routine.Some? ==> name == title == routine.value.name && scales == routine.value.scales
      ensures contextSaves == 0 && completions == []
    {
      this.routine := routine;
      routineUpdated := false;
      editSessionComplete := false;
      contextSaves := 0;
      completions := [];
      if routine.Some? {
        name := routine.value.name;
        title := routine.value.name;
        scales := routine.value.scales;
      } else {
        name := "";
        title := NewRoutineTitle;
        scales := [];
      }
    }

    /** `moveScaleFromIndex(_:to:)`. */
    method MoveScale(sourceIndex: nat, destIndex: nat)
      requires Valid() && sourceIndex < |scales| && destIndex < |scales|
      modifies this
      ensures Valid()
      ensures scales == Moved(old(scales), sourceIndex, destIndex)
      ensures name == old(name) && title == old(title) && routine == old(routine)
      ensures routineUpdated == old(routineUpdated) && editSessionComplete == old(editSessionComplete)
      ensures contextSaves == old(contextSaves) && completions == old(completions)
    {
      var movedObject := scales[sourceIndex];
      scales := RemovedAt(scales, sourceIndex);
      scales := InsertedAt(scales, movedObject, destIndex);
      MovedDistinct(old(scales), sourceIndex, destIndex);
    }

    /** `removeScaleAtIndex(_:)`. */
    method RemoveScale(index: nat)
      requires Valid() && index < |scales|
      modifies this
      ensures Valid()
      ensures scales == RemovedAt(old(scales), index)
      ensures name == old(name) && title == old(title) && routine == old(routine)
      ensures routineUpdated == old(routineUpdated) && editSessionComplete == old(editSessionComplete)
      ensures contextSaves == old(contextSaves) && completions == old(completions)
    {
      RemovedDistinct(scales, index);
      scales := RemovedAt(scales, index);
    }

    /** `updateName(_:)`: the name (and through it the title) always changes; only an existing routine is renamed and saved. */
    method UpdateName(updatedName: string)
      requires Valid()
      modifies this
      ensures Valid()
      ensures name == updatedName && title == updatedName
      ensures old(routine).Some? && updatedName != "" ==>
        routine == Some(old(routine).value.(name := updatedName)) &&
        routineUpdated && contextSaves == old(contextSaves) + 1
      ensures !(old(routine).Some? && updatedName != "") ==>
        routine == old(routine) && routineUpdated == old(routineUpdated) && contextSaves == old(contextSaves)
      ensures scales == old(scales) && editSessionComplete == old(editSessionComplete)
      ensures completions == old(completions)
    {
      name := updatedName;
      title := name;
      if routine.Some? && name != "" {
        routine := Some(routine.value.(name := name));
        contextSaves := contextSaves + 1;
        routineUpdated := true;
      }
    }

    /** `editingCompleted()`: the responder hears of the routine only if it was updated; the session always ends. */
    method EditingCompleted()
      requires Valid()
      modifies this
      ensures Valid()
      ensures editSessionComplete
      ensures completions == old(completions) + (if routineUpdated then [routine.value] else [])
      ensures name == old(name) && title == old(title) && scales == old(scales) && routine == old(routine)
      ensures routineUpdated == old(routineUpdated) && contextSaves == old(contextSaves)
    {
      if routineUpdated {
        completions := completions + [routine.value];
      }
      editSessionComplete := true;
    }

    /**
      `save()`: without a name nothing is saved and the name dialog opens instead. Otherwise the
      routine (the edited one, or a new one) takes the name and the links, the context is saved,
      the responder gets it and the session ends.
    */
    method Save()
      requires Valid()
      modifies this
      ensures Valid()
      ensures old(name) == "" ==>
        editSessionComplete == old(editSessionComplete) && completions == old(completions) &&
        contextSaves == old(contextSaves) && routine == old(routine)
      ensures old(name) != "" ==>
        editSessionComplete && contextSaves == old(contextSaves) + 1 &&
        completions == old(completions) + [StoredRoutine(name, scales)] &&
        routine == (if old(routine).Some? then Some(StoredRoutine(name, scales)) else None)
      ensures name == old(name) && title == old(title) && scales == old(scales)
      ensures routineUpdated == old(routineUpdated)
    {
      if name == "" {
        return;
      }
      var saved := StoredRoutine(name, scales);
      if routine.Some? {
        routine := Some(saved);
      }
      contextSaves := contextSaves + 1;
      completions := completions + [saved];
      editSessionComplete := true;
    }

    /** `cancel()`. */
    method Cancel()
      requires Valid()
      modifies this
      ensures Valid()
      ensures editSessionComplete
      ensures completions == old(completions) + (if routineUpdated then [routine.value] else [])
      ensures name == old(name) && title == old(title) && scales == old(scales) && routine == old(routine)
      ensures routineUpdated == old(routineUpdated) && contextSaves == old(contextSaves)
    {
      EditingCompleted();
    }

    /** `scalesSelected(scales:)`: one new link per chosen scale, appended in the order given. */
    method ScalesSelected(selected: seq<S>)
      requires Valid()
      modifies this
      ensures Valid()
      ensures |scales| == |old(scales)| + |selected| && scales[..|old(scales)|] == old(scales)
      ensures ScalesOf(scales[|old(scales)|..]) == selected
      ensures forall k :: |old(scales)| <= k < |scales| ==> fresh(scales[k])
      ensures name == old(name) && title == old(title) && routine == old(routine)
      ensures routineUpdated == old(routineUpdated) && editSessionComplete == old(editSessionComplete)
      ensures contextSaves == old(contextSaves) && completions == old(completions)
    {
      var n := |scales|;
      for i := 0 to |selected|
        invariant |scales| == n + i && scales[..n] == old(scales)
        invariant forall k :: n <= k < |scales| ==> fresh(scales[k]) && scales[k].scale == selected[k - n]
        invariant Distinct(scales)
        invariant name == old(name) && title == old(title) && routine == old(routine)
        invariant routineUpdated == old(routineUpdated) && editSessionComplete == old(editSessionComplete)
        invariant contextSaves == old(contextSaves) && completions == old(completions)
      {
        var link := new RoutineScale(selected[i]);
        assert link !in scales;
        DistinctAppend(scales, link);
        scales := scales + [link];
      }
      assert ScalesOf(scales[n..]) == selected;
    }
  }

  /** The moves and removals the view model's tests make, on three freshly selected scales. */
  method EditListFixture<S>(a: S, b: S, c: S) returns (removed: seq<S>, moved: seq<S>)
    ensures removed == [a, c] && moved == [b, c, a]
  {
    var fromRemove := new RoutineEditViewModel<S>(None);
    fromRemove.ScalesSelected([a, b, c]);
    fromRemove.RemoveScale(1);
    removed := ScalesOf(fromRemove.scales);
    var fromMove := new RoutineEditViewModel<S>(None);
    fromMove.ScalesSelected([a, b, c]);
    fromMove.MoveScale(0, 2);
    moved := ScalesOf(fromMove.scales);
  }

  /** The new-routine flow: a name without a routine saves nothing until `save`, which hands over a routine with it. */
  method NewRoutineNameFixture<S>() returns (vm: RoutineEditViewModel<S>)
    ensures vm.name == "XXX" && vm.title == "XXX" && vm.editSessionComplete
    ensures vm.contextSaves == 1 && vm.completions == [StoredRoutine("XXX", [])]
  {
    vm := new RoutineEditViewModel<S>(None);
    vm.UpdateName("XXX");
    assert vm.contextSaves == 0;
    vm.Save();
  }
}
