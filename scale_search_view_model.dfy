/**
  The scale picker of the routine editor: a page of scales from the data store, filtered by
  the search text, and the set of scales the user has ticked. The scale type is a parameter `S`.
*/
module ScaleSearch {
  import opened Wrappers
  import opened Collections

  /** Which data store fetch `loadPage()` issues. */
  datatype Query = SearchByText(text: string) | FetchAll

  /** The branch `loadPage()` takes: the text search exactly when there is text to search for. */
  function PageQuery(searchText: string): (q: Query)
    ensures q == FetchAll <==> |searchText| == 0
    ensures q.SearchByText? ==> q.text == searchText
  {
    if |searchText| > 0 then SearchByText(searchText) else FetchAll
  }

  /** `toggleScaleSelection(_:)` on the set: a ticked scale is unticked, an unticked one ticked. */
  function Toggled<S>(selected: set<S>, s: S): (r: set<S>)
    ensures s in r <==> s !in selected
    ensures r - {s} == selected - {s}
  {
    if s in selected then selected - {s} else selected + {s}
  }

  /** Ticking the same scale twice restores the selection. */
  lemma ToggleTwice<S>(selected: set<S>, s: S)
    ensures Toggled(Toggled(selected, s), s) == selected
  {
  }

  /** `Array(selectedScales)`: the elements of a set, each once, in some order. */
  method ArrayOf<S(==)>(elements: set<S>) returns (xs: seq<S>)
    ensures |xs| == |elements| && Distinct(xs)
    ensures forall x :: x in xs <==> x in elements
  {
    xs := [];
    var remaining := elements;
    while remaining != {}
      invariant remaining <= elements && Distinct(xs)
      invariant forall x :: x in xs <==> x in elements - remaining
      invariant |xs| + |remaining| == |elements|
      decreases |remaining|
    {
      var x :| x in remaining;
      DistinctAppend(xs, x);
      xs := xs + [x];
      remaining := remaining - {x};
    }
  }

  class ScaleSearchViewModel<S(==)> {
    var searchText: string
    var scales: seq<S>
    var selectedScales: set<S>
    /** Every fetch issued to the data store, oldest first. */
    var queries: seq<Query>
    /** How many failed fetches were reported to the error handler. */
    var errorReports: nat
    /** Every list handed to the responder's `scalesSelected(scales:)`, oldest first. */
    var handedOver: seq<seq<S>>

    constructor ()
      ensures searchText == "" && scales == [] && selectedScales == {}
      ensures queries == [] && errorReports == 0 && handedOver == []
    {
      searchText := "";
      scales := [];
      selectedScales := {};
      queries := [];
      errorReports := 0;
      handedOver := [];
    }

    /** `count`: the number of rows. */
    function Count(): nat
      reads this
    {
      |scales|
    }

    /** `scaleAt(row:)`: the scale shown in a row. */
    function ScaleAt(row: nat): (s: S)
      requires row < Count()
      reads this
      ensures s == scales[row] && s in scales
    {
      scales[row]
    }

    /**
      `loadPage()`. The data store's answer is a parameter: `Some(page)` for the fetched
      scales, `None` for a fetch that threw. A failure keeps the old page and is reported.
    */
    method LoadPage(answer: Option<seq<S>>)
      modifies this
      ensures queries == old(queries) + [PageQuery(searchText)]
      ensures answer.Some? ==> scales == answer.value && errorReports == old(errorReports)
      ensures answer.None? ==> scales == old(scales) && errorReports == old(errorReports) + 1
      ensures searchText == old(searchText) && selectedScales == old(selectedScales)
      ensures handedOver == old(handedOver)
    {
      queries := queries + [PageQuery(searchText)];
      match answer
      case Some(page) =>
        scales := page;
      case None =>
        errorReports := errorReports + 1;
    }

    /** `toggleScaleSelection(_:)`. */
    method ToggleScaleSelection(scale: S)
      modifies this
      ensures selectedScales == Toggled(old(selectedScales), scale)
      ensures searchText == old(searchText) && scales == old(scales)
      ensures queries == old(queries) && errorReports == old(errorReports) && handedOver == old(handedOver)
    {
      if scale in selectedScales {
        selectedScales := selectedScales - {scale};
      } else {
        selectedScales := selectedScales + {scale};
      }
    }

    /** `addScales()`: the responder gets every ticked scale exactly once. */
    method AddScales()
      modifies this
      ensures |handedOver| == |old(handedOver)| + 1 && handedOver[..|old(handedOver)|] == old(handedOver)
      ensures var given := handedOver[|old(handedOver)|];
        |given| == |selectedScales| && Distinct(given) &&
        forall x :: x in given <==> x in selectedScales
      ensures searchText == old(searchText) && scales == old(scales) && selectedScales == old(selectedScales)
      ensures queries == old(queries) && errorReports == old(errorReports)
    {
      var given := ArrayOf(selectedScales);
      handedOver := handedOver + [given];
    }
  }

  /** Typing a search text, then clearing it, issues a text search and then a full fetch. */
  method SearchFixture<S(==)>(s: S) returns (vm: ScaleSearchViewModel<S>)
    ensures vm.queries == [SearchByText("maj"), FetchAll]
    ensures vm.scales == [s] && vm.selectedScales == {}
  {
    vm := new ScaleSearchViewModel<S>();
    vm.searchText := "maj";
    vm.LoadPage(Some([s]));
    vm.searchText := "";
    vm.LoadPage(None);
    vm.ToggleScaleSelection(s);
    vm.ToggleScaleSelection(s);
  }
}
