/** The asteroid selector of the data page: the effect that picks the first
    asteroid when nothing is selected, the previous/next buttons that cycle
    through the list by name, and the dropdown that selects by name. */
module AsteroidSelector {
  import opened Wrappers

  /** An asteroid of the shared list; only its name is consulted. */
  datatype Asteroid = Asteroid(name: string, id: string)

  /** No two asteroids of the list share a name. */
  predicate DistinctNames(list: seq<Asteroid>) {
    forall j, k :: 0 <= j < k < |list| ==> list[j].name != list[k].name
  }

  /** `findIndex(ast => ast.name === name)`: the first index with that name, or -1. */
  function FindIndex(list: seq<Asteroid>, name: string): (r: int)
    ensures -1 <= r < |list|
    ensures r == -1 <==> forall k :: 0 <= k < |list| ==> list[k].name != name
    ensures r >= 0 ==> list[r].name == name && forall k :: 0 <= k < r ==> list[k].name != name
    decreases |list|
  {
    if |list| == 0 then -1
    else if list[0].name == name then 0
    else
      var r := FindIndex(list[1..], name);
      assert forall k :: 1 <= k < |list| ==> list[k] == list[1..][k - 1];
      if r == -1 then -1 else r + 1
  }

  /** With distinct names every asteroid is found at its own index. */
  lemma FindIndexDistinct(list: seq<Asteroid>, k: int)
    requires DistinctNames(list) && 0 <= k < |list|
    ensures FindIndex(list, list[k].name) == k
  {
  }

  /** `find(ast => ast.name === name)`: the first asteroid with that name, or undefined. */
  function Find(list: seq<Asteroid>, name: string): (r: Option<Asteroid>)
    ensures r.Some? <==> exists k :: 0 <= k < |list| && list[k].name == name
    ensures r.Some? ==> r.value.name == name && r.value == list[FindIndex(list, name)]
  {
    var k := FindIndex(list, name);
    if k == -1 then None else Some(list[k])
  }

  /** The index both buttons start from: the selected asteroid's, or 0 with no selection. */
  function CurrentIndex(list: seq<Asteroid>, selected: Option<Asteroid>): (i: int)
    ensures -1 <= i && (|list| > 0 ==> i < |list|)
    ensures selected.Some? ==> i == FindIndex(list, selected.value.name)
  {
    if selected.Some? then FindIndex(list, selected.value.name) else 0
  }

  /** The index before `current`, wrapping from the front (or from -1) to the last one. */
  function PrevIndex(n: int, current: int): (i: int)
    requires n > 0 && -1 <= current < n
    ensures 0 <= i < n
  {
    if current > 0 then current - 1 else n - 1
  }

  /** The index after `current`, wrapping from the last one to 0; -1 goes to 0. */
  function NextIndex(n: int, current: int): (i: int)
    requires n > 0 && -1 <= current < n
    ensures 0 <= i < n
  {
    if current < n - 1 then current + 1 else 0
  }

  /** The selection after the previous button. An empty list keeps the selection; otherwise an
      asteroid of the list is selected. */
  function Prev(list: seq<Asteroid>, selected: Option<Asteroid>): (r: Option<Asteroid>)
    ensures |list| == 0 ==> r == selected
    ensures |list| > 0 ==> r.Some? && r.value in list
  {
    if |list| == 0 then selected else Some(list[PrevIndex(|list|, CurrentIndex(list, selected))])
  }

  /** The selection after the next button, with the same guarantees. */
  function Next(list: seq<Asteroid>, selected: Option<Asteroid>): (r: Option<Asteroid>)
    ensures |list| == 0 ==> r == selected
    ensures |list| > 0 ==> r.Some? && r.value in list
  {
    if |list| == 0 then selected else Some(list[NextIndex(|list|, CurrentIndex(list, selected))])
  }

  /** The `value` of the dropdown: the selected name, or the placeholder's "". */
  function DropdownValue(selected: Option<Asteroid>): (v: string)
    ensures selected.None? ==> v == ""
    ensures selected.Some? ==> v == selected.value.name
  {
    if selected.Some? then selected.value.name else ""
  }

  /** The selection state shared through the asteroid context. */
  /** What the effect leaves selected: the first asteroid when nothing is selected and the list
      is non-empty, and the selection as it was otherwise. */
  function InitialSelection(list: seq<Asteroid>, selected: Option<Asteroid>): (r: Option<Asteroid>)
    ensures selected.Some? ==> r == selected
    ensures selected.None? && |list| > 0 ==> r == Some(list[0])
    ensures r.None? <==> selected.None? && |list| == 0
  {
    if selected.None? && |list| > 0 then Some(list[0]) else selected
  }

  class Selection {
    var asteroids: seq<Asteroid>
    var selected: Option<Asteroid>

    constructor (asteroids: seq<Asteroid>)
      ensures this.asteroids == asteroids && selected == None
    {
      this.asteroids := asteroids;
      selected := None;
    }

    /** The effect: with no selection and a non-empty list, select the first asteroid. */
    method EnsureInitialSelection()
      modifies this
      ensures asteroids == old(asteroids)
      ensures selected == InitialSelection(asteroids, old(selected))
    {
      if selected.None? && |asteroids| > 0 {
        selected := Some(asteroids[0]);
      }
    }

    /** `handlePrevAsteroid`. */
    method HandlePrev()
      modifies this
      ensures asteroids == old(asteroids)
      ensures selected == Prev(asteroids, old(selected))
    {
      if |asteroids| == 0 {
        return;
      }
      var currentIndex := if selected.Some? then FindIndex(asteroids, selected.value.name) else 0;
      var prevIndex := if currentIndex > 0 then currentIndex - 1 else |asteroids| - 1;
      selected := Some(asteroids[prevIndex]);
    }

    /** `handleNextAsteroid`. */
    method HandleNext()
      modifies this
      ensures asteroids == old(asteroids)
      ensures selected == Next(asteroids, old(selected))
    {
      if |asteroids| == 0 {
        return;
      }
      var currentIndex := if selected.Some? then FindIndex(asteroids, selected.value.name) else 0;
      var nextIndex := if currentIndex < |asteroids| - 1 then currentIndex + 1 else 0;
      selected := Some(asteroids[nextIndex]);
    }

    /** The dropdown's `onChange`: the first asteroid with the chosen name, or none. */
    method SelectByName(value: string)
      modifies this
      ensures asteroids == old(asteroids)
      ensures selected == Find(asteroids, value)
    {
      selected := Find(asteroids, value);
    }

    /** A change of the dropdown as the user sees it: the handler sets the selection, and since
        the selection is among the effect's dependencies, the effect runs again right after. */
    method ChooseInDropdown(value: string)
      modifies this
      ensures asteroids == old(asteroids)
      ensures selected == InitialSelection(asteroids, Find(asteroids, value))
    {
      SelectByName(value);
      EnsureInitialSelection();
    }
  }

  /** Previous from the first asteroid wraps to the last one. */
  lemma PrevFromFirstWraps(list: seq<Asteroid>)
    requires |list| > 0
    ensures Prev(list, Some(list[0])) == Some(list[|list| - 1])
  {
  }

  /** Next from the last asteroid wraps to the first one, when the last name is not repeated. */
  lemma NextFromLastWraps(list: seq<Asteroid>)
    requires DistinctNames(list) && |list| > 0
    ensures Next(list, Some(list[|list| - 1])) == Some(list[0])
  {
    FindIndexDistinct(list, |list| - 1);
  }

  /** A selected asteroid whose name is not in the list (`findIndex` gives -1): next picks the
      first asteroid and previous the last. */
  lemma UnlistedSelection(list: seq<Asteroid>, a: Asteroid)
    requires |list| > 0 && forall k :: 0 <= k < |list| ==> list[k].name != a.name
    ensures Next(list, Some(a)) == Some(list[0])
    ensures Prev(list, Some(a)) == Some(list[|list| - 1])
  {
  }

  /** With no selection the current index is 0: next picks the second asteroid (the first of
      a one-element list) and previous the last. */
  lemma NoSelection(list: seq<Asteroid>)
    requires |list| > 0
    ensures Next(list, None) == Some(list[if |list| > 1 then 1 else 0])
    ensures Prev(list, None) == Some(list[|list| - 1])
  {
  }

  /** With distinct names, next then previous, and previous then next, come back to the
      asteroid started from. */
  lemma NextPrevRoundTrip(list: seq<Asteroid>, k: int)
    requires DistinctNames(list) && 0 <= k < |list|
    ensures Prev(list, Next(list, Some(list[k]))) == Some(list[k])
    ensures Next(list, Prev(list, Some(list[k]))) == Some(list[k])
  {
    FindIndexDistinct(list, k);
    var n := NextIndex(|list|, k);
    var p := PrevIndex(|list|, k);
    FindIndexDistinct(list, n);
    FindIndexDistinct(list, p);
  }

  /** The handler's `find` for the placeholder option gives no asteroid unless some asteroid has
      the empty name; the effect that follows then selects again (`DropdownNeverClears`). */
  lemma PlaceholderClears(list: seq<Asteroid>)
    requires forall k :: 0 <= k < |list| ==> list[k].name != ""
    ensures Find(list, "") == None
  {
  }

  /** Choosing the placeholder clears the selection only until the effect runs again, which
      selects the first asteroid: on a non-empty list a dropdown change never leaves the
      selection empty, and a name that is not listed ends on the first asteroid. */
  lemma DropdownNeverClears(list: seq<Asteroid>, value: string)
    requires |list| > 0
    ensures InitialSelection(list, Find(list, value)).Some?
    ensures Find(list, value).None? ==> InitialSelection(list, Find(list, value)) == Some(list[0])
    ensures (forall k :: 0 <= k < |list| ==> list[k].name != "") ==>
              InitialSelection(list, Find(list, "")) == Some(list[0])
  {
    if forall k :: 0 <= k < |list| ==> list[k].name != "" {
      PlaceholderClears(list);
    }
  }

  /** With distinct names, choosing the name the dropdown shows selects the asteroid shown. */
  lemma DropdownRoundTrip(list: seq<Asteroid>, k: int)
    requires DistinctNames(list) && 0 <= k < |list|
    ensures Find(list, DropdownValue(Some(list[k]))) == Some(list[k])
  {
    FindIndexDistinct(list, k);
  }
}
