/**
 * The inverse routing map: for one input, the outputs whose selected source is that input.
 * The package coordinator numbers outputs from 1, the older coordinator from 0; `base` says which.
 */
module Routing {

  /** The numbers `o + base`, ascending, of the positions `o` with `selected[o] == source`. */
  function RoutedTo(selected: seq<int>, source: int, base: int): seq<int> {
    if selected == [] then []
    else
      var n := |selected| - 1;
      RoutedTo(selected[..n], source, base) + (if selected[n] == source then [n + base] else [])
  }

  predicate Ascending(s: seq<int>) {
    forall i, j :: 0 <= i < j < |s| ==> s[i] < s[j]
  }

  /** An output number is listed exactly when that output selects the source. */
  lemma {:induction false} RoutedToMembers(selected: seq<int>, source: int, base: int, x: int)
    ensures x in RoutedTo(selected, source, base)
        <==> base <= x < |selected| + base && selected[x - base] == source
  {
    if selected != [] {
      var n := |selected| - 1;
      RoutedToMembers(selected[..n], source, base, x);
    }
  }

  /** The list is in ascending output order, so it has no repetitions. */
  lemma {:induction false} RoutedToAscending(selected: seq<int>, source: int, base: int)
    ensures Ascending(RoutedTo(selected, source, base))
  {
    if selected != [] {
      var n := |selected| - 1;
      var front := RoutedTo(selected[..n], source, base);
      RoutedToAscending(selected[..n], source, base);
      var tail := if selected[n] == source then [n + base] else [];
      assert RoutedTo(selected, source, base) == front + tail;
      forall i, j | 0 <= i < j < |front + tail|
        ensures (front + tail)[i] < (front + tail)[j]
      {
        if j >= |front| {
          assert (front + tail)[i] == front[i] && front[i] in front;
          RoutedToMembers(selected[..n], source, base, front[i]);
        }
      }
    }
  }

  /** The lists of two different sources share no output. */
  lemma RoutedToDisjoint(selected: seq<int>, s1: int, s2: int, base: int, x: int)
    requires s1 != s2
    ensures !(x in RoutedTo(selected, s1, base) && x in RoutedTo(selected, s2, base))
  {
    RoutedToMembers(selected, s1, base, x);
    RoutedToMembers(selected, s2, base, x);
  }

  /** Changing the numbering base shifts every entry by the difference and nothing else. */
  lemma {:induction false} RoutedToShift(selected: seq<int>, source: int, base: int)
    ensures |RoutedTo(selected, source, base)| == |RoutedTo(selected, source, 0)|
    ensures forall i :: 0 <= i < |RoutedTo(selected, source, 0)| ==>
              RoutedTo(selected, source, base)[i] == RoutedTo(selected, source, 0)[i] + base
  {
    if selected != [] {
      RoutedToShift(selected[..|selected| - 1], source, base);
    }
  }
}
