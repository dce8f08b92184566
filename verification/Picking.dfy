/** Picking some members of a list, in order: which positions a filter keeps. */
module Picking {

  /** The positions are, in ascending order, exactly those whose flag is set. */
  ghost predicate Exactly(flags: seq<bool>, positions: seq<nat>) {
    && (forall i, j :: 0 <= i < j < |positions| ==> positions[i] < positions[j])
    && (forall i :: 0 <= i < |positions| ==> positions[i] < |flags| && flags[positions[i]])
    && (forall k :: 0 <= k < |flags| && flags[k] ==> k in positions)
  }

  function Chosen(flags: seq<bool>): seq<nat> {
    if flags == [] then []
    else
      var n := |flags| - 1;
      Chosen(flags[..n]) + if flags[n] then [n] else []
  }

  lemma {:induction false} ChosenIsExact(flags: seq<bool>)
    ensures Exactly(flags, Chosen(flags))
  {
    if flags != [] {
      var n := |flags| - 1;
      ChosenIsExact(flags[..n]);
      var before := Chosen(flags[..n]);
      forall k | 0 <= k < |flags| && flags[k] ensures k in Chosen(flags) {
        if k < n {
          assert flags[..n][k];
        }
      }
      forall i | 0 <= i < |before| ensures before[i] < n && flags[before[i]] {
        assert flags[..n][before[i]] == flags[before[i]];
      }
    }
  }
}
