/** Sequences without repetition, and how large they can be. */
module Counting {

  function Elements(s: seq<nat>): set<nat> {
    set x | x in s
  }

  predicate NoRepeats(s: seq<nat>) {
    forall i, j :: 0 <= i < j < |s| ==> s[i] != s[j]
  }

  lemma {:induction false} AllDifferent(s: seq<nat>)
    requires NoRepeats(s)
    ensures |Elements(s)| == |s|
    decreases |s|
  {
    if s != [] {
      var last := s[|s| - 1];
      var rest := s[..|s| - 1];
      AllDifferent(rest);
      assert s == rest + [last];
      assert Elements(s) == Elements(rest) + {last};
      assert last !in rest;
    }
  }

  lemma SmallerSet(a: set<nat>, b: set<nat>)
    requires a <= b
    ensures |a| <= |b|
  {
    assert b == a + (b - a);
  }

  function Below(n: nat): (below: set<nat>)
    ensures |below| == n && forall i :: i in below <==> 0 <= i < n
  {
    if n == 0 then {} else Below(n - 1) + {n - 1}
  }

  /** Distinct numbers below a limit, one of them missing, are fewer than the limit. */
  lemma RoomForOneMore(s: seq<nat>, limit: nat, missing: nat)
    requires NoRepeats(s) && missing < limit && missing !in s
    requires forall i :: 0 <= i < |s| ==> s[i] < limit
    ensures |s| < limit
  {
    AllDifferent(s);
    assert |Elements(s) + {missing}| == |s| + 1;
    SmallerSet(Elements(s) + {missing}, Below(limit));
  }
}
