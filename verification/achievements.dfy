/** The achievement collaborator as seen from the economy: a list of
    configured achievements, and the sequence of triggers the economy raises.
    A trigger carries the same kind and value as the achievement it names. */
module Achievements {

  /** An achievement entry, with a payload typed by its kind. */
  datatype Achievement = GoldReach(threshold: real) | UnlockResource(name: string)

  /** Whether a gold balance reaches a configured achievement: only
      GoldReach entries are ever reached by gold. */
  predicate Reached(a: Achievement, gold: real) {
    a.GoldReach? && a.threshold <= gold
  }

  /** The triggers one gold change raises: every GoldReach entry whose
      threshold is at most the balance, in list order, one per entry. */
  function GoldTriggers(achs: seq<Achievement>, gold: real): (ts: seq<Achievement>)
    ensures |ts| <= |achs|
    ensures forall t :: t in ts ==> t.GoldReach? && t.threshold <= gold && t in achs
    ensures forall a :: a in achs && Reached(a, gold) ==> a in ts
  {
    if |achs| == 0 then []
    else
      var ts := GoldTriggers(achs[..|achs| - 1], gold);
      var a := achs[|achs| - 1];
      assert forall b :: b in achs ==> b in achs[..|achs| - 1] || b == a;
      if Reached(a, gold) then ts + [a] else ts
  }

  /** The scan over the configured list, in the imperative shape of the
      controller's loop; it raises exactly the triggers `GoldTriggers` names. */
  method ScanGoldReach(achs: seq<Achievement>, gold: real) returns (ts: seq<Achievement>)
    ensures ts == GoldTriggers(achs, gold)
  {
    ts := [];
    for k := 0 to |achs|
      invariant ts == GoldTriggers(achs[..k], gold)
    {
      assert achs[..k + 1][..k] == achs[..k];
      if achs[k].GoldReach? && gold >= achs[k].threshold {
        ts := ts + [achs[k]];
      }
    }
    assert achs[..|achs|] == achs;
  }

  /** How many times `x` occurs in `s`. */
  function Occurrences(s: seq<Achievement>, x: Achievement): nat {
    multiset(s)[x]
  }

  /** Each configured entry is tried exactly once per gold change: an entry
      the balance reaches is raised as often as it is configured, any other
      value is not raised at all. */
  lemma {:induction false} GoldTriggersCount(achs: seq<Achievement>, gold: real, x: Achievement)
    ensures Occurrences(GoldTriggers(achs, gold), x) == if Reached(x, gold) then Occurrences(achs, x) else 0
  {
    if |achs| > 0 {
      var init := achs[..|achs| - 1];
      assert achs == init + [achs[|achs| - 1]];
      GoldTriggersCount(init, gold, x);
    }
  }

  /** A larger balance raises every trigger a smaller one raises: the
      triggers for `lo` form a subsequence of those for `hi`. */
  lemma {:induction false} GoldTriggersMonotone(achs: seq<Achievement>, lo: real, hi: real)
    requires lo <= hi
    ensures Subsequence(GoldTriggers(achs, lo), GoldTriggers(achs, hi))
  {
    if |achs| > 0 {
      var init := achs[..|achs| - 1];
      var a := achs[|achs| - 1];
      GoldTriggersMonotone(init, lo, hi);
      var tl, th := GoldTriggers(init, lo), GoldTriggers(init, hi);
      if Reached(a, lo) {
        SubsequenceAppend(tl, th, a);
      } else if Reached(a, hi) {
        SubsequenceExtend(tl, th, a);
      }
    }
  }

  /** The raised triggers keep the configured list order: they are the
      configured list with the unreached entries deleted. */
  lemma {:induction false} GoldTriggersInListOrder(achs: seq<Achievement>, gold: real)
    ensures Subsequence(GoldTriggers(achs, gold), achs)
  {
    if |achs| > 0 {
      var init := achs[..|achs| - 1];
      var a := achs[|achs| - 1];
      GoldTriggersInListOrder(init, gold);
      assert init + [a] == achs;
      if Reached(a, gold) {
        SubsequenceAppend(GoldTriggers(init, gold), init, a);
      } else {
        SubsequenceExtend(GoldTriggers(init, gold), init, a);
      }
    }
  }

  /** `s` can be obtained from `t` by deleting elements. */
  predicate Subsequence(s: seq<Achievement>, t: seq<Achievement>)
    decreases |t|
  {
    if |s| == 0 then true
    else if |t| == 0 then false
    else if s[|s| - 1] == t[|t| - 1] then Subsequence(s[..|s| - 1], t[..|t| - 1])
    else Subsequence(s, t[..|t| - 1])
  }

  lemma SubsequenceAppend(s: seq<Achievement>, t: seq<Achievement>, a: Achievement)
    requires Subsequence(s, t)
    ensures Subsequence(s + [a], t + [a])
  {
  }

  lemma SubsequenceExtend(s: seq<Achievement>, t: seq<Achievement>, a: Achievement)
    requires Subsequence(s, t)
    ensures Subsequence(s, t + [a])
  {
    assert (t + [a])[..|t|] == t;
    if |s| > 0 && s[|s| - 1] == a {
      SubsequenceDropLast(s, t);
    }
  }

  /** A subsequence of `t` with its last element removed is still a subsequence of `t`. */
  lemma {:induction false} SubsequenceDropLast(s: seq<Achievement>, t: seq<Achievement>)
    requires |s| > 0 && Subsequence(s, t)
    ensures Subsequence(s[..|s| - 1], t)
    decreases |t|
  {
    var s', t' := s[..|s| - 1], t[..|t| - 1];
    if |s'| > 0 {
      if s[|s| - 1] != t[|t| - 1] {
        SubsequenceDropLast(s, t');
      }
      // now Subsequence(s', t'); widen it to t
      if s'[|s'| - 1] == t[|t| - 1] {
        SubsequenceDropLast(s', t');
      }
    }
  }
}
