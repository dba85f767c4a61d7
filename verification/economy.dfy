/** The economy orchestrator (GameController without its widgets): the
    ordered resource list with each resource's visible flag, the gold
    balance, gold changes with their GoldReach scan, tap and passive income,
    revealing the next resource, the buyable check and the per-second timer. */
module Economy {
  import opened Resources
  import opened Achievements

  /** The controller's state. `autoCollect` is the passive-income fraction
      (an editor slider over [0, 1]); `collectSecond` is the frame-time
      accumulator of the per-second timer. */
  datatype Game = Game(gold: real, resources: seq<Resource>, autoCollect: real, collectSecond: real)

  /** The state after an operation, with the achievement triggers it raised, in order. */
  datatype Step = Step(game: Game, triggers: seq<Achievement>)

  /** The state after one frame, with the triggers raised and the buyable flag of every resource. */
  datatype Frame = Frame(game: Game, triggers: seq<Achievement>, buyable: seq<bool>)

  // ---------------------------------------------------------------------------
  // Gold

  /** Changes the balance by `value`, of either sign and with no lower bound,
      then tries every configured achievement once against the new balance. */
  function AddGold(g: Game, value: real, achs: seq<Achievement>): (st: Step)
    ensures st.game == g.(gold := g.gold + value)
    ensures st.triggers == GoldTriggers(achs, g.gold + value)
    ensures forall t :: t in st.triggers ==> t.GoldReach? && t.threshold <= g.gold + value && t in achs
    ensures forall a :: a in achs && Reached(a, g.gold + value) ==> a in st.triggers
    ensures forall x :: Occurrences(st.triggers, x) == if Reached(x, g.gold + value) then Occurrences(achs, x) else 0
  {
    var gold := g.gold + value;
    var ts := GoldTriggers(achs, gold);
    forall x ensures Occurrences(ts, x) == if Reached(x, gold) then Occurrences(achs, x) else 0 {
      GoldTriggersCount(achs, gold, x);
    }
    Step(g.(gold := gold), ts)
  }

  /** A balance that goes from below `t` to at least `t` raises the trigger
      for a once-configured GoldReach(t) exactly once, however far it overshoots. */
  lemma CrossingRaisesOnce(g: Game, value: real, achs: seq<Achievement>, t: real)
    requires Occurrences(achs, GoldReach(t)) == 1
    requires g.gold < t <= g.gold + value
    ensures Occurrences(AddGold(g, value, achs).triggers, GoldReach(t)) == 1
  {
  }

  // ---------------------------------------------------------------------------
  // Income

  /** What one resource adds to the combined income: its output when unlocked, nothing otherwise. */
  function Contribution(r: Resource): real {
    if r.unlocked then Output(r) else 0.0
  }

  /** The combined output of the unlocked resources. */
  function UnlockedOutput(rs: seq<Resource>): real {
    if |rs| == 0 then 0.0
    else UnlockedOutput(rs[..|rs| - 1]) + Contribution(rs[|rs| - 1])
  }

  /** The controller's summing loop computes the combined unlocked output. */
  method SumUnlockedOutput(rs: seq<Resource>) returns (output: real)
    ensures output == UnlockedOutput(rs)
  {
    output := 0.0;
    for k := 0 to |rs|
      invariant output == UnlockedOutput(rs[..k])
    {
      assert rs[..k + 1][..k] == rs[..k];
      if rs[k].unlocked {
        output := output + Output(rs[k]);
      }
    }
    assert rs[..|rs|] == rs;
  }

  /** Replacing one resource changes the combined output by exactly the
      difference of the two contributions; in particular a locked resource,
      whatever its level or configuration, contributes nothing. */
  lemma {:induction false} UnlockedOutputReplace(rs: seq<Resource>, i: nat, r: Resource)
    requires i < |rs|
    ensures UnlockedOutput(rs[i := r]) == UnlockedOutput(rs) - Contribution(rs[i]) + Contribution(r)
  {
    var n := |rs| - 1;
    if i < n {
      assert rs[i := r][..n] == rs[..n][i := r];
      UnlockedOutputReplace(rs[..n], i, r);
    } else {
      assert rs[i := r][..n] == rs[..n];
    }
  }

  /** The two lists hold the same resources up to their visible flags. */
  predicate SameButVisibility(rs: seq<Resource>, rs': seq<Resource>) {
    |rs| == |rs'| && forall i :: 0 <= i < |rs| ==> rs'[i] == rs[i].(visible := rs'[i].visible)
  }

  /** Showing or hiding resources does not change the combined output. */
  lemma {:induction false} UnlockedOutputIgnoresVisibility(rs: seq<Resource>, rs': seq<Resource>)
    requires SameButVisibility(rs, rs')
    ensures UnlockedOutput(rs') == UnlockedOutput(rs)
  {
    if |rs| > 0 {
      var n := |rs| - 1;
      assert SameButVisibility(rs[..n], rs'[..n]);
      UnlockedOutputIgnoresVisibility(rs[..n], rs'[..n]);
    }
  }

  /** With non-negative configurations the combined output is never negative. */
  lemma {:induction false} UnlockedOutputNonNegative(rs: seq<Resource>)
    requires forall i :: 0 <= i < |rs| ==> NonNegative(rs[i].config)
    ensures UnlockedOutput(rs) >= 0.0
  {
    if |rs| > 0 {
      var n := |rs| - 1;
      UnlockedOutputNonNegative(rs[..n]);
      CurvesMonotone(rs[n], rs[n]);
    }
  }

  /** A tap adds the full combined output of the unlocked resources, and
      nothing else about the state changes. */
  function CollectByTap(g: Game, achs: seq<Achievement>): (st: Step)
    ensures st.game.gold - g.gold == UnlockedOutput(g.resources)
    ensures st.game.resources == g.resources
    ensures st.game.autoCollect == g.autoCollect && st.game.collectSecond == g.collectSecond
    ensures st.triggers == GoldTriggers(achs, st.game.gold)
  {
    AddGold(g, UnlockedOutput(g.resources), achs)
  }

  /** A timer firing adds the combined output scaled by the auto-collect
      fraction, and nothing else about the state changes. */
  function CollectPerSecond(g: Game, achs: seq<Achievement>): (st: Step)
    ensures st.game.gold - g.gold == g.autoCollect * UnlockedOutput(g.resources)
    ensures st.game.resources == g.resources
    ensures st.game.autoCollect == g.autoCollect && st.game.collectSecond == g.collectSecond
    ensures st.triggers == GoldTriggers(achs, st.game.gold)
  {
    AddGold(g, UnlockedOutput(g.resources) * g.autoCollect, achs)
  }

  /** With the fraction in [0, 1] and non-negative outputs, passive income
      never loses gold and never earns more than a tap. */
  lemma PassiveAtMostTap(g: Game, achs: seq<Achievement>)
    requires 0.0 <= g.autoCollect <= 1.0
    requires forall i :: 0 <= i < |g.resources| ==> NonNegative(g.resources[i].config)
    ensures g.gold <= CollectPerSecond(g, achs).game.gold <= CollectByTap(g, achs).game.gold
  {
    var s := UnlockedOutput(g.resources);
    UnlockedOutputNonNegative(g.resources);
    assert 0.0 <= g.autoCollect * s <= 1.0 * s by {
      assert (1.0 - g.autoCollect) * s >= 0.0;
    }
  }

  // ---------------------------------------------------------------------------
  // Visibility

  /** `k` is the position of the first hidden resource in list order. */
  predicate IsFirstHidden(rs: seq<Resource>, k: int) {
    0 <= k < |rs| && !rs[k].visible && forall j :: 0 <= j < k ==> rs[j].visible
  }

  /** Every resource is already shown. */
  predicate AllVisible(rs: seq<Resource>) {
    forall i :: 0 <= i < |rs| ==> rs[i].visible
  }

  /** The first hidden position at or after `from`, or `|rs|` when there is none. */
  function FirstHiddenFrom(rs: seq<Resource>, from: nat): (k: nat)
    requires from <= |rs| && forall j :: 0 <= j < from ==> rs[j].visible
    ensures from <= k <= |rs|
    ensures k < |rs| ==> IsFirstHidden(rs, k)
    ensures k == |rs| ==> AllVisible(rs)
    decreases |rs| - from
  {
    if from == |rs| then from
    else if !rs[from].visible then from
    else FirstHiddenFrom(rs, from + 1)
  }

  /** Shows the first hidden resource, in list order, and changes nothing
      else; when every resource is shown already it changes nothing at all. */
  function ShowNextResource(rs: seq<Resource>): (rs': seq<Resource>)
    ensures |rs'| == |rs|
    ensures forall i :: 0 <= i < |rs| ==> rs'[i] == if IsFirstHidden(rs, i) then rs[i].(visible := true) else rs[i]
    ensures AllVisible(rs) ==> rs' == rs
    ensures SameButVisibility(rs, rs')
  {
    var k := FirstHiddenFrom(rs, 0);
    if k == |rs| then rs else rs[k := rs[k].(visible := true)]
  }

  /** Revealing is idempotent once everything is shown, and otherwise shows
      exactly one more resource. */
  lemma {:induction false} ShowNextCount(rs: seq<Resource>)
    ensures AllVisible(rs) ==> ShowNextResource(ShowNextResource(rs)) == ShowNextResource(rs)
    ensures VisibleCount(ShowNextResource(rs)) == if AllVisible(rs) then |rs| else VisibleCount(rs) + 1
  {
    var k := FirstHiddenFrom(rs, 0);
    if k == |rs| {
      VisibleCountAll(rs);
    } else {
      VisibleCountSet(rs, k);
    }
  }

  /** How many resources are shown. */
  function VisibleCount(rs: seq<Resource>): nat {
    if |rs| == 0 then 0
    else VisibleCount(rs[..|rs| - 1]) + if rs[|rs| - 1].visible then 1 else 0
  }

  lemma {:induction false} VisibleCountAll(rs: seq<Resource>)
    requires AllVisible(rs)
    ensures VisibleCount(rs) == |rs|
  {
    if |rs| > 0 {
      VisibleCountAll(rs[..|rs| - 1]);
    }
  }

  lemma {:induction false} VisibleCountSet(rs: seq<Resource>, k: nat)
    requires k < |rs| && !rs[k].visible
    ensures VisibleCount(rs[k := rs[k].(visible := true)]) == VisibleCount(rs) + 1
  {
    var n := |rs| - 1;
    var rs' := rs[k := rs[k].(visible := true)];
    if k < n {
      assert rs'[..n] == rs[..n][k := rs[k].(visible := true)];
      VisibleCountSet(rs[..n], k);
    } else {
      assert rs'[..n] == rs[..n];
    }
  }

  /** The resources shown at start-up: each one exactly when every resource
      before it starts unlocked, so the shown ones are the prefix ending at,
      and including, the first locked resource. */
  predicate InitiallyShown(rs: seq<Resource>) {
    forall i :: 0 <= i < |rs| ==> (rs[i].visible <==> forall j :: 0 <= j < i ==> rs[j].unlocked)
  }

  /** Creates and configures one resource per configuration record, in
      order, showing them until (and including) the first locked one. */
  method AddAllResources(configs: seq<Config>) returns (rs: seq<Resource>)
    ensures |rs| == |configs|
    ensures forall i :: 0 <= i < |rs| ==> rs[i].(visible := false) == Configured(configs[i])
    ensures InitiallyShown(rs)
  {
    var show := true;
    rs := [];
    for k := 0 to |configs|
      invariant |rs| == k
      invariant forall i :: 0 <= i < k ==> rs[i].(visible := false) == Configured(configs[i])
      invariant forall i :: 0 <= i < k ==> (rs[i].visible <==> forall j :: 0 <= j < i ==> rs[j].unlocked)
      invariant show <==> forall j :: 0 <= j < k ==> rs[j].unlocked
    {
      var r := Configured(configs[k]).(visible := show);
      if show && !r.unlocked {
        show := false;
      }
      rs := rs + [r];
    }
  }

  /** The controller at start-up: no gold, a fresh timer, and the configured resources. */
  method Start(configs: seq<Config>, autoCollect: real) returns (g: Game)
    ensures g.gold == 0.0 && g.collectSecond == 0.0 && g.autoCollect == autoCollect
    ensures |g.resources| == |configs|
    ensures forall i :: 0 <= i < |configs| ==> g.resources[i].(visible := false) == Configured(configs[i])
    ensures InitiallyShown(g.resources)
  {
    var rs := AddAllResources(configs);
    g := Game(0.0, rs, autoCollect, 0.0);
  }

  // ---------------------------------------------------------------------------
  // Buyable check and the frame update

  /** Whether the resource's button shows as affordable: the upgrade cost
      when unlocked, the unlock cost when locked. */
  predicate Buyable(gold: real, r: Resource) {
    if r.unlocked then gold >= UpgradeCost(r) else gold >= UnlockCost(r)
  }

  /** The buyable flag of every resource, in order; a pure query. */
  function CheckResourceCost(g: Game): (b: seq<bool>)
    ensures |b| == |g.resources|
    ensures forall i :: 0 <= i < |b| ==> (b[i] <==> Buyable(g.gold, g.resources[i]))
  {
    seq(|g.resources|, i requires 0 <= i < |g.resources| => Buyable(g.gold, g.resources[i]))
  }

  /** One frame of `delta` seconds: the accumulator fires the passive
      collection only when it goes strictly past one second, and then
      restarts from zero, dropping the remainder; afterwards every
      resource's buyable flag is recomputed from the new balance. */
  function Update(g: Game, delta: real, achs: seq<Achievement>): (f: Frame)
    ensures g.collectSecond + delta > 1.0 ==>
      && f.game.collectSecond == 0.0
      && f.game.gold - g.gold == g.autoCollect * UnlockedOutput(g.resources)
      && f.triggers == GoldTriggers(achs, f.game.gold)
    ensures g.collectSecond + delta <= 1.0 ==>
      && f.game.collectSecond == g.collectSecond + delta
      && f.game.gold == g.gold
      && f.triggers == []
    ensures f.game.resources == g.resources && f.game.autoCollect == g.autoCollect
    ensures f.buyable == CheckResourceCost(f.game)
  {
    var acc := g.collectSecond + delta;
    var st := if acc > 1.0 then CollectPerSecond(g, achs) else Step(g, []);
    var game := st.game.(collectSecond := if acc > 1.0 then 0.0 else acc);
    Frame(game, st.triggers, CheckResourceCost(game))
  }

  /** With non-negative frame times the accumulator never leaves [0, 1]. */
  lemma TimerStaysInUnitInterval(g: Game, delta: real, achs: seq<Achievement>)
    requires 0.0 <= g.collectSecond && 0.0 <= delta
    ensures 0.0 <= Update(g, delta, achs).game.collectSecond <= 1.0
  {
  }
}
