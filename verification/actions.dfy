/** What a resource's button does to the economy: upgrading an unlocked
    resource, unlocking a locked one, and the click dispatch between the two,
    together with the progression invariants these transitions keep. A
    resource is named by its position in the controller's list. */
module ResourceActions {
  import opened Resources
  import opened Achievements
  import opened Economy

  /** Raises the resource one level when the balance covers its current
      upgrade cost, paying that cost through `AddGold`; otherwise nothing
      happens. The call itself does not check that the resource is unlocked. */
  function UpgradeLevel(g: Game, i: nat, achs: seq<Achievement>): (st: Step)
    requires i < |g.resources|
    ensures g.gold < UpgradeCost(g.resources[i]) ==> st == Step(g, [])
    ensures g.gold >= UpgradeCost(g.resources[i]) ==>
      && st.game.gold == g.gold - UpgradeCost(g.resources[i])
      && st.game.resources == g.resources[i := LevelUp(g.resources[i])]
      && st.game.autoCollect == g.autoCollect && st.game.collectSecond == g.collectSecond
      && st.triggers == GoldTriggers(achs, st.game.gold)
    ensures g.gold >= 0.0 ==> st.game.gold >= 0.0
  {
    var r := g.resources[i];
    var cost := UpgradeCost(r);
    if g.gold < cost then Step(g, [])
    else
      var paid := AddGold(g, -cost, achs);
      Step(paid.game.(resources := g.resources[i := LevelUp(r)]), paid.triggers)
  }

  /** Unlocks the resource when the balance covers its unlock cost, reveals
      the next hidden resource and raises one UnlockResource trigger with the
      resource's name; otherwise nothing happens. The unlock cost is checked
      but never deducted: the balance is the same afterwards. */
  function UnlockResource(g: Game, i: nat): (st: Step)
    requires i < |g.resources|
    ensures g.gold < UnlockCost(g.resources[i]) ==> st == Step(g, [])
    ensures g.gold >= UnlockCost(g.resources[i]) ==>
      && st.game == g.(resources := ShowNextResource(g.resources[i := g.resources[i].(unlocked := true)]))
      && st.triggers == [Achievement.UnlockResource(g.resources[i].config.name)]
      && st.game.resources[i].unlocked
      && (forall j :: 0 <= j < |g.resources| && j != i ==>
            st.game.resources[j].unlocked == g.resources[j].unlocked)
      && (forall j :: 0 <= j < |g.resources| ==>
            st.game.resources[j].level == g.resources[j].level && st.game.resources[j].config == g.resources[j].config)
    ensures st.game.gold == g.gold
  {
    var r := g.resources[i];
    if g.gold < UnlockCost(r) then Step(g, [])
    else
      var rs := g.resources[i := r.(unlocked := true)];
      Step(g.(resources := ShowNextResource(rs)), [Achievement.UnlockResource(r.config.name)])
  }

  /** The button: upgrade when the resource is unlocked, unlock otherwise.
      Through it an upgrade only ever reaches an unlocked resource, no
      resource is ever locked again, no level ever drops (the level counter
      being unbounded here), and no configuration, the fraction or the timer
      changes. */
  function Click(g: Game, i: nat, achs: seq<Achievement>): (st: Step)
    requires i < |g.resources|
    ensures |st.game.resources| == |g.resources|
    ensures forall j :: 0 <= j < |g.resources| ==>
      && st.game.resources[j].config == g.resources[j].config
      && (g.resources[j].unlocked ==> st.game.resources[j].unlocked)
      && g.resources[j].level <= st.game.resources[j].level
    ensures forall j :: 0 <= j < |g.resources| && st.game.resources[j].level != g.resources[j].level ==>
      j == i && g.resources[i].unlocked && st.game.resources[i].level == g.resources[i].level + 1
    ensures st.game.autoCollect == g.autoCollect && st.game.collectSecond == g.collectSecond
  {
    if g.resources[i].unlocked then UpgradeLevel(g, i, achs) else UnlockResource(g, i)
  }

  /** The buyable flag is exactly the promise that a click does something:
      the clicked resource changes if and only if it shows as buyable. */
  lemma BuyableIffClickTakesEffect(g: Game, i: nat, achs: seq<Achievement>)
    requires i < |g.resources|
    ensures CheckResourceCost(g)[i] <==> Click(g, i, achs).game.resources[i] != g.resources[i]
  {
  }

  /** A click never lets a non-negative balance go negative. */
  lemma ClickKeepsGoldNonNegative(g: Game, i: nat, achs: seq<Achievement>)
    requires i < |g.resources| && g.gold >= 0.0
    ensures Click(g, i, achs).game.gold >= 0.0
  {
  }

  /** A successful upgrade raises the combined unlocked output by exactly
      the resource's base output. */
  lemma UpgradeIncomeDelta(g: Game, i: nat, achs: seq<Achievement>)
    requires i < |g.resources| && g.resources[i].unlocked && g.gold >= UpgradeCost(g.resources[i])
    ensures UnlockedOutput(UpgradeLevel(g, i, achs).game.resources) == UnlockedOutput(g.resources) + g.resources[i].config.output
  {
    var r := g.resources[i];
    UnlockedOutputReplace(g.resources, i, LevelUp(r));
    LevelUpAddsBase(r);
  }

  /** A successful unlock raises the combined unlocked output by exactly the
      resource's current output. */
  lemma UnlockIncomeDelta(g: Game, i: nat)
    requires i < |g.resources| && !g.resources[i].unlocked && g.gold >= UnlockCost(g.resources[i])
    ensures UnlockedOutput(UnlockResource(g, i).game.resources) == UnlockedOutput(g.resources) + Output(g.resources[i])
  {
    var r := g.resources[i];
    var r' := r.(unlocked := true);
    var rs := g.resources[i := r'];
    var shown := ShowNextResource(rs);
    assert UnlockResource(g, i).game.resources == shown;
    assert Contribution(r') == Output(r) && Contribution(r) == 0.0;
    UnlockedOutputReplace(g.resources, i, r');
    UnlockedOutputIgnoresVisibility(rs, shown);
  }

  /** A click that takes effect raises the combined unlocked output by the
      upgraded resource's base output, or by the unlocked resource's whole
      output; one that does not take effect leaves it alone. */
  lemma ClickIncomeDelta(g: Game, i: nat, achs: seq<Achievement>)
    requires i < |g.resources|
    ensures UnlockedOutput(Click(g, i, achs).game.resources) == UnlockedOutput(g.resources) +
      if !Buyable(g.gold, g.resources[i]) then 0.0
      else if g.resources[i].unlocked then g.resources[i].config.output
      else Output(g.resources[i])
  {
    var r := g.resources[i];
    if Buyable(g.gold, r) {
      if r.unlocked {
        UpgradeIncomeDelta(g, i, achs);
      } else {
        UnlockIncomeDelta(g, i);
      }
    }
  }

  // ---------------------------------------------------------------------------
  // Progression

  /** The shown resources form a prefix of the list, and every shown
      resource except possibly the last shown one is unlocked. */
  predicate Progress(rs: seq<Resource>) {
    forall i, j :: 0 <= i < j < |rs| && rs[j].visible ==> rs[i].visible && rs[i].unlocked
  }

  /** The start-up visibility satisfies the progression invariant. */
  lemma InitiallyShownProgress(rs: seq<Resource>)
    requires InitiallyShown(rs)
    ensures Progress(rs)
  {
  }

  /** Clicking a shown resource keeps the progression invariant: a click on
      the one shown locked resource unlocks it and reveals the next one. */
  lemma ClickPreservesProgress(g: Game, i: nat, achs: seq<Achievement>)
    requires i < |g.resources| && g.resources[i].visible
    requires Progress(g.resources)
    ensures Progress(Click(g, i, achs).game.resources)
  {
  }

  /** The start-up rule "shown exactly when everything before is unlocked"
      is not kept by play: with unlock costs 0, 50, 0 and 100 and 50 gold,
      unlocking the second resource reveals the free third one, and the
      fourth stays hidden although every resource before it is unlocked. */
  lemma StartUpRuleNotKept()
    ensures var configs := [Config("A", 0.0, 1.0, 1.0), Config("B", 50.0, 1.0, 1.0),
                            Config("C", 0.0, 1.0, 1.0), Config("D", 100.0, 1.0, 1.0)];
            var rs := [Configured(configs[0]).(visible := true), Configured(configs[1]).(visible := true),
                       Configured(configs[2]), Configured(configs[3])];
            var after := Click(Game(50.0, rs, 0.1, 0.0), 1, []).game.resources;
            && InitiallyShown(rs)
            && Progress(after)
            && !InitiallyShown(after)
            && (forall j :: 0 <= j < 3 ==> after[j].unlocked && after[j].visible)
            && !after[3].visible
  {
    var configs := [Config("A", 0.0, 1.0, 1.0), Config("B", 50.0, 1.0, 1.0),
                    Config("C", 0.0, 1.0, 1.0), Config("D", 100.0, 1.0, 1.0)];
    var rs := [Configured(configs[0]).(visible := true), Configured(configs[1]).(visible := true),
               Configured(configs[2]), Configured(configs[3])];
    var g := Game(50.0, rs, 0.1, 0.0);
    assert IsFirstHidden(rs[1 := rs[1].(unlocked := true)], 2);
    var after := Click(g, 1, []).game.resources;
    assert !(after[3].visible <==> forall j :: 0 <= j < 3 ==> after[j].unlocked);
  }

  /** Once every shown resource is unlocked, clicking a shown resource only
      upgrades it: no resource is revealed, and the condition still holds.
      So the hidden resource in `StartUpRuleNotKept` stays hidden for good. */
  lemma ShownUnlockedIsStable(g: Game, i: nat, achs: seq<Achievement>)
    requires i < |g.resources| && g.resources[i].visible
    requires forall j :: 0 <= j < |g.resources| && g.resources[j].visible ==> g.resources[j].unlocked
    ensures forall j :: 0 <= j < |g.resources| ==>
      Click(g, i, achs).game.resources[j].visible == g.resources[j].visible
    ensures forall j :: 0 <= j < |g.resources| && Click(g, i, achs).game.resources[j].visible ==>
      Click(g, i, achs).game.resources[j].unlocked
  {
  }

  /** A two-resource economy (unlock costs 0 and 50, upgrade bases 5 and 10,
      output bases 1 and 5): a tap from an empty balance earns 1 gold, and at
      50 gold a click unlocks the second resource while the balance stays 50. */
  lemma TapThenUnlockExample()
    ensures var rs := [Configured(Config("A", 0.0, 5.0, 1.0)).(visible := true),
                       Configured(Config("B", 50.0, 10.0, 5.0)).(visible := true)];
            var tapped := CollectByTap(Game(0.0, rs, 0.1, 0.0), []).game;
            var unlocked := Click(Game(50.0, rs, 0.1, 0.0), 1, []);
            && InitiallyShown(rs)
            && tapped.gold == 1.0
            && unlocked.game.gold == 50.0
            && unlocked.game.resources[1].unlocked
            && unlocked.triggers == [Achievement.UnlockResource("B")]
  {
    var rs := [Configured(Config("A", 0.0, 5.0, 1.0)).(visible := true),
               Configured(Config("B", 50.0, 10.0, 5.0)).(visible := true)];
    assert rs[..1][..0] == [];
    assert UnlockedOutput(rs[..1]) == 1.0;
    assert rs[..2] == rs;
  }
}
