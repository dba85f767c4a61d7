# Idle-economy core of coin-gazer, in Dafny

This project models the economy of the coin-gazer clicker game. The player
taps a coin to earn gold. Resources are generators. Each one is unlocked
once and is then upgraded level by level. A per-second timer pays a fraction
of the combined output of the unlocked resources. Reaching configured gold
amounts raises achievement triggers.

The model is functional. The controller state is an immutable `Game` record.
It holds the gold balance, the ordered list of `Resource` records, the
auto-collect fraction and the timer accumulator. Each resource record holds
its configuration, its level, its unlocked flag and its visible flag.
The gold-changing transitions (gold changes, collections, upgrade, unlock,
click, frame update) are pure functions that return the new state and the
achievement triggers they raised, in order. Revealing a resource and the
buyable check are pure functions on the resource list or state alone.
Start-up (`AddAllResources`, `Start`) and the loops that mirror the
controller's `foreach` scans are methods. Gold, output and costs are `real`.

Modules:
- `Resources` (`resource.dfy`): the `Config` datatype (the source's
  `ResourceConfig` struct), the resource record, the output and cost curves, and `SetConfig`.
- `Achievements` (`achievements.dfy`): the achievement entries and the
  GoldReach scan that a gold change performs.
- `Economy` (`economy.dfy`): the `GameController` state. It covers
  `AddGold`, tap and passive income, revealing the next resource,
  start-up visibility, the buyable check and the per-frame timer.
- `ResourceActions` (`actions.dfy`): `UpgradeLevel`, `UnlockResource` and
  the button's click dispatch. It also holds the progression invariants
  these transitions keep.

Two behaviours of the source are easy to assume otherwise. The model keeps
them as written:
- `UnlockResource` checks the unlock cost but never deducts it. The balance
  is the same after a successful unlock.
- `UnlockResource` has no guard against a resource that is already
  unlocked, and `UpgradeLevel` has no guard against a locked one. Only the
  click dispatch routes each resource to the right one.

One behaviour follows from the code but is easy to miss. At start-up a
resource is shown exactly when every resource before it is unlocked. Play
does not keep that rule: an unlock reveals the next hidden resource, not the
next locked one. With unlock costs 0, 50, 0 and 100, unlocking the second
resource reveals the free third one. The fourth then stays hidden, although
everything before it is unlocked (`StartUpRuleNotKept`). No later click on
a shown resource reveals it (`ShownUnlockedIsStable`). The rule that clicks do keep is `Progress`: the
shown resources form a prefix, and every shown resource except the last
shown one is unlocked.

## Model

| member | source | states |
|---|---|---|
| Resources.Configured | Assets/Scripts/ResourceController.cs:14-35 | A new resource starts at level 1 with the configured output, upgrade and unlock costs, and is unlocked exactly when its unlock cost is 0 |
| Resources.SetConfig | Assets/Scripts/ResourceController.cs:29-36 | Configuring keeps the level and the visible flag; afterwards the resource is unlocked exactly when its unlock cost is 0, and its curves use the new bases |
| Resources.Output | Assets/Scripts/ResourceController.cs:17-19 | The output of a resource is its configured base output times its level |
| Resources.UpgradeCost | Assets/Scripts/ResourceController.cs:21-23 | The upgrade price is the configured base upgrade cost times the current level |
| Resources.UnlockCost | Assets/Scripts/ResourceController.cs:25-27 | The unlock price is the configured unlock cost, whatever the level |
| Resources.LevelUpAddsBase | Assets/Scripts/ResourceController.cs:17-27 | Output and upgrade cost are linear in the level: one more level adds exactly the base output and base upgrade cost; the unlock cost is a constant |
| Resources.CurvesMonotone | Assets/Scripts/ResourceController.cs:17-22 | With non-negative bases, output and upgrade cost are non-negative and never decrease as the level grows |
| Achievements.GoldTriggers | Assets/Scripts/GameController.cs:141-147 | The triggers of one gold change are exactly the GoldReach entries whose threshold is at most the balance, each one drawn from the configured list; non-GoldReach entries are never raised |
| Achievements.ScanGoldReach | Assets/Scripts/GameController.cs:141-147 | The controller's loop over the achievement list raises exactly those triggers, in list order |
| Achievements.GoldTriggersCount | Assets/Scripts/GameController.cs:141-147 | Every entry is tried once per call: a reached entry is raised as many times as it is configured, anything else zero times |
| Achievements.GoldTriggersInListOrder | Assets/Scripts/GameController.cs:141-147 | The raised triggers are the configured list with the unreached entries deleted, so they keep list order |
| Achievements.GoldTriggersMonotone | Assets/Scripts/GameController.cs:143-145 | A higher balance raises a superset of the triggers, in the same relative order (a subsequence) |
| Economy.AddGold | Assets/Scripts/GameController.cs:137-147 | The balance moves by exactly the given value, of either sign, with no lower bound; the scan runs on every call and raises only reached GoldReach entries, each as often as configured |
| Economy.CrossingRaisesOnce | Assets/Scripts/GameController.cs:139-147 | A change that crosses a once-configured threshold raises its trigger exactly once, however far it overshoots |
| Economy.UnlockedOutput | Assets/Scripts/GameController.cs:103-107 | The combined income is the sum, over the whole list in order, of the output of each unlocked resource; locked ones add nothing |
| Economy.SumUnlockedOutput | Assets/Scripts/GameController.cs:152-156 | The summing loop over the resource list yields the combined output of the unlocked resources |
| Economy.UnlockedOutputReplace | Assets/Scripts/GameController.cs:104-107 | Replacing one resource moves the combined output by exactly the change in its contribution; a locked resource contributes nothing, whatever its level |
| Economy.UnlockedOutputIgnoresVisibility | Assets/Scripts/GameController.cs:104-107 | Whether a resource is shown has no effect on income |
| Economy.UnlockedOutputNonNegative | Assets/Scripts/GameController.cs:152-156 | With non-negative configurations, tap income is never negative |
| Economy.CollectByTap | Assets/Scripts/GameController.cs:150-167 | A tap adds exactly the combined unlocked output to the balance and changes nothing else in the state |
| Economy.CollectPerSecond | Assets/Scripts/GameController.cs:101-111 | A timer firing adds exactly the auto-collect fraction of the combined unlocked output, and changes nothing else |
| Economy.PassiveAtMostTap | Assets/Scripts/GameController.cs:19-20 | With the fraction in [0, 1] and non-negative outputs, passive income never loses gold and never earns more than a tap |
| Economy.FirstHiddenFrom | Assets/Scripts/GameController.cs:127-134 | The scan stops at the first hidden resource in list order, or reports that every resource is shown |
| Economy.ShowNextResource | Assets/Scripts/GameController.cs:125-135 | Exactly the first hidden resource becomes visible and nothing else changes; when all are shown, nothing changes |
| Economy.ShowNextCount | Assets/Scripts/GameController.cs:125-135 | Revealing shows exactly one more resource while any is hidden, and is idempotent once all are shown |
| Economy.AddAllResources | Assets/Scripts/GameController.cs:84-99 | One configured level-1 resource per record, in order; resource i is shown exactly when every resource before it starts unlocked |
| Economy.Start | Assets/Scripts/GameController.cs:39-40 | The controller starts with the default zero gold and zero timer fields, and with the configured resources in start-up visibility (built by `AddAllResources`, which the start hook at GameController.cs:54-58 calls) |
| Economy.Buyable | Assets/Scripts/GameController.cs:117-119 | A resource is affordable when the balance covers its upgrade cost if unlocked, its unlock cost if locked |
| Economy.CheckResourceCost | Assets/Scripts/GameController.cs:113-122 | A resource shows as buyable exactly when the balance covers its upgrade cost (unlocked) or its unlock cost (locked); the query changes no state |
| Economy.Update | Assets/Scripts/GameController.cs:60-68 | A frame fires the passive collection exactly when the accumulator goes strictly past one second, then resets it to 0 and drops the remainder; otherwise it only accumulates; the buyable flags are recomputed from the new balance |
| Economy.TimerStaysInUnitInterval | Assets/Scripts/GameController.cs:62-66 | With non-negative frame times the accumulator never leaves [0, 1] |
| ResourceActions.UpgradeLevel | Assets/Scripts/ResourceController.cs:38-50 | Below the current upgrade cost nothing changes; otherwise the balance drops by exactly the cost before the increment and only this resource's level rises, by exactly 1; a non-negative balance stays non-negative |
| ResourceActions.UnlockResource | Assets/Scripts/ResourceController.cs:52-59 | Below the unlock cost nothing changes; otherwise the resource is unlocked, the next hidden resource is revealed, and one UnlockResource trigger carries the resource's name; the balance never changes |
| ResourceActions.Click | Assets/Scripts/ResourceController.cs:70-75 | Through the button a level only rises on an unlocked resource, and then by 1; no resource is locked again, no level drops, and no configuration changes |
| ResourceActions.BuyableIffClickTakesEffect | Assets/Scripts/GameController.cs:113-122 | A resource shows as buyable exactly when clicking it changes that resource |
| ResourceActions.ClickKeepsGoldNonNegative | Assets/Scripts/ResourceController.cs:40-46 | A click never takes a non-negative balance below zero |
| ResourceActions.UpgradeIncomeDelta | Assets/Scripts/ResourceController.cs:40-46 | A successful upgrade raises combined income by exactly the resource's base output |
| ResourceActions.UnlockIncomeDelta | Assets/Scripts/ResourceController.cs:52-58 | A successful unlock raises combined income by exactly the resource's current output |
| ResourceActions.ClickIncomeDelta | Assets/Scripts/ResourceController.cs:70-75 | The income change of a click is 0 when the resource is not buyable, its base output for an upgrade, and its whole output for an unlock |
| ResourceActions.InitiallyShownProgress | Assets/Scripts/GameController.cs:84-99 | The start-up visibility is a prefix in which every shown resource but the last is unlocked |
| ResourceActions.ClickPreservesProgress | Assets/Scripts/ResourceController.cs:52-58 | Clicking a shown resource keeps the shown resources a prefix with every shown resource but the last unlocked |
| ResourceActions.StartUpRuleNotKept | Assets/Scripts/GameController.cs:125-135 | Revealing the next hidden, not the next locked, resource can leave a resource hidden after every resource before it is unlocked |
| ResourceActions.ShownUnlockedIsStable | Assets/Scripts/ResourceController.cs:70-75 | Once every shown resource is unlocked, clicks on shown resources only upgrade: nothing is revealed again, so a resource stranded behind free ones stays hidden |
| ResourceActions.TapThenUnlockExample | Assets/Scripts/ResourceController.cs:52-59 | Worked example: a tap from 0 gold earns the first resource's output, and an unlock at 50 gold leaves the balance at 50 |

## Left out

- Engine plumbing is left out: the component lifecycle, the singleton lookup, object instantiation and button listeners. Visibility is the `visible` field of each resource record. A resource is named by its position in the list.
- Presentation is left out because it does not affect the economy. This covers UI text and number formatting, sprites, colours, and the coin's scale and rotation animation. It also covers the cost-label switching in `SetUnlocked`.
- The tap-text object pool (`GetOrCreateTapText`) is left out; it only reuses label objects.
- `AddShopItems`, `ShopItem` and the shop item controller are left out: they only populate widgets and no purchase logic exists.
- The achievement collaborator's internals are left out. Its list is an input, and the economy's calls to it are the returned trigger sequence.
- Achievements.GoldTriggers: an achievement's generic value, converted with `Convert.ToDouble`, is replaced by a typed payload (`GoldReach(threshold)` or `UnlockResource(name)`). A GoldReach entry whose value is not a number, which would throw in the source, cannot be represented.
- Resources.LevelUp: the source's level is a 32-bit signed `int` incremented without a check (`_level++`). After 2^31 - 1 upgrades it would wrap to a negative value, making output and upgrade cost negative. The model's level is unbounded, so this wrap-around is not modelled. The game's costs make that many upgrades unreachable in practice.
- ResourceActions.Click: "no level ever drops" holds for the unbounded level of the model. It does not cover the source's 32-bit wrap-around described in the line above.
- IEEE double and float rounding is left out. Gold, costs, output, the auto-collect fraction and the frame time are exact `real` values.
- The frame time `Time.unscaledDeltaTime` is a parameter of `Economy.Update`.
- The `[Range(0, 1)]` bound on the auto-collect fraction is only an editor constraint. It appears as a hypothesis of `Economy.PassiveAtMostTap`, not as a state invariant.
- Non-negative configuration values are the loader's responsibility. They appear as hypotheses of the lemmas that need them.
