/** One resource generator of the idle economy: its static configuration, its
    runtime level and unlock flag, and the linear output/cost curves derived
    from them (ResourceController and the ResourceConfig record). */
module Resources {

  /** Static definition of a resource, loaded once and never mutated. */
  datatype Config = Config(name: string, unlockCost: real, upgradeCost: real, output: real)

  /** A level counter starts at 1. The source keeps it in a 32-bit signed
      integer; this model's counter is unbounded and has no wrap-around. */
  type Level = n: int | n >= 1 witness 1

  /** Runtime state of one resource. `visible` is whether its widget is shown
      (the game object's active flag), which the economy controls. */
  datatype Resource = Resource(config: Config, level: Level, unlocked: bool, visible: bool)

  /** The all-zero configuration a freshly created resource holds before it is configured. */
  const Blank: Config := Config("", 0.0, 0.0, 0.0)

  /** A freshly created resource: level 1, locked, no configuration yet. */
  const Unconfigured: Resource := Resource(Blank, 1, false, false)

  /** The well-formedness the configuration loader is trusted to provide. */
  predicate NonNegative(c: Config) {
    c.unlockCost >= 0.0 && c.upgradeCost >= 0.0 && c.output >= 0.0
  }

  /** Income the resource yields per collection. */
  function Output(r: Resource): real {
    r.config.output * r.level as real
  }

  /** Price of the next level. */
  function UpgradeCost(r: Resource): real {
    r.config.upgradeCost * r.level as real
  }

  /** Price of unlocking, independent of the level. */
  function UnlockCost(r: Resource): real {
    r.config.unlockCost
  }

  /** The resource one level higher, everything else as it was. */
  function LevelUp(r: Resource): (r': Resource)
    ensures r'.level == r.level + 1
    ensures r'.config == r.config && r'.unlocked == r.unlocked && r'.visible == r.visible
  {
    r.(level := r.level + 1)
  }

  /** Binds a configuration to the resource: the level is kept and the
      resource starts unlocked exactly when unlocking it is free. */
  function SetConfig(r: Resource, c: Config): (r': Resource)
    ensures r'.config == c && r'.level == r.level && r'.visible == r.visible
    ensures r'.unlocked <==> UnlockCost(r') == 0.0
    ensures Output(r') == c.output * r.level as real
    ensures UpgradeCost(r') == c.upgradeCost * r.level as real
  {
    r.(config := c, unlocked := c.unlockCost == 0.0)
  }

  /** A new resource configured with `c`. */
  function Configured(c: Config): (r: Resource)
    ensures r.level == 1 && r.config == c && !r.visible
    ensures Output(r) == c.output && UpgradeCost(r) == c.upgradeCost && UnlockCost(r) == c.unlockCost
    ensures r.unlocked <==> c.unlockCost == 0.0
  {
    SetConfig(Unconfigured, c)
  }

  /** Output and upgrade cost are linear in the level: raising the level by
      one adds exactly the configured base amount to each, and the unlock
      cost does not move. */
  lemma LevelUpAddsBase(r: Resource)
    ensures Output(LevelUp(r)) == Output(r) + r.config.output
    ensures UpgradeCost(LevelUp(r)) == UpgradeCost(r) + r.config.upgradeCost
    ensures UnlockCost(LevelUp(r)) == UnlockCost(r)
  {
  }

  /** With a non-negative configuration, output and upgrade cost never
      decrease as the level grows, and neither is ever negative. */
  lemma CurvesMonotone(r: Resource, r': Resource)
    requires NonNegative(r.config) && r'.config == r.config && r.level <= r'.level
    ensures 0.0 <= Output(r) <= Output(r')
    ensures 0.0 <= UpgradeCost(r) <= UpgradeCost(r')
  {
  }
}
