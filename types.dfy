/** The records of the encounter: rooms, gear styles, player and boss
    statistics, the game state and the action chosen for a tick. */
module Types {

  datatype Option<+T> = None | Some(value: T)

  /** The phases of a raid; IDLE before a run and COMPLETE after the last boss. */
  datatype Room = Idle | Maiden | Bloat | Nylocas | Sotetseg | Xarpus | Verzik | Complete

  /** The three combat styles a player can be geared for. */
  datatype GearSet = Melee | Range | Mage

  datatype PlayerStats = PlayerStats(
    health: int,
    maxHealth: int,
    prayer: int,
    maxPrayer: int,
    currentGear: GearSet)

  datatype BossStats = BossStats(name: Room, health: int, maxHealth: int)

  datatype GameState = GameState(currentRoom: Room, playerStats: PlayerStats, bossStats: BossStats)
  {
    /** This state with only the player's health replaced. */
    function WithHealth(h: int): GameState
    {
      this.(playerStats := playerStats.(health := h))
    }
  }

  /** The decision of the external agent. `action` is free text, compared
      case-insensitively; the optional fields are absent when the agent
      leaves them out. `gearToSwitch` is whatever text the agent sent. */
  datatype BotAction = BotAction(
    action: string,
    target: string,
    reasoning: string,
    itemToUse: Option<string>,
    gearToSwitch: Option<string>)

  /** The text value of each gear style. */
  function GearName(g: GearSet): string
  {
    match g
    case Melee => "MELEE"
    case Range => "RANGE"
    case Mage => "MAGE"
  }

  /** The gear style whose text value is exactly `s` (a membership test in the
      enum's values, so case-sensitive), if any. */
  function ParseGear(s: string): (r: Option<GearSet>)
    ensures r.Some? ==> GearName(r.value) == s
    ensures (exists g :: GearName(g) == s) ==> r.Some?
  {
    if s == "MELEE" then Some(Melee)
    else if s == "RANGE" then Some(Range)
    else if s == "MAGE" then Some(Mage)
    else None
  }

  lemma ParseGearName(g: GearSet)
    ensures ParseGear(GearName(g)) == Some(g)
  {
  }

  /** The health and prayer invariant of the player's statistics. */
  predicate StatsInRange(p: PlayerStats)
  {
    0 <= p.health <= p.maxHealth && 0 <= p.prayer <= p.maxPrayer
  }
}
