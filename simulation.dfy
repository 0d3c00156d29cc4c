/** One tick of the encounter: the room's hazards hit the player, a wipe ends
    the run, the agent's action takes effect, prayer drains, and a fallen boss
    opens the next room.

    Every random draw of the tick is an input (`Rolls`), restricted to the
    range its draw can produce. */
module Simulation {
  import opened Types
  import opened Constants
  import opened Strings

  const MazeDamage := 25
  const PoisonDamage := 10
  const TornadoDamage := 25
  const GreenBallDamage := 40
  const PrayerDrain := 2

  function Max(a: int, b: int): int { if a >= b then a else b }

  function Min(a: int, b: int): int { if a <= b then a else b }

  /** The outcome of every random draw a tick may make. Only the draws of the
      current room matter; the others are ignored. */
  datatype Rolls = Rolls(
    bloatUp: bool,        // Bloat is up and sending flies
    xarpusStaring: bool,  // Xarpus is staring
    nyloStyle: GearSet,   // the style the Nylocas are weak to
    splat: bool,          // Maiden throws a blood splat
    splatDamage: int,
    fliesDamage: int,
    nyloChip: int,
    energyBall: bool,     // Sotetseg fires its energy ball
    ballDamage: int,
    maze: bool,           // Sotetseg sends the player to the maze (once below 66%)
    poison: bool,         // Xarpus spits a poison pool
    tornado: bool,        // Verzik summons tornados (once below 35%)
    greenBall: bool,      // Verzik launches a green ball (once below 70%)
    bossChip: int,        // chip damage in a room without a boss rule
    botDamage: int,       // the damage of an attack
    reflectedDamage: int) // the damage reflected by the stare

  /** The ranges the draws can take. */
  predicate ValidRolls(r: Rolls)
  {
    && 15 <= r.splatDamage <= 24
    && 20 <= r.fliesDamage <= 24
    && 5 <= r.nyloChip <= 9
    && 35 <= r.ballDamage <= 44
    && 0 <= r.bossChip <= 4
    && 10 <= r.botDamage <= 39
    && 15 <= r.reflectedDamage <= 19
  }

  /** The state a tick leaves behind and whether the run goes on. */
  datatype TickResult = TickResult(state: GameState, running: bool)

  /** The boss of `room` at full health. */
  function FreshBoss(room: Room): (b: BossStats)
    ensures b.name == room && b.health == b.maxHealth
    ensures IsBossRoom(room) <==> b.health > 0
  {
    BossStats(room, BossMaxHealth(room), BossMaxHealth(room))
  }

  /** The player is in range and, outside COMPLETE, the boss belongs to the
      room and its health lies between 0 and its maximum. */
  predicate ValidState(s: GameState)
  {
    && StatsInRange(s.playerStats)
    && (s.currentRoom != Complete ==>
          && s.bossStats.name == s.currentRoom
          && s.bossStats.maxHealth == BossMaxHealth(s.currentRoom)
          && 0 <= s.bossStats.health <= s.bossStats.maxHealth)
  }

  /** The state a new run starts from: the first room's boss at full health
      and a fresh player. */
  function StartNewRun(): (s: GameState)
    ensures s.currentRoom == RoomSequence[0] == Maiden
    ensures s.bossStats.name == Maiden
    ensures s.bossStats.health == s.bossStats.maxHealth == BossMaxHealth(Maiden) == 1000
    ensures s.playerStats == InitialPlayerStats
    ensures ValidState(s)
  {
    var firstRoom := RoomSequence[0];
    GameState(firstRoom, InitialPlayerStats, FreshBoss(firstRoom))
  }

  // ---------------------------------------------------------------------
  // Hazards
  // ---------------------------------------------------------------------

  datatype Hazard =
    | BloodSplat  // Maiden
    | Flies       // Bloat, while up
    | NyloChip    // Nylocas, every tick
    | EnergyBall  // Sotetseg
    | Maze        // Sotetseg, below 66% health
    | PoisonPool  // Xarpus
    | Tornado     // Verzik, below 35% health
    | GreenBall   // Verzik, below 70% health
    | BossHit     // any other room, when the chip roll exceeds 1

  /** The boss's health is below `percent` percent of its maximum. The source
      compares with the maximum times a fraction; for whole numbers this
      comparison gives the same answer. */
  predicate BelowPercent(b: BossStats, percent: int)
  {
    100 * b.health < percent * b.maxHealth
  }

  /** The integer comparison is the exact comparison of the health with the
      maximum scaled by `percent` hundredths. */
  lemma BelowPercentExact(b: BossStats, percent: int)
    ensures BelowPercent(b, percent) <==> (b.health as real) < (b.maxHealth as real) * (percent as real / 100.0)
  {
    var scaled := (b.maxHealth as real) * (percent as real / 100.0);
    assert 100.0 * scaled == (percent * b.maxHealth) as real;
  }

  /** The hazards that strike this tick, in the order they are resolved. */
  function FiredHazards(s: GameState, r: Rolls): (hs: seq<Hazard>)
    ensures |hs| <= 2
    ensures forall i :: 0 <= i < |hs| ==> FiresIn(hs[i], s.currentRoom)
    ensures s.currentRoom == Nylocas ==> hs == [NyloChip]
  {
    match s.currentRoom
    case Maiden => if r.splat then [BloodSplat] else []
    case Bloat => if r.bloatUp then [Flies] else []
    case Nylocas => [NyloChip]
    case Sotetseg =>
      (if r.energyBall then [EnergyBall] else [])
      + (if BelowPercent(s.bossStats, 66) && r.maze then [Maze] else [])
    case Xarpus => if r.poison then [PoisonPool] else []
    case Verzik =>
      (if BelowPercent(s.bossStats, 35) && r.tornado then [Tornado] else [])
      + (if BelowPercent(s.bossStats, 70) && r.greenBall then [GreenBall] else [])
    case _ => if r.bossChip > 1 then [BossHit] else []
  }

  /** The room whose rules produce hazard `h`; the generic boss hit belongs
      to the rooms without a boss. */
  predicate FiresIn(h: Hazard, room: Room)
  {
    match h
    case BloodSplat => room == Maiden
    case Flies => room == Bloat
    case NyloChip => room == Nylocas
    case EnergyBall => room == Sotetseg
    case Maze => room == Sotetseg
    case PoisonPool => room == Xarpus
    case Tornado => room == Verzik
    case GreenBall => room == Verzik
    case BossHit => !IsBossRoom(room)
  }

  /** The upper-cased action that escapes hazard `h`; the nylocas chip, the
      green ball and the generic boss hit cannot be escaped. */
  predicate Avoids(h: Hazard, action: string)
    ensures Avoids(h, action) ==> !Unavoidable(h)
    ensures Avoids(h, action) ==> action == "DODGE" || action == "HIDE" || action == "SOLVE_MAZE"
  {
    match h
    case BloodSplat => action == "DODGE"
    case Flies => action == "HIDE" || action == "DODGE"
    case EnergyBall => action == "DODGE"
    case Maze => action == "SOLVE_MAZE"
    case PoisonPool => action == "DODGE"
    case Tornado => action == "DODGE"
    case NyloChip => false
    case GreenBall => false
    case BossHit => false
  }

  predicate Unavoidable(h: Hazard)
  {
    h == NyloChip || h == GreenBall || h == BossHit
  }

  /** What hazard `h` costs when it hits. */
  function Damage(h: Hazard, r: Rolls): (d: int)
    ensures ValidRolls(r) ==> 0 <= d <= 44
    ensures ValidRolls(r) && h != BossHit ==> d >= 5
  {
    match h
    case BloodSplat => r.splatDamage
    case Flies => r.fliesDamage
    case NyloChip => r.nyloChip
    case EnergyBall => r.ballDamage
    case Maze => MazeDamage
    case PoisonPool => PoisonDamage
    case Tornado => TornadoDamage
    case GreenBall => GreenBallDamage
    case BossHit => r.bossChip
  }

  /** The total damage of the hazards in `hs` that `action` does not escape. */
  function DamageTaken(hs: seq<Hazard>, action: string, r: Rolls): (d: int)
    ensures ValidRolls(r) ==> 0 <= d <= 44 * |hs|
  {
    if hs == [] then 0
    else (if Avoids(hs[0], action) then 0 else Damage(hs[0], r)) + DamageTaken(hs[1..], action, r)
  }

  lemma {:induction false} DamageTakenAppend(a: seq<Hazard>, b: seq<Hazard>, action: string, r: Rolls)
    ensures DamageTaken(a + b, action, r) == DamageTaken(a, action, r) + DamageTaken(b, action, r)
  {
    if a != [] {
      assert (a + b)[1..] == a[1..] + b;
      DamageTakenAppend(a[1..], b, action, r);
    } else {
      assert a + b == b;
    }
  }

  /** The hazard phase: the player loses the damage of every hazard the
      action does not escape; nothing else in the state changes. */
  function Hazards(s: GameState, action: string, r: Rolls): (t: GameState)
    requires ValidRolls(r)
    ensures t.currentRoom == s.currentRoom && t.bossStats == s.bossStats
    ensures t.playerStats == s.playerStats.(health := t.playerStats.health)
    ensures t.playerStats.health <= s.playerStats.health
  {
    s.WithHealth(s.playerStats.health - DamageTaken(FiredHazards(s, r), action, r))
  }

  lemma DamageTakenSingle(h: Hazard, action: string, r: Rolls)
    ensures DamageTaken([h], action, r) == if Avoids(h, action) then 0 else Damage(h, r)
  {
  }

  /** The damage of a room that may fire two hazards, one after the other. */
  lemma DamageTakenPair(c1: bool, h1: Hazard, c2: bool, h2: Hazard, action: string, r: Rolls)
    ensures DamageTaken((if c1 then [h1] else []) + (if c2 then [h2] else []), action, r)
      == (if c1 && !Avoids(h1, action) then Damage(h1, r) else 0)
       + (if c2 && !Avoids(h2, action) then Damage(h2, r) else 0)
  {
    DamageTakenAppend(if c1 then [h1] else [], if c2 then [h2] else [], action, r);
    DamageTakenSingle(h1, action, r);
    DamageTakenSingle(h2, action, r);
  }

  /** The hazard table agrees with the room-by-room rules: what each room
      throws, which reaction escapes it, and what it costs. */
  lemma HazardDamageByRoom(s: GameState, action: string, r: Rolls)
    ensures DamageTaken(FiredHazards(s, r), action, r) ==
      match s.currentRoom
      case Maiden => if r.splat && action != "DODGE" then r.splatDamage else 0
      case Bloat => if r.bloatUp && !(action == "HIDE" || action == "DODGE") then r.fliesDamage else 0
      case Nylocas => r.nyloChip
      case Sotetseg =>
        (if r.energyBall && action != "DODGE" then r.ballDamage else 0)
        + (if BelowPercent(s.bossStats, 66) && r.maze && action != "SOLVE_MAZE" then MazeDamage else 0)
      case Xarpus => if r.poison && action != "DODGE" then PoisonDamage else 0
      case Verzik =>
        (if BelowPercent(s.bossStats, 35) && r.tornado && action != "DODGE" then TornadoDamage else 0)
        + (if BelowPercent(s.bossStats, 70) && r.greenBall then GreenBallDamage else 0)
      case _ => if r.bossChip > 1 then r.bossChip else 0
  {
    var hs := FiredHazards(s, r);
    match s.currentRoom
    case Maiden =>
      assert hs == if r.splat then [BloodSplat] else [];
      DamageTakenSingle(BloodSplat, action, r);
    case Bloat =>
      assert hs == if r.bloatUp then [Flies] else [];
      DamageTakenSingle(Flies, action, r);
    case Nylocas =>
      DamageTakenSingle(NyloChip, action, r);
    case Sotetseg =>
      DamageTakenPair(r.energyBall, EnergyBall, BelowPercent(s.bossStats, 66) && r.maze, Maze, action, r);
    case Xarpus =>
      assert hs == if r.poison then [PoisonPool] else [];
      DamageTakenSingle(PoisonPool, action, r);
    case Verzik =>
      DamageTakenPair(BelowPercent(s.bossStats, 35) && r.tornado, Tornado,
        BelowPercent(s.bossStats, 70) && r.greenBall, GreenBall, action, r);
    case _ =>
      assert hs == if r.bossChip > 1 then [BossHit] else [];
      DamageTakenSingle(BossHit, action, r);
  }

  /** Dodging escapes the blood splat, the flies, the energy ball, the poison
      pool and the tornados; what remains is the nylocas chip, the maze, the
      green ball and the generic boss hit. */
  lemma DodgeEvades(s: GameState, r: Rolls)
    requires ValidRolls(r)
    ensures s.currentRoom in {Maiden, Bloat, Xarpus} ==> Hazards(s, "DODGE", r) == s
    ensures s.currentRoom == Nylocas ==>
      Hazards(s, "DODGE", r).playerStats.health == s.playerStats.health - r.nyloChip
    ensures s.currentRoom == Sotetseg ==>
      Hazards(s, "DODGE", r).playerStats.health
        == s.playerStats.health - (if BelowPercent(s.bossStats, 66) && r.maze then MazeDamage else 0)
    ensures s.currentRoom == Verzik ==>
      Hazards(s, "DODGE", r).playerStats.health
        == s.playerStats.health - (if BelowPercent(s.bossStats, 70) && r.greenBall then GreenBallDamage else 0)
  {
    HazardDamageByRoom(s, "DODGE", r);
  }

  /** Hiding escapes Bloat's flies as well as dodging does. */
  lemma HideEvadesFlies(s: GameState, r: Rolls)
    requires ValidRolls(r) && s.currentRoom == Bloat
    ensures Hazards(s, "HIDE", r) == s
  {
    HazardDamageByRoom(s, "HIDE", r);
  }

  /** In a room with a single avoidable hazard, once it fires the player is
      unharmed exactly when the action is the right reaction. */
  lemma HazardAvoidedIffReaction(s: GameState, action: string, r: Rolls)
    requires ValidRolls(r)
    requires s.currentRoom in {Maiden, Bloat, Xarpus}
    requires FiredHazards(s, r) != []
    ensures Hazards(s, action, r) == s <==> Avoids(FiredHazards(s, r)[0], action)
    ensures Hazards(s, action, r) == s <==>
      match s.currentRoom
      case Bloat => action == "HIDE" || action == "DODGE"
      case _ => action == "DODGE"
  {
    HazardDamageByRoom(s, action, r);
  }

  /** The unavoidable hazards hurt the same whatever the action: every
      nylocas chip, every green ball, every generic boss hit. */
  lemma {:induction false} UnavoidableRegardless(hs: seq<Hazard>, a1: string, a2: string, r: Rolls)
    requires forall i :: 0 <= i < |hs| ==> Unavoidable(hs[i])
    ensures DamageTaken(hs, a1, r) == DamageTaken(hs, a2, r)
  {
    if hs != [] {
      UnavoidableRegardless(hs[1..], a1, a2, r);
    }
  }

  /** Nylocas chip damage does not depend on the action. */
  lemma NylocasChipRegardless(s: GameState, action: string, r: Rolls)
    requires ValidRolls(r) && s.currentRoom == Nylocas
    ensures Hazards(s, action, r) == s.WithHealth(s.playerStats.health - r.nyloChip)
  {
    HazardDamageByRoom(s, action, r);
  }

  /** Once the green ball is launched, no action keeps the player's loss
      below its 40 damage. */
  lemma GreenBallRegardless(s: GameState, action: string, r: Rolls)
    requires ValidRolls(r) && s.currentRoom == Verzik
    requires BelowPercent(s.bossStats, 70) && r.greenBall
    ensures Hazards(s, action, r).playerStats.health <= s.playerStats.health - GreenBallDamage
  {
    var tornado := if BelowPercent(s.bossStats, 35) && r.tornado then [Tornado] else [];
    DamageTakenAppend(tornado, [GreenBall], action, r);
  }

  /** With no reaction at all (an action that is neither DODGE, HIDE nor
      SOLVE_MAZE) the player takes the full damage of every hazard fired. */
  lemma {:induction false} NoReactionTakesAll(hs: seq<Hazard>, action: string, r: Rolls)
    requires action != "DODGE" && action != "HIDE" && action != "SOLVE_MAZE"
    ensures DamageTaken(hs, action, r) == DamageTaken(hs, "", r)
    ensures forall i :: 0 <= i < |hs| ==> !Avoids(hs[i], action)
  {
    if hs != [] {
      NoReactionTakesAll(hs[1..], action, r);
      assert forall i :: 1 <= i < |hs| ==> hs[i] == hs[1..][i - 1];
    }
  }

  // ---------------------------------------------------------------------
  // Actions
  // ---------------------------------------------------------------------

  /** The damage an attack deals: a quarter, rounded down, in Nylocas when
      the player's gear is not the style they are weak to. */
  function AttackDamage(s: GameState, r: Rolls): int
  {
    if s.currentRoom == Nylocas && s.playerStats.currentGear != r.nyloStyle
    then r.botDamage / 4
    else r.botDamage
  }

  /** An attack: the room, the boss's identity and maximum, and everything
      of the player except health stay; the boss never gains health beyond
      the floor at 0, and the player never gains health. */
  function Attack(s: GameState, r: Rolls): (t: GameState)
    requires ValidRolls(r)
    ensures t.currentRoom == s.currentRoom
    ensures t.bossStats.name == s.bossStats.name && t.bossStats.maxHealth == s.bossStats.maxHealth
    ensures t.bossStats.health <= Max(0, s.bossStats.health)
    ensures t.playerStats == s.playerStats.(health := t.playerStats.health)
    ensures t.playerStats.health <= s.playerStats.health
    ensures t.playerStats.health < s.playerStats.health ==> t.bossStats == s.bossStats
  {
    if s.currentRoom == Bloat && r.bloatUp then s
    else if s.currentRoom == Xarpus && r.xarpusStaring then
      s.WithHealth(s.playerStats.health - r.reflectedDamage)
    else
      s.(bossStats := s.bossStats.(health := Max(0, s.bossStats.health - AttackDamage(s, r))))
  }

  function HealAmount(item: Option<string>): int
  {
    if item.Some? && Contains(Lower(item.value), "brew") then 16 else 22
  }

  /** Eating: only health changes; it never passes the maximum and, from
      within range, never falls. */
  function Eat(s: GameState, item: Option<string>): (t: GameState)
    ensures t == s.WithHealth(t.playerStats.health)
    ensures t.playerStats.health <= s.playerStats.maxHealth
    ensures s.playerStats.health <= s.playerStats.maxHealth ==> s.playerStats.health <= t.playerStats.health
  {
    s.WithHealth(Min(s.playerStats.maxHealth, s.playerStats.health + HealAmount(item)))
  }

  function PrayerRestore(item: Option<string>): int
  {
    if item.Some? && Contains(Lower(item.value), "restore") then 25 else 10
  }

  /** Praying: only prayer changes; it never passes the maximum and, from
      within range, never falls. */
  function Pray(s: GameState, item: Option<string>): (t: GameState)
    ensures t == s.(playerStats := s.playerStats.(prayer := t.playerStats.prayer))
    ensures t.playerStats.prayer <= s.playerStats.maxPrayer
    ensures s.playerStats.prayer <= s.playerStats.maxPrayer ==> s.playerStats.prayer <= t.playerStats.prayer
  {
    s.(playerStats := s.playerStats.(prayer := Min(s.playerStats.maxPrayer, s.playerStats.prayer + PrayerRestore(item))))
  }

  /** The gear named by the agent, when it names one of the three styles. */
  function RequestedGear(gear: Option<string>): Option<GearSet>
  {
    if gear.Some? then ParseGear(gear.value) else None
  }

  /** Switching gear: only the gear changes, and only to the style the
      agent named. */
  function SwitchGear(s: GameState, gear: Option<string>): (t: GameState)
    ensures t == s.(playerStats := s.playerStats.(currentGear := t.playerStats.currentGear))
    ensures t != s ==> gear.Some? && gear.value == GearName(t.playerStats.currentGear)
  {
    match RequestedGear(gear)
    case Some(g) => s.(playerStats := s.playerStats.(currentGear := g))
    case None => s
  }

  /** The action phase, on the upper-cased action. */
  function ActionPhase(s: GameState, action: string, act: BotAction, r: Rolls): (t: GameState)
    requires ValidRolls(r)
    ensures t.currentRoom == s.currentRoom
    ensures t.bossStats.name == s.bossStats.name && t.bossStats.maxHealth == s.bossStats.maxHealth
    ensures t.bossStats.health <= Max(0, s.bossStats.health)
    ensures t.playerStats.maxHealth == s.playerStats.maxHealth
    ensures t.playerStats.maxPrayer == s.playerStats.maxPrayer
  {
    if action == "ATTACK" then Attack(s, r)
    else if action == "EAT" then Eat(s, act.itemToUse)
    else if action == "PRAY" then Pray(s, act.itemToUse)
    else if action == "SWITCH_GEAR" then SwitchGear(s, act.gearToSwitch)
    else s
  }

  /** What an attack does: nothing while Bloat is up; during the stare the
      player takes 15 to 19 reflected damage and the boss nothing; otherwise
      the boss loses 10 to 39 health (2 to 9 in Nylocas with the wrong gear),
      never going below 0, and the player is untouched. */
  lemma AttackOutcome(s: GameState, act: BotAction, r: Rolls)
    requires ValidRolls(r)
    ensures var t := ActionPhase(s, "ATTACK", act, r);
      && (s.currentRoom == Bloat && r.bloatUp ==> t == s)
      && (s.currentRoom == Xarpus && r.xarpusStaring ==>
            && t.bossStats == s.bossStats
            && t.playerStats == s.playerStats.(health := t.playerStats.health)
            && s.playerStats.health - 19 <= t.playerStats.health <= s.playerStats.health - 15)
      && (!(s.currentRoom == Bloat && r.bloatUp) && !(s.currentRoom == Xarpus && r.xarpusStaring) ==>
            && t.playerStats == s.playerStats
            && t.bossStats.health == Max(0, s.bossStats.health - AttackDamage(s, r))
            && (if s.currentRoom == Nylocas && s.playerStats.currentGear != r.nyloStyle
                then 2 <= AttackDamage(s, r) <= 9 && AttackDamage(s, r) * 4 <= r.botDamage < AttackDamage(s, r) * 4 + 4
                else AttackDamage(s, r) == r.botDamage))
  {
  }

  /** Eating heals 16 with a brew and 22 with anything else (a shark when no
      item is named), never past the maximum; prayer, gear and boss are
      untouched. */
  lemma EatHeals(s: GameState, act: BotAction, r: Rolls)
    requires ValidRolls(r)
    requires StatsInRange(s.playerStats)
    ensures var t := ActionPhase(s, "EAT", act, r);
      var heal := HealAmount(act.itemToUse);
      && t.currentRoom == s.currentRoom && t.bossStats == s.bossStats
      && t.playerStats == s.playerStats.(health := t.playerStats.health)
      && s.playerStats.health <= t.playerStats.health <= s.playerStats.maxHealth
      && (t.playerStats.health == s.playerStats.health + heal || t.playerStats.health == s.playerStats.maxHealth)
      && t.playerStats.health <= s.playerStats.health + heal
  {
  }

  /** Praying restores 25 prayer with a restore potion and 10 otherwise, never
      past the maximum; health, gear and boss are untouched. */
  lemma PrayRestores(s: GameState, act: BotAction, r: Rolls)
    requires ValidRolls(r)
    requires StatsInRange(s.playerStats)
    ensures var t := ActionPhase(s, "PRAY", act, r);
      var restore := PrayerRestore(act.itemToUse);
      && t.currentRoom == s.currentRoom && t.bossStats == s.bossStats
      && t.playerStats == s.playerStats.(prayer := t.playerStats.prayer)
      && s.playerStats.prayer <= t.playerStats.prayer <= s.playerStats.maxPrayer
      && (t.playerStats.prayer == s.playerStats.prayer + restore || t.playerStats.prayer == s.playerStats.maxPrayer)
      && t.playerStats.prayer <= s.playerStats.prayer + restore
  {
  }

  /** Switching gear takes effect exactly when the agent named MELEE, RANGE or
      MAGE; only the gear changes, and otherwise nothing does. */
  lemma SwitchGearEffect(s: GameState, act: BotAction, r: Rolls)
    requires ValidRolls(r)
    ensures var t := ActionPhase(s, "SWITCH_GEAR", act, r);
      && (t != s ==> act.gearToSwitch.Some? && t.playerStats.currentGear != s.playerStats.currentGear)
      && (forall g :: act.gearToSwitch == Some(GearName(g)) ==> t == s.(playerStats := s.playerStats.(currentGear := g)))
      && ((forall g :: act.gearToSwitch != Some(GearName(g))) ==> t == s)
  {
  }

  /** An action other than ATTACK, EAT, PRAY and SWITCH_GEAR (DODGE, HIDE,
      SOLVE_MAZE, WAIT, anything) has no effect in the action phase. */
  lemma OtherActionsInert(s: GameState, action: string, act: BotAction, r: Rolls)
    requires ValidRolls(r)
    requires action !in {"ATTACK", "EAT", "PRAY", "SWITCH_GEAR"}
    ensures ActionPhase(s, action, act, r) == s
  {
  }

  // ---------------------------------------------------------------------
  // End of tick
  // ---------------------------------------------------------------------

  /** The clamp after the hazards: negative health becomes 0, and nothing
      else changes. */
  function ClampHealth(s: GameState): (t: GameState)
    ensures t == s.WithHealth(t.playerStats.health)
    ensures t.playerStats.health >= 0
    ensures s.playerStats.health >= 0 ==> t == s
  {
    s.WithHealth(Max(0, s.playerStats.health))
  }

  /** The end-of-tick clamp of health and the prayer drain. */
  function Drain(s: GameState): (t: GameState)
    ensures t.currentRoom == s.currentRoom && t.bossStats == s.bossStats
    ensures t.playerStats == s.playerStats.(health := t.playerStats.health, prayer := t.playerStats.prayer)
    ensures t.playerStats.health >= 0 && (s.playerStats.health >= 0 ==> t.playerStats.health == s.playerStats.health)
    ensures 0 <= t.playerStats.prayer <= Max(0, s.playerStats.prayer)
    ensures t.playerStats.prayer >= s.playerStats.prayer - PrayerDrain
  {
    s.(playerStats := s.playerStats.(
      health := Max(0, s.playerStats.health),
      prayer := Max(0, s.playerStats.prayer - PrayerDrain)))
  }

  /** Room completion: a fallen boss opens the next room of the sequence with
      its boss at full health, or ends the run in COMPLETE; a boss still
      standing keeps everything as it is. The player is never touched. */
  function Advance(s: GameState): (r: TickResult)
    requires s.currentRoom != Complete
    ensures r.state.playerStats == s.playerStats
    ensures s.bossStats.health > 0 ==> r == TickResult(s, true)
    ensures s.bossStats.health <= 0 ==>
      && r.state.currentRoom == NextRoom(s.currentRoom)
      && Stage(r.state.currentRoom) == Stage(s.currentRoom) + 1
      && r.running == (r.state.currentRoom != Complete)
      && (r.running ==> r.state.bossStats == FreshBoss(r.state.currentRoom))
      && (!r.running ==> r.state.bossStats == s.bossStats)
  {
    NextRoomAdvancesStage(s.currentRoom);
    if s.bossStats.health <= 0 then
      var nextRoom := NextRoom(s.currentRoom);
      if nextRoom == Complete then TickResult(s.(currentRoom := Complete), false)
      else TickResult(s.(currentRoom := nextRoom, bossStats := FreshBoss(nextRoom)), true)
    else
      TickResult(s, true)
  }

  /** One tick, as a function of the state, the agent's action and the draws. */
  function Tick(s: GameState, act: BotAction, r: Rolls): (res: TickResult)
    requires s.currentRoom != Complete
    requires ValidRolls(r)
    ensures !res.running <==> res.state == InitialGameState || res.state.currentRoom == Complete
    ensures || res.state == InitialGameState
            || res.state.currentRoom == s.currentRoom
            || res.state.currentRoom == NextRoom(s.currentRoom)
  {
    var action := Upper(act.action);
    var hit := ClampHealth(Hazards(s, action, r));
    if hit.playerStats.health <= 0 then
      TickResult(InitialGameState, false)
    else
      Advance(Drain(ActionPhase(hit, action, act, r)))
  }

  /** The boss mechanics of the tick, applied to the player's health one
      hazard at a time. */
  method BossMechanics(state: GameState, action: string, rolls: Rolls) returns (health: int)
    requires ValidRolls(rolls)
    ensures health == Hazards(state, action, rolls).playerStats.health
  {
    var isBloatUp := state.currentRoom == Bloat && rolls.bloatUp;
    health := state.playerStats.health;
    match state.currentRoom {
      case Maiden =>
        if rolls.splat && action != "DODGE" {
          health := health - rolls.splatDamage;
        }
      case Bloat =>
        if isBloatUp && !(action == "HIDE" || action == "DODGE") {
          health := health - rolls.fliesDamage;
        }
      case Nylocas =>
        health := health - rolls.nyloChip;
      case Sotetseg =>
        if rolls.energyBall && action != "DODGE" {
          health := health - rolls.ballDamage;
        }
        if BelowPercent(state.bossStats, 66) && rolls.maze && action != "SOLVE_MAZE" {
          health := health - MazeDamage;
        }
      case Xarpus =>
        if rolls.poison && action != "DODGE" {
          health := health - PoisonDamage;
        }
      case Verzik =>
        if BelowPercent(state.bossStats, 35) && rolls.tornado && action != "DODGE" {
          health := health - TornadoDamage;
        }
        if BelowPercent(state.bossStats, 70) && rolls.greenBall {
          health := health - GreenBallDamage;
        }
      case _ =>
        if rolls.bossChip > 1 {
          health := health - rolls.bossChip;
        }
    }
    HazardDamageByRoom(state, action, rolls);
  }

  /** The agent's action, applied to the state in place of the copy. */
  method ProcessAction(state: GameState, action: string, botAction: BotAction, rolls: Rolls)
    returns (nextState: GameState)
    requires ValidRolls(rolls)
    ensures nextState == ActionPhase(state, action, botAction, rolls)
  {
    nextState := state;
    if action == "ATTACK" {
      var botDamage := rolls.botDamage;
      var canAttack := true;
      if nextState.currentRoom == Bloat && rolls.bloatUp {
        canAttack := false;
      } else if nextState.currentRoom == Xarpus && rolls.xarpusStaring {
        nextState := nextState.WithHealth(nextState.playerStats.health - rolls.reflectedDamage);
        canAttack := false;
      } else if nextState.currentRoom == Nylocas {
        if nextState.playerStats.currentGear != rolls.nyloStyle {
          botDamage := botDamage / 4;
        }
      }
      if canAttack {
        nextState := nextState.(bossStats := nextState.bossStats.(health := Max(0, nextState.bossStats.health - botDamage)));
      }
    } else if action == "EAT" {
      var healAmount := HealAmount(botAction.itemToUse);
      nextState := nextState.WithHealth(Min(nextState.playerStats.maxHealth, nextState.playerStats.health + healAmount));
    } else if action == "PRAY" {
      var prayerRestore := PrayerRestore(botAction.itemToUse);
      nextState := nextState.(playerStats := nextState.playerStats.(
        prayer := Min(nextState.playerStats.maxPrayer, nextState.playerStats.prayer + prayerRestore)));
    } else if action == "SWITCH_GEAR" {
      if botAction.gearToSwitch.Some? && ParseGear(botAction.gearToSwitch.value).Some? {
        nextState := nextState.(playerStats := nextState.playerStats.(
          currentGear := ParseGear(botAction.gearToSwitch.value).value));
      }
    }
  }

  /** The tick resolver: a copy of the state goes through the boss
      mechanics, the death check, the agent's action, the clamp and drain,
      and the room-completion check, in that order. */
  method ResolveTick(currentState: GameState, botAction: BotAction, rolls: Rolls)
    returns (nextState: GameState, running: bool)
    requires currentState.currentRoom != Complete
    requires ValidRolls(rolls)
    ensures TickResult(nextState, running) == Tick(currentState, botAction, rolls)
  {
    var action := Upper(botAction.action);
    nextState := currentState;

    var health := BossMechanics(nextState, action, rolls);
    nextState := nextState.WithHealth(Max(0, health));

    if nextState.playerStats.health <= 0 {
      return InitialGameState, false;
    }

    ghost var hit := nextState;
    assert hit == ClampHealth(Hazards(currentState, action, rolls));
    nextState := ProcessAction(nextState, action, botAction, rolls);

    nextState := nextState.WithHealth(Max(0, nextState.playerStats.health));
    nextState := nextState.(playerStats := nextState.playerStats.(
      prayer := Max(0, nextState.playerStats.prayer - PrayerDrain)));

    assert nextState == Drain(ActionPhase(hit, action, botAction, rolls));
    nextState, running := CompleteRoom(nextState);
  }

  /** The room-completion check: a fallen boss opens the next room of the
      sequence, or ends the run in COMPLETE. */
  method CompleteRoom(state: GameState) returns (nextState: GameState, running: bool)
    requires state.currentRoom != Complete
    ensures TickResult(nextState, running) == Advance(state)
  {
    nextState := state;
    running := true;
    if nextState.bossStats.health <= 0 {
      var currentRoomIndex := IndexOf(RoomSequence, nextState.currentRoom);
      assert RoomSequence[6] == Complete;
      var nextRoom := RoomSequence[currentRoomIndex + 1];
      if nextRoom == Complete {
        nextState := nextState.(currentRoom := Complete);
        running := false;
      } else {
        nextState := nextState.(currentRoom := nextRoom, bossStats := FreshBoss(nextRoom));
      }
    }
  }

  // ---------------------------------------------------------------------
  // Properties of a whole tick
  // ---------------------------------------------------------------------

  /** The death check: when the hazards bring health to 0 the tick ends the
      run and restores the initial state, and the action is never applied;
      otherwise the run goes on unless the last boss fell. */
  lemma WipeResets(s: GameState, act: BotAction, r: Rolls)
    requires s.currentRoom != Complete && ValidRolls(r)
    ensures var hit := Hazards(s, Upper(act.action), r);
      hit.playerStats.health <= 0 <==> Tick(s, act, r) == TickResult(InitialGameState, false)
  {
  }

  /** The tick reads the action only through its upper-cased form, so an
      action already upper-cased resolves the same way. */
  lemma TickIgnoresCase(s: GameState, act: BotAction, r: Rolls)
    requires s.currentRoom != Complete && ValidRolls(r)
    ensures Tick(s, act.(action := Upper(act.action)), r) == Tick(s, act, r)
  {
    var upper := act.(action := Upper(act.action));
    UpperIdempotent(act.action);
    var action := Upper(act.action);
    assert Upper(upper.action) == action;
    var hit := ClampHealth(Hazards(s, action, r));
    assert ActionPhase(hit, action, upper, r) == ActionPhase(hit, action, act, r);
  }

  /** Both the idle state and the start of a run satisfy the invariants. */
  lemma InitialStatesValid()
    ensures ValidState(InitialGameState)
    ensures ValidState(StartNewRun())
  {
  }

  /** An action that is none of ATTACK, EAT, PRAY and SWITCH_GEAR leaves the
      player to the hazards, the clamp and the drain alone, and cannot make
      the room advance when the boss was standing. */
  lemma OtherActionTick(s: GameState, act: BotAction, r: Rolls)
    requires s.currentRoom != Complete && ValidRolls(r)
    requires Upper(act.action) !in {"ATTACK", "EAT", "PRAY", "SWITCH_GEAR"}
    requires s.bossStats.health > 0
    ensures var res := Tick(s, act, r);
      var hit := ClampHealth(Hazards(s, Upper(act.action), r));
      hit.playerStats.health > 0 ==>
        && res == TickResult(Drain(hit), true)
        && res.state.currentRoom == s.currentRoom
        && res.state.bossStats == s.bossStats
        && res.state.playerStats.health == hit.playerStats.health
        && res.state.playerStats.prayer == Max(0, s.playerStats.prayer - PrayerDrain)
        && res.state.playerStats.currentGear == s.playerStats.currentGear
  {
  }

  /** The health and prayer invariant, and the boss invariant, survive a tick. */
  lemma TickPreservesValid(s: GameState, act: BotAction, r: Rolls)
    requires s.currentRoom != Complete && ValidRolls(r)
    requires ValidState(s)
    ensures ValidState(Tick(s, act, r).state)
  {
    var action := Upper(act.action);
    var hit := ClampHealth(Hazards(s, action, r));
    if hit.playerStats.health > 0 {
      assert StatsInRange(hit.playerStats);
      var t := ActionPhase(hit, action, act, r);
      assert && t.bossStats.health >= 0
             && t.playerStats.health <= t.playerStats.maxHealth
             && 0 <= t.playerStats.prayer <= t.playerStats.maxPrayer
      by {
        if action == "ATTACK" {
        } else if action == "EAT" {
        } else if action == "PRAY" {
        } else if action == "SWITCH_GEAR" {
        } else {
          OtherActionsInert(hit, action, act, r);
        }
      }
      assert StatsInRange(Drain(t).playerStats);
    }
  }

  /** Effects of EAT and PRAY come before the drain: in a tick that survives
      the hazards, prayer ends at the restored value minus 2 (never below 0),
      and every other action leaves prayer to the drain alone. */
  lemma PrayerAfterTick(s: GameState, act: BotAction, r: Rolls)
    requires s.currentRoom != Complete && ValidRolls(r)
    requires StatsInRange(s.playerStats)
    requires Hazards(s, Upper(act.action), r).playerStats.health > 0
    ensures var p := s.playerStats;
      Tick(s, act, r).state.playerStats.prayer
        == if Upper(act.action) == "PRAY"
           then Max(0, Min(p.maxPrayer, p.prayer + PrayerRestore(act.itemToUse)) - PrayerDrain)
           else Max(0, p.prayer - PrayerDrain)
  {
    var action := Upper(act.action);
    var hit := ClampHealth(Hazards(s, action, r));
    var fought := ActionPhase(hit, action, act, r);
    assert hit.playerStats == s.playerStats.(health := hit.playerStats.health);
    assert Tick(s, act, r).state.playerStats.prayer == Drain(fought).playerStats.prayer;
    if action != "PRAY" {
      assert fought.playerStats.prayer == s.playerStats.prayer by {
        if action == "ATTACK" {
        } else if action == "EAT" {
        } else if action == "SWITCH_GEAR" {
        } else {
          OtherActionsInert(hit, action, act, r);
        }
      }
    }
  }

  /** There is no second death check: an attack into the Xarpus stare can end
      a tick with the player at 0 health and the run still going. */
  lemma StareCanLeaveZeroHealth()
    ensures var s := GameState(Xarpus, InitialPlayerStats.(health := 15), FreshBoss(Xarpus));
      var act := BotAction("attack", "Xarpus", "", None, None);
      var r := Rolls(false, true, Melee, false, 15, 20, 5, false, 35, false, false, false, false, 0, 10, 15);
      && ValidRolls(r)
      && Tick(s, act, r) == TickResult(s.(playerStats := s.playerStats.(health := 0, prayer := 97)), true)
  {
    var act := BotAction("attack", "Xarpus", "", None, None);
    AnyCasingMatches(act.action, "ATTACK");
  }

  /** The room changes only when the boss has fallen in this tick, and then
      to the next room of the sequence: the boss there starts at full health,
      and reaching COMPLETE ends the run. */
  lemma RoomAdvance(s: GameState, act: BotAction, r: Rolls)
    requires s.currentRoom != Complete && ValidRolls(r)
    ensures var res := Tick(s, act, r);
      res.state != InitialGameState ==>
        var action := Upper(act.action);
        var fought := ActionPhase(ClampHealth(Hazards(s, action, r)), action, act, r);
        && (res.state.currentRoom != s.currentRoom <==> fought.bossStats.health <= 0)
        && (fought.bossStats.health <= 0 ==>
              && res.state.currentRoom == NextRoom(s.currentRoom)
              && (res.state.currentRoom == Complete <==> !res.running)
              && (res.running ==> res.state.bossStats == FreshBoss(res.state.currentRoom))
              && (!res.running ==> res.state.bossStats == fought.bossStats))
        && (fought.bossStats.health > 0 ==> res.running && res.state.bossStats == fought.bossStats)
  {
    var action := Upper(act.action);
    var hit := ClampHealth(Hazards(s, action, r));
    NextRoomAdvancesStage(s.currentRoom);
  }
}
