/** The fixed tables of the encounter: starting statistics, the order of the
    rooms and each boss's health. */
module Constants {
  import opened Types

  const InitialPlayerStats: PlayerStats := PlayerStats(99, 99, 99, 99, Melee)

  /** The rooms of a run, in the order they are fought. */
  const RoomSequence: seq<Room> := [Maiden, Bloat, Nylocas, Sotetseg, Xarpus, Verzik, Complete]

  /** The state shown before any run and restored after a wipe. */
  const InitialGameState: GameState := GameState(Idle, InitialPlayerStats, BossStats(Idle, 0, 0))

  /** The rooms that hold a boss. */
  predicate IsBossRoom(r: Room)
  {
    r != Idle && r != Complete
  }

  /** The table of boss health, one entry per room. */
  function BossMaxHealth(r: Room): (h: nat)
    ensures IsBossRoom(r) <==> h > 0
    ensures h <= 1500
  {
    match r
    case Idle => 0
    case Maiden => 1000
    case Bloat => 1000
    case Nylocas => 1000
    case Sotetseg => 1000
    case Xarpus => 1000
    case Verzik => 1500
    case Complete => 0
  }

  /** The position of the first occurrence of `x` in `s`, or -1 when `x` does
      not occur (the behaviour of an array's indexOf). */
  function IndexOf<T(==)>(s: seq<T>, x: T): (i: int)
    ensures -1 <= i < |s|
    ensures 0 <= i ==> s[i] == x && forall j :: 0 <= j < i ==> s[j] != x
    ensures i == -1 ==> forall j :: 0 <= j < |s| ==> s[j] != x
  {
    if |s| == 0 then -1
    else if s[0] == x then 0
    else
      var k := IndexOf(s[1..], x);
      if k == -1 then -1 else k + 1
  }

  /** How far a run has progressed once in room `r`: 0 in IDLE, 1 in the
      first boss room, up to 7 in COMPLETE. */
  function Stage(r: Room): (n: nat)
    ensures n <= |RoomSequence|
  {
    IndexOf(RoomSequence, r) + 1
  }

  /** The room entered after the boss of `r` falls: the entry after `r` in
      the sequence. IDLE is not in the sequence, so its index -1 leads to the
      first room. COMPLETE has no successor (the index would run past the
      end), which is why it is excluded. */
  function NextRoom(r: Room): (n: Room)
    requires r != Complete
    ensures n != Idle
  {
    var i := IndexOf(RoomSequence, r);
    assert RoomSequence[6] == Complete;
    RoomSequence[i + 1]
  }

  lemma RoomSequenceShape()
    ensures |RoomSequence| == 7
    ensures forall i, j :: 0 <= i < j < |RoomSequence| ==> RoomSequence[i] != RoomSequence[j]
    ensures Idle !in RoomSequence
    ensures RoomSequence[|RoomSequence| - 1] == Complete
    ensures forall r :: r in RoomSequence <==> r != Idle
  {
  }

  /** Every boss room sits before the last slot of the sequence, so the
      successor lookup stays in bounds. */
  lemma SuccessorDefined(r: Room)
    requires IsBossRoom(r)
    ensures 0 <= IndexOf(RoomSequence, r) < |RoomSequence| - 1
    ensures RoomSequence[IndexOf(RoomSequence, r)] == r
  {
  }

  /** Leaving a room always moves exactly one stage forward. */
  lemma NextRoomAdvancesStage(r: Room)
    requires r != Complete
    ensures Stage(NextRoom(r)) == Stage(r) + 1
  {
    RoomSequenceShape();
    var i := IndexOf(RoomSequence, r);
    assert RoomSequence[i + 1] == NextRoom(r);
  }

  /** The successor table spelled out: MAIDEN, BLOAT, NYLOCAS, SOTETSEG,
      XARPUS, VERZIK, then COMPLETE; from IDLE the first room. */
  lemma NextRoomOrder()
    ensures NextRoom(Idle) == Maiden
    ensures NextRoom(Maiden) == Bloat
    ensures NextRoom(Bloat) == Nylocas
    ensures NextRoom(Nylocas) == Sotetseg
    ensures NextRoom(Sotetseg) == Xarpus
    ensures NextRoom(Xarpus) == Verzik
    ensures NextRoom(Verzik) == Complete
  {
    assert IndexOf(RoomSequence, Idle) == -1;
    assert IndexOf(RoomSequence, Maiden) == 0;
    assert IndexOf(RoomSequence, Bloat) == 1;
    assert IndexOf(RoomSequence, Nylocas) == 2;
    assert IndexOf(RoomSequence, Sotetseg) == 3;
    assert IndexOf(RoomSequence, Xarpus) == 4;
    assert IndexOf(RoomSequence, Verzik) == 5;
  }

  lemma InitialPlayerStatsInRange()
    ensures StatsInRange(InitialPlayerStats)
    ensures InitialPlayerStats.health == InitialPlayerStats.maxHealth == 99
    ensures InitialPlayerStats.prayer == InitialPlayerStats.maxPrayer == 99
    ensures InitialPlayerStats.currentGear == Melee
  {
  }

  lemma InitialGameStateShape()
    ensures InitialGameState.currentRoom == Idle
    ensures InitialGameState.bossStats == BossStats(Idle, 0, 0)
    ensures InitialGameState.bossStats.maxHealth == BossMaxHealth(Idle)
    ensures InitialGameState.playerStats == InitialPlayerStats
  {
  }
}
