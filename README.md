# Theatre of Blood encounter tick, in Dafny

This project models the encounter simulation of a bot that fights the six
bosses of the Theatre of Blood (Maiden, Bloat, Nylocas, Sotetseg, Xarpus,
Verzik) one room after another. Each tick has four steps:

1. The room's hazards hit the player unless the agent's action is the right
   reaction. DODGE escapes most hazards, HIDE escapes Bloat's flies, and
   SOLVE_MAZE escapes Sotetseg's maze. Some damage cannot be escaped.
2. Health is clamped at 0. A player at 0 wipes: the game returns to the idle
   state and the run stops.
3. The action takes effect. ATTACK damages the boss, EAT heals, PRAY restores
   prayer and SWITCH_GEAR changes the combat style.
4. Health is clamped again and prayer drains by 2. A fallen boss opens the
   next room of the fixed sequence, or completes the raid.

Files:

- `types.dfy` (module `Types`): the records of `types.ts`, and the check that
  a requested gear is one of the three style names.
- `constants.dfy` (module `Constants`): the tables of `constants.ts`. It also
  holds the index lookup and the successor of a room in the room sequence.
- `strings.dfy` (module `Strings`): the string operations the tick relies on.
  These are upper-casing the action, lower-casing the item and substring
  search.
- `simulation.dfy` (module `Simulation`): the start of a run and one tick of
  `App.tsx`. The tick appears twice. `Tick` is its specification, built from
  one function per phase. The hazards are given as a table: each hazard that
  fires, the reaction that escapes it, and its damage. `ResolveTick`,
  `BossMechanics`, `ProcessAction` and `CompleteRoom` follow the source statement by
  statement on a copy of the state. Each one is proved equal to the
  specification.
- `runs.dfy` (module `Runs`): starting or resuming, then repeated ticks while
  the run goes on.

Every random draw is an explicit input (`Rolls`). `ValidRolls` limits each
draw to the values `Math.random` can produce there: splat 15..24, flies
20..24, nylocas chip 5..9, energy ball 35..44, generic chip 0..4, attack
10..39 and reflected damage 15..19.

The source compares boss health with `maxHealth * 0.66`, `* 0.35` and `* 0.7`
in floating point. The model writes these as `100 * health < 66 * maxHealth`
and so on. For whole-number health the two agree. When the exact product is a whole
number, the rounded product equals it or lies just below it. Otherwise it
stays on the same side of every whole number as the exact product. Either
way, a strict comparison with a whole-number health gives the same answer. `BelowPercentExact` proves that the integer form
is the exact comparison with `maxHealth * percent / 100`.

The action keyword is compared after `toUpperCase`, modelled by
`Strings.Upper`. Besides the ASCII letters it maps the dotless i to `I` and
the long s to `S`, because those are the only other characters that
upper-case to a single keyword letter. Characters that upper-case to several
letters (the sharp s, the ligatures) cannot produce any of the keywords.
Item names are lower-cased over ASCII only. No other character lower-cases
to a letter of "brew" or "restore".

Two behaviours of the code are worth stating outright:

- Reaching 0 health does not always reset the run. The only death check
  comes right after the hazards (App.tsx:210-218). Damage reflected by
  Xarpus's stare is taken later in the tick (App.tsx:229-230) and is only
  clamped at 0 (App.tsx:277), so it can leave the player at 0 with the run
  still going (`StareCanLeaveZeroHealth`). The wipe then happens at the next
  tick's death check.
- Health and prayer are only clamped at 0 from below (App.tsx:210 and
  277-278). The upper bound comes from EAT and PRAY capping at the maximum.
  `TickPreservesValid` proves that both stay within `[0, max]` after every
  tick.

## Model

| member | source | states |
|---|---|---|
| `Types.ParseGear` | App.tsx:258-259 | A requested gear is accepted exactly when its text is one of the style names, and it then denotes that style |
| `Types.ParseGearName` | types.ts:12-16 | Each style's own name is accepted and denotes that style |
| `Constants.BossMaxHealth` | constants.ts:22-31 | Boss health is positive exactly in the six boss rooms (0 in IDLE and COMPLETE) and at most 1500 |
| `Constants.IndexOf` | App.tsx:283 | The first index holding the room, or -1 when it is absent, as `indexOf` gives |
| `Constants.NextRoom` | App.tsx:283-284 | The room after a fallen boss comes from the sequence and is never IDLE |
| `Constants.InitialPlayerStats` | constants.ts:4-10 | The starting player: 99 of 99 health, 99 of 99 prayer, melee gear (see `InitialPlayerStatsInRange`) |
| `Constants.RoomSequence` | constants.ts:12-20 | The rooms in order, MAIDEN to VERZIK, then COMPLETE (see `RoomSequenceShape`) |
| `Constants.InitialGameState` | constants.ts:33-41 | The idle state: room IDLE, an IDLE boss at 0 of 0 health, the starting player (see `InitialGameStateShape`) |
| `Constants.RoomSequenceShape` | constants.ts:12-20 | Seven distinct rooms, IDLE absent, COMPLETE last |
| `Constants.SuccessorDefined` | constants.ts:12-20 | Every boss room sits at an index below 6, so its successor lookup stays in bounds |
| `Constants.NextRoomAdvancesStage` | App.tsx:281-297 | Leaving any room except COMPLETE moves exactly one place forward in the sequence |
| `Constants.NextRoomOrder` | constants.ts:12-20 | Successors run MAIDEN, BLOAT, NYLOCAS, SOTETSEG, XARPUS, VERZIK, COMPLETE; from IDLE (index -1) the next room is MAIDEN |
| `Constants.InitialPlayerStatsInRange` | constants.ts:4-10 | The starting player has 99/99 health, 99/99 prayer and melee gear, so the invariant holds |
| `Constants.InitialGameStateShape` | constants.ts:33-41 | The idle state is room IDLE with an IDLE boss at 0/0 health and the starting player |
| `Strings.Upper` | App.tsx:221 | Upper-casing keeps the length and maps every character by the case table |
| `Strings.Lower` | App.tsx:248 | Lower-casing keeps the length and maps every character by the case table |
| `Strings.Contains` | App.tsx:248 | The search is true exactly when the word occurs at some position of the text |
| `Strings.UpperFixesKeyword` | App.tsx:221-257 | Upper-casing leaves the action keywords unchanged |
| `Strings.AnyCasingMatches` | App.tsx:112 | Any mix of cases of a keyword upper-cases to the keyword, so the comparisons are case-insensitive |
| `Strings.UpperIdempotent` | App.tsx:221 | Upper-casing twice equals upper-casing once |
| `Simulation.ValidRolls` | App.tsx:115-229 | Each draw lies in the range its `Math.random` expression produces: splat 15..24 (115), flies 20..24 (128), nylocas chip 5..9 (139), energy ball 35..44 (150), generic chip 0..4 (202), attack 10..39 (223), reflected damage 15..19 (229). It is the precondition under which the damage bounds below hold |
| `Simulation.FreshBoss` | App.tsx:293-297 | The boss of a room enters named after the room at full health, and that health is positive exactly in the six boss rooms |
| `Simulation.StartNewRun` | App.tsx:66-76 | A new run starts in MAIDEN, the first room of the sequence. Its boss is MAIDEN at full health (1000 of 1000), the player has the starting stats, and the invariants hold |
| `Simulation.BelowPercentExact` | App.tsx:155-193 | The integer comparison `100 * health < percent * max` holds exactly when health is below `max * percent / 100` in exact arithmetic, the comparison the source writes with `* 0.66`, `* 0.35` and `* 0.7` |
| `Simulation.FiredHazards` | App.tsx:108-209 | At most two hazards fire per tick, each belongs to the current room's rules (the generic chip to the rooms without a boss), and in Nylocas the chip fires every tick |
| `Simulation.Avoids` | App.tsx:112-185 | Only DODGE, HIDE or SOLVE_MAZE escape anything, and the nylocas chip, green ball and generic chip are never escaped |
| `Simulation.Damage` | App.tsx:115-202 | With draws in range a hazard costs between 0 and 44, and every hazard but the generic chip costs at least 5 |
| `Simulation.DamageTaken` | App.tsx:108-209 | With draws in range the damage taken is never negative (so hazards never heal) and at most 44 per hazard fired |
| `Simulation.DamageTakenPair` | App.tsx:144-199 | In a room that may fire two hazards, the damage is the sum of each fired hazard's damage unless the action escapes it |
| `Simulation.DamageTakenAppend` | App.tsx:144-199 | The damage of two hazards in one room (Sotetseg, Verzik) is the sum of their separate damages |
| `Simulation.Hazards` | App.tsx:108-209 | The hazard phase changes only the player's health and never raises it |
| `Simulation.HazardDamageByRoom` | App.tsx:108-209 | The hazard table gives the room-by-room damage of the source's switch |
| `Simulation.DodgeEvades` | App.tsx:109-200 | DODGE escapes the splat, flies, energy ball, poison and tornados. Only the nylocas chip, the maze and the green ball still hit |
| `Simulation.HideEvadesFlies` | App.tsx:122-131 | HIDE escapes Bloat's flies |
| `Simulation.HazardAvoidedIffReaction` | App.tsx:109-181 | In Maiden, Bloat and Xarpus, once the hazard fires the player is unharmed exactly when the action is its reaction (DODGE; HIDE or DODGE in Bloat) |
| `Simulation.UnavoidableRegardless` | App.tsx:137-206 | The nylocas chip, the green ball and the generic chip do the same damage whatever the action |
| `Simulation.NylocasChipRegardless` | App.tsx:137-142 | In Nylocas every action takes the chip damage |
| `Simulation.GreenBallRegardless` | App.tsx:193-198 | Once Verzik's green ball is launched, the player loses at least 40 whatever the action |
| `Simulation.NoReactionTakesAll` | App.tsx:108-209 | An action that is neither DODGE, HIDE nor SOLVE_MAZE escapes no hazard |
| `Simulation.ActionPhase` | App.tsx:221-275 | The action never changes the room, the boss's name or maximum, or the player's maxima. Boss health never rises, except that a negative value would be clamped up to 0 |
| `Simulation.Attack` | App.tsx:222-246 | An attack keeps the room, the boss's identity and maximum and everything of the player but health. The player never gains health, the boss never rises above `max(0, h)`, and when the player is hurt (the stare) the boss is untouched. `AttackOutcome` gives the exact amounts |
| `Simulation.Eat` | App.tsx:247-251 | Only health changes; it never exceeds the maximum and, from within range, never falls. `EatHeals` gives the exact amount |
| `Simulation.Pray` | App.tsx:252-256 | Only prayer changes; it never exceeds the maximum and, from within range, never falls. `PrayRestores` gives the exact amount |
| `Simulation.SwitchGear` | App.tsx:257-271 | Only the gear changes, and only to the style whose name the agent gave. `SwitchGearEffect` states both directions |
| `Simulation.AttackOutcome` | App.tsx:222-246 | ATTACK does nothing while Bloat is up. During the stare it costs 15..19 health and leaves the boss alone. Otherwise it takes 10..39 from the boss (2..9 in Nylocas with the wrong gear, a quarter rounded down), never below 0 |
| `Simulation.EatHeals` | App.tsx:247-251 | EAT heals 16 with a brew and 22 otherwise, capped at the maximum, and changes nothing else |
| `Simulation.PrayRestores` | App.tsx:252-256 | PRAY restores 25 with a restore and 10 otherwise, capped at the maximum, and changes nothing else |
| `Simulation.SwitchGearEffect` | App.tsx:257-271 | SWITCH_GEAR changes the gear exactly to a named MELEE, RANGE or MAGE and leaves the state unchanged otherwise |
| `Simulation.OtherActionsInert` | App.tsx:272-274 | Any other action (DODGE, HIDE, SOLVE_MAZE, WAIT, anything) changes nothing in the action phase |
| `Simulation.ClampHealth` | App.tsx:210 | Negative health after the hazards becomes 0; health already at or above 0 and everything else is kept |
| `Simulation.Drain` | App.tsx:277-278 | Health is floored at 0 and otherwise kept; prayer falls by at most 2 and never below 0; nothing else changes |
| `Simulation.Advance` | App.tsx:280-299 | A standing boss keeps everything. A fallen boss moves the run one room on: the next boss is at full health, or the run stops at COMPLETE with the fallen boss's stats kept as they were. The player is untouched |
| `Simulation.Tick` | App.tsx:103-299 | A tick stops the run exactly when it wipes to the idle state or reaches COMPLETE. The room either stays, moves to its successor, or resets to IDLE |
| `Simulation.BossMechanics` | App.tsx:108-209 | The hazard switch, applied one hazard at a time, computes the hazard phase's health |
| `Simulation.ProcessAction` | App.tsx:220-275 | The action switch, applied step by step, computes the action phase |
| `Simulation.CompleteRoom` | App.tsx:280-299 | The room-completion check, applied step by step, computes `Advance` |
| `Simulation.ResolveTick` | App.tsx:89-299 | The step-by-step tick on a copy of the state produces the specified next state and running flag |
| `Simulation.WipeResets` | App.tsx:210-218 | The hazards bring health to 0 exactly when the tick returns the idle state with the run stopped. The action is then never applied |
| `Simulation.TickIgnoresCase` | App.tsx:221 | The tick resolves an action and its upper-cased form identically, because it only reads the upper-cased action |
| `Simulation.InitialStatesValid` | constants.ts:33-41 | The idle state and the state of a new run satisfy the invariants |
| `Simulation.OtherActionTick` | App.tsx:272-278 | With any other action and a standing boss, only hazards, clamp and drain touch the player, and room and boss stay |
| `Simulation.TickPreservesValid` | App.tsx:210-299 | A tick keeps health and prayer within [0, max] and keeps the boss within its room's health |
| `Simulation.PrayerAfterTick` | App.tsx:252-278 | PRAY's restore is applied before the drain of 2, floored at 0. Every other action only drains |
| `Simulation.StareCanLeaveZeroHealth` | App.tsx:228-278 | An attack into the stare can end a tick at 0 health with the run still going (no second death check) |
| `Simulation.RoomAdvance` | App.tsx:280-299 | Unless the run wiped, the room changes exactly when the boss is at 0 after the action. It then becomes the successor, the new boss is at full health, and COMPLETE stops the run with the fallen boss's stats kept |
| `Runs.StartOrResume` | App.tsx:317-322 | Starting from IDLE or COMPLETE begins a new run; otherwise the run resumes unchanged; either way the room holds a boss |
| `Runs.Simulate` | App.tsx:301-306 | A sequence of ticks stops only by a wipe to the idle state or by reaching COMPLETE |
| `Runs.SimulatePreservesValid` | App.tsx:89-306 | The invariants hold after any number of ticks |
| `Runs.SimulateStageBounds` | App.tsx:280-306 | Unless the run wiped, rooms only move forward, at most one room per tick |

## Left out

- Log entries (`addLog`, their text and timestamps) are not modelled. They do not influence the state.
- React state hooks, the `isLoading` flag, `setTimeout` scheduling, the stop button and the run-mode effect are event-loop plumbing and are not modelled. `Runs.Simulate` stands for the chain of scheduled ticks the start button is meant to begin. As written, the scheduled `simulationLoop` is the closure built while `isRunning` was still false (App.tsx:83-84, 308, 324), so its first call may return at once; `Simulate` with no steps covers that outcome, and with steps it models the intended chain.
- The plugin run mode is not modelled: the plugin bridge is not implemented, and starting is refused there.
- The external decision service is a remote call. Its result is an arbitrary `BotAction` input. Its WAIT fallback behaves like any action outside the four handled ones.
- The screen components are not modelled. They only render the state.
- `Math.random` is replaced by the `Rolls` input. Only its ranges are kept, not its probabilities.
- The display strings of the `Room` enum are not modelled. Rooms are compared by identity only.
- Simulation.Tick: a tick in COMPLETE is excluded by its precondition. The loop never runs one there. Such a tick would read `ROOM_SEQUENCE[7]` and leave the room undefined.
- Strings.Upper: only the case mappings that can turn a character into a keyword letter are modelled. Other characters are kept as they are.
- Strings.Lower: only ASCII capitals are lower-cased.
