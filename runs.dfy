/** A run: starting or resuming from the current state, then resolving one
    tick after another while the run goes on. Each tick takes the agent's
    decision and the random draws for that tick. */
module Runs {
  import opened Types
  import opened Constants
  import opened Simulation

  /** The input of one tick. */
  datatype Step = Step(action: BotAction, rolls: Rolls)

  predicate ValidSteps(steps: seq<Step>)
  {
    forall i :: 0 <= i < |steps| ==> ValidRolls(steps[i].rolls)
  }

  /** Where starting the bot leads: a fresh run from IDLE or COMPLETE, and the
      current state otherwise (a resumed run). */
  function StartOrResume(s: GameState): (t: GameState)
    ensures IsBossRoom(s.currentRoom) ==> t == s
    ensures !IsBossRoom(s.currentRoom) ==> t == StartNewRun()
    ensures IsBossRoom(t.currentRoom)
    ensures ValidState(s) ==> ValidState(t)
  {
    if s.currentRoom == Idle || s.currentRoom == Complete then StartNewRun() else s
  }

  /** The ticks of a run: each step is resolved in turn until a tick ends
      the run (a wipe or the last boss falling) or the steps run out. A run
      stops only by a wipe, which restores the initial state, or by reaching
      COMPLETE. */
  function Simulate(s: GameState, steps: seq<Step>): (res: TickResult)
    requires ValidSteps(steps)
    ensures !res.running ==> res.state == InitialGameState || res.state.currentRoom == Complete
    ensures res.running ==> res.state.currentRoom != Complete
    decreases |steps|
  {
    if steps == [] || s.currentRoom == Complete then
      TickResult(s, s.currentRoom != Complete)
    else
      var t := Tick(s, steps[0].action, steps[0].rolls);
      if t.running then Simulate(t.state, steps[1..]) else t
  }

  /** The player and boss invariants hold after any number of ticks. */
  lemma {:induction false} SimulatePreservesValid(s: GameState, steps: seq<Step>)
    requires ValidSteps(steps)
    requires ValidState(s)
    ensures ValidState(Simulate(s, steps).state)
    decreases |steps|
  {
    if steps != [] && s.currentRoom != Complete {
      TickPreservesValid(s, steps[0].action, steps[0].rolls);
      var t := Tick(s, steps[0].action, steps[0].rolls);
      if t.running {
        SimulatePreservesValid(t.state, steps[1..]);
      }
    }
  }

  /** Unless the run wiped, the rooms only move forward, and at most one room
      per tick. */
  lemma {:induction false} SimulateStageBounds(s: GameState, steps: seq<Step>)
    requires ValidSteps(steps)
    ensures var res := Simulate(s, steps);
      || res.state == InitialGameState
      || Stage(s.currentRoom) <= Stage(res.state.currentRoom) <= Stage(s.currentRoom) + |steps|
    decreases |steps|
  {
    if steps != [] && s.currentRoom != Complete {
      var t := Tick(s, steps[0].action, steps[0].rolls);
      NextRoomAdvancesStage(s.currentRoom);
      if t.running {
        SimulateStageBounds(t.state, steps[1..]);
      }
    }
  }
}
