/**
 * The ball game's two nested state machines: the application screen and,
 * inside the game screen, whether the simulation is paused.
 */
module GameStates {

  /** The application's screen. */
  datatype AppState = MainMenu | Game | GameOver

  /** Whether the game simulation advances; `Paused` is the default. */
  datatype SimulationState = Paused | Running

  const INITIAL_SIMULATION: SimulationState := Paused

  /** The state `toggle_simulation` asks for: the other one. */
  function Toggled(s: SimulationState): (r: SimulationState)
    ensures r != s
  {
    match s
    case Paused => Running
    case Running => Paused
  }

  /** Toggling twice returns to the original state. */
  lemma ToggledTwice(s: SimulationState)
    ensures Toggled(Toggled(s)) == s
  {
  }

  /** `toggle_simulation` runs only on the game screen. */
  predicate ToggleRuns(app: AppState) {
    app == Game
  }

  /**
   * The enemy timer, spawn, direction and movement systems run only on the game
   * screen while the simulation is running.
   */
  predicate EnemySystemsRun(app: AppState, sim: SimulationState) {
    app == Game && sim == Running
  }

  /** Pausing (or never leaving the menu) stops the enemy systems. */
  lemma EnemySystemsNeedRunningGame(app: AppState, sim: SimulationState)
    ensures EnemySystemsRun(app, sim) ==> ToggleRuns(app)
    ensures sim == INITIAL_SIMULATION ==> !EnemySystemsRun(app, sim)
  {
  }
}
