/**
 * The game-over screen: a restart button that resets the session but keeps
 * the player's name, and a quit button that ends the process.
 */
module GameOver {
  import opened Wrappers
  import opened Events
  import opened SceneManagement
  import opened PlayerProgress

  /** What a click on the game-over screen lands on; the two buttons do not overlap. */
  datatype GameOverHit = RestartButton | QuitButton | Elsewhere

  class GameOverScene {
    const sm: SceneManager

    constructor (sm: SceneManager)
      ensures this.sm == sm
    {
      this.sm := sm;
    }

    /**
     * `handle_event`: the restart button restarts; the quit button asks the
     * process to end (`quit`), which the model reports instead of exiting.
     */
    method HandleEvent(e: Input<GameOverHit>) returns (quit: bool)
      modifies sm
      ensures quit <==> e == Click(QuitButton)
      ensures e == Click(RestartButton) ==>
                sm.player == InitialPlayer(old(sm.player.name)) && sm.current == Some(Title)
      ensures e != Click(RestartButton) ==> sm.player == old(sm.player) && sm.current == old(sm.current)
    {
      quit := false;
      if e.Click? {
        if e.hit == RestartButton {
          RestartGame();
        } else if e.hit == QuitButton {
          quit := true;
        }
      }
    }

    /**
     * `restart_game`: every stat and list back to its initial value, the
     * name kept, and the title replaces the game-over screen.
     */
    method RestartGame()
      modifies sm
      ensures sm.player == InitialPlayer(old(sm.player.name)) && sm.current == Some(Title)
      ensures sm.player.name == old(sm.player.name)
      ensures sm.player.motivation == 100 && sm.player.concentration == 100
      ensures sm.player.awsKnowledge == 0 && sm.player.level == 1
      ensures sm.player.items == [] && sm.player.skills == ["基本コマンド"] && sm.player.completedTrials == []
      ensures sm.Valid() && !IsGameOver(sm.player)
    {
      sm.player := InitialPlayer(sm.player.name);
      InitialPlayerFacts(sm.player.name);
      sm.ChangeScene(Title);
    }
  }
}
