/** Runs of the scene as the engine and the host drive it, and what they are guaranteed to produce. */
module Scenarios {

  import opened Wrappers
  import opened Events
  import opened Scene
  import PipeRow

  /**
   * Once the bird hits a pipe, the game is over and stays over for any number
   * of following frames: those frames emit no further game-over event.
   */
  method GameOverOnce(scene: MainScene, frames: nat)
    requires scene.Valid() && scene.Started()
    modifies scene
    ensures scene.Valid() && !scene.isGameRunning
    ensures GameOvers(scene.events) == GameOvers(old(scene.events)) + 1
    ensures scene.score == old(scene.score)
  {
    scene.HitPipe();
    GameOversAppend(old(scene.events), GameOver);
    var n := 0;
    while n < frames
      invariant scene.Valid() && !scene.isGameRunning
      invariant GameOvers(scene.events) == GameOvers(old(scene.events)) + 1
      invariant scene.score == old(scene.score)
    {
      scene.Update();
      n := n + 1;
    }
  }

  /** With all three answers unlocked, a logo brings 10 points and the game goes on. */
  method BonusExample()
  {
    var scene := new MainScene(800, 600);
    scene.Create(0.5);
    scene.SetUnlockedCount(Some(3));
    scene.SpawnLogo(0.0);
    scene.CollectLogo(0);
    assert scene.score == 10 && scene.isGameRunning && !scene.TimersPaused();
    assert scene.events == [ScoreUpdate(10)];
  }

  /**
   * The host sends the count once, at mount: `undefined`, or nothing if the
   * scene is not found then, leaving the initial 0. Both compare below 3, so
   * every logo pauses the game for an unlock, however many answers are shown.
   */
  method UndefinedCountExample()
  {
    var scene := new MainScene(800, 600);
    scene.Create(0.5);
    scene.SetUnlockedCount(None);
    scene.AddRowOfPipes(0.25);
    scene.SpawnLogo(0.5);
    scene.CollectLogo(0);
    assert scene.score == 1 && !scene.isGameRunning && scene.TimersPaused();
    assert scene.events == [ScoreUpdate(1), UnlockAnswer];
    scene.AddRowOfPipes(0.75);
    assert scene.score == 1 && |scene.events| == 2;
    scene.ResumeGame();
    assert scene.isGameRunning && scene.score == 1 && scene.birdVy == RESUME_VELOCITY;
  }

  /** A restart after game over gives score 0, a running game and empty groups. */
  method RestartExample()
  {
    var scene := new MainScene(800, 600);
    scene.Create(0.5);
    scene.AddRowOfPipes(0.0);
    assert PipeRow.SegmentCount(600) == 10 && PipeRow.ChooseHole(10, 0.0) == 1;
    PipeRow.IndicesCount(1, 10);
    PipeRow.RowAt(800, 1, 10);
    assert |scene.pipes| == 7;
    scene.HitPipe();
    scene.RestartGame(0.9);
    assert scene.score == 0 && scene.isGameRunning && scene.pipes == [] && scene.logos == [];
    assert scene.events == [ScoreUpdate(1), GameOver];
  }
}
