/** Whole sessions driven through the game's operations, checked against
    their contracts alone. */
module Scenarios {

  import opened Wrappers
  import opened GameTypes
  import opened Levels
  import opened Gesture
  import opened Session

  /** A hand with every tracked fingertip below its knuckle and the wrist at height y. */
  function FistAt(y: real): (lm: Landmarks)
    ensures IsFist(lm) && lm[Wrist] == y
  {
    var lm: Landmarks :=
      seq(21, i => if i == 0 then y else if i == 8 || i == 12 || i == 16 || i == 20 then 1.0 else 0.0);
    assert Curled(lm, 0) && Curled(lm, 1) && Curled(lm, 2) && Curled(lm, 3);
    assert CurledCount(lm, 4) == 4 by {
      assert CurledCount(lm, 1) == 1;
      assert CurledCount(lm, 2) == 2;
      assert CurledCount(lm, 3) == 3;
    }
    lm
  }

  /** Level 3 (goal 30, three minutes) chosen from the level menu and
      played for 170 seconds without a stroke. */
  method LevelThreeAt10SecondsLeft() returns (g: Game)
    ensures fresh(g) && g.Valid()
    ensures g.state == GameState(0, 10, Playing, 3, En)
    ensures g.initialTime == 180 && g.clearTime.None? && g.Tracker() == Reset
  {
    g := new Game(En);
    g.SelectLevel(3);
    g.CountdownTick();
    g.CountdownTick();
    g.CountdownTick();
    var i := 0;
    while i < 170
      invariant 0 <= i <= 170
      invariant g.Valid() && g.timerRunning
      invariant g.state == GameState(0, 180 - i, Playing, 3, En)
      invariant g.initialTime == 180 && g.clearTime.None? && g.Tracker() == Reset
    {
      g.Tick();
      i := i + 1;
    }
  }

  /** Thirty full strokes at that point complete the level with a clear
      time of 170 seconds. */
  method LevelThreeClearedAfter170Seconds()
  {
    var g := LevelThreeAt10SecondsLeft();
    var stroke := g.OnFrame(Hand(FistAt(0.2)));
    stroke := g.OnFrame(Hand(FistAt(0.4)));
    var k := 0;
    while k < 30
      invariant 0 <= k <= 30
      invariant g.Valid()
      invariant g.state == GameState(k, 10, Playing, 3, En)
      invariant g.initialTime == 180 && g.clearTime.None?
      invariant g.Tracker() ==
        if k % 2 == 0 then Motion(Some(0.4), Down, 0.2) else Motion(Some(0.2), Up, 0.2)
    {
      var y := if k % 2 == 0 then 0.2 else 0.4;
      stroke := g.OnFrame(Hand(FistAt(y)));
      k := k + 1;
    }
    var cue := g.Watch();
    assert g.state.status == LevelComplete && g.clearTime == Some(170) && cue == LevelClear;
  }

  /** Level 1 with no strokes: the clock runs out, the game finishes with
      its score kept, and the watcher asks for the failure cue. */
  method LevelOneTimesOut()
  {
    var g := new Game(Zh);
    g.StartGame();
    g.CountdownTick();
    g.CountdownTick();
    g.CountdownTick();
    var i := 0;
    while i < 60
      invariant 0 <= i <= 60
      invariant g.Valid() && g.timerRunning == (i < 60)
      invariant g.state == GameState(0, 60 - i, if i < 60 then Playing else Finished, 1, Zh)
    {
      g.Tick();
      i := i + 1;
    }
    var cue := g.Watch();
    assert g.state.status == Finished && g.state.timeLeft == 0 && cue == Failure;
  }

  /** Aborting mid-play cancels both intervals: a late tick of either
      changes nothing, and a second abort changes nothing either. */
  method StopThenStrayTicks()
  {
    var g := new Game(En);
    g.StartGame();
    g.CountdownTick();
    g.CountdownTick();
    g.CountdownTick();
    g.Tick();
    g.StopGame();
    assert g.state == GameState(0, 59, GameStatus.Idle, 1, En);
    g.Tick();
    g.CountdownTick();
    g.StopGame();
    assert g.state == GameState(0, 59, GameStatus.Idle, 1, En) && g.IsStopped();
  }
}
