/** The game session controller: score, countdown, play timer, level and
    phase, fed with stroke events by the gesture tracker (App.tsx). */
module Session {

  import opened Wrappers
  import opened GameTypes
  import opened Levels
  import opened Gesture

  /** The sound cue the goal watcher asks the audio system to play. */
  datatype Cue = Silent | LevelClear | Victory | Failure

  /** The state update a scored stroke applies: one more point, never past
      the level's goal; nothing else changes. */
  function AddStroke(prev: GameState): (r: GameState)
    ensures r == prev.(score := r.score)
    ensures r.score <= Goal(prev.level)
    ensures prev.score < Goal(prev.level) ==> r.score == prev.score + 1
    ensures prev.score <= Goal(prev.level) ==> prev.score <= r.score <= prev.score + 1
  {
    prev.(score := Min(prev.score + 1, Goal(prev.level)))
  }

  /** The state update of one second of play: the clock runs down by one,
      and the session finishes when the last second runs out. */
  function TimerStep(prev: GameState): (r: GameState)
    ensures r.timeLeft >= 0
    ensures r == prev.(timeLeft := r.timeLeft, status := r.status)
    ensures prev.timeLeft > 1 ==> r.timeLeft == prev.timeLeft - 1 && r.status == prev.status
    ensures prev.timeLeft <= 1 ==> r.timeLeft == 0 && r.status == Finished
  {
    if prev.timeLeft <= 1 then prev.(timeLeft := 0, status := Finished)
    else prev.(timeLeft := prev.timeLeft - 1)
  }

  /** The state after k seconds of play. */
  function AfterTicks(s: GameState, k: nat): (r: GameState)
    ensures r.score == s.score && r.level == s.level
    decreases k
  {
    if k == 0 then s else AfterTicks(TimerStep(s), k - 1)
  }

  /** Before the clock runs out, k seconds take exactly k off it and change
      nothing else. */
  lemma {:induction false} TicksCountDown(s: GameState, k: nat)
    requires k < s.timeLeft
    ensures AfterTicks(s, k) == s.(timeLeft := s.timeLeft - k)
    decreases k
  {
    if k > 0 {
      TicksCountDown(TimerStep(s), k - 1);
    }
  }

  /** A session with n seconds left finishes on exactly the n-th second,
      keeping its score (the failure path when the goal was not met). */
  lemma TimeRunsOut(s: GameState)
    requires s.timeLeft >= 1
    ensures AfterTicks(s, s.timeLeft - 1).status == s.status
    ensures AfterTicks(s, s.timeLeft) == s.(timeLeft := 0, status := Finished)
  {
    var n := s.timeLeft;
    TicksCountDown(s, n - 1);
    var before := AfterTicks(s, n - 1);
    assert AfterTicks(s, n) == AfterTicks(before, 1) by {
      AfterTicksSplit(s, n - 1);
    }
  }

  /** k + 1 seconds are k seconds followed by one more. */
  lemma {:induction false} AfterTicksSplit(s: GameState, k: nat)
    ensures AfterTicks(s, k + 1) == TimerStep(AfterTicks(s, k))
    decreases k
  {
    if k > 0 {
      AfterTicksSplit(TimerStep(s), k - 1);
    }
  }

  /** The game component: the authoritative game state, the time limit the
      level started with, the tracker's memory, the UI flags the frame
      handler sets, and the two one-second intervals (countdown and play
      timer), each modelled by whether it is running. */
  class Game {
    var state: GameState
    var initialTime: int
    var clearTime: Option<int>
    var handDetected: bool
    var fistShown: bool
    var lastY: Option<real>
    var motion: Direction
    var travel: real
    var countdownRunning: bool
    var countdownValue: int
    var timerRunning: bool

    /** The ranges the game keeps although the record declares none. */
    ghost predicate Valid()
      reads this
    {
      && 1 <= state.level
      && 0 <= state.score <= Goal(state.level)
      && 0 <= state.timeLeft <= initialTime
      && initialTime == TimeLimit(state.level)
      && (state.status == LevelComplete ==> state.level < MaxLevel)
      && (clearTime.Some? ==> 0 <= clearTime.value <= TimeLimit(state.level))
      && travel >= 0.0
      && (countdownRunning ==> state.status == Starting && 1 <= countdownValue <= 3)
      && (timerRunning ==> state.status == Playing)
    }

    /** The tracker's memory as one value. */
    function Tracker(): (r: Motion)
      reads this
    {
      Motion(lastY, motion, travel)
    }

    /** The state an abort leaves behind. */
    predicate IsStopped()
      reads this
    {
      && state.status == GameStatus.Idle && state.score == 0
      && Tracker() == Reset && clearTime.None?
      && !countdownRunning && !timerRunning
    }

    /** A fresh game at level 1 with a one-minute clock, in the given language. */
    constructor (lang: Language)
      ensures Valid()
      ensures state == GameState(0, 60, GameStatus.Idle, 1, lang) && initialTime == TimeLimit(1)
      ensures clearTime.None? && !handDetected && !fistShown
      ensures Tracker() == Reset && !countdownRunning && !timerRunning
    {
      state := GameState(0, 60, GameStatus.Idle, 1, lang);
      initialTime := 60;
      clearTime := None;
      handDetected, fistShown := false, false;
      lastY, motion, travel := None, Direction.Idle, 0.0;
      countdownRunning, countdownValue, timerRunning := false, 0, false;
    }

    /** Switches the UI language and nothing else. */
    method ToggleLanguage()
      requires Valid()
      modifies this
      ensures Valid()
      ensures state == old(state).(language := Toggle(old(state.language)))
      ensures state.language != old(state.language)
      ensures initialTime == old(initialTime) && clearTime == old(clearTime)
      ensures handDetected == old(handDetected) && fistShown == old(fistShown)
      ensures Tracker() == old(Tracker())
      ensures countdownRunning == old(countdownRunning) && countdownValue == old(countdownValue)
      ensures timerRunning == old(timerRunning)
    {
      state := state.(language := Toggle(state.language));
    }

    /** Cancels both intervals and starts a three-second countdown. A helper
      of the three start operations, called only once they have set the
      phase to STARTING. */
    method StartCountdown()
      modifies this`countdownRunning, this`countdownValue, this`timerRunning
      ensures countdownRunning && countdownValue == 3 && !timerRunning
    {
      timerRunning := false;
      countdownRunning := false;
      countdownValue := 3;
      countdownRunning := true;
    }

    /** Starts a fresh game at level 1, keeping the language and the tracker's memory. */
    method StartGame()
      requires Valid()
      modifies this
      ensures Valid()
      ensures state == old(state).(score := 0, timeLeft := TimeLimit(1), status := Starting, level := 1)
      ensures initialTime == TimeLimit(1) && clearTime.None?
      ensures countdownRunning && countdownValue == 3 && !timerRunning
      ensures Tracker() == old(Tracker())
      ensures handDetected == old(handDetected) && fistShown == old(fistShown)
    {
      initialTime := 60;
      state := state.(score := 0, timeLeft := 60, status := Starting, level := 1);
      clearTime := None;
      StartCountdown();
    }

    /** Starts a game at the chosen level, with that level's time limit. */
    method SelectLevel(level: int)
      requires Valid()
      requires 1 <= level <= MaxLevel
      modifies this
      ensures Valid()
      ensures state == old(state).(score := 0, timeLeft := TimeLimit(level), status := Starting, level := level)
      ensures initialTime == TimeLimit(level) && clearTime.None?
      ensures countdownRunning && countdownValue == 3 && !timerRunning
      ensures Tracker() == old(Tracker())
      ensures handDetected == old(handDetected) && fistShown == old(fistShown)
    {
      var timeLimit := level * 60;
      if level == 11 { timeLimit := 600; }
      if level == 12 { timeLimit := 1200; }
      initialTime := timeLimit;
      state := state.(score := 0, timeLeft := timeLimit, status := Starting, level := level);
      clearTime := None;
      StartCountdown();
    }

    /** Aborts the session: cancels both intervals, returns to the idle
      phase with a zero score and resets the tracker. Level, clock and
      language stay; aborting an aborted game changes nothing. */
    method StopGame()
      requires Valid()
      modifies this
      ensures Valid() && IsStopped()
      ensures state == old(state).(status := GameStatus.Idle, score := 0)
      ensures old(IsStopped()) ==> unchanged(this)
      ensures initialTime == old(initialTime) && countdownValue == old(countdownValue)
      ensures handDetected == old(handDetected) && fistShown == old(fistShown)
    {
      timerRunning := false;
      countdownRunning := false;
      state := state.(status := GameStatus.Idle, score := 0);
      clearTime := None;
      lastY := None;
      motion := Direction.Idle;
      travel := 0.0;
    }

    /** Moves on to the following level with its time limit. `nextLevel`
      does not check the phase: it is offered only once a level below the
      last one is complete, and from there the level stays within range. */
    method NextLevel()
      requires Valid()
      modifies this
      ensures Valid()
      ensures state == old(state).(score := 0, timeLeft := TimeLimit(old(state.level) + 1),
                                   status := Starting, level := old(state.level) + 1)
      ensures old(state.status) == LevelComplete ==> state.level <= MaxLevel
      ensures initialTime == TimeLimit(state.level) && clearTime.None?
      ensures countdownRunning && countdownValue == 3 && !timerRunning
      ensures Tracker() == old(Tracker())
      ensures handDetected == old(handDetected) && fistShown == old(fistShown)
    {
      var nextLvl := state.level + 1;
      var nextTime := nextLvl * 60;
      if nextLvl == 11 { nextTime := 600; }
      if nextLvl == 12 { nextTime := 1200; }
      initialTime := nextTime;
      state := state.(score := 0, timeLeft := nextTime, status := Starting, level := nextLvl);
      clearTime := None;
      StartCountdown();
    }

    /** One second of the countdown; on its third second play begins and
      the play timer starts. Without a running countdown nothing happens. */
    method CountdownTick()
      requires Valid()
      modifies this
      ensures Valid()
      ensures !old(countdownRunning) ==> unchanged(this)
      ensures old(countdownRunning) && old(countdownValue) > 1 ==>
        countdownRunning && countdownValue == old(countdownValue) - 1 &&
        state == old(state) && timerRunning == old(timerRunning)
      ensures old(countdownRunning) && old(countdownValue) <= 1 ==>
        !countdownRunning && countdownValue == 0 && timerRunning && state == old(state).(status := Playing)
      ensures initialTime == old(initialTime) && clearTime == old(clearTime)
      ensures Tracker() == old(Tracker())
      ensures handDetected == old(handDetected) && fistShown == old(fistShown)
    {
      if countdownRunning {
        countdownValue := countdownValue - 1;
        if countdownValue <= 0 {
          countdownRunning := false;
          state := state.(status := Playing);
          timerRunning := true;
        }
      }
    }

    /** One second of the play timer. Without a running timer nothing
      happens, so a late tick after an abort cannot touch the state. */
    method Tick()
      requires Valid()
      modifies this
      ensures Valid()
      ensures !old(timerRunning) ==> unchanged(this)
      ensures old(timerRunning) ==>
        state == TimerStep(old(state)) && timerRunning == (old(state.timeLeft) > 1)
      ensures state.score == old(state.score)
      ensures initialTime == old(initialTime) && clearTime == old(clearTime)
      ensures Tracker() == old(Tracker())
      ensures countdownRunning == old(countdownRunning) && countdownValue == old(countdownValue)
      ensures handDetected == old(handDetected) && fistShown == old(fistShown)
    {
      if timerRunning {
        if state.timeLeft <= 1 {
          timerRunning := false;
        }
        state := TimerStep(state);
      }
    }

    /** One frame of the hand detector. The fist flag is shown for every
      hand; only a fist seen while playing moves the tracker, and a stroke
      it scores adds one point, capped at the goal. */
    method OnFrame(sample: HandSample) returns (stroke: bool)
      requires Valid()
      modifies this
      ensures Valid()
      ensures handDetected == sample.Hand?
      ensures fistShown == (sample.Hand? && IsFist(sample.landmarks))
      ensures sample.Hand? && IsFist(sample.landmarks) && old(state.status) == Playing ==>
        var r := Step(old(Tracker()), sample.landmarks[Wrist]);
        Tracker() == r.next && stroke == r.stroke
      ensures !(sample.Hand? && IsFist(sample.landmarks) && old(state.status) == Playing) ==>
        Tracker() == old(Tracker()) && !stroke
      ensures state == if stroke then AddStroke(old(state)) else old(state)
      ensures state.score >= old(state.score)
      ensures initialTime == old(initialTime) && clearTime == old(clearTime)
      ensures countdownRunning == old(countdownRunning) && countdownValue == old(countdownValue)
      ensures timerRunning == old(timerRunning)
    {
      stroke := false;
      if sample.NoHand? {
        handDetected := false;
        fistShown := false;
        return;
      }
      handDetected := true;
      var landmarks := sample.landmarks;
      var fist := ClassifyFist(landmarks);
      fistShown := fist;
      if fist && state.status == Playing {
        var currentY := landmarks[Wrist];
        if lastY.Some? {
          var deltaY := currentY - lastY.value;
          if Abs(deltaY) > NoiseFloor {
            var dir := if deltaY > 0.0 then Down else Up;
            if motion == Direction.Idle {
              motion := dir;
            } else if motion != dir {
              if travel > StrokeThreshold {
                stroke := true;
                state := AddStroke(state);
              }
              motion := dir;
              travel := 0.0;
            }
            travel := travel + Abs(deltaY);
          }
        }
        lastY := Some(currentY);
      }
    }

    /** The goal watcher. While playing with the goal reached it stops the
      timer, records the clear time and completes the level (or, at the last
      level, finishes the game in victory); a finished game short of its
      goal asks for the failure cue. The score never changes here. */
    method Watch() returns (cue: Cue)
      requires Valid()
      modifies this
      ensures Valid()
      ensures old(state.status) == Playing && old(state.score) >= Goal(old(state.level)) ==>
        && !timerRunning
        && clearTime == Some(old(initialTime) - old(state.timeLeft))
        && 0 <= clearTime.value <= TimeLimit(state.level)
        && (old(state.level) >= MaxLevel ==> state == old(state).(status := Finished) && cue == Victory)
        && (old(state.level) < MaxLevel ==> state == old(state).(status := LevelComplete) && cue == LevelClear)
      ensures !(old(state.status) == Playing && old(state.score) >= Goal(old(state.level))) ==>
        unchanged(this) &&
        cue == (if old(state.status) == Finished && old(state.score) < Goal(old(state.level)) then Failure else Silent)
      ensures initialTime == old(initialTime) && Tracker() == old(Tracker())
      ensures countdownRunning == old(countdownRunning) && countdownValue == old(countdownValue)
      ensures handDetected == old(handDetected) && fistShown == old(fistShown)
    {
      if state.status == Playing && state.score >= Goal(state.level) {
        timerRunning := false;
        clearTime := Some(initialTime - state.timeLeft);
        if state.level >= MaxLevel {
          cue := Victory;
          state := state.(status := Finished);
        } else {
          cue := LevelClear;
          state := state.(status := LevelComplete);
        }
      } else if state.status == Finished && state.score < Goal(state.level) {
        cue := Failure;
      } else {
        cue := Silent;
      }
    }
  }
}
