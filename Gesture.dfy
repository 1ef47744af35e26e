/** The gesture tracker: classifies a hand as a fist from its landmarks, and
    turns the vertical motion of a fist's wrist into debounced stroke events. */
module Gesture {

  import opened Wrappers

  /** Number of landmarks the hand detector reports per hand. */
  const LandmarkCount: nat := 21

  /** The vertical (image) coordinates of one hand's landmarks, 0 = wrist.
      Image y grows downwards. */
  type Landmarks = s: seq<real> | |s| == LandmarkCount witness seq(21, _ => 0.0)

  const Wrist: nat := 0

  /** One frame of the hand detector: no hand, or the landmarks of the first hand. */
  datatype HandSample = NoHand | Hand(landmarks: Landmarks)
  /** Fingertips of index, middle, ring and pinky finger ... */
  const Tips: seq<nat> := [8, 12, 16, 20]
  /** ... and the base knuckle of each of them, in the same order. */
  const Knuckles: seq<nat> := [5, 9, 13, 17]

  /** Minimum net vertical travel of one leg for a reversal to score. */
  const StrokeThreshold: real := 0.06
  /** Per-frame moves of at most this size are jitter. */
  const NoiseFloor: real := 0.001

  /** Finger f (0..3) is curled when its tip lies below its knuckle. */
  predicate Curled(lm: Landmarks, f: nat)
    requires f < 4
  {
    lm[Tips[f]] > lm[Knuckles[f]]
  }

  /** How many of the first n tracked fingers are curled. */
  function CurledCount(lm: Landmarks, n: nat): (r: nat)
    requires n <= 4
    ensures r <= n
  {
    if n == 0 then 0 else CurledCount(lm, n - 1) + (if Curled(lm, n - 1) then 1 else 0)
  }

  /** A fist: at least three of the four tracked fingers are curled. */
  predicate IsFist(lm: Landmarks) {
    CurledCount(lm, 4) >= 3
  }

  /** The per-frame classification loop over the four fingers. */
  method ClassifyFist(lm: Landmarks) returns (fist: bool)
    ensures fist == IsFist(lm)
  {
    var curled := 0;
    for i := 0 to 4
      invariant curled == CurledCount(lm, i)
    {
      if lm[Tips[i]] > lm[Knuckles[i]] {
        curled := curled + 1;
      }
    }
    fist := curled >= 3;
  }

  /** Every tracked finger except finger k is curled. */
  predicate CurledExcept(lm: Landmarks, k: nat) {
    forall f :: 0 <= f < 4 && f != k ==> Curled(lm, f)
  }

  /** A fist is exactly a hand with at most one finger left open. */
  lemma {:induction false} FistIffAtMostOneOpen(lm: Landmarks)
    ensures IsFist(lm) <==> exists k :: 0 <= k < 4 && CurledExcept(lm, k)
  {
    var c0, c1, c2, c3 := Curled(lm, 0), Curled(lm, 1), Curled(lm, 2), Curled(lm, 3);
    assert CurledCount(lm, 1) == (if c0 then 1 else 0);
    assert CurledCount(lm, 2) == CurledCount(lm, 1) + (if c1 then 1 else 0);
    assert CurledCount(lm, 3) == CurledCount(lm, 2) + (if c2 then 1 else 0);
    assert CurledCount(lm, 4) == CurledCount(lm, 3) + (if c3 then 1 else 0);
    if IsFist(lm) {
      var k := if !c0 then 0 else if !c1 then 1 else if !c2 then 2 else 3;
      assert CurledExcept(lm, k);
    } else {
      forall k | 0 <= k < 4
        ensures !CurledExcept(lm, k)
      {
        if k == 0 { assert !c1 || !c2 || !c3; }
        else if k == 1 { assert !c0 || !c2 || !c3; }
        else if k == 2 { assert !c0 || !c1 || !c3; }
        else { assert !c0 || !c1 || !c2; }
      }
    }
  }

  /** Direction of the current leg of motion. */
  datatype Direction = Up | Down | Idle

  /** The tracker's memory between frames: the previous wrist height (if
      any), the direction of the current leg, and the unsigned distance
      travelled since the last reversal. */
  datatype Motion = Motion(lastY: Option<real>, dir: Direction, travel: real)

  /** One frame's outcome: the new memory, and whether a stroke was scored. */
  datatype StepResult = StepResult(next: Motion, stroke: bool)

  /** The tracker's memory when a session starts or is aborted. */
  const Reset: Motion := Motion(None, Idle, 0.0)

  function Abs(x: real): (r: real)
    ensures r >= 0.0 && (r == x || r == -x)
  {
    if x < 0.0 then -x else x
  }

  /** The direction of a per-frame move: image y grows downwards. */
  function DirectionOf(deltaY: real): (d: Direction)
    ensures d != Idle
    ensures d == Down <==> deltaY > 0.0
  {
    if deltaY > 0.0 then Down else Up
  }

  function Opposite(d: Direction): (r: Direction) {
    match d
    case Up => Down
    case Down => Up
    case Idle => Idle
  }

  /** A frame moves beyond the jitter floor since the previous one. */
  predicate Moved(m: Motion, y: real) {
    m.lastY.Some? && Abs(y - m.lastY.value) > NoiseFloor
  }

  /** A frame reverses an established direction. */
  predicate Reverses(m: Motion, y: real) {
    Moved(m, y) && m.dir != Idle && DirectionOf(y - m.lastY.value) != m.dir
  }

  /** One fist frame seen while playing, at wrist height y. */
  function Step(m: Motion, y: real): (r: StepResult)
    // the previous height is always refreshed
    ensures r.next.lastY == Some(y)
    // the first frame after a reset and jitter frames only record the height
    ensures !Moved(m, y) ==> r.next.dir == m.dir && r.next.travel == m.travel && !r.stroke
    // a stroke is scored exactly on a reversal that ends a long enough leg
    ensures r.stroke <==> Reverses(m, y) && m.travel > StrokeThreshold
    // after a reversal the new leg starts with this frame's move
    ensures Reverses(m, y) ==>
      r.next.dir == Opposite(m.dir) && r.next.travel == Abs(y - m.lastY.value)
    // otherwise a move extends the current leg (or starts the first one)
    ensures Moved(m, y) && !Reverses(m, y) ==>
      r.next.dir == DirectionOf(y - m.lastY.value) && r.next.travel == m.travel + Abs(y - m.lastY.value)
    // travel distance is never negative
    ensures m.travel >= 0.0 ==> r.next.travel >= 0.0
  {
    if m.lastY.None? then
      StepResult(Motion(Some(y), m.dir, m.travel), false)
    else
      var deltaY := y - m.lastY.value;
      if Abs(deltaY) > NoiseFloor then
        var dir := DirectionOf(deltaY);
        if m.dir == Idle then
          StepResult(Motion(Some(y), dir, m.travel + Abs(deltaY)), false)
        else if m.dir != dir then
          StepResult(Motion(Some(y), dir, Abs(deltaY)), m.travel > StrokeThreshold)
        else
          StepResult(Motion(Some(y), dir, m.travel + Abs(deltaY)), false)
      else
        StepResult(Motion(Some(y), m.dir, m.travel), false)
  }

  /** The outcome of a run of consecutive fist frames. */
  datatype RunResult = RunResult(next: Motion, strokes: nat)

  /** Feed the wrist heights ys, in order, to the tracker. */
  function Run(m: Motion, ys: seq<real>): (r: RunResult)
    decreases |ys|
    ensures r.strokes <= |ys|
    ensures |ys| > 0 ==> r.next.lastY == Some(ys[|ys| - 1])
    ensures m.travel >= 0.0 ==> r.next.travel >= 0.0
  {
    if ys == [] then RunResult(m, 0)
    else
      var s := Step(m, ys[0]);
      var rest := Run(s.next, ys[1..]);
      RunResult(rest.next, rest.strokes + (if s.stroke then 1 else 0))
  }

  /** Running two batches of frames one after the other is running them together. */
  lemma {:induction false} RunAppend(m: Motion, xs: seq<real>, ys: seq<real>)
    ensures Run(m, xs + ys) ==
      RunResult(Run(Run(m, xs).next, ys).next, Run(m, xs).strokes + Run(Run(m, xs).next, ys).strokes)
    decreases |xs|
  {
    if xs != [] {
      assert (xs + ys)[0] == xs[0];
      assert (xs + ys)[1..] == xs[1..] + ys;
      RunAppend(Step(m, xs[0]).next, xs[1..], ys);
    } else {
      assert xs + ys == ys;
    }
  }

  /** The wrist moves from `from` to `to` in direction d, by more than jitter. */
  predicate MovesIn(d: Direction, from: real, to: real) {
    (d == Down && to - from > NoiseFloor) || (d == Up && from - to > NoiseFloor)
  }

  /** ys is one leg: starting at y0, every frame moves on in direction d. */
  predicate IsLeg(y0: real, ys: seq<real>, d: Direction)
    decreases |ys|
  {
    ys == [] || (MovesIn(d, y0, ys[0]) && IsLeg(ys[0], ys[1..], d))
  }

  /** Along a leg in the established direction no stroke is scored, the
      direction holds and the travel grows by the net displacement. */
  lemma {:induction false} LegAccumulates(m: Motion, ys: seq<real>)
    requires m.lastY.Some? && m.dir != Idle
    requires |ys| > 0 && IsLeg(m.lastY.value, ys, m.dir)
    ensures Run(m, ys) ==
      RunResult(Motion(Some(ys[|ys| - 1]), m.dir, m.travel + Abs(ys[|ys| - 1] - m.lastY.value)), 0)
    decreases |ys|
  {
    var s := Step(m, ys[0]);
    assert s == StepResult(Motion(Some(ys[0]), m.dir, m.travel + Abs(ys[0] - m.lastY.value)), false);
    if |ys| > 1 {
      LegAccumulates(s.next, ys[1..]);
      LegMonotone(ys[0], ys[1..], m.dir);
    }
  }

  /** The end of a non-empty leg lies beyond its start, in the leg's direction. */
  lemma {:induction false} LegMonotone(y0: real, ys: seq<real>, d: Direction)
    requires |ys| > 0 && IsLeg(y0, ys, d)
    ensures d == Down ==> ys[|ys| - 1] - y0 > NoiseFloor
    ensures d == Up ==> y0 - ys[|ys| - 1] > NoiseFloor
    decreases |ys|
  {
    if |ys| > 1 {
      LegMonotone(ys[0], ys[1..], d);
    }
  }

  /** One leg followed by a reversing frame scores exactly one stroke when
      the leg (plus whatever the tracker had already travelled in that
      direction) exceeds the threshold, and none otherwise; the reversing
      frame starts the next leg. */
  lemma LegThenReversal(m: Motion, ys: seq<real>, z: real)
    requires m.lastY.Some? && m.dir != Idle
    requires |ys| > 0 && IsLeg(m.lastY.value, ys, m.dir)
    requires MovesIn(Opposite(m.dir), ys[|ys| - 1], z)
    ensures var leg := m.travel + Abs(ys[|ys| - 1] - m.lastY.value);
      Run(m, ys + [z]) ==
        RunResult(Motion(Some(z), Opposite(m.dir), Abs(z - ys[|ys| - 1])),
                  if leg > StrokeThreshold then 1 else 0)
  {
    RunAppend(m, ys, [z]);
    LegAccumulates(m, ys);
    var mid := Run(m, ys).next;
    assert Reverses(mid, z);
    assert Run(mid, [z]) == RunResult(Step(mid, z).next, if Step(mid, z).stroke then 1 else 0);
  }
}
