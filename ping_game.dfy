/** The game of ping/game.py: the score snapshot and reward rule, the
    exploration-parameter decay, the bat-overlap reflection, the state
    vector handed to the controller, the NPC switch, and the order of the
    stages inside one pass of `game_loop`.

    Every stage is a pure function on `GameState`; the class `Game` holds
    the same state as mutable fields and each of its methods is proved
    against the matching function. Epsilon is kept in integer thousandths. */
module PingGame {
  import opened Geometry
  import opened PingBall

  const ScreenHeight := 600
  const ScreenWidth := 800
  const BatWidth := 10
  const BatHeight := 100
  /** Step of a bat move; bat motion itself is not part of this model. */
  const BatMove := 10
  const YMiddleScreen := ScreenHeight / 2
  const XMiddleScreen := ScreenWidth / 2
  const RightBatX := ScreenWidth - BatWidth

  /** Epsilon starts at 1 and decays by 0.001 while above 0.1 (thousandths). */
  const EpsilonStart := 1000
  const EpsilonFloor := 100

  /** Reward values of `get_reward`. */
  const PenaltyReward := -1000
  const GainReward := 1000

  /** A value of the dictionary built by `output_data`. */
  datatype Value = Int(n: int) | Scores(score: Score)

  /** One key/value pair of that dictionary, in insertion order. */
  type Entry = (string, Value)

  /** All of the game's state that the tick reads or writes. */
  datatype GameState = GameState(
    ball: BallState,
    score: Score,
    leftBat: Rect,
    rightBat: Rect,
    oldScore: Score,
    epsilon: int,
    npcOn: bool,
    running: bool)

  /** What the outside world supplies to one pass of the loop. Bat motion
      depends on key state, on `ping/bat.py` and on a random draw, none of
      which is modelled: the bats' rectangles after `check_bat_move` and the
      left bat after `moves_npc_player` are given instead. */
  datatype TickInput = TickInput(
    quit: bool,          // an Escape key-down among this pass's events
    leftBat: Rect,       // left bat after check_bat_move
    rightBat: Rect,      // right bat after check_bat_move
    npcKeyUp: bool,      // the NPC controller's "on" key is held
    npcKeyDown: bool,    // the NPC controller's "off" key is held
    npcLeftBat: Rect)    // left bat after moves_npc_player, used when the NPC is on

  /** What one pass hands to the controller: the state vector and epsilon
      given to `receive_state`, then the state vector given to `update_state`. */
  datatype Feedback = Feedback(decision: seq<Value>, epsilon: int, report: seq<Value>)

  // ---------------------------------------------------------------------
  // Reward

  /** `get_reward`: the reward and the new snapshot. A gain for p1 is
      penalised and takes precedence; a gain for p2 is rewarded; the
      snapshot is replaced by the score exactly when the reward is nonzero. */
  function Reward(score: Score, snapshot: Score): (r: (int, Score))
    ensures r.0 == PenaltyReward || r.0 == 0 || r.0 == GainReward
    ensures r.0 == PenaltyReward <==> score.p1 > snapshot.p1
    ensures r.0 == GainReward <==> score.p1 <= snapshot.p1 && score.p2 > snapshot.p2
    ensures r.1 == (if r.0 == 0 then snapshot else score)
  {
    if score.p1 - snapshot.p1 > 0 then (PenaltyReward, score)
    else if score.p2 - snapshot.p2 > 0 then (GainReward, score)
    else (0, snapshot)
  }

  /** A point is paid out at most once: asking again with the returned
      snapshot and the same score gives 0. */
  lemma RewardPaidOnce(score: Score, snapshot: Score)
    ensures Reward(score, Reward(score, snapshot).1).0 == 0
  {
  }

  /** When both players gained since the snapshot, only p1's gain is seen
      (reward -1000) and p2's gain is swallowed by the new snapshot. */
  lemma RewardAbsorbsSimultaneousP2Gain(score: Score, snapshot: Score)
    requires score.p1 > snapshot.p1 && score.p2 > snapshot.p2
    ensures Reward(score, snapshot) == (PenaltyReward, score)
    ensures Reward(score, Reward(score, snapshot).1).0 == 0
  {
  }

  // ---------------------------------------------------------------------
  // Exploration parameter

  /** `update_epsilon`: one step of 0.001 while epsilon is above 0.1. */
  function Decay(e: int): (r: int)
    ensures r <= e
    ensures e > EpsilonFloor ==> r == e - 1 && r >= EpsilonFloor
    ensures e <= EpsilonFloor ==> r == e
  {
    if e > EpsilonFloor then e - 1 else e
  }

  /** n consecutive calls of `update_epsilon`: epsilon never rises, never
      falls below the floor from above it, and never moves at or below it. */
  function DecayTimes(e: int, n: nat): (r: int)
    ensures r <= e
    ensures e > EpsilonFloor ==> r >= EpsilonFloor
    ensures e <= EpsilonFloor ==> r == e
    decreases n
  {
    if n == 0 then e else DecayTimes(Decay(e), n - 1)
  }

  /** Closed form: epsilon falls by one step per call down to the floor
      and then stays there; a value already at or below it never moves. */
  lemma {:induction false} DecayTimesClosedForm(e: int, n: nat)
    ensures DecayTimes(e, n) ==
      if e <= EpsilonFloor then e
      else if e - n >= EpsilonFloor then e - n
      else EpsilonFloor
    decreases n
  {
    if n > 0 {
      DecayTimesClosedForm(Decay(e), n - 1);
    }
  }

  /** From the initial 1.0, epsilon is 1.0 - 0.001 n for n <= 900 calls,
      reaches 0.1 at the 900th call and stays at 0.1 forever after. */
  lemma EpsilonSchedule(n: nat)
    ensures DecayTimes(EpsilonStart, n) == if n <= 900 then EpsilonStart - n else EpsilonFloor
  {
    DecayTimesClosedForm(EpsilonStart, n);
  }

  // ---------------------------------------------------------------------
  // Bats, NPC switch, state vector

  /** `check_ball_hits_bat`: vx is negated once for each bat the ball
      overlaps (so twice, and not at all, when it overlaps both); vy is kept. */
  function BatReflect(s: Speed, hitsLeft: bool, hitsRight: bool): (r: Speed)
    ensures r.vy == s.vy
    ensures r.vx == if hitsLeft == hitsRight then s.vx else -s.vx
  {
    var afterLeft := if hitsLeft then FlipHorizontal(s) else s;
    if hitsRight then FlipHorizontal(afterLeft) else afterLeft
  }

  /** With the bats in their columns (x 0 and 790, 10 wide), a 25-wide ball
      cannot overlap both, so the double flip never happens in the game. */
  lemma BallNeverOverlapsBothBats(ball: Rect, left: Rect, right: Rect)
    requires ball.w == Size
    requires left.x == 0 && left.w == BatWidth && right.x == RightBatX && right.w == BatWidth
    ensures !(Collide(ball, left) && Collide(ball, right))
  {
  }

  /** `turn_npc_on_or_off`: the up key switches the NPC on, then the down
      key switches it off, so "off" wins when both are held. */
  function NpcToggle(on: bool, keyUp: bool, keyDown: bool): (r: bool)
    ensures keyDown ==> !r
    ensures keyUp && !keyDown ==> r
    ensures !keyUp && !keyDown ==> r == on
  {
    var afterUp := if keyUp then true else on;
    if keyDown then false else afterUp
  }

  /** `output_data`: a dictionary with the bats' and the ball's corners
      and the score object, under distinct keys, in this order. */
  function OutputData(g: GameState): (d: seq<Entry>)
    ensures |d| == 5
    ensures forall i, j :: 0 <= i < j < |d| ==> d[i].0 != d[j].0
    ensures d[4] == ("score", Scores(g.score))
  {
    [("l", Int(g.leftBat.y)), ("r", Int(g.rightBat.y)),
     ("bx", Int(g.ball.rect.x)), ("by", Int(g.ball.rect.y)),
     ("score", Scores(g.score))]
  }

  /** `list(d.values())`. */
  function Values(d: seq<Entry>): (v: seq<Value>)
    ensures |v| == |d|
    ensures forall i :: 0 <= i < |d| ==> v[i] == d[i].1
  {
    if d == [] then [] else [d[0].1] + Values(d[1..])
  }

  /** `prepare_data`: the first four values, or all of them when fewer. */
  function PrepareData(d: seq<Entry>): (v: seq<Value>)
    ensures |v| == if |d| < 4 then |d| else 4
    ensures forall i :: 0 <= i < |v| ==> v[i] == d[i].1
  {
    var all := Values(d);
    if |all| < 4 then all else all[..4]
  }

  /** The vector the controller sees is the two bats' y and the ball's
      corner; the score entry is dropped. */
  lemma StateVectorIsPositions(g: GameState)
    ensures PrepareData(OutputData(g)) ==
      [Int(g.leftBat.y), Int(g.rightBat.y), Int(g.ball.rect.x), Int(g.ball.rect.y)]
  {
    var v := PrepareData(OutputData(g));
    assert v[0] == Int(g.leftBat.y) && v[1] == Int(g.rightBat.y);
    assert v[2] == Int(g.ball.rect.x) && v[3] == Int(g.ball.rect.y);
  }

  // ---------------------------------------------------------------------
  // The stages of one pass of `game_loop`, in source order

  /** Escape: `running` is cleared, but the pass still runs to its end. */
  function ConsumeQuit(g: GameState, quit: bool): GameState
  {
    if quit then g.(running := false) else g
  }

  /** A pending reset is consumed first. */
  function ConsumeReset(g: GameState): GameState
  {
    if g.ball.reset then g.(ball := Recentred(g.ball)) else g
  }

  /** `ball.rect.move_ip(ball.speed)`. */
  function MoveBall(g: GameState): GameState
  {
    g.(ball := g.ball.(rect := Moved(g.ball.rect, g.ball.speed.vx, g.ball.speed.vy)))
  }

  /** `ball.update(score)`. */
  function UpdateBall(g: GameState): GameState
  {
    var r := Resolve(g.ball, g.score);
    g.(ball := r.0, score := r.1)
  }

  /** `check_bat_move`, with the bats' new rectangles given. */
  function MoveBats(g: GameState, left: Rect, right: Rect): GameState
  {
    g.(leftBat := left, rightBat := right)
  }

  /** `check_ball_hits_bat` against the bats where they now are. */
  function HitBats(g: GameState): (r: GameState)
    ensures r == g.(ball := g.ball.(speed := r.ball.speed))
    ensures r.ball.speed.vy == g.ball.speed.vy
    ensures r.ball.speed.vx ==
      if Collide(g.ball.rect, g.leftBat) == Collide(g.ball.rect, g.rightBat) then g.ball.speed.vx else -g.ball.speed.vx
  {
    var hits := BatReflect(g.ball.speed, Collide(g.ball.rect, g.leftBat), Collide(g.ball.rect, g.rightBat));
    g.(ball := g.ball.(speed := hits))
  }

  /** `turn_npc_on_or_off`. */
  function ToggleNpc(g: GameState, keyUp: bool, keyDown: bool): GameState
  {
    g.(npcOn := NpcToggle(g.npcOn, keyUp, keyDown))
  }

  /** `if npc_on: moves_npc_player()`, with the left bat's new rectangle given. */
  function MoveNpc(g: GameState, left: Rect): GameState
  {
    if g.npcOn then g.(leftBat := left) else g
  }

  /** The pass from the quit check through the NPC move (lines 136-161). */
  function TickFront(g: GameState, inp: TickInput): GameState
  {
    var ready := ConsumeReset(ConsumeQuit(g, inp.quit));
    var physics := UpdateBall(MoveBall(ready));
    var bats := HitBats(MoveBats(physics, inp.leftBat, inp.rightBat));
    MoveNpc(ToggleNpc(bats, inp.npcKeyUp, inp.npcKeyDown), inp.npcLeftBat)
  }

  /** One complete pass, without the call of the missing `print_score`:
      the controller sees the state after the reset, reports go out after
      the NPC move, and epsilon decays last. */
  function NextTick(g: GameState, inp: TickInput): (r: (GameState, Feedback))
    ensures r.0.epsilon == Decay(g.epsilon) && r.1.epsilon == g.epsilon
    ensures r.0.running == (g.running && !inp.quit)
    ensures r.0.oldScore == g.oldScore
    ensures |r.1.decision| == 4 && |r.1.report| == 4
  {
    var decision := PrepareData(OutputData(ConsumeReset(ConsumeQuit(g, inp.quit))));
    var front := TickFront(g, inp);
    (front.(epsilon := Decay(front.epsilon)), Feedback(decision, g.epsilon, PrepareData(OutputData(front))))
  }

  /** `while self.running`: passes run while `running` holds and input
      remains; the trace lists each pass's feedback. */
  function Run(g: GameState, inputs: seq<TickInput>): (r: (GameState, seq<Feedback>))
    ensures |r.1| <= |inputs|
    ensures |r.1| < |inputs| ==> !r.0.running
    ensures r.0.epsilon == DecayTimes(g.epsilon, |r.1|)
    ensures r.0.oldScore == g.oldScore
    decreases |inputs|
  {
    if !g.running || |inputs| == 0 then (g, [])
    else
      var step := NextTick(g, inputs[0]);
      var rest := Run(step.0, inputs[1..]);
      (rest.0, [step.1] + rest.1)
  }

  // ---------------------------------------------------------------------
  // The loop as written: `print_score` is called but does not exist

  /** How the loop as written ends: normally, or with an exception after
      some pass has begun (the state and the vectors sent so far are kept). */
  datatype LoopEnd =
    | Finished(state: GameState)
    | Raised(state: GameState, sent: seq<seq<Value>>, error: string)

  const MissingPrintScore := "AttributeError: 'Game' object has no attribute 'print_score'"

  /** `game_loop` as written: the first pass reaches `self.print_score()`
      after the NPC move and raises, before the report to the controller and
      before `update_epsilon`. */
  function RunAsWritten(g: GameState, inputs: seq<TickInput>): (r: LoopEnd)
    ensures r.Finished? <==> !g.running || |inputs| == 0
    ensures r.Finished? ==> r.state == g
    ensures r.Raised? ==> r.error == MissingPrintScore && |r.sent| == 1 && r.state.epsilon == g.epsilon
  {
    if !g.running || |inputs| == 0 then Finished(g)
    else
      var decision := PrepareData(OutputData(ConsumeReset(ConsumeQuit(g, inputs[0].quit))));
      Raised(TickFront(g, inputs[0]), [decision], MissingPrintScore)
  }

  /** As written, the loop dies in its first pass with epsilon never
      decayed and no report sent; that pass otherwise agrees with the
      corrected pass. */
  lemma AsWrittenLoopRaisesInFirstPass(g: GameState, inputs: seq<TickInput>)
    requires g.running && |inputs| > 0
    ensures var end := RunAsWritten(g, inputs);
      && end.Raised? && end.error == MissingPrintScore
      && end.state.epsilon == g.epsilon
      && end.state == NextTick(g, inputs[0]).0.(epsilon := g.epsilon)
      && |end.sent| == 1 && end.sent[0] == NextTick(g, inputs[0]).1.decision
  {
  }

  // ---------------------------------------------------------------------
  // Properties of a pass and of the loop

  /** A pass keeps the ball 25 by 25 and inside the playfield, and adds at
      most one point in total, never taking one away. */
  lemma NextTickKeepsInvariants(g: GameState, inp: TickInput)
    requires Square(g.ball)
    ensures var g' := NextTick(g, inp).0;
      && Square(g'.ball) && InPlayfield(g'.ball.rect)
      && g.score.p1 <= g'.score.p1 && g.score.p2 <= g'.score.p2
      && (g'.score.p1 - g.score.p1) + (g'.score.p2 - g.score.p2) <= 1
  {
    var moved := MoveBall(ConsumeReset(ConsumeQuit(g, inp.quit)));
    assert Square(moved.ball);
    ResolveKeepsBallInPlayfield(moved.ball, moved.score);
    ResolveScoresAtMostOnce(moved.ball, moved.score);
    var physics := UpdateBall(moved);
    var g' := NextTick(g, inp).0;
    assert g'.ball.rect == physics.ball.rect && g'.score == physics.score;
  }

  /** A pending reset is consumed before the controller looks and before
      the ball moves: the vector shows the ball's corner at the middle, and
      the ball then moves from there by the default speed. */
  lemma ResetComesFirst(g: GameState, inp: TickInput)
    requires g.ball.reset
    ensures NextTick(g, inp).1.decision ==
      [Int(g.leftBat.y), Int(g.rightBat.y), Int(g.ball.xMiddle), Int(g.ball.yMiddle)]
    ensures var moved := MoveBall(ConsumeReset(ConsumeQuit(g, inp.quit)));
      && Left(moved.ball.rect) == g.ball.xMiddle + DefaultSpeed.vx
      && Top(moved.ball.rect) == g.ball.yMiddle + DefaultSpeed.vy
      && !moved.ball.reset
  {
    StateVectorIsPositions(ConsumeReset(ConsumeQuit(g, inp.quit)));
  }

  /** The ball's update runs before the bats are tested: the bat test sees
      the clamped ball and may only change vx. */
  lemma UpdateBeforeBatTest(g: GameState, inp: TickInput)
    ensures var physics := UpdateBall(MoveBall(ConsumeReset(ConsumeQuit(g, inp.quit))));
      var g' := NextTick(g, inp).0;
      && g'.ball.rect == physics.ball.rect
      && g'.score == physics.score
      && g'.ball.reset == physics.ball.reset
      && g'.ball.speed == BatReflect(physics.ball.speed,
                                     Collide(physics.ball.rect, inp.leftBat),
                                     Collide(physics.ball.rect, inp.rightBat))
  {
  }

  /** First pass of a right-wall exit: the ball's corner at (795, 300)
      moving (10, 0) goes to (805, 300), is clamped back to right edge 800,
      is stopped, p1 scores and a reset is pending. */
  lemma RightExitFirstPass(g: GameState, inp: TickInput)
    requires g.ball == BallState(Rect(795, 300, Size, Size), Speed(10, 0), false, XMiddleScreen, YMiddleScreen)
    requires g.score == Score(0, 0) && !inp.quit
    ensures var g1 := NextTick(g, inp).0;
      && g1.ball.rect == Rect(FieldWidth - Size, 300, Size, Size) && g1.ball.speed == Stopped
      && g1.ball.reset && g1.score == Score(1, 0) && g1.ball.xMiddle == XMiddleScreen
      && g1.ball.yMiddle == YMiddleScreen
  {
    var moved := MoveBall(ConsumeReset(ConsumeQuit(g, inp.quit)));
    assert moved.ball.rect == Rect(805, 300, Size, Size);
    RightExitScoresForP1(moved.ball, moved.score);
    UpdateBeforeBatTest(g, inp);
  }

  /** The pass after it: the controller sees the corner back at (400, 300),
      the ball moves on to (410, 308) at the default speed, and with the
      bats in their columns it touches neither. */
  lemma RightExitSecondPass(g1: GameState, inp: TickInput)
    requires g1.ball == BallState(Rect(FieldWidth - Size, 300, Size, Size), Stopped, true, XMiddleScreen, YMiddleScreen)
    requires inp.leftBat.x == 0 && inp.leftBat.w == BatWidth
    requires inp.rightBat.x == RightBatX && inp.rightBat.w == BatWidth
    ensures NextTick(g1, inp).1.decision[2..] == [Int(XMiddleScreen), Int(YMiddleScreen)]
    ensures NextTick(g1, inp).0.ball.rect == Rect(410, 308, Size, Size)
    ensures NextTick(g1, inp).0.ball.speed == DefaultSpeed
  {
    ResetComesFirst(g1, inp);
    var moved := MoveBall(ConsumeReset(ConsumeQuit(g1, inp.quit)));
    assert moved.ball.rect == Rect(410, 308, Size, Size);
    assert UpdateBall(moved).ball == moved.ball;
    UpdateBeforeBatTest(g1, inp);
  }

  /** One unfolding of the loop: a pass runs and the rest of the loop
      continues from the state it leaves. */
  lemma RunStep(g: GameState, inputs: seq<TickInput>)
    requires g.running && |inputs| > 0
    ensures var step := NextTick(g, inputs[0]);
      Run(g, inputs) == (Run(step.0, inputs[1..]).0, [step.1] + Run(step.0, inputs[1..]).1)
  {
  }

  /** Bookkeeping of the loop: if the run from the start is `trace`
      followed by the run from here, and the run from here is one more
      feedback followed by the run from the next state, then the run from
      the start is `trace` with that feedback appended, followed by the run
      from the next state. */
  lemma TraceAdvances<S, F>(total: (S, seq<F>), here: (S, seq<F>), trace: seq<F>, fb: F, next: (S, seq<F>))
    requires total == (here.0, trace + here.1)
    requires here == (next.0, [fb] + next.1)
    ensures total == (next.0, (trace + [fb]) + next.1)
  {
    assert trace + ([fb] + next.1) == (trace + [fb]) + next.1;
  }

  /** Every pass of the loop keeps the invariants, so after any number of
      passes the ball is 25 by 25, in the playfield once a pass has run, and
      the score has grown by at most one point per pass. */
  lemma {:induction false} RunKeepsInvariants(g: GameState, inputs: seq<TickInput>)
    requires Square(g.ball)
    ensures var r := Run(g, inputs);
      && |r.1| <= |inputs| && Square(r.0.ball)
      && (|r.1| > 0 ==> InPlayfield(r.0.ball.rect))
      && g.score.p1 <= r.0.score.p1 && g.score.p2 <= r.0.score.p2
      && (r.0.score.p1 - g.score.p1) + (r.0.score.p2 - g.score.p2) <= |r.1|
    decreases |inputs|
  {
    if g.running && |inputs| > 0 {
      NextTickKeepsInvariants(g, inputs[0]);
      RunKeepsInvariants(NextTick(g, inputs[0]).0, inputs[1..]);
    }
  }

  /** Without an Escape the loop never stops early: every input yields a
      pass and the game is still running at the end. */
  lemma {:induction false} RunWithoutEscapeUsesEveryInput(g: GameState, inputs: seq<TickInput>)
    requires g.running && forall k :: 0 <= k < |inputs| ==> !inputs[k].quit
    ensures |Run(g, inputs).1| == |inputs| && Run(g, inputs).0.running
    decreases |inputs|
  {
    if |inputs| > 0 {
      var next := NextTick(g, inputs[0]).0;
      RunWithoutEscapeUsesEveryInput(next, inputs[1..]);
    }
  }

  /** Initial state of `Game()`: ball corner at the screen middle, default
      speed, zero scores and snapshot, epsilon 1.0, NPC off, running. */
  function Initial(leftBat: Rect, rightBat: Rect): (r: GameState)
    ensures Square(r.ball) && InPlayfield(r.ball.rect) && !r.ball.reset
    ensures r.running && !r.npcOn && r.epsilon == EpsilonStart
    ensures r.score == Score(0, 0) && r.oldScore == r.score
  {
    GameState(BallState(Rect(XMiddleScreen, YMiddleScreen, Size, Size), DefaultSpeed, false, XMiddleScreen, YMiddleScreen),
              Score(0, 0), leftBat, rightBat, Score(0, 0), EpsilonStart, false, true)
  }

  /** From a new game and n inputs without Escape, epsilon ends at
      1.0 - 0.001 n, or at 0.1 once n >= 900. */
  lemma EpsilonAfterPasses(leftBat: Rect, rightBat: Rect, inputs: seq<TickInput>)
    requires forall k :: 0 <= k < |inputs| ==> !inputs[k].quit
    ensures Run(Initial(leftBat, rightBat), inputs).0.epsilon ==
      if |inputs| <= 900 then EpsilonStart - |inputs| else EpsilonFloor
  {
    RunWithoutEscapeUsesEveryInput(Initial(leftBat, rightBat), inputs);
    EpsilonSchedule(|inputs|);
  }

  // ---------------------------------------------------------------------
  // The game object

  class Game {
    const ball: Ball
    const score: Scoreboard
    var leftBat: Rect
    var rightBat: Rect
    var oldScore: Score
    var epsilon: int
    var npcOn: bool
    var running: bool

    ghost predicate Valid()
      reads this, ball
    {
      ball.Valid()
    }

    function State(): GameState
      reads this, ball, score
    {
      GameState(ball.State(), score.Value(), leftBat, rightBat, oldScore, epsilon, npcOn, running)
    }

    /** `Game()`: the bats' rectangles come from `ping/bat.py`, which is not
        part of this model, so they are given. */
    constructor (leftBat: Rect, rightBat: Rect)
      ensures Valid() && fresh(ball) && fresh(score)
      ensures State() == Initial(leftBat, rightBat)
    {
      var b := new Ball(YMiddleScreen, XMiddleScreen);
      b.rect := b.rect.(y := YMiddleScreen);
      b.rect := b.rect.(x := XMiddleScreen);
      ball := b;
      this.leftBat := leftBat;
      this.rightBat := rightBat;
      epsilon := EpsilonStart;
      oldScore := Score(0, 0);
      score := new Scoreboard();
      npcOn := false;
      running := true;
    }

    /** `check_bat_move`: the bats' new rectangles are given. */
    method CheckBatMove(left: Rect, right: Rect)
      modifies this`leftBat, this`rightBat
      ensures State() == MoveBats(old(State()), left, right)
    {
      leftBat, rightBat := left, right;
    }

    method CheckBallHitsBat()
      modifies ball`speed
      ensures State() == HitBats(old(State()))
    {
      if Collide(ball.rect, leftBat) {
        ball.ReverseHorizontalDirection();
      }
      if Collide(ball.rect, rightBat) {
        ball.ReverseHorizontalDirection();
      }
    }

    /** `moves_npc_player`: the left bat's new rectangle is given. */
    method MovesNpcPlayer(left: Rect)
      modifies this`leftBat
      ensures leftBat == left
    {
      leftBat := left;
    }

    method TurnNpcOnOrOff(keyUp: bool, keyDown: bool)
      modifies this`npcOn
      ensures npcOn == NpcToggle(old(npcOn), keyUp, keyDown)
    {
      if keyUp {
        npcOn := true;
      }
      if keyDown {
        npcOn := false;
      }
    }

    method UpdateEpsilon()
      modifies this`epsilon
      ensures epsilon == Decay(old(epsilon))
    {
      if epsilon > EpsilonFloor {
        epsilon := epsilon - 1;
      }
    }

    method GetReward() returns (reward: int)
      modifies this`oldScore
      ensures (reward, oldScore) == Reward(score.Value(), old(oldScore))
    {
      if score.p1 - oldScore.p1 > 0 {
        reward := PenaltyReward;
        oldScore := score.Value();
      } else if score.p2 - oldScore.p2 > 0 {
        reward := GainReward;
        oldScore := score.Value();
      } else {
        reward := 0;
      }
    }

    /** Lines 137-144 of a pass: the Escape check and the pending reset. */
    method ConsumeEvents(quit: bool)
      requires Valid()
      modifies this`running, ball`rect, ball`speed, ball`reset
      ensures Valid()
      ensures State() == ConsumeReset(ConsumeQuit(old(State()), quit))
    {
      if quit {
        running := false;
      }
      if ball.reset {
        ball.ResetBall();
      }
    }

    /** Lines 148-149 of a pass: the ball moves by its speed and is then
        checked against the walls. */
    method MoveAndUpdateBall()
      requires Valid()
      modifies ball, score
      ensures Valid()
      ensures State() == UpdateBall(MoveBall(old(State())))
    {
      ball.rect := Moved(ball.rect, ball.speed.vx, ball.speed.vy);
      ghost var moved := State();
      assert moved == MoveBall(old(State()));
      ball.Update(score);
    }

    /** Lines 156-161 of a pass: bats, bat collision and the NPC. */
    method MoveBatsAndNpc(inp: TickInput)
      modifies this`leftBat, this`rightBat, this`npcOn, ball`speed
      ensures State() == MoveNpc(ToggleNpc(HitBats(MoveBats(old(State()), inp.leftBat, inp.rightBat)),
                                           inp.npcKeyUp, inp.npcKeyDown), inp.npcLeftBat)
    {
      CheckBatMove(inp.leftBat, inp.rightBat);
      CheckBallHitsBat();
      TurnNpcOnOrOff(inp.npcKeyUp, inp.npcKeyDown);
      if npcOn {
        MovesNpcPlayer(inp.npcLeftBat);
      }
    }

    /** One pass of `game_loop`, with the call of the missing
        `print_score` left out. */
    method Tick(inp: TickInput) returns (fb: Feedback)
      requires Valid()
      modifies this, ball, score
      ensures Valid()
      ensures (State(), fb) == NextTick(old(State()), inp)
    {
      ConsumeEvents(inp.quit);
      var decision := PrepareData(OutputData(State()));
      var sentEpsilon := epsilon;
      MoveAndUpdateBall();
      MoveBatsAndNpc(inp);
      var report := PrepareData(OutputData(State()));
      UpdateEpsilon();
      fb := Feedback(decision, sentEpsilon, report);
    }

    /** `game_loop` over the given inputs: a pass runs while `running`
        holds and input remains. */
    method GameLoop(inputs: seq<TickInput>) returns (trace: seq<Feedback>)
      requires Valid()
      modifies this, ball, score
      ensures Valid()
      ensures (State(), trace) == Run(old(State()), inputs)
    {
      var i := 0;
      trace := [];
      assert inputs[i..] == inputs;
      assert trace + Run(State(), inputs).1 == Run(State(), inputs).1;
      while running && i < |inputs|
        invariant 0 <= i <= |inputs|
        invariant Valid()
        invariant Run(old(State()), inputs) == (Run(State(), inputs[i..]).0, trace + Run(State(), inputs[i..]).1)
        decreases |inputs| - i
      {
        ghost var before := State();
        var fb := Tick(inputs[i]);
        RunStep(before, inputs[i..]);
        assert inputs[i..][1..] == inputs[i + 1..];
        TraceAdvances(Run(old(State()), inputs), Run(before, inputs[i..]), trace, fb, Run(State(), inputs[i + 1..]));
        trace := trace + [fb];
        i := i + 1;
      }
      assert Run(State(), inputs[i..]) == (State(), []);
      assert trace + [] == trace;
    }
  }
}
