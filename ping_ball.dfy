/** The ball of ping/ball.py: a 25 by 25 rectangle with a speed pair and a
    pending-reset flag. `Resolve` is the pure specification of `Ball.update`
    (the four edge checks, in the source's order); the class `Ball` is the
    object the game mutates, and each of its methods is proved against the
    pure functions here. */
module PingBall {
  import opened Geometry

  /** Side of the ball's square surface. */
  const Size := 25
  /** The playfield bounds hard-coded in `update`. */
  const FieldWidth := 800
  const FieldHeight := 600

  /** The ball's `speed` tuple: horizontal then vertical step per tick. */
  datatype Speed = Speed(vx: int, vy: int)

  /** The defaults of `set_ball_speed`. */
  const DefaultSpeed := Speed(10, 8)
  const Stopped := Speed(0, 0)

  /** The game's score dictionary {"p1": .., "p2": ..} as a value. */
  datatype Score = Score(p1: int, p2: int)

  /** Everything `update` and the helpers read or write, as a value. */
  datatype BallState = BallState(rect: Rect, speed: Speed, reset: bool, xMiddle: int, yMiddle: int)

  predicate InPlayfield(r: Rect)
  {
    0 <= Left(r) && Right(r) <= FieldWidth && 0 <= Top(r) && Bottom(r) <= FieldHeight
  }

  predicate Square(b: BallState)
  {
    b.rect.w == Size && b.rect.h == Size
  }

  function FlipHorizontal(s: Speed): Speed { Speed(-s.vx, s.vy) }
  function FlipVertical(s: Speed): Speed { Speed(s.vx, -s.vy) }

  /** Each reversal touches one component and undoes itself. */
  lemma FlipsAreInvolutions(s: Speed)
    ensures FlipHorizontal(s).vy == s.vy && FlipHorizontal(FlipHorizontal(s)) == s
    ensures FlipVertical(s).vx == s.vx && FlipVertical(FlipVertical(s)) == s
    ensures FlipHorizontal(FlipVertical(s)) == FlipVertical(FlipHorizontal(s))
  {
  }

  /** `reset_ball`: default speed, top-left corner at the stored middle, flag cleared. */
  function Recentred(b: BallState): (r: BallState)
    ensures Left(r.rect) == b.xMiddle && Top(r.rect) == b.yMiddle
    ensures r.rect.w == b.rect.w && r.rect.h == b.rect.h
    ensures r.speed == DefaultSpeed && !r.reset
    ensures r.xMiddle == b.xMiddle && r.yMiddle == b.yMiddle
  {
    b.(rect := b.rect.(x := b.xMiddle, y := b.yMiddle), speed := DefaultSpeed, reset := false)
  }

  /** `reset_ball` puts the corner, not the centre, at the middle point;
      a second reset changes nothing. */
  lemma RecentredPlacesCorner(b: BallState)
    requires Square(b)
    ensures var r := Recentred(b);
      && Left(r.rect) == b.xMiddle && Top(r.rect) == b.yMiddle
      && Square(r) && r.speed == DefaultSpeed && !r.reset
      && (Left(r.rect) + Right(r.rect)) / 2 == b.xMiddle + Size / 2
      && (Top(r.rect) + Bottom(r.rect)) / 2 == b.yMiddle + Size / 2
      && Recentred(r) == r
  {
  }

  // The four checks of `update`, one function per `if` block.

  function LeftEdge(b: BallState, s: Score): (BallState, Score)
  {
    if Left(b.rect) < 0 then
      (b.(rect := SetLeft(b.rect, 0), speed := Stopped, reset := true), s.(p2 := s.p2 + 1))
    else (b, s)
  }

  function RightEdge(b: BallState, s: Score): (BallState, Score)
  {
    if Right(b.rect) > FieldWidth then
      (b.(rect := SetRight(b.rect, FieldWidth), speed := Stopped, reset := true), s.(p1 := s.p1 + 1))
    else (b, s)
  }

  function TopEdge(b: BallState): BallState
  {
    if Top(b.rect) <= 0 then b.(rect := SetTop(b.rect, 0), speed := FlipVertical(b.speed)) else b
  }

  function BottomEdge(b: BallState): BallState
  {
    if Bottom(b.rect) >= FieldHeight then
      b.(rect := SetBottom(b.rect, FieldHeight), speed := FlipVertical(b.speed))
    else b
  }

  /** The two horizontal checks of `update`: left, then right. */
  function HorizontalChecks(b: BallState, s: Score): (BallState, Score)
  {
    var afterLeft := LeftEdge(b, s);
    RightEdge(afterLeft.0, afterLeft.1)
  }

  /** The two vertical checks of `update`: top, then bottom. */
  function VerticalChecks(b: BallState): BallState
  {
    BottomEdge(TopEdge(b))
  }

  /** `update(score)`: the left, right, top and bottom checks in that order,
      each applied to the result of the previous one. Each score entry grows
      by at most one, and the ball keeps its size and its middle point. */
  function Resolve(b: BallState, s: Score): (r: (BallState, Score))
    ensures s.p1 <= r.1.p1 <= s.p1 + 1 && s.p2 <= r.1.p2 <= s.p2 + 1
    ensures r.0.rect.w == b.rect.w && r.0.rect.h == b.rect.h
    ensures r.0.xMiddle == b.xMiddle && r.0.yMiddle == b.yMiddle
  {
    var horizontal := HorizontalChecks(b, s);
    (VerticalChecks(horizontal.0), horizontal.1)
  }

  /** What the horizontal checks do to a 25 by 25 ball: at most one of
      them fires, since after a left clamp the right edge is at 25. */
  lemma HorizontalOutcome(b: BallState, s: Score)
    requires Square(b)
    ensures var r := HorizontalChecks(b, s); var b', s' := r.0, r.1;
      && Square(b') && Top(b'.rect) == Top(b.rect)
      && b'.xMiddle == b.xMiddle && b'.yMiddle == b.yMiddle
      && 0 <= Left(b'.rect) && Right(b'.rect) <= FieldWidth
      && s' == Score(s.p1 + (if Right(b.rect) > FieldWidth then 1 else 0),
                     s.p2 + (if Left(b.rect) < 0 then 1 else 0))
      && (Left(b.rect) < 0 ==> Left(b'.rect) == 0 && b'.speed == Stopped && b'.reset)
      && (Right(b.rect) > FieldWidth ==> Right(b'.rect) == FieldWidth && b'.speed == Stopped && b'.reset)
      && (0 <= Left(b.rect) && Right(b.rect) <= FieldWidth ==> b' == b)
  {
    var afterLeft := LeftEdge(b, s);
    if Left(b.rect) < 0 {
      assert Right(afterLeft.0.rect) == Size;
      assert RightEdge(afterLeft.0, afterLeft.1) == afterLeft;
    } else {
      assert afterLeft == (b, s);
    }
  }

  /** What the vertical checks do to a 25 by 25 ball: they clamp it into
      0..600, negate vy once per wall they fire for, and leave vx, the
      horizontal position and the reset flag alone. */
  lemma VerticalOutcome(b: BallState)
    requires Square(b)
    ensures var b' := VerticalChecks(b);
      && Square(b') && Left(b'.rect) == Left(b.rect)
      && b'.xMiddle == b.xMiddle && b'.yMiddle == b.yMiddle
      && 0 <= Top(b'.rect) && Bottom(b'.rect) <= FieldHeight
      && b'.reset == b.reset && b'.speed.vx == b.speed.vx
      && (Top(b.rect) <= 0 ==> Top(b'.rect) == 0 && b'.speed == FlipVertical(b.speed))
      && (Bottom(b.rect) >= FieldHeight ==> Bottom(b'.rect) == FieldHeight && b'.speed == FlipVertical(b.speed))
      && (0 < Top(b.rect) && Bottom(b.rect) < FieldHeight ==> b' == b)
      && (b.speed == Stopped ==> b'.speed == Stopped)
  {
    var b1 := TopEdge(b);
    if Top(b.rect) <= 0 {
      assert Bottom(b1.rect) == Size;
      assert BottomEdge(b1) == b1;
    } else {
      assert b1 == b;
    }
  }

  /** The horizontal checks leave a 25 by 25 ball within 0..800 across. */
  lemma HorizontalChecksClamp(b: BallState, s: Score)
    requires Square(b)
    ensures var h := HorizontalChecks(b, s).0;
      Square(h) && 0 <= Left(h.rect) && Right(h.rect) <= FieldWidth
  {
    var afterLeft := LeftEdge(b, s);
    if Left(b.rect) < 0 {
      assert Right(afterLeft.0.rect) == Size;
    }
  }

  /** The vertical checks leave a 25 by 25 ball within 0..600 down and do
      not move it across. */
  lemma VerticalChecksClamp(b: BallState)
    requires Square(b)
    ensures var v := VerticalChecks(b);
      Square(v) && Left(v.rect) == Left(b.rect) && 0 <= Top(v.rect) && Bottom(v.rect) <= FieldHeight
  {
    if Top(b.rect) <= 0 {
      assert Bottom(TopEdge(b).rect) == Size;
    }
  }

  /** After `update` the 25 by 25 ball lies inside 0..800 by 0..600. */
  lemma ResolveKeepsBallInPlayfield(b: BallState, s: Score)
    requires Square(b)
    ensures InPlayfield(Resolve(b, s).0.rect)
  {
    var h := HorizontalChecks(b, s).0;
    HorizontalChecksClamp(b, s);
    VerticalChecksClamp(h);
    assert Resolve(b, s).0 == VerticalChecks(h);
  }

  /** The score changes only through the horizontal edges: p2 gains one
      exactly when the left edge was crossed, p1 exactly when the right edge
      was, and the two never happen together. */
  lemma ResolveScoresOnlyOnHorizontalExit(b: BallState, s: Score)
    requires Square(b)
    ensures Resolve(b, s).1 == Score(s.p1 + (if Right(b.rect) > FieldWidth then 1 else 0),
                                     s.p2 + (if Left(b.rect) < 0 then 1 else 0))
    ensures !(Left(b.rect) < 0 && Right(b.rect) > FieldWidth)
  {
    HorizontalOutcome(b, s);
  }

  /** Left exit: clamped at 0, stopped, p2 scores, p1 unchanged, reset pending. */
  lemma LeftExitScoresForP2(b: BallState, s: Score)
    requires Square(b) && Left(b.rect) < 0
    ensures var r := Resolve(b, s); var b', s' := r.0, r.1;
      && Left(b'.rect) == 0 && b'.speed == Stopped && b'.reset
      && s'.p2 == s.p2 + 1 && s'.p1 == s.p1
  {
    HorizontalOutcome(b, s);
    VerticalOutcome(HorizontalChecks(b, s).0);
  }

  /** Right exit: clamped at 800, stopped, p1 scores, p2 unchanged, reset pending. */
  lemma RightExitScoresForP1(b: BallState, s: Score)
    requires Square(b) && Right(b.rect) > FieldWidth
    ensures var r := Resolve(b, s); var b', s' := r.0, r.1;
      && Right(b'.rect) == FieldWidth && b'.speed == Stopped && b'.reset
      && s'.p1 == s.p1 + 1 && s'.p2 == s.p2
  {
    HorizontalOutcome(b, s);
    VerticalOutcome(HorizontalChecks(b, s).0);
  }

  /** At most one entry changes, by one; a scoring update always ends
      stopped with a reset pending, even when a vertical bounce fires in the
      same call; without a horizontal exit the score, the flag and vx are
      left alone. */
  lemma ResolveScoresAtMostOnce(b: BallState, s: Score)
    requires Square(b)
    ensures var r := Resolve(b, s); var b', s' := r.0, r.1;
      && (s'.p1 - s.p1) + (s'.p2 - s.p2) <= 1
      && (s' != s ==> b'.speed == Stopped && b'.reset)
      && (0 <= Left(b.rect) && Right(b.rect) <= FieldWidth ==>
            s' == s && b'.reset == b.reset && b'.speed.vx == b.speed.vx)
  {
    HorizontalOutcome(b, s);
    VerticalOutcome(HorizontalChecks(b, s).0);
  }

  /** Top check: clamps the top edge at 0 and negates vy whatever its sign;
      the score is not touched. */
  lemma TopEdgeBounces(b: BallState, s: Score)
    requires Square(b) && Top(b.rect) <= 0
    requires 0 <= Left(b.rect) && Right(b.rect) <= FieldWidth
    ensures var r := Resolve(b, s); var b', s' := r.0, r.1;
      && Top(b'.rect) == 0 && Left(b'.rect) == Left(b.rect)
      && b'.speed == FlipVertical(b.speed) && s' == s
  {
    HorizontalOutcome(b, s);
    VerticalOutcome(b);
  }

  /** Bottom check: clamps the bottom edge at 600 and negates vy. */
  lemma BottomEdgeBounces(b: BallState, s: Score)
    requires Square(b) && Bottom(b.rect) >= FieldHeight
    requires 0 <= Left(b.rect) && Right(b.rect) <= FieldWidth
    ensures var r := Resolve(b, s); var b', s' := r.0, r.1;
      && Bottom(b'.rect) == FieldHeight && Left(b'.rect) == Left(b.rect)
      && b'.speed == FlipVertical(b.speed) && s' == s
  {
    HorizontalOutcome(b, s);
    VerticalOutcome(b);
  }

  /** `update` is not idempotent at the top wall: a ball resting at top 0
      has vy negated on every call, so a second call gives vy back. */
  lemma TopBounceNotIdempotent(b: BallState, s: Score)
    requires Square(b) && Top(b.rect) == 0 && b.speed.vy > 0
    requires 0 <= Left(b.rect) && Right(b.rect) <= FieldWidth
    ensures var r := Resolve(b, s); var b1, s1 := r.0, r.1;
      && b1.rect == b.rect && b1.speed.vy < 0
      && Resolve(b1, s1).0.speed == b.speed
  {
    TopEdgeBounces(b, s);
    var r := Resolve(b, s);
    TopEdgeBounces(r.0, r.1);
  }

  /** The score dictionary that `update` increments in place. */
  class Scoreboard {
    var p1: int
    var p2: int

    constructor ()
      ensures p1 == 0 && p2 == 0
    {
      p1, p2 := 0, 0;
    }

    function Value(): Score
      reads this
    {
      Score(p1, p2)
    }
  }

  class Ball {
    var rect: Rect
    var speed: Speed
    const yMiddle: int
    const xMiddle: int
    var reset: bool

    /** The surface, and so the rectangle, is 25 by 25 for the ball's lifetime. */
    ghost predicate Valid()
      reads this
    {
      rect.w == Size && rect.h == Size
    }

    function State(): BallState
      reads this
    {
      BallState(rect, speed, reset, xMiddle, yMiddle)
    }

    /** `Ball(y_middle, x_middle)`: the rectangle of a fresh 25 by 25 surface
        sits at the origin; the speed is set to its defaults. */
    constructor (yMiddle: int, xMiddle: int)
      ensures Valid()
      ensures rect == Rect(0, 0, Size, Size) && speed == DefaultSpeed && !reset
      ensures this.yMiddle == yMiddle && this.xMiddle == xMiddle
    {
      rect := Rect(0, 0, Size, Size);
      speed := Stopped;
      this.yMiddle := yMiddle;
      this.xMiddle := xMiddle;
      reset := false;
      new;
      SetBallSpeed();
    }

    /** `update(score)`. Its four `if` blocks are split over the two
        methods below, one per axis, so that each half is proved on its own. */
    method Update(score: Scoreboard)
      requires Valid()
      modifies this, score
      ensures Valid()
      ensures (State(), score.Value()) == Resolve(old(State()), old(score.Value()))
      ensures InPlayfield(rect)
    {
      ghost var b0, s0 := State(), score.Value();
      CheckHorizontalEdges(score);
      CheckVerticalEdges();
      ResolveKeepsBallInPlayfield(b0, s0);
    }

    /** The left and right blocks of `update`. */
    method CheckHorizontalEdges(score: Scoreboard)
      modifies this`rect, this`speed, this`reset, score
      ensures (State(), score.Value()) == HorizontalChecks(old(State()), old(score.Value()))
    {
      if Left(rect) < 0 {
        rect := SetLeft(rect, 0);
        StopBall();
        score.p2 := score.p2 + 1;
        reset := true;
      }
      if Right(rect) > FieldWidth {
        rect := SetRight(rect, FieldWidth);
        StopBall();
        score.p1 := score.p1 + 1;
        reset := true;
      }
    }

    /** The top and bottom blocks of `update`. */
    method CheckVerticalEdges()
      modifies this`rect, this`speed
      ensures State() == VerticalChecks(old(State()))
    {
      if Top(rect) <= 0 {
        rect := SetTop(rect, 0);
        ReverseVerticalDirection();
      }
      if Bottom(rect) >= FieldHeight {
        rect := SetBottom(rect, FieldHeight);
        ReverseVerticalDirection();
      }
    }

    method ReverseVerticalDirection()
      modifies this`speed
      ensures speed == FlipVertical(old(speed))
    {
      speed := Speed(speed.vx, speed.vy * -1);
    }

    method ReverseHorizontalDirection()
      modifies this`speed
      ensures speed == FlipHorizontal(old(speed))
    {
      speed := Speed(speed.vx * -1, speed.vy);
    }

    method StopBall()
      modifies this`speed
      ensures speed == Stopped
    {
      SetBallSpeed(0, 0);
    }

    method SetBallSpeed(xSpeed: int := 10, ySpeed: int := 8)
      modifies this`speed
      ensures speed == Speed(xSpeed, ySpeed)
    {
      speed := Speed(xSpeed, ySpeed);
    }

    method ResetBall()
      modifies this`speed, this`rect, this`reset
      ensures State() == Recentred(old(State()))
    {
      SetBallSpeed(10, 8);
      rect := rect.(y := yMiddle);
      rect := rect.(x := xMiddle);
      reset := false;
    }
  }
}
