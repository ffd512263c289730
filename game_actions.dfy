/**
 * The per-throw logic of the capture minigame (`createGameActions`).
 *
 * The ball's two flags live in a `Ball` object that the actions update in
 * place. Every request the actions make to the page (an animation, a class
 * toggle, a call of the capture-success callback) is appended to an effect
 * log, and every completion callback or timer handed out is kept in a list
 * of pending continuations. Any pending continuation may fire at any time,
 * in any order: the source keeps no round counter, so a continuation that
 * fires after a reset still runs.
 */
module GameActions {
  import opened Js
  import opened GameUtils

  /** An element found under the ball by the collision lookup. */
  datatype Element = Element(id: nat)

  /** A request to the page or to the rendering collaborator. */
  datatype Effect =
    | MoveBallPointer(at: Point)
    | RestoreBall
    | ColisionTransform(element: Element)
    | ColisionParticles(element: Element)
    | RemoveAnimation(selector: string)
    | ThrowEffect1(translateX: real, movementY: real, scalePercent: real)
    | ThrowEffect2(movementY: real, translateX: real, scalePercent: real)
    | SaveBallPosition
    | PauseTargetMotion
    | MoveAside(radius: real, orientation: int)
    | BallImage(isOpen: bool)
    | EmitParticlesToBall(source: Option<Point>)
    | FadeTarget
    | ClearContainer(name: string)
    | DropBall
    | ResetBall
    | ResetState
    | ToggleClass(container: string, cls: string)
    | Shake(selector: string, duration: int)
    | RainConfetti
    | CaptureSuccess
    | Poof
    | ClearPoofTransform

  /** A completion callback or timer that has been handed out and has not fired yet. */
  datatype Continuation =
    | AfterThrow1(movementY: real, translateX: real, scalePercent: real)  // throwEffect1's callback
    | AfterThrow2                                                         // determineThrowResult
    | ResetTimer                                                          // setTimeout(state.resetState, 400)
    | AfterMoveAside                                                      // moveElementAsideEffect's callback
    | ClosingTimer                                                        // setTimeout(closingCaptureBall, 1000)
    | AfterDrop                                                           // dropElementEffect's callback
    | OutcomeTimer(seed: int, successRate: real)                          // the shake timer of animateCaptureState
    | AfterConfetti                                                       // rainConfettiEffect's callback
    | AfterPoof                                                           // hideEscapeAnimation

  /**
   * What a continuation observes when it fires: the measured centres (absent
   * when an element cannot be measured), the target's radius and whether it
   * has a running motion, the width of the active ring and the value of
   * `Math.random()`.
   */
  datatype Readings = Readings(
    ballCenter: Option<Point>,
    targetCenter: Option<Point>,
    radius: real,
    targetMotion: bool,
    ringWidth: real,
    draw: real)

  /** What firing one continuation does: effects in order, at most one successor, and whether the ball is reset. */
  datatype Transition = Transition(effects: seq<Effect>, next: Option<Continuation>, resetsBall: bool)

  /** Duration of the shake effect in animateCaptureState, in milliseconds. */
  const ShakeDuration := 500

  function Abs(x: real): real { if x < 0.0 then -x else x }

  // ---------------------------------------------------------------------
  // Throw parameters

  /** The largest effective throw velocity for a screen of the given height. */
  function MaxVelocity(screenHeight: real): (v: real)
    ensures 0.0 <= screenHeight ==> 0.0 <= v <= screenHeight / 100.0
    ensures screenHeight < 0.0 ==> v < 0.0
  {
    screenHeight * 0.009
  }

  /** The gesture velocity with its sign dropped and capped at `maxVelocity`. */
  function ClampVelocity(velocity: real, maxVelocity: real): (v: real)
    ensures v <= Abs(velocity) && v <= maxVelocity
    ensures v == Abs(velocity) || v == maxVelocity
    ensures 0.0 <= maxVelocity ==> 0.0 <= v
  {
    if Abs(velocity) > maxVelocity then maxVelocity else Abs(velocity)
  }

  /** The vertical travel of the throw: up the screen, by at most three quarters of its height. */
  function TranslateY(screenHeight: real, scalePercent: real): (ty: real)
    ensures 0.0 <= screenHeight && 0.0 <= scalePercent <= 1.0 ==> -0.75 * screenHeight <= ty <= 0.0
    ensures scalePercent == 0.0 || screenHeight == 0.0 ==> ty == 0.0
  {
    ScaledRange(0.75 * screenHeight, scalePercent);
    -0.75 * screenHeight * scalePercent
  }

  lemma ScaledRange(h: real, s: real)
    ensures 0.0 <= h && 0.0 <= s <= 1.0 ==> 0.0 <= h * s <= h
  {
    if 0.0 <= h && 0.0 <= s <= 1.0 {
      assert h - h * s == h * (1.0 - s);
    }
  }

  /**
   * The horizontal drift of the throw. Hammer reports a straight-up swipe as
   * -90 degrees: that throw does not drift, and the drift changes sign as the
   * angle crosses -90.
   */
  function TranslateX(angle: real, translateY: real): (tx: real)
    ensures angle == -90.0 ==> tx == 0.0
    ensures translateY != 0.0 && angle != -90.0 ==> tx != 0.0
    ensures translateY != 0.0 && angle != -90.0 ==> (0.0 < tx <==> (angle > -90.0 <==> translateY < 0.0))
  {
    SignOfProduct(-(angle + 90.0), translateY / 100.0);
    -1.0 * (angle + 90.0) * (translateY / 100.0)
  }

  lemma SignOfProduct(a: real, b: real)
    ensures a != 0.0 && b != 0.0 ==> a * b != 0.0
    ensures a != 0.0 && b != 0.0 ==> (0.0 < a * b <==> (0.0 < a <==> 0.0 < b))
  {
    if a != 0.0 && b != 0.0 {
      if 0.0 < a && 0.0 < b { assert 0.0 < a * b; }
      if a < 0.0 && b < 0.0 { assert 0.0 < (-a) * (-b); }
      if 0.0 < a && b < 0.0 { assert 0.0 < a * (-b); }
      if a < 0.0 && 0.0 < b { assert 0.0 < (-a) * b; }
    }
  }

  // ---------------------------------------------------------------------
  // Hit test, orientation and the capture roll

  /** The ball's centre lies strictly inside the square of half-side `radius` around the target's centre. */
  function IsHit(ball: Point, target: Point, radius: real): (hit: bool)
    ensures hit <==> Abs(ball.x - target.x) < radius && Abs(ball.y - target.y) < radius
    ensures ball == target ==> (hit <==> 0.0 < radius)
    ensures ball.x == target.x + radius || ball.x == target.x - radius ==> !hit
    ensures ball.y == target.y + radius || ball.y == target.y - radius ==> !hit
  {
    ball.x > target.x - radius && ball.x < target.x + radius &&
    ball.y > target.y - radius && ball.y < target.y + radius
  }

  /** The side the ball is moved aside to: -1 (left) when it is left of the target's centre, else 1. */
  function Orientation(ball: Point, target: Point): (o: int)
    ensures o == -1 || o == 1
    ensures o == -1 <==> ball.x < target.x
  {
    if ball.x < target.x then -1 else 1
  }

  /** The success rate, in percent, for the width of the active ring: 100 for no ring, 0 for a full one. */
  function SuccessRate(ringWidth: real): (rate: real)
    ensures ringWidth == 0.0 ==> rate == 100.0
    ensures ringWidth == 150.0 ==> rate == 0.0
    ensures 0.0 <= ringWidth <= 150.0 ==> 0.0 <= rate <= 100.0
  {
    ((150.0 - ringWidth) / 150.0) * 100.0
  }

  /** A smaller ring never lowers the success rate. */
  lemma SuccessRateAntitone(w1: real, w2: real)
    requires w1 <= w2
    ensures SuccessRate(w2) <= SuccessRate(w1)
  {
  }

  /** The roll of animateCaptureState: success iff the seed is below the floor of the rate. */
  function RollSucceeds(seed: int, successRate: real): (ok: bool)
    ensures ok <==> (seed + 1) as real <= successRate
    ensures ok ==> (seed as real) < successRate
    ensures (seed + 1) as real <= successRate ==> ok
    ensures successRate <= 0.0 && 0 <= seed ==> !ok
  {
    seed < successRate.Floor
  }

  /** The capture decision for a seed and a ring width. */
  function CaptureSucceeds(seed: int, ringWidth: real): (ok: bool)
    ensures ringWidth == 0.0 && seed < 100 ==> ok
    ensures ringWidth >= 150.0 && seed >= 0 ==> !ok
    ensures 0 <= seed < 100 && ringWidth <= 0.0 ==> ok
  {
    var rate := SuccessRate(ringWidth);
    assert ringWidth >= 150.0 ==> rate <= 0.0;
    assert ringWidth <= 0.0 ==> rate >= 100.0;
    RollSucceeds(seed, rate)
  }

  /** How many of the seeds 0, 1, ..., n-1 pass the roll. */
  function PassingSeeds(n: nat, successRate: real): nat {
    if n == 0 then 0
    else PassingSeeds(n - 1, successRate) + (if RollSucceeds(n - 1, successRate) then 1 else 0)
  }

  /**
   * Of the seeds 0..n-1, exactly floor(successRate) pass (clipped to [0, n]):
   * with the seed drawn uniformly from 0..99, the chance of success is
   * floor(successRate) percent.
   */
  lemma {:induction false} PassingSeedsCount(n: nat, successRate: real)
    ensures PassingSeeds(n, successRate) == Min(Max(successRate.Floor, 0), n)
  {
    if n > 0 {
      PassingSeedsCount(n - 1, successRate);
    }
  }

  // ---------------------------------------------------------------------
  // The continuation chain

  /** Position of a continuation in the chain; every step strictly lowers it. */
  function Rank(k: Continuation): nat {
    match k
    case AfterThrow1(_, _, _) => 7
    case AfterThrow2 => 6
    case AfterMoveAside => 5
    case ClosingTimer => 4
    case AfterDrop => 3
    case OutcomeTimer(_, _) => 2
    case _ => 1
  }

  /** The effects of a detected collision with `e`. */
  function CollisionEffects(e: Element): seq<Effect> {
    [ColisionTransform(e), ColisionParticles(e), RestoreBall]
  }

  /** determineThrowResult: the hit test against the target once the second throw stage completes. */
  function DetermineThrowResult(m: Readings): (t: Transition)
    ensures m.ballCenter.None? || m.targetCenter.None? ==> t == Transition([], None, false)
    ensures m.ballCenter.Some? && m.targetCenter.Some? ==>
      t.next == Some(if IsHit(m.ballCenter.value, m.targetCenter.value, m.radius) then AfterMoveAside else ResetTimer)
    ensures PauseTargetMotion in t.effects <==>
      m.ballCenter.Some? && m.targetCenter.Some? && IsHit(m.ballCenter.value, m.targetCenter.value, m.radius) && m.targetMotion
    ensures m.ballCenter.Some? && m.targetCenter.Some? ==>
      var (b, tc) := (m.ballCenter.value, m.targetCenter.value);
      t.effects == if IsHit(b, tc, m.radius)
                   then (if m.targetMotion then [PauseTargetMotion] else []) + [SaveBallPosition, MoveAside(m.radius, Orientation(b, tc))]
                   else []
    ensures !t.resetsBall
  {
    match (m.ballCenter, m.targetCenter)
    case (Some(ball), Some(target)) =>
      if IsHit(ball, target, m.radius) then
        Transition((if m.targetMotion then [PauseTargetMotion] else [])
                     + [SaveBallPosition, MoveAside(m.radius, Orientation(ball, target))],
                   Some(AfterMoveAside), false)
      else
        Transition([], Some(ResetTimer), false)
    case _ =>
      // reading `.x` of an undefined centre throws: the chain stops here
      Transition([], None, false)
  }

  /** animateCaptureState: shows the capture screen, shakes the ball and draws the seed. */
  function AnimateCaptureState(m: Readings): (t: Transition)
    ensures t.next == Some(OutcomeTimer(RandomNumber(0, 100, m.draw), SuccessRate(m.ringWidth)))
    ensures 0.0 <= m.draw < 1.0 ==> 0 <= t.next.value.seed < 100
    ensures forall e :: e in t.effects ==> e.ToggleClass? || e.Shake?
  {
    Transition([ToggleClass("capture-screen", "hidden"),
                ToggleClass("capture-ball-button-container", "hidden"),
                Shake(".capture-ball", ShakeDuration)],
               Some(OutcomeTimer(RandomNumber(0, 100, m.draw), SuccessRate(m.ringWidth))), false)
  }

  /** The shake timer: exactly one of the success path and the escape path starts. */
  function DecideOutcome(seed: int, successRate: real): (t: Transition)
    ensures t.next == Some(AfterConfetti) <==> RollSucceeds(seed, successRate)
    ensures t.next == Some(AfterPoof) <==> !RollSucceeds(seed, successRate)
    ensures CaptureSuccess !in t.effects
  {
    if RollSucceeds(seed, successRate) then
      // showCaptureSuccess
      Transition([RemoveAnimation(".capture-ball"),
                  ToggleClass("capture-ball-button", "active"),
                  ToggleClass("capture-status", "hidden"),
                  RainConfetti],
                 Some(AfterConfetti), false)
    else
      // showEscapeAnimationAndContinue
      Transition([RemoveAnimation(".capture-ball"),
                  ToggleClass("capture-ball-button-container", "hidden"),
                  ToggleClass("poof-container", "hidden"),
                  Poof],
                 Some(AfterPoof), false)
  }

  /** Runs the body of the continuation `k` with the readings `m`. */
  function Resume(k: Continuation, m: Readings): (t: Transition)
    ensures t.next.Some? ==> Rank(t.next.value) < Rank(k)
    ensures t.resetsBall <==> k == AfterDrop
    ensures k.AfterThrow1? ==> t.next == Some(if k.movementY < 0.0 then AfterThrow2 else ResetTimer)
    ensures k.OutcomeTimer? ==> (t.next == Some(AfterConfetti) <==> RollSucceeds(k.seed, k.successRate))
    ensures k.OutcomeTimer? ==> (t.next == Some(AfterPoof) <==> !RollSucceeds(k.seed, k.successRate))
  {
    match k
    case AfterThrow1(movementY, translateX, scalePercent) =>
      if movementY < 0.0 then
        // throwBall2
        Transition([SaveBallPosition, ThrowEffect2(movementY, translateX, scalePercent)], Some(AfterThrow2), false)
      else
        Transition([], Some(ResetTimer), false)
    case AfterThrow2 =>
      DetermineThrowResult(m)
    case ResetTimer =>
      Transition([ResetState], None, false)
    case AfterMoveAside =>
      // opened ball image, then emitTargetParticlesToBall
      Transition([BallImage(true), EmitParticlesToBall(m.targetCenter), FadeTarget], Some(ClosingTimer), false)
    case ClosingTimer =>
      // closingCaptureBall
      Transition([BallImage(false), ClearContainer("particle-container"), SaveBallPosition, DropBall],
                 Some(AfterDrop), false)
    case AfterDrop =>
      var a := AnimateCaptureState(m);
      Transition([ResetBall, ResetState] + a.effects, a.next, true)
    case OutcomeTimer(seed, successRate) =>
      DecideOutcome(seed, successRate)
    case AfterConfetti =>
      Transition([ClearContainer("capture-confetti"), CaptureSuccess], None, false)
    case AfterPoof =>
      // hideEscapeAnimation
      Transition([ToggleClass("capture-screen", "hidden"), ClearPoofTransform, ToggleClass("poof-container", "hidden")],
                 None, false)
  }

  /**
   * What a continuation asks of the page: only the confetti callback calls the
   * success callback, only the reset timer and the drop callback reset the game
   * state, and only the second throw stage pauses the target's motion.
   */
  lemma ResumeEffects(k: Continuation, m: Readings)
    ensures CaptureSuccess in Resume(k, m).effects <==> k == AfterConfetti
    ensures ResetState in Resume(k, m).effects <==> k == ResetTimer || k == AfterDrop
    ensures PauseTargetMotion in Resume(k, m).effects ==> k == AfterThrow2 && m.targetMotion
  {
    var effects := Resume(k, m).effects;
    match k
    case AfterThrow1(_, _, _) =>
    case AfterThrow2 =>
    case ResetTimer =>
      assert effects == [ResetState];
    case AfterMoveAside =>
    case ClosingTimer =>
    case AfterDrop =>
      var a := AnimateCaptureState(m);
      assert effects == [ResetBall, ResetState] + a.effects;
    case OutcomeTimer(seed, rate) =>
    case AfterConfetti =>
      assert effects[1] == CaptureSuccess;
    case AfterPoof =>
  }

  /**
   * The effects of following one chain from `k`, the i-th continuation to
   * fire seeing the readings `ms[i]`; the chain stops when it has no
   * successor or no more readings are given.
   */
  function RunChain(k: Continuation, ms: seq<Readings>): seq<Effect>
    decreases |ms|
  {
    if ms == [] then []
    else
      var t := Resume(k, ms[0]);
      t.effects + match t.next
                  case None => []
                  case Some(n) => RunChain(n, ms[1..])
  }

  /** Only the confetti callback calls the capture-success callback, and it calls it once. */
  lemma SuccessCount(k: Continuation, m: Readings)
    ensures multiset(Resume(k, m).effects)[CaptureSuccess] == if k == AfterConfetti then 1 else 0
  {
    var t := Resume(k, m);
    if k == AfterConfetti {
      assert t.effects == [ClearContainer("capture-confetti"), CaptureSuccess];
    } else {
      ResumeEffects(k, m);
    }
  }

  /** One chain calls the capture-success callback at most once. */
  lemma {:induction false} SuccessAtMostOnce(k: Continuation, ms: seq<Readings>)
    ensures multiset(RunChain(k, ms))[CaptureSuccess] <= 1
    decreases |ms|
  {
    if ms != [] {
      var t := Resume(k, ms[0]);
      match t.next
      case None =>
        SuccessCount(k, ms[0]);
      case Some(n) =>
        SuccessCount(k, ms[0]);
        SuccessAtMostOnce(n, ms[1..]);
        assert RunChain(k, ms) == t.effects + RunChain(n, ms[1..]);
    }
  }

  /** From the shake timer, the chain reaches the capture-success callback iff the roll passes. */
  lemma TailSuccess(seed: int, rate: real, ms: seq<Readings>)
    requires |ms| >= 2
    ensures CaptureSuccess in RunChain(OutcomeTimer(seed, rate), ms) <==> RollSucceeds(seed, rate)
  {
    var k := OutcomeTimer(seed, rate);
    var t := Resume(k, ms[0]);
    ResumeEffects(k, ms[0]);
    if RollSucceeds(seed, rate) {
      assert t.next == Some(AfterConfetti);
      RunChainStep(k, AfterConfetti, ms);
      RunChainLast(AfterConfetti, ms[1..]);
      ResumeEffects(AfterConfetti, ms[1]);
    } else {
      assert t.next == Some(AfterPoof);
      RunChainStep(k, AfterPoof, ms);
      RunChainLast(AfterPoof, ms[1..]);
      ResumeEffects(AfterPoof, ms[1]);
    }
  }

  /** One step of a chain: the effects of `k`, then the chain of its successor `n`. */
  lemma RunChainStep(k: Continuation, n: Continuation, ms: seq<Readings>)
    requires ms != [] && Resume(k, ms[0]).next == Some(n)
    ensures RunChain(k, ms) == Resume(k, ms[0]).effects + RunChain(n, ms[1..])
  {
  }

  /** The last step of a chain: a continuation without successor contributes only its own effects. */
  lemma RunChainLast(k: Continuation, ms: seq<Readings>)
    requires ms != [] && Resume(k, ms[0]).next.None?
    ensures RunChain(k, ms) == Resume(k, ms[0]).effects
  {
  }

  /**
   * After a hit, the chain (move aside, closing timer, drop, shake timer, outcome)
   * reaches the capture-success callback iff the seed drawn at the drop passes
   * the roll for the ring width measured then.
   */
  lemma HitSucceedsIff(ms: seq<Readings>)
    requires |ms| >= 5
    ensures CaptureSuccess in RunChain(AfterMoveAside, ms) <==>
      CaptureSucceeds(RandomNumber(0, 100, ms[2].draw), ms[2].ringWidth)
  {
    RunChainStep(AfterMoveAside, ClosingTimer, ms);
    ResumeEffects(AfterMoveAside, ms[0]);
    RunChainStep(ClosingTimer, AfterDrop, ms[1..]);
    ResumeEffects(ClosingTimer, ms[1]);
    var seed, rate := RandomNumber(0, 100, ms[2].draw), SuccessRate(ms[2].ringWidth);
    RunChainStep(AfterDrop, OutcomeTimer(seed, rate), ms[2..]);
    ResumeEffects(AfterDrop, ms[2]);
    assert ms[2..][1..] == ms[3..];
    TailSuccess(seed, rate, ms[3..]);
  }

  /**
   * A throw ends in the capture-success callback iff it went up the screen,
   * both centres could be measured after the second stage, the ball hit the
   * target, and the seed drawn when the ball dropped passes the roll.
   */
  lemma {:induction false} ThrowSucceedsIff(movementY: real, translateX: real, scalePercent: real, ms: seq<Readings>)
    requires |ms| >= 7
    ensures CaptureSuccess in RunChain(AfterThrow1(movementY, translateX, scalePercent), ms) <==>
      && movementY < 0.0
      && ms[1].ballCenter.Some? && ms[1].targetCenter.Some?
      && IsHit(ms[1].ballCenter.value, ms[1].targetCenter.value, ms[1].radius)
      && CaptureSucceeds(RandomNumber(0, 100, ms[4].draw), ms[4].ringWidth)
  {
    var k0 := AfterThrow1(movementY, translateX, scalePercent);
    if movementY >= 0.0 {
      DownwardThrowOnlyResets(movementY, translateX, scalePercent, ms);
    } else {
      RunChainStep(k0, AfterThrow2, ms);
      ResumeEffects(k0, ms[0]);
      var rest := ms[1..];
      var m := rest[0];
      ResumeEffects(AfterThrow2, m);
      if m.ballCenter.None? || m.targetCenter.None? {
        RunChainLast(AfterThrow2, rest);
      } else if !IsHit(m.ballCenter.value, m.targetCenter.value, m.radius) {
        RunChainStep(AfterThrow2, ResetTimer, rest);
        RunChainLast(ResetTimer, rest[1..]);
        ResumeEffects(ResetTimer, rest[1]);
      } else {
        RunChainStep(AfterThrow2, AfterMoveAside, rest);
        assert rest[1..] == ms[2..] && ms[2..][2] == ms[4];
        HitSucceedsIff(ms[2..]);
      }
    }
  }

  /** A throw that does not go up the screen only schedules a reset. */
  lemma DownwardThrowOnlyResets(movementY: real, translateX: real, scalePercent: real, ms: seq<Readings>)
    requires movementY >= 0.0 && |ms| >= 2
    ensures RunChain(AfterThrow1(movementY, translateX, scalePercent), ms) == [ResetState]
  {
    assert RunChain(ResetTimer, ms[1..]) == [ResetState];
  }

  // ---------------------------------------------------------------------
  // State

  class Ball {
    var inMotion: bool
    var colision: bool

    constructor ()
      ensures !inMotion && !colision
    {
      inMotion := false;
      colision := false;
    }

    /** resetBall: back to the idle, aiming state. */
    method Reset()
      modifies this
      ensures !inMotion && !colision
    {
      inMotion := false;
      colision := false;
    }
  }

  /** The rendering surface's dimensions, updated by resize events. */
  class Screen {
    var width: real
    var height: real

    constructor (width: real, height: real)
      ensures this.width == width && this.height == height
    {
      this.width := width;
      this.height := height;
    }
  }

  /** The actions created by createGameActions over one ball and one screen. */
  class CaptureGame {
    const ball: Ball
    const screen: Screen
    var log: seq<Effect>
    var pending: seq<Continuation>

    constructor (ball: Ball, screen: Screen)
      ensures this.ball == ball && this.screen == screen
      ensures log == [] && pending == []
    {
      this.ball := ball;
      this.screen := screen;
      log := [];
      pending := [];
    }

    /**
     * checkBallColisions: `center` is the ball's measured centre and
     * `findCollidable` the first collidable element stacked at a point.
     * Once a collision is latched, later polls change nothing.
     */
    method CheckBallColisions(center: Option<Point>, findCollidable: Point -> Option<Element>)
      modifies ball`colision, this`log
      ensures old(ball.colision) ==> ball.colision && log == old(log)
      ensures !old(ball.colision) && (center.None? || findCollidable(center.value).None?) ==>
                !ball.colision && log == old(log)
      ensures !old(ball.colision) && center.Some? && findCollidable(center.value).Some? ==>
                ball.colision && log == old(log) + CollisionEffects(findCollidable(center.value).value)
    {
      if !ball.colision {
        if center.Some? {
          var found := findCollidable(center.value);
          if found.Some? {
            ball.colision := true;
            log := log + CollisionEffects(found.value);
          }
        }
      }
    }

    /** pointerBall: follow the pointer; at the end of a pan that did not throw, restore the ball. */
    method PointerBall(coords: Option<Point>, final: bool)
      modifies this`log
      ensures log == old(log) + (if coords.Some? then [MoveBallPointer(coords.value)] else [])
                              + (if final && !ball.inMotion then [RestoreBall] else [])
    {
      if coords.Some? {
        log := log + [MoveBallPointer(coords.value)];
      }
      if final && !ball.inMotion {
        log := log + [RestoreBall];
      }
    }

    /**
     * throwBall: `logScale(v, maxVelocity)` stands for
     * Math.log(v + 1) / Math.log(maxVelocity + 1).
     */
    method ThrowBall(angle: real, deltaY: real, velocity: real, logScale: (real, real) -> real)
      modifies ball`inMotion, this`log, this`pending
      ensures ball.inMotion
      ensures var maxVelocity := MaxVelocity(screen.height);
              var scalePercent := logScale(ClampVelocity(velocity, maxVelocity), maxVelocity);
              var translateX := TranslateX(angle, TranslateY(screen.height, scalePercent));
              && log == old(log) + [RemoveAnimation(".ring-fill"), ThrowEffect1(translateX, deltaY, scalePercent)]
              && pending == old(pending) + [AfterThrow1(deltaY, translateX, scalePercent)]
    {
      ball.inMotion := true;
      var maxVelocity := screen.height * 0.009;
      var v := velocity;
      if v < 0.0 {
        v := -v;
      }
      if v > maxVelocity {
        v := maxVelocity;
      }
      assert maxVelocity == MaxVelocity(screen.height);
      assert v == ClampVelocity(velocity, maxVelocity);
      var scalePercent := logScale(v, maxVelocity);
      var movementY := deltaY;
      var translateYValue := -0.75 * screen.height * scalePercent;
      assert translateYValue == TranslateY(screen.height, scalePercent);
      var translateXValue := -1.0 * (angle + 90.0) * (translateYValue / 100.0);
      assert translateXValue == TranslateX(angle, translateYValue);
      log := log + [RemoveAnimation(".ring-fill"), ThrowEffect1(translateXValue, movementY, scalePercent)];
      pending := pending + [AfterThrow1(movementY, translateXValue, scalePercent)];
    }

    /** The i-th pending continuation fires and observes `m`. */
    method Fire(i: nat, m: Readings)
      requires i < |pending|
      modifies ball, this`log, this`pending
      ensures var t := Resume(old(pending)[i], m);
              && log == old(log) + t.effects
              && pending == old(pending)[..i] + old(pending)[i + 1..] + (if t.next.Some? then [t.next.value] else [])
              && (t.resetsBall ==> !ball.inMotion && !ball.colision)
              && (!t.resetsBall ==> ball.inMotion == old(ball.inMotion) && ball.colision == old(ball.colision))
    {
      var t := Resume(pending[i], m);
      log := log + t.effects;
      pending := pending[..i] + pending[i + 1..] + (if t.next.Some? then [t.next.value] else []);
      if t.resetsBall {
        ball.Reset();
      }
    }
  }
}
