/** The opponent logic of the Pong game: a trajectory predictor that steps the
    ball forward until it reaches a vertical line, and a reactive paddle
    controller with a reaction delay, an aiming error and a fixed speed. */
module Ai {

  /** Safety bound on the number of simulated steps of the predictor. */
  const MaxLoop: nat := 2000

  function Abs(x: real): real { if x < 0.0 then -x else x }

  // ---------------------------------------------------------------------
  // Trajectory prediction
  // ---------------------------------------------------------------------

  /** The simulated ball: position and velocity. */
  datatype Sim = Sim(x: real, y: real, vx: real, vy: real)

  /** The negation of the predictor's "not reached yet" test: the leading edge
      of the ball is at or past `targetX`, the direction being fixed once at
      the start of the simulation. */
  predicate Reached(movingRight: bool, x: real, radius: real, targetX: real) {
    if movingRight then x + radius >= targetX else x - radius <= targetX
  }

  /** One full Euler step followed by the top/bottom wall check. */
  function Step(s: Sim, radius: real, canvasHeight: real): (r: Sim)
    ensures r.x == s.x + s.vx && r.vx == s.vx
    ensures Abs(r.vy) == Abs(s.vy)
    ensures 2.0 * radius <= canvasHeight ==> radius <= r.y <= canvasHeight - radius
  {
    var x, y := s.x + s.vx, s.y + s.vy;
    if y - radius < 0.0 then Sim(x, radius, s.vx, -s.vy)
    else if y + radius > canvasHeight then Sim(x, canvasHeight - radius, s.vx, -s.vy)
    else Sim(x, y, s.vx, s.vy)
  }

  /** The wall check of one step: a ball that crosses the top wall is put on
      it, otherwise one that crosses the bottom wall is put on that one, and
      either way the vertical speed flips; a ball that crosses neither keeps
      its new position and its vertical speed. */
  lemma StepReflects(s: Sim, radius: real, canvasHeight: real)
    ensures var y, r := s.y + s.vy, Step(s, radius, canvasHeight);
            && (y - radius < 0.0 ==> r.y == radius && r.vy == -s.vy)
            && (y - radius >= 0.0 && y + radius > canvasHeight ==>
                  r.y == canvasHeight - radius && r.vy == -s.vy)
            && (y - radius >= 0.0 && y + radius <= canvasHeight ==> r == Sim(s.x + s.vx, y, s.vx, s.vy))
  {
  }

  /** Where the simulation stopped and how many steps it took. */
  datatype Flight = Flight(last: Sim, steps: nat)

  /** The simulation with at most `fuel` steps left: it stops as soon as the
      target line is reached or the fuel runs out. */
  function Fly(s: Sim, movingRight: bool, radius: real, targetX: real, canvasHeight: real, fuel: nat): Flight
    decreases fuel
  {
    if fuel == 0 || Reached(movingRight, s.x, radius, targetX) then Flight(s, 0)
    else
      var f := Fly(Step(s, radius, canvasHeight), movingRight, radius, targetX, canvasHeight, fuel - 1);
      Flight(f.last, f.steps + 1)
  }

  /** What the predictor computes: the y of the ball when the simulation stops. */
  function PredictY(startX: real, startY: real, speedX: real, speedY: real,
                    radius: real, targetX: real, canvasHeight: real): real
  {
    Fly(Sim(startX, startY, speedX, speedY), speedX > 0.0, radius, targetX, canvasHeight, MaxLoop).last.y
  }

  /** The predictor: steps the ball forward (at most MaxLoop times) until its
      leading edge reaches `targetX`, reflecting off the top and bottom walls. */
  method PredictBallY(startX: real, startY: real, speedX: real, speedY: real,
                      radius: real, targetX: real, canvasHeight: real) returns (y: real)
    ensures y == PredictY(startX, startY, speedX, speedY, radius, targetX, canvasHeight)
    ensures Reached(speedX > 0.0, startX, radius, targetX) ==> y == startY
    ensures 2.0 * radius <= canvasHeight && radius <= startY <= canvasHeight - radius ==>
              radius <= y <= canvasHeight - radius
    ensures speedY == 0.0 && radius <= startY <= canvasHeight - radius ==> y == startY
  {
    var simX, simY, simVX, simVY := startX, startY, speedX, speedY;
    var movingRight := simVX > 0.0;
    ghost var stop := Fly(Sim(startX, startY, speedX, speedY), movingRight, radius, targetX, canvasHeight, MaxLoop).last;
    var loopCount := 0;
    while loopCount < MaxLoop && !Reached(movingRight, simX, radius, targetX)
      invariant 0 <= loopCount <= MaxLoop
      invariant Fly(Sim(simX, simY, simVX, simVY), movingRight, radius, targetX, canvasHeight, MaxLoop - loopCount).last == stop
    {
      ghost var before := Sim(simX, simY, simVX, simVY);
      loopCount := loopCount + 1;
      simX := simX + simVX;
      simY := simY + simVY;
      if simY - radius < 0.0 {
        simY := radius;
        simVY := -simVY;
      } else if simY + radius > canvasHeight {
        simY := canvasHeight - radius;
        simVY := -simVY;
      }
      assert Sim(simX, simY, simVX, simVY) == Step(before, radius, canvasHeight);
    }
    y := simY;
    PredictionFacts(startX, startY, speedX, speedY, radius, targetX, canvasHeight);
  }

  /** The simulation takes at most `fuel` steps; when it stops before the
      fuel runs out, the ball has reached the line; a ball already at the
      line does not move. */
  lemma {:induction false} FlightStops(s: Sim, movingRight: bool, radius: real, targetX: real,
                                       canvasHeight: real, fuel: nat)
    ensures var f := Fly(s, movingRight, radius, targetX, canvasHeight, fuel);
            && f.steps <= fuel
            && (f.steps < fuel ==> Reached(movingRight, f.last.x, radius, targetX))
            && (Reached(movingRight, s.x, radius, targetX) ==> f == Flight(s, 0))
    decreases fuel
  {
    if fuel > 0 && !Reached(movingRight, s.x, radius, targetX) {
      FlightStops(Step(s, radius, canvasHeight), movingRight, radius, targetX, canvasHeight, fuel - 1);
    }
  }

  /** What the prediction is in the cases the predictor's callers rely on. */
  lemma PredictionFacts(startX: real, startY: real, speedX: real, speedY: real,
                        radius: real, targetX: real, canvasHeight: real)
    ensures var y := PredictY(startX, startY, speedX, speedY, radius, targetX, canvasHeight);
            && (Reached(speedX > 0.0, startX, radius, targetX) ==> y == startY)
            && (2.0 * radius <= canvasHeight && radius <= startY <= canvasHeight - radius ==>
                  radius <= y <= canvasHeight - radius)
            && (speedY == 0.0 && radius <= startY <= canvasHeight - radius ==> y == startY)
  {
    var start := Sim(startX, startY, speedX, speedY);
    if radius <= startY <= canvasHeight - radius {
      FlightStaysInside(start, speedX > 0.0, radius, targetX, canvasHeight, MaxLoop);
      if speedY == 0.0 {
        LevelFlight(start, speedX > 0.0, radius, targetX, canvasHeight, MaxLoop);
      }
    }
  }

  /** Starting between the walls, the simulated ball never leaves them. */
  lemma {:induction false} FlightStaysInside(s: Sim, movingRight: bool, radius: real, targetX: real,
                                             canvasHeight: real, fuel: nat)
    requires radius <= s.y <= canvasHeight - radius
    ensures var f := Fly(s, movingRight, radius, targetX, canvasHeight, fuel);
            radius <= f.last.y <= canvasHeight - radius
    decreases fuel
  {
    if fuel > 0 && !Reached(movingRight, s.x, radius, targetX) {
      FlightStaysInside(Step(s, radius, canvasHeight), movingRight, radius, targetX, canvasHeight, fuel - 1);
    }
  }

  /** The distance covered in `k` steps of speed `v`. */
  function Travel(k: nat, v: real): real {
    if k == 0 then 0.0 else Travel(k - 1, v) + v
  }

  lemma {:induction false} TravelIsProduct(k: nat, v: real)
    ensures Travel(k, v) == (k as real) * v
  {
    if k > 0 {
      TravelIsProduct(k - 1, v);
    }
  }

  /** The horizontal motion is uniform: the horizontal speed never changes and
      the ball advances by exactly one speed per step. */
  lemma FlightIsUniform(s: Sim, movingRight: bool, radius: real, targetX: real,
                        canvasHeight: real, fuel: nat)
    ensures var f := Fly(s, movingRight, radius, targetX, canvasHeight, fuel);
            f.last.vx == s.vx && f.last.x == s.x + (f.steps as real) * s.vx
  {
    FlightTravels(s, movingRight, radius, targetX, canvasHeight, fuel);
    TravelIsProduct(Fly(s, movingRight, radius, targetX, canvasHeight, fuel).steps, s.vx);
  }

  lemma {:induction false} FlightTravels(s: Sim, movingRight: bool, radius: real, targetX: real,
                                         canvasHeight: real, fuel: nat)
    ensures var f := Fly(s, movingRight, radius, targetX, canvasHeight, fuel);
            f.last.vx == s.vx && f.last.x == s.x + Travel(f.steps, s.vx)
    decreases fuel
  {
    if fuel > 0 && !Reached(movingRight, s.x, radius, targetX) {
      FlightTravels(Step(s, radius, canvasHeight), movingRight, radius, targetX, canvasHeight, fuel - 1);
    }
  }

  /** Wall reflections only flip the sign of the vertical speed. */
  lemma {:induction false} FlightKeepsVerticalSpeed(s: Sim, movingRight: bool, radius: real, targetX: real,
                                                    canvasHeight: real, fuel: nat)
    ensures Abs(Fly(s, movingRight, radius, targetX, canvasHeight, fuel).last.vy) == Abs(s.vy)
    decreases fuel
  {
    if fuel > 0 && !Reached(movingRight, s.x, radius, targetX) {
      FlightKeepsVerticalSpeed(Step(s, radius, canvasHeight), movingRight, radius, targetX, canvasHeight, fuel - 1);
    }
  }

  /** With no vertical speed and a start between the walls, the ball keeps its
      height: the prediction is the start height. */
  lemma {:induction false} LevelFlight(s: Sim, movingRight: bool, radius: real, targetX: real,
                                       canvasHeight: real, fuel: nat)
    requires s.vy == 0.0 && radius <= s.y <= canvasHeight - radius
    ensures Fly(s, movingRight, radius, targetX, canvasHeight, fuel).last.y == s.y
    decreases fuel
  {
    if fuel > 0 && !Reached(movingRight, s.x, radius, targetX) {
      LevelFlight(Step(s, radius, canvasHeight), movingRight, radius, targetX, canvasHeight, fuel - 1);
    }
  }

  /** A ball with no horizontal speed that has not reached the target never
      reaches it: the simulation uses up all its fuel, so the iteration cap is
      what stops it. */
  lemma {:induction false} StalledFlightUsesAllFuel(s: Sim, movingRight: bool, radius: real, targetX: real,
                                                    canvasHeight: real, fuel: nat)
    requires s.vx == 0.0 && !Reached(movingRight, s.x, radius, targetX)
    ensures Fly(s, movingRight, radius, targetX, canvasHeight, fuel).steps == fuel
    decreases fuel
  {
    if fuel > 0 {
      StalledFlightUsesAllFuel(Step(s, radius, canvasHeight), movingRight, radius, targetX, canvasHeight, fuel - 1);
    }
  }

  // ---------------------------------------------------------------------
  // Paddle controller
  // ---------------------------------------------------------------------

  /** The tuning of one controller. */
  datatype AiConfig = AiConfig(reactionFrames: int, randomOffsetRange: real, paddleSpeed: real)

  /** The reaction state of one controller: frames the ball has been coming
      its way, and whether it tracks the ball. */
  datatype Reaction = Reaction(timer: nat, active: bool)

  const Idle := Reaction(0, false)

  /** The state after one `updateState` call. */
  function React(r: Reaction, goingMyWay: bool, reactionFrames: int): (r': Reaction)
    ensures !goingMyWay ==> r' == Idle
    ensures goingMyWay ==> r'.timer == r.timer + 1
    ensures Settled(r', reactionFrames)
  {
    if goingMyWay then Reaction(r.timer + 1, r.timer + 1 >= reactionFrames)
    else Idle
  }

  /** The invariant every reachable reaction state satisfies: the controller
      is active exactly when the ball has been coming its way for at least
      `reactionFrames` frames (and for at least one). */
  predicate Settled(r: Reaction, reactionFrames: int) {
    r.active == (r.timer > 0 && r.timer >= reactionFrames)
  }

  /** `n` consecutive calls with the ball coming this way. */
  function Approach(r: Reaction, n: nat, reactionFrames: int): Reaction
    decreases n
  {
    if n == 0 then r else Approach(React(r, true, reactionFrames), n - 1, reactionFrames)
  }

  /** After `n` consecutive approaching frames the timer has grown by `n`, and
      from the idle state the controller is active exactly when `n` is at least
      the reaction threshold (and positive). */
  lemma {:induction false} ApproachCounts(r: Reaction, n: nat, reactionFrames: int)
    ensures n > 0 ==> Approach(r, n, reactionFrames) == Reaction(r.timer + n, r.timer + n >= reactionFrames)
    ensures Approach(Idle, n, reactionFrames) == Reaction(n, n > 0 && n >= reactionFrames)
    decreases n
  {
    if n > 0 {
      ApproachCounts(React(r, true, reactionFrames), n - 1, reactionFrames);
      ApproachCounts(React(Idle, true, reactionFrames), n - 1, reactionFrames);
    }
  }

  /** Starting from idle, the controller first becomes active on exactly the
      `reactionFrames`-th consecutive approaching frame. */
  lemma ReactionDelay(reactionFrames: nat)
    requires reactionFrames >= 1
    ensures Approach(Idle, reactionFrames, reactionFrames).active
    ensures forall k: nat :: k < reactionFrames ==> !Approach(Idle, k, reactionFrames).active
  {
    ApproachCounts(Idle, reactionFrames, reactionFrames);
    forall k: nat | k < reactionFrames
      ensures !Approach(Idle, k, reactionFrames).active
    {
      ApproachCounts(Idle, k, reactionFrames);
    }
  }

  /** The aim point: the target shifted by a uniform error in
      [-range/2, range/2) when an error range is configured. */
  function Aim(targetY: real, range: real, random: real): (aim: real)
    requires 0.0 <= random < 1.0
    ensures range > 0.0 ==> targetY - range / 2.0 <= aim < targetY + range / 2.0
    ensures range <= 0.0 ==> aim == targetY
  {
    if range > 0.0 then
      var offset := Offset(random, range);
      targetY + offset
    else targetY
  }

  /** The aiming error drawn from `random` in [0, 1). */
  function Offset(random: real, range: real): (offset: real)
    requires 0.0 <= random < 1.0 && range > 0.0
    ensures -range / 2.0 <= offset < range / 2.0
  {
    assert 0.0 <= random * range < range;
    random * range - range / 2.0
  }

  /** Keeps the paddle's top edge inside [0, canvasHeight - paddleHeight]. */
  function ClampToCanvas(y: real, paddleHeight: real, canvasHeight: real): (r: real)
    ensures paddleHeight <= canvasHeight ==> 0.0 <= r <= canvasHeight - paddleHeight
    ensures 0.0 <= y <= canvasHeight - paddleHeight ==> r == y
  {
    var low := if y < 0.0 then 0.0 else y;
    if low > canvasHeight - paddleHeight then canvasHeight - paddleHeight else low
  }

  /** One move of the paddle: a fixed step of the paddle's centre toward the
      aim point, then the clamp. */
  function MoveToward(cfg: AiConfig, paddleY: real, paddleHeight: real, targetY: real,
                      canvasHeight: real, random: real): (r: real)
    requires 0.0 <= random < 1.0
    ensures paddleHeight <= canvasHeight ==> 0.0 <= r <= canvasHeight - paddleHeight
  {
    var aim := Aim(targetY, cfg.randomOffsetRange, random);
    var centerY := paddleY + paddleHeight / 2.0;
    var moved := if centerY < aim then paddleY + cfg.paddleSpeed
                 else if centerY > aim then paddleY - cfg.paddleSpeed
                 else paddleY;
    ClampToCanvas(moved, paddleHeight, canvasHeight)
  }

  /** From a position inside the canvas the paddle moves by at most its speed,
      toward the aim point and never away from it: down when its centre is
      above the aim, up when below, not at all when on it; when the full step
      stays inside the canvas it is taken exactly. */
  lemma MoveTowardAim(cfg: AiConfig, paddleY: real, paddleHeight: real, targetY: real,
                      canvasHeight: real, random: real)
    requires 0.0 <= random < 1.0 && cfg.paddleSpeed >= 0.0
    requires 0.0 <= paddleY <= canvasHeight - paddleHeight
    ensures var aim := Aim(targetY, cfg.randomOffsetRange, random);
            var centerY := paddleY + paddleHeight / 2.0;
            var r := MoveToward(cfg, paddleY, paddleHeight, targetY, canvasHeight, random);
            && (centerY < aim ==> paddleY <= r <= paddleY + cfg.paddleSpeed)
            && (centerY > aim ==> paddleY - cfg.paddleSpeed <= r <= paddleY)
            && (centerY == aim ==> r == paddleY)
            && (centerY < aim && paddleY + cfg.paddleSpeed <= canvasHeight - paddleHeight ==>
                  r == paddleY + cfg.paddleSpeed)
            && (centerY > aim && paddleY - cfg.paddleSpeed >= 0.0 ==> r == paddleY - cfg.paddleSpeed)
  {
  }

  /** The reactive paddle controller. The tuning is fixed at construction;
      the reaction timer and the active flag change every frame. */
  class PaddleAI {
    const reactionFrames: int
    const randomOffsetRange: real
    const paddleSpeed: real
    var currentTimer: nat
    var active: bool

    function Config(): AiConfig {
      AiConfig(reactionFrames, randomOffsetRange, paddleSpeed)
    }

    function State(): Reaction
      reads this
    {
      Reaction(currentTimer, active)
    }

    constructor (reactionFrames: int, randomOffsetRange: real, paddleSpeed: real)
      ensures Settled(State(), reactionFrames)
      ensures Config() == AiConfig(reactionFrames, randomOffsetRange, paddleSpeed)
      ensures State() == Idle
    {
      this.reactionFrames := reactionFrames;
      this.randomOffsetRange := randomOffsetRange;
      this.paddleSpeed := paddleSpeed;
      currentTimer := 0;
      active := false;
    }

    /** Counts the frames the ball has been coming this way; any other frame
        resets the count. */
    method UpdateState(ballGoingMyWay: bool)
      modifies this
      ensures Settled(State(), reactionFrames)
      ensures State() == React(old(State()), ballGoingMyWay, reactionFrames)
    {
      if ballGoingMyWay {
        currentTimer := currentTimer + 1;
        active := currentTimer >= reactionFrames;
      } else {
        currentTimer := 0;
        active := false;
      }
    }

    /** One move toward `targetY`; `random` stands for the value drawn from
        the uniform generator on [0, 1). */
    method MovePaddleToTarget(paddleY: real, paddleHeight: real, targetY: real,
                              canvasHeight: real, random: real) returns (newY: real)
      requires 0.0 <= random < 1.0
      ensures newY == MoveToward(Config(), paddleY, paddleHeight, targetY, canvasHeight, random)
      ensures paddleHeight <= canvasHeight ==> 0.0 <= newY <= canvasHeight - paddleHeight
    {
      var aimY := targetY;
      if randomOffsetRange > 0.0 {
        var offset := random * randomOffsetRange - randomOffsetRange / 2.0;
        aimY := aimY + offset;
      }
      var centerY := paddleY + paddleHeight / 2.0;
      newY := paddleY;
      if centerY < aimY {
        newY := newY + paddleSpeed;
      } else if centerY > aimY {
        newY := newY - paddleSpeed;
      }
      if newY < 0.0 {
        newY := 0.0;
      }
      if newY > canvasHeight - paddleHeight {
        newY := canvasHeight - paddleHeight;
      }
    }
  }
}
