/** The per-frame simulation of the Pong game and its three-state machine:
    paddle movement (manual or by the reactive controller), ball movement, wall
    and paddle collisions, goals, the end of a game and the round reset. */
module Game {
  import opened Ai

  const PADDLE_WIDTH: real := 10.0
  const PADDLE_HEIGHT: real := 100.0
  const BALL_RADIUS: real := 8.0
  /** Distance the manually controlled paddle moves in one frame. */
  const MANUAL_STEP: real := 6.0
  /** Magnitude of the vertical speed of a served ball. */
  const SERVE_SPEED_Y: real := 3.0
  /** Vertical speed per unit of distance between the contact point and the paddle's centre. */
  const DEFLECTION: real := 0.2
  /** DEFLECTION * PADDLE_HEIGHT / 2: no paddle hit produces a faster vertical speed. */
  const MAX_DEFLECTED_SPEED: real := 10.0

  datatype GameState = Menu | Playing | GameOver

  datatype Side = Left | Right

  datatype Option<T> = None | Some(value: T)

  /** One row of the difficulty table. */
  datatype Settings = Settings(reactionFrames: int, offset: real, ballSpeed: real,
                               aiPaddleSpeed: real, targetScore: int)

  const DIFFICULTY_SETTINGS: map<string, Settings> := map[
    "easy"   := Settings(30, 60.0, 4.0, 4.0, 5),
    "normal" := Settings(15, 20.0, 5.0, 6.0, 7),
    "hard"   := Settings(5, 5.0, 6.0, 8.0, 10)
  ]

  /** The settings of a difficulty key; an unknown key falls back to "normal".
      Every row has a positive ball speed and a positive target score. */
  function SettingsFor(difficulty: string): (s: Settings)
    ensures difficulty in DIFFICULTY_SETTINGS ==> s == DIFFICULTY_SETTINGS[difficulty]
    ensures difficulty !in DIFFICULTY_SETTINGS ==> s == DIFFICULTY_SETTINGS["normal"]
    ensures s.ballSpeed > 0.0 && s.targetScore > 0 && s.reactionFrames > 0
    ensures s.offset > 0.0 && s.aiPaddleSpeed > 0.0
  {
    if difficulty in DIFFICULTY_SETTINGS then DIFFICULTY_SETTINGS[difficulty]
    else DIFFICULTY_SETTINGS["normal"]
  }

  // ---------------------------------------------------------------------
  // Values the frame works on
  // ---------------------------------------------------------------------

  datatype Ball = Ball(x: real, y: real, vx: real, vy: real)

  datatype Canvas = Canvas(width: real, height: real)

  /** A canvas tall enough for a paddle and wide enough for both paddles and
      the ball between them. */
  predicate Roomy(c: Canvas) {
    c.height >= PADDLE_HEIGHT && c.width >= 2.0 * (PADDLE_WIDTH + BALL_RADIUS)
  }

  /** The top edge of a vertically centred paddle. */
  function PaddleHome(c: Canvas): real {
    (c.height - PADDLE_HEIGHT) / 2.0
  }

  /** A draw of the uniform generator on [0, 1). */
  predicate InUnit(r: real) {
    0.0 <= r < 1.0
  }

  /** What a frame reads from outside: the held arrow keys and the random
      draws of the left controller, the right controller and the serve. */
  datatype Controls = Controls(upPressed: bool, downPressed: bool,
                               leftRandom: real, rightRandom: real, serveRandom: real)

  predicate Drawn(inp: Controls) {
    InUnit(inp.leftRandom) && InUnit(inp.rightRandom) && InUnit(inp.serveRandom)
  }

  /** A paddle controller as the frame sees it: its tuning and its reaction state. */
  datatype Controller = Controller(cfg: AiConfig, reaction: Reaction)

  /** The whole simulation state of the game module. */
  datatype World = World(
    state: GameState,
    ball: Ball,
    leftY: real,
    rightY: real,
    leftScore: nat,
    rightScore: nat,
    targetScore: int,
    autoLeft: bool,
    leftAi: Controller,
    rightAi: Controller,
    winner: Option<Side>,
    hitSounds: nat)

  // ---------------------------------------------------------------------
  // Paddles
  // ---------------------------------------------------------------------

  /** The manually controlled left paddle: "up" has priority and moves only
      below the top edge; "down" moves only above the lowest position. There
      is no clamp afterwards, so the paddle may end up to one step past a bound. */
  function ManualMove(y: real, up: bool, down: bool, c: Canvas): (y': real)
    ensures up && y > 0.0 ==> y' == y - MANUAL_STEP
    ensures !(up && y > 0.0) && down && y < c.height - PADDLE_HEIGHT ==> y' == y + MANUAL_STEP
    ensures !(up && y > 0.0) && !(down && y < c.height - PADDLE_HEIGHT) ==> y' == y
    ensures -MANUAL_STEP <= y <= c.height - PADDLE_HEIGHT + MANUAL_STEP ==>
              -MANUAL_STEP <= y' <= c.height - PADDLE_HEIGHT + MANUAL_STEP
  {
    if up && y > 0.0 then y - MANUAL_STEP
    else if down && y < c.height - PADDLE_HEIGHT then y + MANUAL_STEP
    else y
  }

  /** The manual paddle does leave the canvas: from 3 pixels below the top,
      "up" takes it 3 pixels above. */
  lemma ManualMoveOvershoots(c: Canvas)
    ensures ManualMove(3.0, true, false, c) == -3.0
  {
  }

  /** Where a controller steers: the predicted crossing point when it is
      active, the middle of the canvas otherwise. */
  function AiTarget(active: bool, b: Ball, targetX: real, c: Canvas): real {
    if active then PredictY(b.x, b.y, b.vx, b.vy, BALL_RADIUS, targetX, c.height)
    else c.height / 2.0
  }

  /** The left paddle's move: its controller reacts to a ball moving left and
      steers toward the line x = PADDLE_WIDTH, or the keys move it. */
  function MoveLeftPaddle(c: Canvas, w: World, inp: Controls): World
    requires Drawn(inp)
  {
    if w.autoLeft then
      var reaction := React(w.leftAi.reaction, w.ball.vx < 0.0, w.leftAi.cfg.reactionFrames);
      var target := AiTarget(reaction.active, w.ball, PADDLE_WIDTH, c);
      w.(leftAi := w.leftAi.(reaction := reaction),
         leftY := MoveToward(w.leftAi.cfg, w.leftY, PADDLE_HEIGHT, target, c.height, inp.leftRandom))
    else
      w.(leftY := ManualMove(w.leftY, inp.upPressed, inp.downPressed, c))
  }

  /** The vertical line the right controller aims at: the right paddle's face. */
  function RightLine(c: Canvas): real {
    c.width - PADDLE_WIDTH
  }

  /** The right paddle's move: always its controller, reacting to a ball
      moving right and steering toward the line x = width - PADDLE_WIDTH. */
  function MoveRightPaddle(c: Canvas, w: World, inp: Controls): World
    requires Drawn(inp)
  {
    var reaction := React(w.rightAi.reaction, w.ball.vx > 0.0, w.rightAi.cfg.reactionFrames);
    var target := AiTarget(reaction.active, w.ball, RightLine(c), c);
    w.(rightAi := w.rightAi.(reaction := reaction),
       rightY := MoveToward(w.rightAi.cfg, w.rightY, PADDLE_HEIGHT, target, c.height, inp.rightRandom))
  }

  // ---------------------------------------------------------------------
  // Ball
  // ---------------------------------------------------------------------

  function Advance(b: Ball): Ball {
    b.(x := b.x + b.vx, y := b.y + b.vy)
  }

  predicate HitsWall(b: Ball, c: Canvas) {
    b.y - BALL_RADIUS < 0.0 || b.y + BALL_RADIUS > c.height
  }

  /** The top and bottom walls: a ball past the top edge is put back on it,
      otherwise a ball past the bottom edge is put back on that one, and in
      both cases the vertical speed is reversed. At most one wall acts. */
  function WallBounce(b: Ball, c: Canvas): (r: Ball)
    ensures r.x == b.x && r.vx == b.vx
    ensures b.y - BALL_RADIUS < 0.0 ==> r.y == BALL_RADIUS && r.vy == -b.vy
    ensures b.y - BALL_RADIUS >= 0.0 && b.y + BALL_RADIUS > c.height ==>
              r.y == c.height - BALL_RADIUS && r.vy == -b.vy
    ensures !HitsWall(b, c) ==> r == b
    ensures 2.0 * BALL_RADIUS <= c.height ==> BALL_RADIUS <= r.y <= c.height - BALL_RADIUS
  {
    if b.y - BALL_RADIUS < 0.0 then b.(y := BALL_RADIUS, vy := -b.vy)
    else if b.y + BALL_RADIUS > c.height then b.(y := c.height - BALL_RADIUS, vy := -b.vy)
    else b
  }

  predicate HitsLeftPaddle(b: Ball, paddleY: real) {
    b.x - BALL_RADIUS < PADDLE_WIDTH && b.y > paddleY && b.y < paddleY + PADDLE_HEIGHT
  }

  predicate HitsRightPaddle(b: Ball, paddleY: real, c: Canvas) {
    b.x + BALL_RADIUS > c.width - PADDLE_WIDTH && b.y > paddleY && b.y < paddleY + PADDLE_HEIGHT
  }

  /** The vertical speed after a hit: proportional to the distance from the
      paddle's centre, whatever the vertical speed was before. */
  function Deflection(b: Ball, paddleY: real): real {
    (b.y - (paddleY + PADDLE_HEIGHT / 2.0)) * DEFLECTION
  }

  /** The left paddle: on a hit the ball is put just outside the paddle, its
      horizontal speed is reversed and its vertical speed is set from the
      contact point. */
  function LeftPaddleBounce(b: Ball, paddleY: real): (r: Ball)
    ensures r.y == b.y && Abs(r.vx) == Abs(b.vx)
    ensures HitsLeftPaddle(b, paddleY) ==>
              r.x == PADDLE_WIDTH + BALL_RADIUS && r.vx == -b.vx &&
              r.vy == Deflection(b, paddleY) && Abs(r.vy) < MAX_DEFLECTED_SPEED
    ensures !HitsLeftPaddle(b, paddleY) ==> r == b
  {
    if HitsLeftPaddle(b, paddleY) then
      Ball(PADDLE_WIDTH + BALL_RADIUS, b.y, -b.vx, Deflection(b, paddleY))
    else b
  }

  /** The right paddle, the mirror image of the left one. */
  function RightPaddleBounce(b: Ball, paddleY: real, c: Canvas): (r: Ball)
    ensures r.y == b.y && Abs(r.vx) == Abs(b.vx)
    ensures HitsRightPaddle(b, paddleY, c) ==>
              r.x == c.width - PADDLE_WIDTH - BALL_RADIUS && r.vx == -b.vx &&
              r.vy == Deflection(b, paddleY) && Abs(r.vy) < MAX_DEFLECTED_SPEED
    ensures !HitsRightPaddle(b, paddleY, c) ==> r == b
  {
    if HitsRightPaddle(b, paddleY, c) then
      Ball(c.width - PADDLE_WIDTH - BALL_RADIUS, b.y, -b.vx, Deflection(b, paddleY))
    else b
  }

  function Count(event: bool): nat {
    if event then 1 else 0
  }

  /** The top and bottom walls acting on the world's ball, with a hit sound
      when one acts. */
  function WallPhase(c: Canvas, w: World): World {
    w.(ball := WallBounce(w.ball, c), hitSounds := w.hitSounds + Count(HitsWall(w.ball, c)))
  }

  /** The left paddle acting on the world's ball, with a hit sound when it acts. */
  function LeftPaddlePhase(w: World): World {
    w.(ball := LeftPaddleBounce(w.ball, w.leftY),
       hitSounds := w.hitSounds + Count(HitsLeftPaddle(w.ball, w.leftY)))
  }

  /** The right paddle acting on the world's ball, with a hit sound when it acts. */
  function RightPaddlePhase(c: Canvas, w: World): World {
    w.(ball := RightPaddleBounce(w.ball, w.rightY, c),
       hitSounds := w.hitSounds + Count(HitsRightPaddle(w.ball, w.rightY, c)))
  }

  /** The ball advanced by its velocity. */
  function AdvancePhase(w: World): World {
    w.(ball := Advance(w.ball))
  }

  /** The ball's move in a frame: advance, walls, left paddle, right paddle;
      every collision plays the hit sound once. */
  function MoveBall(c: Canvas, w: World): World {
    RightPaddlePhase(c, LeftPaddlePhase(WallPhase(c, AdvancePhase(w))))
  }

  // ---------------------------------------------------------------------
  // Goals, the end of a game, the serve
  // ---------------------------------------------------------------------

  /** Who scores: the right side when the ball leaves by the left edge, else
      the left side when it leaves by the right edge. */
  function Scorer(b: Ball, c: Canvas): Option<Side> {
    if b.x - BALL_RADIUS < 0.0 then Some(Right)
    else if b.x + BALL_RADIUS > c.width then Some(Left)
    else None
  }

  /** The decision of the score check: the game is over exactly when a score
      has reached the target; the left side wins when strictly ahead, the
      right side otherwise. */
  function Verdict(leftScore: nat, rightScore: nat, targetScore: int): (v: Option<Side>)
    ensures v.Some? <==> leftScore >= targetScore || rightScore >= targetScore
    ensures v == Some(Left) ==> leftScore > rightScore
    ensures v == Some(Right) ==> leftScore <= rightScore
  {
    if leftScore >= targetScore || rightScore >= targetScore then
      Some(if leftScore > rightScore then Left else Right)
    else None
  }

  /** The ball after the round reset: at the centre, horizontal direction
      reversed, vertical speed 3 up or down. */
  function ServeBall(b: Ball, c: Canvas, serveRandom: real): (r: Ball)
    ensures r.x == c.width / 2.0 && r.y == c.height / 2.0
    ensures r.vx == -b.vx && Abs(r.vx) == Abs(b.vx)
    ensures r.vy == SERVE_SPEED_Y || r.vy == -SERVE_SPEED_Y
  {
    Ball(c.width / 2.0, c.height / 2.0, -b.vx, if serveRandom > 0.5 then SERVE_SPEED_Y else -SERVE_SPEED_Y)
  }

  /** A point for `side`. */
  function AddPoint(w: World, side: Side): World {
    if side == Left then w.(leftScore := w.leftScore + 1) else w.(rightScore := w.rightScore + 1)
  }

  /** The score check: GAME_OVER, with the winner recorded, as soon as a
      score has reached the target. */
  function Judge(w: World): World {
    var verdict := Verdict(w.leftScore, w.rightScore, w.targetScore);
    if verdict.Some? then w.(state := GameOver, winner := verdict) else w
  }

  /** The round reset after a goal. */
  function ResetRound(c: Canvas, w: World, serveRandom: real): World {
    w.(ball := ServeBall(w.ball, c, serveRandom), leftY := PaddleHome(c), rightY := PaddleHome(c))
  }

  /** The goal check of a frame: a point for the scorer, the score check, and
      the round reset (also after the point that ends the game). */
  function AwardPoint(c: Canvas, w: World, serveRandom: real): (r: World)
    ensures r.leftScore >= w.leftScore && r.rightScore >= w.rightScore
    ensures r.leftScore + r.rightScore <= w.leftScore + w.rightScore + 1
    ensures r.targetScore == w.targetScore && r.autoLeft == w.autoLeft
    ensures r.leftAi == w.leftAi && r.rightAi == w.rightAi
  {
    match Scorer(w.ball, c)
    case None => w
    case Some(side) => ResetRound(c, Judge(AddPoint(w, side)), serveRandom)
  }

  // ---------------------------------------------------------------------
  // The frame
  // ---------------------------------------------------------------------

  /** The state of a frame after both paddles and the ball have moved and
      before the goal check. */
  function Rally(c: Canvas, w: World, inp: Controls): (r: World)
    requires Drawn(inp)
    ensures r.state == w.state && r.leftScore == w.leftScore && r.rightScore == w.rightScore
    ensures r.targetScore == w.targetScore && r.autoLeft == w.autoLeft && r.winner == w.winner
    ensures r.leftAi.cfg == w.leftAi.cfg && r.rightAi.cfg == w.rightAi.cfg
  {
    MoveBall(c, MoveRightPaddle(c, MoveLeftPaddle(c, w, inp), inp))
  }

  /** One frame of the simulation; outside PLAYING nothing changes. */
  function Frame(c: Canvas, w: World, inp: Controls): (w': World)
    requires Drawn(inp)
    ensures w.state != Playing ==> w' == w
    ensures w'.leftScore >= w.leftScore && w'.rightScore >= w.rightScore
    ensures w'.leftScore + w'.rightScore <= w.leftScore + w.rightScore + 1
    ensures w'.targetScore == w.targetScore && w'.autoLeft == w.autoLeft
    ensures w'.leftAi.cfg == w.leftAi.cfg && w'.rightAi.cfg == w.rightAi.cfg
  {
    if w.state != Playing then w
    else AwardPoint(c, Rally(c, w, inp), inp.serveRandom)
  }

  /** The physical invariant of a game in progress: the horizontal speed
      keeps its magnitude, the vertical speed stays bounded, each controller's
      active flag agrees with its timer, and on a roomy canvas the ball is
      inside the canvas, the right paddle is inside it, and the left paddle is
      inside it when automatic and at most one manual step outside otherwise. */
  ghost predicate Sound(c: Canvas, w: World, ballSpeed: real) {
    && Abs(w.ball.vx) == ballSpeed
    && Abs(w.ball.vy) <= MAX_DEFLECTED_SPEED
    && Settled(w.leftAi.reaction, w.leftAi.cfg.reactionFrames)
    && Settled(w.rightAi.reaction, w.rightAi.cfg.reactionFrames)
    && (Roomy(c) ==> InCanvas(c, w))
  }

  ghost predicate InCanvas(c: Canvas, w: World) {
    && BALL_RADIUS <= w.ball.x <= c.width - BALL_RADIUS
    && BALL_RADIUS <= w.ball.y <= c.height - BALL_RADIUS
    && 0.0 <= w.rightY <= c.height - PADDLE_HEIGHT
    && -MANUAL_STEP <= w.leftY <= c.height - PADDLE_HEIGHT + MANUAL_STEP
    && (w.autoLeft ==> 0.0 <= w.leftY <= c.height - PADDLE_HEIGHT)
  }

  /** Every frame keeps the physical invariant; in particular the magnitude of
      the horizontal speed never changes during a game. */
  lemma FrameKeepsSound(c: Canvas, w: World, inp: Controls, ballSpeed: real)
    requires Drawn(inp) && Sound(c, w, ballSpeed)
    ensures Sound(c, Frame(c, w, inp), ballSpeed)
  {
    if w.state == Playing {
      var w1 := MoveLeftPaddle(c, w, inp);
      var w2 := MoveRightPaddle(c, w1, inp);
      var w3 := MoveBall(c, w2);
      var walled := WallBounce(Advance(w2.ball), c);
      var afterLeft := LeftPaddleBounce(walled, w2.leftY);
      assert Abs(afterLeft.vy) <= MAX_DEFLECTED_SPEED;
      assert Abs(w3.ball.vx) == ballSpeed && Abs(w3.ball.vy) <= MAX_DEFLECTED_SPEED;
    }
  }

  /** Goals: a ball leaving by the left edge scores exactly one point for the
      right side, one leaving by the right edge exactly one point for the left
      side, and otherwise nobody scores. */
  lemma FrameScoring(c: Canvas, w: World, inp: Controls)
    requires Drawn(inp) && w.state == Playing
    ensures var b := Rally(c, w, inp).ball;
            var w' := Frame(c, w, inp);
            && (b.x - BALL_RADIUS < 0.0 ==>
                  w'.rightScore == w.rightScore + 1 && w'.leftScore == w.leftScore)
            && (b.x - BALL_RADIUS >= 0.0 && b.x + BALL_RADIUS > c.width ==>
                  w'.leftScore == w.leftScore + 1 && w'.rightScore == w.rightScore)
            && (Scorer(b, c) == None ==>
                  w'.leftScore == w.leftScore && w'.rightScore == w.rightScore && w'.ball == b)
  {
  }

  /** The end of a game: from PLAYING a frame ends in PLAYING or GAME_OVER; it
      ends in GAME_OVER exactly when a point was scored and a score has reached
      the target; the recorded winner is the left side iff it is strictly ahead. */
  lemma FrameEndsGame(c: Canvas, w: World, inp: Controls)
    requires Drawn(inp) && w.state == Playing
    ensures var b := Rally(c, w, inp).ball;
            var w' := Frame(c, w, inp);
            && (w'.state == Playing || w'.state == GameOver)
            && (w'.state == GameOver <==>
                  Scorer(b, c).Some? && (w'.leftScore >= w.targetScore || w'.rightScore >= w.targetScore))
            && (w'.state == GameOver ==>
                  w'.winner == Some(if w'.leftScore > w'.rightScore then Left else Right))
            && (w'.state == Playing ==> w'.winner == w.winner)
  {
  }

  /** When neither side had reached the target, the side that scores the
      ending point is the winner, with exactly the target score, and the other
      side is still below it. */
  lemma ScorerWins(c: Canvas, w: World, inp: Controls)
    requires Drawn(inp) && w.state == Playing
    requires w.leftScore < w.targetScore && w.rightScore < w.targetScore
    requires Frame(c, w, inp).state == GameOver
    ensures var w' := Frame(c, w, inp);
            && w'.winner == Scorer(Rally(c, w, inp).ball, c)
            && (w'.winner == Some(Left) ==> w'.leftScore == w.targetScore && w'.rightScore < w.targetScore)
            && (w'.winner == Some(Right) ==> w'.rightScore == w.targetScore && w'.leftScore < w.targetScore)
  {
    FrameEndsGame(c, w, inp);
    FrameScoring(c, w, inp);
  }

  /** The round reset after any goal, including the one that ends the game:
      the ball is served from the centre in the direction opposite to the one
      it had when it left, with vertical speed 3 up or down, and both paddles
      are centred. */
  lemma FrameServesAfterGoal(c: Canvas, w: World, inp: Controls)
    requires Drawn(inp) && w.state == Playing
    requires Scorer(Rally(c, w, inp).ball, c).Some?
    ensures var b := Rally(c, w, inp).ball;
            var w' := Frame(c, w, inp);
            && w'.ball.x == c.width / 2.0 && w'.ball.y == c.height / 2.0
            && w'.ball.vx == -b.vx
            && (w'.ball.vy == SERVE_SPEED_Y || w'.ball.vy == -SERVE_SPEED_Y)
            && w'.leftY == PaddleHome(c) && w'.rightY == PaddleHome(c)
  {
  }

  // ---------------------------------------------------------------------
  // Several frames
  // ---------------------------------------------------------------------

  predicate AllDrawn(inputs: seq<Controls>) {
    forall i :: 0 <= i < |inputs| ==> Drawn(inputs[i])
  }

  /** The frames run one after another on the given inputs. */
  function Run(c: Canvas, w: World, inputs: seq<Controls>): World
    requires AllDrawn(inputs)
    decreases |inputs|
  {
    if inputs == [] then w else Run(c, Frame(c, w, inputs[0]), inputs[1..])
  }

  /** Over any number of frames the physical invariant holds, scores never
      decrease, at most one point is scored per frame, and the target score
      and the controllers' tuning stay fixed. */
  lemma {:induction false} RunKeepsSound(c: Canvas, w: World, inputs: seq<Controls>, ballSpeed: real)
    requires AllDrawn(inputs) && Sound(c, w, ballSpeed)
    ensures var w' := Run(c, w, inputs);
            && Sound(c, w', ballSpeed)
            && w'.leftScore >= w.leftScore && w'.rightScore >= w.rightScore
            && w'.leftScore + w'.rightScore <= w.leftScore + w.rightScore + |inputs|
            && w'.targetScore == w.targetScore
    decreases |inputs|
  {
    if inputs != [] {
      FrameKeepsSound(c, w, inputs[0], ballSpeed);
      RunKeepsSound(c, Frame(c, w, inputs[0]), inputs[1..], ballSpeed);
    }
  }

  /** Once the game has left PLAYING, no number of frames changes anything. */
  lemma {:induction false} RunIsFrozenOutsidePlay(c: Canvas, w: World, inputs: seq<Controls>)
    requires AllDrawn(inputs) && w.state != Playing
    ensures Run(c, w, inputs) == w
    decreases |inputs|
  {
    if inputs != [] {
      RunIsFrozenOutsidePlay(c, w, inputs[1..]);
    }
  }

  // ---------------------------------------------------------------------
  // Entering PLAYING
  // ---------------------------------------------------------------------

  /** The world right after entering PLAYING with the settings `s`: paddles
      and ball centred, the ball served with the table's horizontal speed and
      vertical speed 3 in random directions, two fresh controllers of which
      the right one has half the left one's aiming error; scores, the recorded
      winner and the sound count are carried over. */
  function Kickoff(c: Canvas, s: Settings, autoLeft: bool, randomX: real, randomY: real,
                   leftScore: nat, rightScore: nat, winner: Option<Side>, hitSounds: nat): (w: World)
    ensures w.state == Playing && w.targetScore == s.targetScore && w.autoLeft == autoLeft
    ensures w.leftY == PaddleHome(c) && w.rightY == PaddleHome(c)
    ensures w.ball.x == c.width / 2.0 && w.ball.y == c.height / 2.0
    ensures w.ball.vx == s.ballSpeed || w.ball.vx == -s.ballSpeed
    ensures w.ball.vy == SERVE_SPEED_Y || w.ball.vy == -SERVE_SPEED_Y
    ensures w.leftAi == Controller(AiConfig(s.reactionFrames, s.offset, s.aiPaddleSpeed), Idle)
    ensures w.rightAi == Controller(AiConfig(s.reactionFrames, s.offset / 2.0, s.aiPaddleSpeed), Idle)
    ensures s.ballSpeed >= 0.0 ==> Sound(c, w, s.ballSpeed)
  {
    World(Playing,
          Ball(c.width / 2.0, c.height / 2.0,
               if randomX > 0.5 then s.ballSpeed else -s.ballSpeed,
               if randomY > 0.5 then SERVE_SPEED_Y else -SERVE_SPEED_Y),
          PaddleHome(c), PaddleHome(c), leftScore, rightScore, s.targetScore, autoLeft,
          Controller(AiConfig(s.reactionFrames, s.offset, s.aiPaddleSpeed), Idle),
          Controller(AiConfig(s.reactionFrames, s.offset / 2.0, s.aiPaddleSpeed), Idle),
          winner, hitSounds)
  }

  // ---------------------------------------------------------------------
  // The game module's state
  // ---------------------------------------------------------------------

  /** The module-level state of the game: the canvas size, the state machine,
      paddles, ball, scores, the two controllers and the target score. The
      recorded winner stands for the game-over title, and the sound count for
      the hit sounds played. */
  class Pong {
    const canvasWidth: real
    const canvasHeight: real
    var currentState: GameState
    var leftPaddleY: real
    var rightPaddleY: real
    var ballX: real
    var ballY: real
    var ballSpeedX: real
    var ballSpeedY: real
    var leftScore: nat
    var rightScore: nat
    var autoPlayLeft: bool
    var leftAI: PaddleAI?
    var rightAI: PaddleAI?
    var targetScore: int
    var winner: Option<Side>
    var hitSounds: nat
    /** The ball speed of the difficulty of the current (or last) game. */
    ghost var ballSpeed: real

    function Screen(): Canvas {
      Canvas(canvasWidth, canvasHeight)
    }

    function CurrentBall(): Ball
      reads this
    {
      Ball(ballX, ballY, ballSpeedX, ballSpeedY)
    }

    function Snapshot(): World
      reads this, leftAI, rightAI
      requires leftAI != null && rightAI != null
    {
      World(currentState, CurrentBall(), leftPaddleY, rightPaddleY, leftScore, rightScore,
            targetScore, autoPlayLeft,
            Controller(leftAI.Config(), leftAI.State()),
            Controller(rightAI.Config(), rightAI.State()),
            winner, hitSounds)
    }

    /** The controllers exist from the first game on (and always in PLAYING),
        are two distinct objects, and the world they belong to is sound. */
    ghost predicate Valid()
      reads this, leftAI, rightAI
    {
      && (leftAI == null <==> rightAI == null)
      && (currentState == Playing ==> leftAI != null)
      && (leftAI != null ==> leftAI != rightAI && Sound(Screen(), Snapshot(), ballSpeed))
    }

    /** Game initialisation on a canvas: the menu, no game yet. */
    constructor (canvasWidth: real, canvasHeight: real)
      ensures Valid()
      ensures this.canvasWidth == canvasWidth && this.canvasHeight == canvasHeight
      ensures currentState == Menu && leftScore == 0 && rightScore == 0
      ensures !autoPlayLeft && targetScore == 7 && winner == None && hitSounds == 0
      ensures leftAI == null && rightAI == null
    {
      this.canvasWidth := canvasWidth;
      this.canvasHeight := canvasHeight;
      currentState := Menu;
      leftScore, rightScore := 0, 0;
      autoPlayLeft := false;
      targetScore := 7;
      winner := None;
      hitSounds := 0;
      leftAI, rightAI := null, null;
    }

    /** A state transition. Entering PLAYING applies the difficulty (unknown
        keys use "normal"), centres the paddles, serves the ball and builds
        both controllers; the other states only change the state.
        `randomX` and `randomY` stand for the two draws of the serve. */
    method SetGameState(newState: GameState, difficulty: string, autoLeft: bool,
                        randomX: real, randomY: real)
      requires Valid() && InUnit(randomX) && InUnit(randomY)
      modifies this
      ensures Valid()
      ensures currentState == newState
      ensures leftScore == old(leftScore) && rightScore == old(rightScore)
      ensures winner == old(winner) && hitSounds == old(hitSounds)
      ensures newState != Playing ==>
                && leftAI == old(leftAI) && rightAI == old(rightAI)
                && CurrentBall() == old(CurrentBall()) && ballSpeed == old(ballSpeed)
                && leftPaddleY == old(leftPaddleY) && rightPaddleY == old(rightPaddleY)
                && autoPlayLeft == old(autoPlayLeft) && targetScore == old(targetScore)
      ensures newState == Playing ==>
                && leftAI != null && rightAI != null && fresh(leftAI) && fresh(rightAI)
                && ballSpeed == SettingsFor(difficulty).ballSpeed
                && Snapshot() == Kickoff(Screen(), SettingsFor(difficulty), autoLeft, randomX, randomY,
                                         old(leftScore), old(rightScore), old(winner), old(hitSounds))
    {
      currentState := newState;
      if newState == Playing {
        StartGame(SettingsFor(difficulty), autoLeft, randomX, randomY);
      }
    }

    /** The set-up on entering PLAYING. */
    method StartGame(s: Settings, autoLeft: bool, randomX: real, randomY: real)
      requires currentState == Playing && InUnit(randomX) && InUnit(randomY)
      modifies this`autoPlayLeft, this`targetScore, this`ballX, this`ballY, this`ballSpeedX,
               this`ballSpeedY, this`leftPaddleY, this`rightPaddleY, this`ballSpeed,
               this`leftAI, this`rightAI
      ensures leftAI != null && rightAI != null && fresh(leftAI) && fresh(rightAI)
      ensures ballSpeed == s.ballSpeed
      ensures Snapshot() == Kickoff(Screen(), s, autoLeft, randomX, randomY,
                                    leftScore, rightScore, winner, hitSounds)
    {
      autoPlayLeft := autoLeft;
      targetScore := s.targetScore;
      ServeFromCentre(if randomX > 0.5 then s.ballSpeed else -s.ballSpeed, randomY);
      ballSpeed := s.ballSpeed;
      CreateControllers(s);
    }

    /** Paddles and ball to the centre, the ball leaving with horizontal speed
        `speedX` and vertical speed 3 up or down as `randomY` decides. */
    method ServeFromCentre(speedX: real, randomY: real)
      modifies this`ballX, this`ballY, this`ballSpeedX, this`ballSpeedY,
               this`leftPaddleY, this`rightPaddleY
      ensures CurrentBall() == Ball(canvasWidth / 2.0, canvasHeight / 2.0, speedX,
                                    if randomY > 0.5 then SERVE_SPEED_Y else -SERVE_SPEED_Y)
      ensures leftPaddleY == PaddleHome(Screen()) && rightPaddleY == PaddleHome(Screen())
    {
      leftPaddleY := (canvasHeight - PADDLE_HEIGHT) / 2.0;
      rightPaddleY := (canvasHeight - PADDLE_HEIGHT) / 2.0;
      ballX := canvasWidth / 2.0;
      ballY := canvasHeight / 2.0;
      ballSpeedX := speedX;
      ballSpeedY := if randomY > 0.5 then SERVE_SPEED_Y else -SERVE_SPEED_Y;
    }

    /** Two new controllers with the settings' tuning; the right one gets half
        the aiming error. */
    method CreateControllers(s: Settings)
      modifies this`leftAI, this`rightAI
      ensures leftAI != null && rightAI != null && fresh(leftAI) && fresh(rightAI)
      ensures leftAI.Config() == AiConfig(s.reactionFrames, s.offset, s.aiPaddleSpeed)
      ensures rightAI.Config() == AiConfig(s.reactionFrames, s.offset / 2.0, s.aiPaddleSpeed)
      ensures leftAI.State() == Idle && rightAI.State() == Idle
    {
      leftAI := new PaddleAI(s.reactionFrames, s.offset, s.aiPaddleSpeed);
      rightAI := new PaddleAI(s.reactionFrames, s.offset / 2.0, s.aiPaddleSpeed);
    }

    /** Both scores back to zero. */
    method ResetScores()
      requires Valid()
      modifies this`leftScore, this`rightScore
      ensures Valid()
      ensures leftScore == 0 && rightScore == 0
    {
      leftScore := 0;
      rightScore := 0;
    }

    /** One frame of the game; nothing happens outside PLAYING. The held keys
        and the random draws of the frame come in `inp`. */
    method Update(inp: Controls)
      requires Valid() && Drawn(inp)
      modifies this, leftAI, rightAI
      ensures Valid()
      ensures leftAI == old(leftAI) && rightAI == old(rightAI) && ballSpeed == old(ballSpeed)
      ensures old(currentState) != Playing ==>
                unchanged(this) && (leftAI != null ==> unchanged(leftAI, rightAI))
      ensures old(currentState) == Playing ==>
                leftAI != null && rightAI != null && Snapshot() == Frame(Screen(), old(Snapshot()), inp)
    {
      if currentState != Playing {
        return;
      }
      ghost var w0 := Snapshot();
      StepLeftPaddle(inp);
      StepRightPaddle(inp);
      StepBall();
      CheckGoals(inp.serveRandom);
      FrameKeepsSound(Screen(), w0, inp, ballSpeed);
    }

    /** The left paddle's move in a frame: by its controller when automatic,
        by the keys otherwise. */
    method StepLeftPaddle(inp: Controls)
      requires leftAI != null && rightAI != null && leftAI != rightAI && Drawn(inp)
      modifies this`leftPaddleY, leftAI
      ensures Snapshot() == MoveLeftPaddle(Screen(), old(Snapshot()), inp)
    {
      if autoPlayLeft {
        var goingLeft := ballSpeedX < 0.0;
        leftAI.UpdateState(goingLeft);
        if leftAI.active {
          var predictedY := PredictBallY(ballX, ballY, ballSpeedX, ballSpeedY, BALL_RADIUS,
                                         PADDLE_WIDTH, canvasHeight);
          leftPaddleY := leftAI.MovePaddleToTarget(leftPaddleY, PADDLE_HEIGHT, predictedY,
                                                   canvasHeight, inp.leftRandom);
        } else {
          var centerY := canvasHeight / 2.0;
          leftPaddleY := leftAI.MovePaddleToTarget(leftPaddleY, PADDLE_HEIGHT, centerY,
                                                   canvasHeight, inp.leftRandom);
        }
      } else {
        HandleManualInput(inp.upPressed, inp.downPressed);
      }
    }

    /** The right paddle's move in a frame, always by its controller. */
    method StepRightPaddle(inp: Controls)
      requires leftAI != null && rightAI != null && leftAI != rightAI && Drawn(inp)
      modifies this`rightPaddleY, rightAI
      ensures Snapshot() == MoveRightPaddle(Screen(), old(Snapshot()), inp)
    {
      var goingRight := ballSpeedX > 0.0;
      rightAI.UpdateState(goingRight);
      if rightAI.active {
        var predictedY := PredictBallY(ballX, ballY, ballSpeedX, ballSpeedY, BALL_RADIUS,
                                       RightLine(Screen()), canvasHeight);
        rightPaddleY := rightAI.MovePaddleToTarget(rightPaddleY, PADDLE_HEIGHT, predictedY,
                                                   canvasHeight, inp.rightRandom);
      } else {
        var centerY := canvasHeight / 2.0;
        rightPaddleY := rightAI.MovePaddleToTarget(rightPaddleY, PADDLE_HEIGHT, centerY,
                                                   canvasHeight, inp.rightRandom);
      }
    }

    /** The ball's move in a frame: advance, bounce off a wall, off the left
        paddle, off the right paddle, with a hit sound for every bounce. */
    method StepBall()
      requires leftAI != null && rightAI != null
      modifies this`ballX, this`ballY, this`ballSpeedX, this`ballSpeedY, this`hitSounds
      ensures Snapshot() == MoveBall(Screen(), old(Snapshot()))
    {
      AdvanceBall();
      BounceOffWalls();
      BounceOffLeftPaddle();
      BounceOffRightPaddle();
    }

    /** The ball advanced by its velocity. */
    method AdvanceBall()
      requires leftAI != null && rightAI != null
      modifies this`ballX, this`ballY
      ensures Snapshot() == AdvancePhase(old(Snapshot()))
    {
      ballX := ballX + ballSpeedX;
      ballY := ballY + ballSpeedY;
    }

    /** The top and bottom walls. */
    method BounceOffWalls()
      requires leftAI != null && rightAI != null
      modifies this`ballY, this`ballSpeedY, this`hitSounds
      ensures Snapshot() == WallPhase(Screen(), old(Snapshot()))
    {
      if ballY - BALL_RADIUS < 0.0 {
        ballY := BALL_RADIUS;
        ballSpeedY := -ballSpeedY;
        hitSounds := hitSounds + 1;
      } else if ballY + BALL_RADIUS > canvasHeight {
        ballY := canvasHeight - BALL_RADIUS;
        ballSpeedY := -ballSpeedY;
        hitSounds := hitSounds + 1;
      }
    }

    /** The left paddle. */
    method BounceOffLeftPaddle()
      requires leftAI != null && rightAI != null
      modifies this`ballX, this`ballSpeedX, this`ballSpeedY, this`hitSounds
      ensures Snapshot() == LeftPaddlePhase(old(Snapshot()))
    {
      if ballX - BALL_RADIUS < PADDLE_WIDTH && ballY > leftPaddleY && ballY < leftPaddleY + PADDLE_HEIGHT {
        ballX := PADDLE_WIDTH + BALL_RADIUS;
        ballSpeedX := -ballSpeedX;
        var hitPos := ballY - (leftPaddleY + PADDLE_HEIGHT / 2.0);
        ballSpeedY := hitPos * DEFLECTION;
        hitSounds := hitSounds + 1;
      }
    }

    /** The right paddle. */
    method BounceOffRightPaddle()
      requires leftAI != null && rightAI != null
      modifies this`ballX, this`ballSpeedX, this`ballSpeedY, this`hitSounds
      ensures Snapshot() == RightPaddlePhase(Screen(), old(Snapshot()))
    {
      if ballX + BALL_RADIUS > canvasWidth - PADDLE_WIDTH && ballY > rightPaddleY
         && ballY < rightPaddleY + PADDLE_HEIGHT {
        ballX := canvasWidth - PADDLE_WIDTH - BALL_RADIUS;
        ballSpeedX := -ballSpeedX;
        var hitPos := ballY - (rightPaddleY + PADDLE_HEIGHT / 2.0);
        ballSpeedY := hitPos * DEFLECTION;
        hitSounds := hitSounds + 1;
      }
    }

    /** The goal check of a frame: a ball past the left edge is a point for the
        right side, otherwise one past the right edge a point for the left
        side; each goal is followed by the score check and the round reset. */
    method CheckGoals(serveRandom: real)
      requires leftAI != null && rightAI != null
      modifies this`leftScore, this`rightScore, this`currentState, this`winner,
               this`ballX, this`ballY, this`ballSpeedX, this`ballSpeedY,
               this`leftPaddleY, this`rightPaddleY
      ensures Snapshot() == AwardPoint(Screen(), old(Snapshot()), serveRandom)
    {
      if ballX - BALL_RADIUS < 0.0 {
        rightScore := rightScore + 1;
        CheckScore();
        ResetBallPositions(serveRandom);
      } else if ballX + BALL_RADIUS > canvasWidth {
        leftScore := leftScore + 1;
        CheckScore();
        ResetBallPositions(serveRandom);
      }
    }

    /** The score check: GAME_OVER with the winner recorded as soon as a score
        has reached the target. */
    method CheckScore()
      requires leftAI != null && rightAI != null
      modifies this`currentState, this`winner
      ensures Snapshot() == Judge(old(Snapshot()))
    {
      if leftScore >= targetScore || rightScore >= targetScore {
        currentState := GameOver;
        if leftScore > rightScore {
          winner := Some(Left);
        } else {
          winner := Some(Right);
        }
      }
    }

    /** The round reset after a goal: ball at the centre with its horizontal
        direction reversed and a random vertical direction, paddles centred. */
    method ResetBallPositions(serveRandom: real)
      requires leftAI != null && rightAI != null
      modifies this`ballX, this`ballY, this`ballSpeedX, this`ballSpeedY,
               this`leftPaddleY, this`rightPaddleY
      ensures Snapshot() == ResetRound(Screen(), old(Snapshot()), serveRandom)
    {
      ServeFromCentre(-ballSpeedX, serveRandom);
    }

    /** The keyboard control of the left paddle. */
    method HandleManualInput(upPressed: bool, downPressed: bool)
      modifies this`leftPaddleY
      ensures leftPaddleY == ManualMove(old(leftPaddleY), upPressed, downPressed, Screen())
    {
      if upPressed && leftPaddleY > 0.0 {
        leftPaddleY := leftPaddleY - MANUAL_STEP;
      } else if downPressed && leftPaddleY < canvasHeight - PADDLE_HEIGHT {
        leftPaddleY := leftPaddleY + MANUAL_STEP;
      }
    }
  }

  // ---------------------------------------------------------------------
  // Worked examples
  // ---------------------------------------------------------------------

  /** A ball 10 pixels below the centre of a left paddle at y = 250 bounces
      back with vertical speed 0.2 * 10 = 2. */
  lemma LeftPaddleHitExample()
    ensures LeftPaddleBounce(Ball(5.0, 310.0, -5.0, 1.0), 250.0) == Ball(18.0, 310.0, 5.0, 2.0)
  {
  }

  /** A ball that has moved above the top wall of a 600-pixel canvas is put
      back at y = 8 and its vertical speed flips. */
  lemma TopWallExample()
    ensures WallBounce(Ball(405.0, 3.0, 5.0, -3.0), Canvas(800.0, 600.0)) == Ball(405.0, 8.0, 5.0, 3.0)
  {
  }
}
