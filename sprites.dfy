/** The sprites of sprites.py: the scrolling background and ground, the
    obstacles, and the plane. Positions and velocities are reals and rects
    are integer Geometry.Rects obtained from the real position by Round. */
module Sprites {
  import opened Geometry

  /** Which of the sprite classes BG, Ground and Obstacle a Sprite is. */
  datatype Kind = BG | Ground | Obstacle

  /** The two obstacle orientations: 'up' rises from below the field,
      'down' hangs from above it (and is drawn flipped). */
  datatype Orientation = Up | Down

  const BackgroundSpeed: real := 300.0
  const GroundSpeed: real := 360.0
  const ObstacleSpeed: real := 400.0
  /** An obstacle whose rect.right is at or left of this is removed. */
  const RemovalEdge: int := -100

  const Gravity: real := 600.0
  const JumpImpulse: real := -400.0
  /** Number of plane animation frames (red0, red1, red2). */
  const FrameCount: int := 3
  const AnimationRate: real := 10.0
  /** The factor 0.06 applied to the velocity to get the rotation angle. */
  const RotationGain: real := 0.06

  /** Leftward speed of a sprite kind, in pixels per second. */
  function Speed(k: Kind): real {
    match k
    case BG => BackgroundSpeed
    case Ground => GroundSpeed
    case Obstacle => ObstacleSpeed
  }

  // ----- Scrolling layers and obstacles -----

  /** pos.x after update(dt). A scrolling layer moves left and is reset to 0
      when the center of its rect, as placed by the previous update, is at or
      left of the window's left edge; an obstacle only moves left. */
  function StepX(k: Kind, x: real, r: Rect, dt: real): real {
    if k != Obstacle && r.CenterX() <= 0 then 0.0 else x - Speed(k) * dt
  }

  /** A scrolling layer never moves right of its start: for dt >= 0 its pos.x
      stays at or below 0, and it only leaves the left edge behind by less
      than half its width plus one frame's motion. */
  lemma ScrollStaysInWindow(k: Kind, x: real, r: Rect, dt: real)
    requires k != Obstacle && 0.0 <= dt && x <= 0.0 && r.x == Round(x)
    ensures StepX(k, x, r, dt) <= 0.0
    ensures -((r.w / 2) as real) - Speed(k) * dt <= StepX(k, x, r, dt)
  {
    assert Speed(k) > 0.0;
    assert 0.0 <= Speed(k) * dt;
  }

  /** The random draws behind one Obstacle: choice(('up', 'down')), the
      randint for x and the randint for y, and the size of the chosen image
      (choice((0, 1)) of two pictures, scaled). */
  datatype SpawnDraw = SpawnDraw(orientation: Orientation, xJitter: int, yDraw: int, width: nat, height: nat) {
    /** The ranges of randint(40, 100), randint(10, 50) and randint(-50, -10),
        bounds included. */
    predicate Valid() {
      && 40 <= xJitter <= 100
      && (orientation == Up ==> 10 <= yDraw <= 50)
      && (orientation == Down ==> -50 <= yDraw <= -10)
    }
  }

  /** Where a new obstacle is placed: its rect is anchored at midbottom
      (x, H + yDraw) when it rises from below and at midtop (x, yDraw) when it
      hangs from above, with x = W + xJitter. */
  function SpawnRect(windowWidth: int, windowHeight: int, d: SpawnDraw): (r: Rect)
    requires d.Valid()
    ensures r.w == d.width && r.h == d.height
    ensures r.CenterX() == windowWidth + d.xJitter
    ensures windowWidth + 40 <= r.CenterX() <= windowWidth + 100
    ensures d.orientation == Up ==> r.Bottom() == windowHeight + d.yDraw
    ensures d.orientation == Up ==> windowHeight + 10 <= r.Bottom() <= windowHeight + 50
    ensures d.orientation == Down ==> r.Top() == d.yDraw && -50 <= r.Top() <= -10
  {
    var x := windowWidth + d.xJitter;
    if d.orientation == Up then Rect(x - d.width / 2, windowHeight + d.yDraw - d.height, d.width, d.height)
    else Rect(x - d.width / 2, d.yDraw, d.width, d.height)
  }

  /** Where a sprite is: its float position and its integer rect. */
  datatype Place = Place(x: real, y: real, rect: Rect)

  /** Where update(dt) takes a sprite of kind k from p: pos.x moves as
      StepX says, pos.y stays, and rect.x is the rounded new pos.x. */
  function StepPlace(k: Kind, p: Place, dt: real): Place {
    var x := StepX(k, p.x, p.rect, dt);
    Place(x, p.y, p.rect.(x := Round(x)))
  }

  /** BG, Ground and Obstacle objects. Their update changes pos.x and then
      rect.x; pos.y and the rect's size never change. */
  class Sprite {
    const kind: Kind
    var posX: real
    var posY: real
    var rect: Rect

    function At(): Place
      reads this
    {
      Place(posX, posY, rect)
    }

    /** An obstacle whose rect.right is at or left of RemovalEdge: the test
        Obstacle.update applies after moving, killing the obstacle. */
    predicate Expired()
      reads this
    {
      kind == Obstacle && rect.Right() <= RemovalEdge
    }

    /** rect is the rounded position. */
    ghost predicate Valid()
      reads this
    {
      rect.x == Round(posX) && rect.y == Round(posY)
    }

    /** BG.__init__: a rect at topleft (0, 0) the size of the doubled
        background picture. */
    constructor InitBG(width: nat, height: nat)
      ensures kind == BG && Valid()
      ensures rect == Rect(0, 0, width, height) && posX == 0.0 && posY == 0.0
    {
      kind := BG;
      rect := Rect(0, 0, width, height);
      posX, posY := 0.0, 0.0;
      new;
      RoundOfInt(0);
    }

    /** Ground.__init__: a rect at bottomleft (0, H). */
    constructor InitGround(windowHeight: int, width: nat, height: nat)
      ensures kind == Ground && Valid()
      ensures rect == Rect(0, windowHeight - height, width, height)
      ensures posX == 0.0 && posY == rect.y as real
    {
      kind := Ground;
      rect := Rect(0, windowHeight - height, width, height);
      posX, posY := 0.0, (windowHeight - height) as real;
      new;
      RoundOfInt(0);
      RoundOfInt(windowHeight - height);
    }

    /** Obstacle.__init__: placed by SpawnRect, pos at the rect's top-left. */
    constructor InitObstacle(windowWidth: int, windowHeight: int, d: SpawnDraw)
      requires d.Valid()
      ensures kind == Obstacle && Valid()
      ensures rect == SpawnRect(windowWidth, windowHeight, d)
      ensures posX == rect.x as real && posY == rect.y as real
    {
      kind := Obstacle;
      var r := SpawnRect(windowWidth, windowHeight, d);
      rect := r;
      posX, posY := r.x as real, r.y as real;
      new;
      RoundOfInt(r.x);
      RoundOfInt(r.y);
    }

    /** BG.update, Ground.update and Obstacle.update. The result tells whether
        an obstacle's new rect.right is at or left of RemovalEdge, the point
        where Obstacle.update kills it. */
    method Update(dt: real) returns (expired: bool)
      modifies this
      ensures posX == StepX(kind, old(posX), old(rect), dt)
      ensures posY == old(posY)
      ensures rect == old(rect).(x := Round(posX))
      ensures expired == Expired()
      ensures At() == StepPlace(kind, old(At()), dt)
      ensures old(Valid()) ==> Valid()
    {
      if kind == Obstacle {
        posX := posX - ObstacleSpeed * dt;
        rect := rect.(x := Round(posX));
        expired := rect.Right() <= RemovalEdge;
      } else {
        posX := posX - Speed(kind) * dt;
        if rect.CenterX() <= 0 {
          posX := 0.0;
        }
        rect := rect.(x := Round(posX));
        expired := false;
      }
    }
  }

  // ----- The plane -----

  /** Vertical position and velocity of the plane. */
  datatype Motion = Motion(y: real, v: real)

  /** apply_gravity: the velocity is updated first and the new velocity moves
      the position (semi-implicit Euler). */
  function Fall(m: Motion, g: real, dt: real): Motion {
    var v := m.v + g * dt;
    Motion(m.y + v * dt, v)
  }

  /** n frames of apply_gravity with the same dt. */
  function FallFrames(m: Motion, g: real, dt: real, n: nat): Motion {
    if n == 0 then m else Fall(FallFrames(m, g, dt, n - 1), g, dt)
  }

  /** The triangular number 1 + 2 + ... + n, as a real. */
  function Triangle(n: nat): real {
    if n == 0 then 0.0 else Triangle(n - 1) + n as real
  }

  /** Gauss's formula: 1 + 2 + ... + n == n(n+1)/2. */
  lemma {:induction false} TriangleFormula(n: nat)
    ensures 2.0 * Triangle(n) == n as real * (n as real + 1.0)
  {
    if n > 0 {
      TriangleFormula(n - 1);
      var k := (n - 1) as real;
      assert 2.0 * Triangle(n) == k * (k + 1.0) + 2.0 * (k + 1.0);
    }
  }

  /** One gravity step on top of k steps, in the closed form's terms. */
  lemma FallStep(y0: real, v0: real, dt: real, a: real, k: real, t: real)
    ensures (v0 + k * a) + a == v0 + (k + 1.0) * a
    ensures (y0 + k * (v0 * dt) + t * (a * dt)) + ((v0 + k * a) + a) * dt
         == y0 + (k + 1.0) * (v0 * dt) + (t + k + 1.0) * (a * dt)
  {
  }

  /** Closed form of n gravity steps: the velocity grows by g*dt per frame and
      the position picks up g*dt*dt times the triangular number n(n+1)/2. */
  lemma {:induction false} FallClosedForm(m: Motion, g: real, dt: real, n: nat)
    ensures FallFrames(m, g, dt, n).v == m.v + n as real * (g * dt)
    ensures FallFrames(m, g, dt, n).y == m.y + n as real * (m.v * dt) + Triangle(n) * (g * dt * dt)
  {
    if n > 0 {
      FallClosedForm(m, g, dt, n - 1);
      FallStep(m.y, m.v, dt, g * dt, (n - 1) as real, Triangle(n - 1));
    }
  }

  /** Right after a jump the plane rises for any frame shorter than 2/3 s,
      since gravity has not yet cancelled the impulse. */
  lemma JumpRises(y: real, dt: real)
    requires 0.0 < dt < 2.0 / 3.0
    ensures Fall(Motion(y, JumpImpulse), Gravity, dt).v < 0.0
    ensures Fall(Motion(y, JumpImpulse), Gravity, dt).y < y
  {
    var v := JumpImpulse + Gravity * dt;
    assert v < 0.0;
    assert v * dt < 0.0;
  }

  /** animate: frame_index advances by 10*dt and restarts at exactly 0 once
      it reaches the number of frames. */
  function AnimStep(fi: real, dt: real): (r: real)
    ensures r < FrameCount as real
    ensures 0.0 <= fi && 0.0 <= dt ==> 0.0 <= r
    ensures r == 0.0 || r == fi + AnimationRate * dt
    ensures fi + AnimationRate * dt < FrameCount as real ==> r == fi + AnimationRate * dt
    ensures fi + AnimationRate * dt >= FrameCount as real ==> r == 0.0
  {
    var f := fi + AnimationRate * dt;
    if f >= FrameCount as real then 0.0 else f
  }

  /** frames[int(frame_index)] is a valid Python index into the three frames
      (negative indices count from the end). */
  predicate FrameInRange(fi: real) {
    -FrameCount <= Trunc(fi) < FrameCount
  }

  /** The position in frames that frames[int(frame_index)] selects. */
  function ShownFrame(fi: real): (k: int)
    requires FrameInRange(fi)
    ensures 0 <= k < FrameCount
    ensures 0.0 <= fi ==> k as real <= fi < k as real + 1.0
  {
    var t := Trunc(fi);
    if t >= 0 then t else t + FrameCount
  }

  /** For dt >= 0 the animation stays on one of the three frames. */
  lemma AnimationStaysInFrames(fi: real, dt: real)
    requires 0.0 <= fi < FrameCount as real && 0.0 <= dt
    ensures 0.0 <= AnimStep(fi, dt) < FrameCount as real
    ensures FrameInRange(AnimStep(fi, dt))
    ensures ShownFrame(AnimStep(fi, dt)) in {0, 1, 2}
  {
  }

  /** The angle rotate() passes to rotozoom: nose up (positive) while rising
      and nose down (negative) while falling. */
  function RotationAngle(direction: real): (a: real)
    ensures a > 0.0 <==> direction < 0.0
    ensures a < 0.0 <==> direction > 0.0
    ensures a == 0.0 <==> direction == 0.0
  {
    -direction * RotationGain
  }

  /** The rotation angle decreases as the plane falls faster, at the fixed
      ratio 3/50 degrees per pixel per second. */
  lemma RotationLinear(d1: real, d2: real)
    ensures RotationAngle(d1) - RotationAngle(d2) == (d2 - d1) * (3.0 / 50.0)
    ensures d1 < d2 ==> RotationAngle(d2) < RotationAngle(d1)
  {
  }

  /** Everything about the plane that its methods change: position, rect,
      velocity, frame index, shown frame and rotation angle. */
  datatype PlaneState = PlaneState(posX: real, posY: real, rect: Rect, direction: real,
                                   frameIndex: real, frame: int, angle: real)

  /** The plane after Plane.update(dt) under gravity g, from state s:
      apply_gravity moves it, animate steps the frame index, and when the new
      index selects a frame, that frame is shown and rotate turns it by the
      new velocity's angle; otherwise frame and angle stay. */
  function Flown(s: PlaneState, g: real, dt: real): PlaneState {
    var m := Fall(Motion(s.posY, s.direction), g, dt);
    var fi := AnimStep(s.frameIndex, dt);
    var shown := FrameInRange(fi);
    PlaneState(s.posX, m.y, s.rect.(y := Round(m.y)), m.v, fi,
               if shown then ShownFrame(fi) else s.frame,
               if shown then RotationAngle(m.v) else s.angle)
  }

  /** For dt >= 0 an update from a frame index in [0, 3) always selects a
      frame, so the plane shows one of its three frames turned by its new
      velocity, its rect agrees with its position, and its frame index stays
      in [0, 3). */
  lemma FlownShowsFrame(s: PlaneState, g: real, dt: real)
    requires 0.0 <= s.frameIndex < FrameCount as real && 0.0 <= dt
    ensures 0.0 <= Flown(s, g, dt).frameIndex < FrameCount as real
    ensures Flown(s, g, dt).frame == ShownFrame(Flown(s, g, dt).frameIndex)
    ensures Flown(s, g, dt).frame in {0, 1, 2}
    ensures Flown(s, g, dt).angle == RotationAngle(Flown(s, g, dt).direction)
    ensures Flown(s, g, dt).rect.y == Round(Flown(s, g, dt).posY)
  {
    AnimationStaysInFrames(s.frameIndex, dt);
  }

  /** The plane's first rect: midleft at (W/20, H/2), the float coordinates
      converted by truncation as pygame does. */
  function StartRect(windowWidth: int, windowHeight: int, width: nat, height: nat): (r: Rect)
    ensures r.w == width && r.h == height
    ensures r.x == Trunc(windowWidth as real / 20.0)
    ensures r.y + r.h / 2 == Trunc(windowHeight as real / 2.0)
  {
    Rect(Trunc(windowWidth as real / 20.0), Trunc(windowHeight as real / 2.0) - height / 2, width, height)
  }

  /** The plane of sprites.py. `frame` is the index of the frame image shown
      and `angle` the rotation last applied to it; together they stand for
      the image and the collision mask built from it. */
  class Plane {
    const gravity: real
    var posX: real
    var posY: real
    var rect: Rect
    var direction: real
    var frameIndex: real
    var frame: int
    var angle: real

    function State(): PlaneState
      reads this
    {
      PlaneState(posX, posY, rect, direction, frameIndex, frame, angle)
    }

    ghost predicate Valid()
      reads this
    {
      && gravity == Gravity
      && rect.y == Round(posY)
      && 0.0 <= frameIndex < FrameCount as real
      && frame == ShownFrame(frameIndex)
    }

    /** Plane.__init__: frame 0, at rest, its rect at midleft (W/20, H/2).
        pygame converts the float coordinates W/20 and H/2 by truncation. */
    constructor (windowWidth: int, windowHeight: int, width: nat, height: nat)
      ensures Valid()
      ensures direction == 0.0 && frameIndex == 0.0 && frame == 0 && angle == 0.0
      ensures gravity == Gravity
      ensures rect == StartRect(windowWidth, windowHeight, width, height)
      ensures posX == rect.x as real && posY == rect.y as real
    {
      gravity := Gravity;
      frameIndex := 0.0;
      frame := 0;
      angle := 0.0;
      direction := 0.0;
      var r := StartRect(windowWidth, windowHeight, width, height);
      rect := r;
      posX, posY := r.x as real, r.y as real;
      new;
      RoundOfInt(r.y);
    }

    /** apply_gravity: velocity first, then position with the new velocity. */
    method ApplyGravity(dt: real)
      modifies this
      ensures direction == old(direction) + gravity * dt
      ensures posY == old(posY) + direction * dt
      ensures Motion(posY, direction) == Fall(Motion(old(posY), old(direction)), gravity, dt)
      ensures rect == old(rect).(y := Round(posY))
      ensures posX == old(posX) && frameIndex == old(frameIndex) && frame == old(frame) && angle == old(angle)
    {
      direction := direction + gravity * dt;
      posY := posY + direction * dt;
      rect := rect.(y := Round(posY));
    }

    /** jump: the velocity becomes the impulse whatever it was, so jumping
        twice is the same as jumping once. The jump sound is left out. */
    method Jump()
      modifies this
      ensures direction == JumpImpulse
      ensures posX == old(posX) && posY == old(posY) && rect == old(rect)
      ensures frameIndex == old(frameIndex) && frame == old(frame) && angle == old(angle)
    {
      direction := JumpImpulse;
    }

    /** animate. `ok` is false when frames[int(frame_index)] is out of range,
        where Python raises IndexError; that needs a negative dt. */
    method Animate(dt: real) returns (ok: bool)
      modifies this
      ensures frameIndex == AnimStep(old(frameIndex), dt)
      ensures ok == FrameInRange(frameIndex)
      ensures ok ==> frame == ShownFrame(frameIndex)
      ensures !ok ==> frame == old(frame)
      ensures posX == old(posX) && posY == old(posY) && rect == old(rect)
      ensures direction == old(direction) && angle == old(angle)
    {
      frameIndex := frameIndex + AnimationRate * dt;
      if frameIndex >= FrameCount as real {
        frameIndex := 0.0;
      }
      ok := FrameInRange(frameIndex);
      if ok {
        frame := ShownFrame(frameIndex);
      }
    }

    /** rotate: the image and mask are rebuilt at angle -direction * 0.06. */
    method Rotate()
      modifies this
      ensures angle == RotationAngle(direction)
      ensures posX == old(posX) && posY == old(posY) && rect == old(rect)
      ensures direction == old(direction) && frameIndex == old(frameIndex) && frame == old(frame)
    {
      angle := RotationAngle(direction);
    }

    /** Plane.update: apply_gravity, animate, rotate. When animate raises,
        rotate does not run. */
    method Update(dt: real) returns (ok: bool)
      modifies this
      ensures Motion(posY, direction) == Fall(Motion(old(posY), old(direction)), gravity, dt)
      ensures rect == old(rect).(y := Round(posY)) && posX == old(posX)
      ensures frameIndex == AnimStep(old(frameIndex), dt)
      ensures ok == FrameInRange(frameIndex)
      ensures ok ==> frame == ShownFrame(frameIndex) && angle == RotationAngle(direction)
      ensures !ok ==> frame == old(frame) && angle == old(angle)
      ensures old(Valid()) && 0.0 <= dt ==> ok && Valid()
      ensures State() == Flown(old(State()), gravity, dt)
    {
      ApplyGravity(dt);
      ok := Animate(dt);
      if ok {
        Rotate();
      }
      if old(Valid()) && 0.0 <= dt {
        AnimationStaysInFrames(old(frameIndex), dt);
      }
    }
  }
}
