/** The Game of code/main.py: a session that is active or not, its score,
    the two sprite groups and the plane, and one frame of the main loop. */
module Main {
  import opened Geometry
  import opened Sprites
  import opened Groups

  /** WINDOW_WIDTH and WINDOW_HEIGHT from the settings module and the sizes
      of the scaled pictures, fixed at start-up. */
  datatype Config = Config(
    width: int, height: int,
    bgWidth: nat, bgHeight: nat,
    groundWidth: nat, groundHeight: nat,
    planeWidth: nat, planeHeight: nat)
  {
    predicate Valid() { width > 0 && height > 0 }
  }

  /** The events the main loop reacts to. A timer event carries the random
      draws the Obstacle it spawns would make. */
  datatype Event = Quit | MouseButtonDown | ObstacleTimer(draw: SpawnDraw) | OtherEvent

  predicate DrawsValid(evs: seq<Event>) {
    forall i :: 0 <= i < |evs| && evs[i].ObstacleTimer? ==> evs[i].draw.Valid()
  }

  // ----- Score and the menu counter -----

  /** The score shown while active: whole seconds since the run started.
      Python's // rounds toward negative infinity, as Dafny's / does for a
      positive divisor. */
  function ElapsedSeconds(ticks: int, startOffset: int): (s: int)
    ensures 1000 * s <= ticks - startOffset < 1000 * s + 1000
  {
    (ticks - startOffset) / 1000
  }

  /** The score never goes down while the clock does not. */
  lemma ScoreMonotone(t1: int, t2: int, startOffset: int)
    requires t1 <= t2
    ensures ElapsedSeconds(t1, startOffset) <= ElapsedSeconds(t2, startOffset)
  {
  }

  /** A run restarted at `ticks` scores 0 when scored at the same ticks. */
  lemma ScoreStartsAtZero(ticks: int)
    ensures ElapsedSeconds(ticks, ticks) == 0
  {
  }

  /** One step of angle_offset in draw_koch_snowflake. */
  function NextAngle(a: int): (r: int)
    ensures 0 <= a < 360 ==> 0 <= r < 360 && r == (a + 1) % 360
  {
    if a + 1 >= 360 then 0 else a + 1
  }

  /** angle_offset after n steps from its initial 0. */
  function AngleAfter(n: nat): int {
    if n == 0 then 0 else NextAngle(AngleAfter(n - 1))
  }

  /** Starting from 0 the counter is the step count modulo 360, so it stays
      in [0, 359]. */
  lemma {:induction false} AngleAfterSteps(n: nat)
    ensures AngleAfter(n) == n % 360
    ensures 0 <= AngleAfter(n) <= 359
  {
    if n > 0 {
      AngleAfterSteps(n - 1);
    }
  }

  // ----- The event loop, as a function of the events -----

  /** `active` after the event loop has handled `evs`; handling stops at a
      quit event. A click while inactive restarts the run. */
  function ActiveAfter(active: bool, evs: seq<Event>): bool
    decreases |evs|
  {
    if evs == [] || evs[0] == Quit then active
    else ActiveAfter(active || evs[0] == MouseButtonDown, evs[1..])
  }

  /** The draws of the obstacles the event loop spawns, in order: one per
      timer event handled while the session is active. */
  function SpawnedDraws(active: bool, evs: seq<Event>): seq<SpawnDraw>
    decreases |evs|
  {
    if evs == [] || evs[0] == Quit then []
    else
      var now := active || evs[0] == MouseButtonDown;
      (if evs[0].ObstacleTimer? && now then [evs[0].draw] else []) + SpawnedDraws(now, evs[1..])
  }

  /** A click comes before any quit event. */
  predicate ClickBeforeQuit(evs: seq<Event>) {
    exists j :: 0 <= j < |evs| && evs[j] == MouseButtonDown && Quit !in evs[..j]
  }

  /** The draws carried by the timer events, in order. */
  function TimerDraws(evs: seq<Event>): seq<SpawnDraw> {
    if evs == [] then []
    else (if evs[0].ObstacleTimer? then [evs[0].draw] else []) + TimerDraws(evs[1..])
  }

  lemma {:induction false} ActiveStaysActive(evs: seq<Event>)
    ensures ActiveAfter(true, evs)
  {
    if evs != [] && evs[0] != Quit {
      ActiveStaysActive(evs[1..]);
    }
  }

  /** The session is active after the event loop iff it was active before or
      a click was handled before any quit. */
  lemma {:induction false} ActiveAfterIff(active: bool, evs: seq<Event>)
    ensures ActiveAfter(active, evs) <==> active || ClickBeforeQuit(evs)
    decreases |evs|
  {
    if evs == [] {
    } else if evs[0] == Quit {
    } else if evs[0] == MouseButtonDown {
      ActiveStaysActive(evs[1..]);
      assert Quit !in evs[..0];
    } else {
      ActiveAfterIff(active, evs[1..]);
      if ClickBeforeQuit(evs) {
        var j :| 0 <= j < |evs| && evs[j] == MouseButtonDown && Quit !in evs[..j];
        assert j > 0;
        assert evs[1..][j - 1] == evs[j];
        assert evs[1..][..j - 1] == evs[..j][1..];
      }
      if ClickBeforeQuit(evs[1..]) {
        var j :| 0 <= j < |evs[1..]| && evs[1..][j] == MouseButtonDown && Quit !in evs[1..][..j];
        assert evs[..j + 1] == [evs[0]] + evs[1..][..j];
        assert evs[j + 1] == MouseButtonDown;
      }
    }
  }

  /** Without a click an inactive session spawns nothing. */
  lemma {:induction false} InactiveSpawnsNothing(evs: seq<Event>)
    requires MouseButtonDown !in evs
    ensures SpawnedDraws(false, evs) == []
    ensures !ActiveAfter(false, evs)
  {
    if evs != [] && evs[0] != Quit {
      assert evs[0] in evs;
      assert forall e :: e in evs[1..] ==> e in evs;
      InactiveSpawnsNothing(evs[1..]);
    }
  }

  /** An active session spawns one obstacle per timer event, with that
      event's draws, until it quits. */
  lemma {:induction false} ActiveSpawnsPerTimer(evs: seq<Event>)
    requires Quit !in evs
    ensures SpawnedDraws(true, evs) == TimerDraws(evs)
  {
    if evs != [] {
      assert evs[0] in evs;
      assert forall e :: e in evs[1..] ==> e in evs;
      ActiveSpawnsPerTimer(evs[1..]);
    }
  }

  /** Never more spawns than timer events. */
  lemma {:induction false} SpawnsAtMostTimers(active: bool, evs: seq<Event>)
    ensures |SpawnedDraws(active, evs)| <= |TimerDraws(evs)|
    decreases |evs|
  {
    if evs != [] && evs[0] != Quit {
      SpawnsAtMostTimers(active || evs[0] == MouseButtonDown, evs[1..]);
    } else if evs != [] {
      SpawnsAtMostTimers(active, evs[1..]);
    }
  }

  /** The plane as Plane.__init__ leaves it for this configuration: at rest
      on frame 0, its rect at midleft (W/20, H/2) and its position at the
      rect's top-left. */
  function StartState(cfg: Config): PlaneState {
    var r := StartRect(cfg.width, cfg.height, cfg.planeWidth, cfg.planeHeight);
    PlaneState(r.x as real, r.y as real, r, 0.0, 0.0, 0, 0.0)
  }

  /** The current plane's state after the event loop has handled `evs`: a
      click while active is a jump, a click while inactive brings a new
      plane in its start state. */
  function PlaneAfter(active: bool, p: PlaneState, cfg: Config, evs: seq<Event>): PlaneState
    decreases |evs|
  {
    if evs == [] || evs[0] == Quit then p
    else if evs[0] == MouseButtonDown then
      PlaneAfter(true, if active then p.(direction := JumpImpulse) else StartState(cfg), cfg, evs[1..])
    else PlaneAfter(active, p, cfg, evs[1..])
  }

  /** Without a click the plane is left as it was. */
  lemma {:induction false} NoClickKeepsPlane(active: bool, p: PlaneState, cfg: Config, evs: seq<Event>)
    requires MouseButtonDown !in evs
    ensures PlaneAfter(active, p, cfg, evs) == p
    decreases |evs|
  {
    if evs != [] && evs[0] != Quit {
      assert evs[0] in evs;
      assert forall e :: e in evs[1..] ==> e in evs;
      NoClickKeepsPlane(active, p, cfg, evs[1..]);
    }
  }

  /** While active, clicks only ever set the velocity to the jump impulse:
      the plane is as it was, or as it was with velocity -400. */
  lemma {:induction false} ActiveClicksOnlyJump(p: PlaneState, cfg: Config, evs: seq<Event>)
    ensures var q := PlaneAfter(true, p, cfg, evs);
      q == p || q == p.(direction := JumpImpulse)
    decreases |evs|
  {
    if evs != [] && evs[0] != Quit {
      if evs[0] == MouseButtonDown {
        var p' := p.(direction := JumpImpulse);
        ActiveClicksOnlyJump(p', cfg, evs[1..]);
        assert p'.(direction := JumpImpulse) == p';
      } else {
        ActiveClicksOnlyJump(p, cfg, evs[1..]);
      }
    }
  }

  /** A session restarted by the events has a plane in its start state,
      possibly with the jump velocity from a later click. */
  lemma {:induction false} RestartGivesStartPlane(p: PlaneState, cfg: Config, evs: seq<Event>)
    requires ActiveAfter(false, evs)
    ensures var q := PlaneAfter(false, p, cfg, evs);
      q == StartState(cfg) || q == StartState(cfg).(direction := JumpImpulse)
    decreases |evs|
  {
    if evs[0] == MouseButtonDown {
      ActiveClicksOnlyJump(StartState(cfg), cfg, evs[1..]);
    } else {
      RestartGivesStartPlane(p, cfg, evs[1..]);
    }
  }

  /** Events that leave an inactive session inactive hold no handled click,
      so they spawn nothing and leave the plane as it was. */
  lemma {:induction false} StillInactive(p: PlaneState, cfg: Config, evs: seq<Event>)
    requires !ActiveAfter(false, evs)
    ensures PlaneAfter(false, p, cfg, evs) == p
    ensures SpawnedDraws(false, evs) == []
    decreases |evs|
  {
    if evs != [] && evs[0] != Quit {
      if evs[0] == MouseButtonDown {
        ActiveStaysActive(evs[1..]);
      } else {
        StillInactive(p, cfg, evs[1..]);
      }
    }
  }

  /** Part way through the event loop, at index i, from session state
      `active0` and plane state `plane0`: no quit has been met, `drawn` are
      the draws spawned so far, and the folds of the whole sequence are the
      folds of the events left from the current state `active` and `p`. */
  predicate FoldsSoFar(events: seq<Event>, i: int, active0: bool, plane0: PlaneState, cfg: Config,
                       drawn: seq<SpawnDraw>, active: bool, p: PlaneState)
  {
    && 0 <= i <= |events|
    && Quit !in events[..i]
    && ActiveAfter(active0, events) == ActiveAfter(active, events[i..])
    && SpawnedDraws(active0, events) == drawn + SpawnedDraws(active, events[i..])
    && PlaneAfter(active0, plane0, cfg, events) == PlaneAfter(active, p, cfg, events[i..])
  }

  /** Before the first event the folds are those of the whole sequence. */
  lemma FoldsStart(events: seq<Event>, active: bool, p: PlaneState, cfg: Config)
    ensures FoldsSoFar(events, 0, active, p, cfg, [], active, p)
  {
    assert events[..0] == [] && events[0..] == events;
  }

  /** Once the events are used up or a quit comes, the folds are done: the
      current state and the draws so far are the folds of the whole
      sequence. */
  lemma FoldsDone(events: seq<Event>, i: int, active0: bool, plane0: PlaneState, cfg: Config,
                  drawn: seq<SpawnDraw>, active: bool, p: PlaneState)
    requires FoldsSoFar(events, i, active0, plane0, cfg, drawn, active, p)
    requires i == |events| || events[i] == Quit
    ensures ActiveAfter(active0, events) == active
    ensures SpawnedDraws(active0, events) == drawn
    ensures PlaneAfter(active0, plane0, cfg, events) == p
    ensures Quit in events <==> i < |events|
  {
    if i == |events| {
      assert events[i..] == [];
      assert events[..i] == events;
    } else {
      assert events[i..][0] == Quit;
      assert events[i] in events;
    }
  }

  /** Handling one more event other than quit moves the folds on by that
      event alone. */
  lemma FoldsStep(events: seq<Event>, i: int, active0: bool, plane0: PlaneState, cfg: Config,
                  drawn: seq<SpawnDraw>, active: bool, p: PlaneState)
    requires FoldsSoFar(events, i, active0, plane0, cfg, drawn, active, p)
    requires i < |events| && events[i] != Quit
    ensures FoldsSoFar(events, i + 1, active0, plane0, cfg, drawn + SpawnedDraws(active, [events[i]]),
                       active || events[i] == MouseButtonDown, PlaneAfter(active, p, cfg, [events[i]]))
  {
    var e := events[i];
    var rest := events[i..];
    assert rest[0] == e && rest[1..] == events[i + 1..];
    assert [e][1..] == [];
    assert events[..i + 1] == events[..i] + [e];
    var now := active || e == MouseButtonDown;
    var d := SpawnedDraws(active, [e]);
    assert SpawnedDraws(now, []) == [];
    assert d == (if e.ObstacleTimer? && now then [e.draw] else []) + [];
    assert SpawnedDraws(active, rest) == d + SpawnedDraws(now, rest[1..]);
    assert drawn + (d + SpawnedDraws(now, rest[1..])) == (drawn + d) + SpawnedDraws(now, rest[1..]);
  }

  // ----- The session -----

  /** spritecollide(plane, group, False, collide_mask) is non-empty: the mask
      test reports an overlap with some member of the group. */
  predicate Overlapping(g: seq<Sprite>, hits: set<Sprite>) {
    exists s :: s in g && s in hits
  }

  /** What the mask test reports in a frame: `hits` among the sprites that
      were there before the frame, and the obstacles the frame's events
      spawned whose indices in `born` are in `hitsBorn`. */
  function Reported(hits: set<Sprite>, born: seq<Sprite>, hitsBorn: set<int>): set<Sprite>
    decreases |born|
  {
    if born == [] then hits
    else
      var n := |born| - 1;
      Reported(hits, born[..n], hitsBorn) + (if n in hitsBorn then {born[n]} else {})
  }

  /** The report holds `hits` and exactly the new obstacles whose indices
      are in `hitsBorn`. */
  lemma {:induction false} ReportedMembers(hits: set<Sprite>, born: seq<Sprite>, hitsBorn: set<int>, s: Sprite)
    ensures s in Reported(hits, born, hitsBorn) <==>
      s in hits || exists j :: 0 <= j < |born| && j in hitsBorn && born[j] == s
    decreases |born|
  {
    if born != [] {
      var n := |born| - 1;
      ReportedMembers(hits, born[..n], hitsBorn, s);
      if exists j :: 0 <= j < |born[..n]| && j in hitsBorn && born[..n][j] == s {
        var j :| 0 <= j < |born[..n]| && j in hitsBorn && born[..n][j] == s;
        assert born[j] == s;
      }
      if exists j :: 0 <= j < |born| && j in hitsBorn && born[j] == s {
        var j :| 0 <= j < |born| && j in hitsBorn && born[j] == s;
        if j < n {
          assert born[..n][j] == s;
        }
      }
    }
  }

  /** The members of g that have passed the removal edge. */
  ghost function PastEdge(g: seq<Sprite>): set<Sprite>
    reads g
  {
    set s | s in g && s.Expired()
  }

  /** Where each member of g is, in group order. */
  ghost function Places(g: seq<Sprite>): (r: seq<Place>)
    reads g
    ensures |r| == |g|
    ensures forall j :: 0 <= j < |g| ==> r[j] == g[j].At()
  {
    if g == [] then [] else [g[0].At()] + Places(g[1..])
  }

  /** Part way through the sprite loop: the members of g before index i have
      made their update(dt) from where `before` has them, and exactly those
      of them that passed the removal edge are in `gone`; the rest are still
      where they were and not in `gone`. */
  ghost predicate Progress(g: seq<Sprite>, before: seq<Place>, gone: set<Sprite>, i: int, dt: real)
    reads g
  {
    && |before| == |g| && 0 <= i <= |g|
    && (forall j :: 0 <= j < i ==> g[j].At() == StepPlace(g[j].kind, before[j], dt) && (g[j] in gone <==> g[j].Expired()))
    && (forall j :: i <= j < |g| ==> g[j].At() == before[j] && g[j] !in gone)
    && (forall s :: s in gone ==> s in g)
  }

  /** The two groups: all_sprites holds the background, the ground and the
      obstacles, each once; collision_sprites is exactly its non-background
      part in the same order; every sprite's rect agrees with its position;
      the scrolling scenery never starts to the right of the window's edge. */
  ghost predicate GroupsOk(all: seq<Sprite>, collision: seq<Sprite>)
    reads all
  {
    && Layout(all)
    && Distinct(all)
    && collision == Solids(all)
    && (forall s :: s in all ==> s.Valid())
    && (forall s :: s in all && s.kind != Obstacle ==> s.posX <= 0.0)
  }

  /** Killing every obstacle keeps the groups well formed and leaves the
      scenery alone. */
  lemma ClearedGroupsOk(all: seq<Sprite>, collision: seq<Sprite>)
    requires GroupsOk(all, collision)
    ensures Without(all, ObstaclesIn(collision)) == all[..2]
    ensures Without(collision, ObstaclesIn(collision)) == [all[1]]
    ensures GroupsOk(all[..2], [all[1]])
  {
    ClearedScenery(all);
    assert forall s :: s in all[..2] ==> s in all;
  }

  /** A plane as Plane.__init__ leaves it for this configuration. */
  ghost predicate StartPlane(p: Plane, cfg: Config)
    reads p
  {
    p.Valid() && p.State() == StartState(cfg)
  }

  /** Where a new obstacle with these draws starts: at the rect SpawnRect
      places, with its position at the rect's top-left. */
  function SpawnPlace(cfg: Config, d: SpawnDraw): (p: Place)
    requires d.Valid()
    ensures p.rect == SpawnRect(cfg.width, cfg.height, d)
    ensures p.x == p.rect.x as real && p.y == p.rect.y as real
    ensures Round(p.x) == p.rect.x && Round(p.y) == p.rect.y
    ensures cfg.width + 40 - d.width / 2 <= p.rect.x <= cfg.width + 100 - d.width / 2
    ensures d.orientation == Up ==>
      (cfg.height + 10) as real <= p.y + d.height as real <= (cfg.height + 50) as real
    ensures d.orientation == Down ==> -50.0 <= p.y <= -10.0
    ensures 0 <= cfg.width ==> RemovalEdge < p.rect.Right()
  {
    var r := SpawnRect(cfg.width, cfg.height, d);
    RoundOfInt(r.x);
    RoundOfInt(r.y);
    Place(r.x as real, r.y as real, r)
  }

  /** The sprites `born` are new obstacles made with the draws `draws`, one
      each in the same order, still where they were placed. */
  ghost predicate Spawned(born: seq<Sprite>, draws: seq<SpawnDraw>, cfg: Config)
    reads born
  {
    && |born| == |draws|
    && forall j :: 0 <= j < |born| ==>
         draws[j].Valid() && born[j].kind == Obstacle && born[j].At() == SpawnPlace(cfg, draws[j])
  }

  /** Spawned obstacles of two runs of the event loop, one after the other. */
  lemma SpawnedAppend(a: seq<Sprite>, da: seq<SpawnDraw>, b: seq<Sprite>, db: seq<SpawnDraw>, cfg: Config)
    requires Spawned(a, da, cfg) && Spawned(b, db, cfg)
    ensures Spawned(a + b, da + db, cfg)
  {
    forall j | 0 <= j < |a + b|
      ensures (da + db)[j].Valid() && (a + b)[j].kind == Obstacle && (a + b)[j].At() == SpawnPlace(cfg, (da + db)[j])
    {
      if j >= |a| {
        assert (a + b)[j] == b[j - |a|] && (da + db)[j] == db[j - |a|];
      }
    }
  }

  /** The sprites `born` are new obstacles made with the draws `draws`, one
      each in the same order, that have since made one update(dt) from
      where they were placed. */
  ghost predicate Moved(born: seq<Sprite>, draws: seq<SpawnDraw>, cfg: Config, dt: real)
    reads born
  {
    && |born| == |draws|
    && forall j :: 0 <= j < |born| ==>
         && draws[j].Valid() && born[j].kind == Obstacle
         && born[j].At() == StepPlace(Obstacle, SpawnPlace(cfg, draws[j]), dt)
  }

  /** A group grown only by new sprites holds, at every index, an old
      member or a new sprite. */
  twostate lemma GrownByFresh(g: seq<Sprite>, new born: seq<Sprite>)
    requires forall s :: s in born ==> fresh(s)
    ensures forall j :: 0 <= j < |g + born| ==> (g + born)[j] in g || fresh((g + born)[j])
  {
    forall j | 0 <= j < |g + born|
      ensures (g + born)[j] in g || fresh((g + born)[j])
    {
      if j >= |g| {
        assert (g + born)[j] == born[j - |g|] && born[j - |g|] in born;
      }
    }
  }

  /** Sprites no step has touched are where they were. */
  twostate lemma StayedPut(g: seq<Sprite>)
    requires unchanged(g)
    ensures forall s :: s in g ==> s.At() == old(s.At())
  {
  }

  /** Growing a group at its end leaves its first two members in place. */
  lemma AppendKeepsFront(a: seq<Sprite>, b: seq<Sprite>)
    requires 2 <= |a|
    ensures (a + b)[..2] == a[..2] && (a + b)[1] == a[1]
  {
  }

  /** Appending a sequence in two steps is appending both at once. */
  lemma AppendTwice<T>(a: seq<T>, b: seq<T>, c: seq<T>)
    ensures a + b + c == a + (b + c)
  {
  }

  class Game {
    const cfg: Config
    var active: bool
    var score: int
    var startOffset: int
    var angleOffset: int
    var plane: Plane
    /** Whether the current plane is still in all_sprites (not killed). */
    var planeAlive: bool
    /** all_sprites without the plane. */
    var allSprites: seq<Sprite>
    var collisionSprites: seq<Sprite>

    /** The session invariant: the groups hold the background, the ground and
        the obstacles, collision_sprites is exactly the non-background part of
        all_sprites, the plane is alive exactly while the session is active,
        and no obstacle exists while it is inactive. */
    ghost predicate Valid()
      reads this, plane, allSprites
    {
      && cfg.Valid()
      && GroupsOk(allSprites, collisionSprites)
      && plane.Valid()
      && planeAlive == active
      && (!active ==> |allSprites| == 2)
      && 0 <= angleOffset < 360
    }

    /** Game.__init__: background, ground and a plane; active, score 0. */
    constructor (cfg: Config)
      requires cfg.Valid()
      ensures Valid()
      ensures this.cfg == cfg && active && score == 0 && startOffset == 0 && angleOffset == 0
      ensures |allSprites| == 2 && fresh(allSprites[0]) && fresh(allSprites[1])
      ensures allSprites[0].At() == Place(0.0, 0.0, Rect(0, 0, cfg.bgWidth, cfg.bgHeight))
      ensures allSprites[1].At() ==
        Place(0.0, (cfg.height - cfg.groundHeight) as real,
              Rect(0, cfg.height - cfg.groundHeight, cfg.groundWidth, cfg.groundHeight))
      ensures fresh(plane) && StartPlane(plane, cfg)
    {
      this.cfg := cfg;
      var bg := new Sprite.InitBG(cfg.bgWidth, cfg.bgHeight);
      var ground := new Sprite.InitGround(cfg.height, cfg.groundWidth, cfg.groundHeight);
      allSprites := [bg, ground];
      collisionSprites := [ground];
      SolidsAppend([bg], [ground]);
      plane := new Plane(cfg.width, cfg.height, cfg.planeWidth, cfg.planeHeight);
      planeAlive := true;
      active := true;
      score, startOffset, angleOffset := 0, 0, 0;
    }

    /** sprite.kill(): remove the sprite from both groups. */
    method Kill(s: Sprite)
      modifies this
      ensures allSprites == Without(old(allSprites), {s})
      ensures collisionSprites == Without(old(collisionSprites), {s})
      ensures active == old(active) && planeAlive == old(planeAlive) && plane == old(plane)
      ensures score == old(score) && startOffset == old(startOffset) && angleOffset == old(angleOffset)
    {
      allSprites := Without(allSprites, {s});
      collisionSprites := Without(collisionSprites, {s});
    }

    /** A mouse click: the plane jumps while active; otherwise the run
        restarts with a new plane, and the score clock restarts at `ticks`. */
    method OnMouseButtonDown(ticks: int)
      requires Valid()
      modifies this, plane
      ensures Valid()
      ensures active && planeAlive
      ensures allSprites == old(allSprites) && collisionSprites == old(collisionSprites)
      ensures score == old(score) && angleOffset == old(angleOffset)
      ensures old(active) ==> plane == old(plane) && startOffset == old(startOffset)
      ensures old(active) ==> plane.direction == JumpImpulse
      ensures old(active) ==> && plane.posX == old(plane.posX) && plane.posY == old(plane.posY)
                              && plane.rect == old(plane.rect) && plane.frameIndex == old(plane.frameIndex)
                              && plane.frame == old(plane.frame) && plane.angle == old(plane.angle)
      ensures !old(active) ==> fresh(plane) && StartPlane(plane, cfg) && startOffset == ticks
    {
      if active {
        plane.Jump();
      } else {
        plane := new Plane(cfg.width, cfg.height, cfg.planeWidth, cfg.planeHeight);
        planeAlive := true;
        active := true;
        startOffset := ticks;
      }
    }

    /** The obstacle timer: while active, one new obstacle joins both groups;
        while inactive nothing happens. */
    method OnObstacleTimer(d: SpawnDraw)
      requires Valid() && d.Valid()
      modifies this
      ensures Valid()
      ensures old(active) ==>
        && |allSprites| == |old(allSprites)| + 1
        && var o := allSprites[|allSprites| - 1];
        && fresh(o) && o.kind == Obstacle
        && o.rect == SpawnRect(cfg.width, cfg.height, d)
        && o.posX == o.rect.x as real && o.posY == o.rect.y as real
        && o.At() == SpawnPlace(cfg, d)
        && allSprites == old(allSprites) + [o]
        && collisionSprites == old(collisionSprites) + [o]
      ensures !old(active) ==> allSprites == old(allSprites) && collisionSprites == old(collisionSprites)
      ensures active == old(active) && planeAlive == old(planeAlive) && plane == old(plane)
      ensures score == old(score) && startOffset == old(startOffset) && angleOffset == old(angleOffset)
    {
      if active {
        var o := new Sprite.InitObstacle(cfg.width, cfg.height, d);
        SolidsAppend(allSprites, [o]);
        allSprites := allSprites + [o];
        collisionSprites := collisionSprites + [o];
      }
    }

    /** One turn of the sprite loop: the sprite at index i moves, and is
        killed at once if it has passed the removal edge. */
    method UpdateOne(sprite: Sprite, dt: real, ghost group: seq<Sprite>, ghost solids: seq<Sprite>,
                     ghost before: seq<Place>, ghost gone: set<Sprite>, ghost i: int)
      returns (expired: bool)
      requires Distinct(group) && 0 <= i < |group| && group[i] == sprite
      requires Progress(group, before, gone, i, dt)
      requires allSprites == Without(group, gone) && collisionSprites == Without(solids, gone)
      modifies this, sprite
      ensures expired == sprite.Expired()
      ensures var gone' := gone + (if expired then {sprite} else {});
        && Progress(group, before, gone', i + 1, dt)
        && allSprites == Without(group, gone')
        && collisionSprites == Without(solids, gone')
      ensures plane == old(plane) && active == old(active) && planeAlive == old(planeAlive)
      ensures score == old(score) && startOffset == old(startOffset) && angleOffset == old(angleOffset)
    {
      expired := sprite.Update(dt);
      if expired {
        Kill(sprite);
        WithoutWithout(group, gone, {sprite});
        WithoutWithout(solids, gone, {sprite});
      } else {
        assert gone + {} == gone;
      }
    }

    /** The sprite loop of all_sprites.update(dt): every sprite of the
        group moves once, and each obstacle that passes the removal edge is
        killed as soon as it has moved. */
    method UpdateSprites(dt: real)
      requires Distinct(allSprites)
      modifies this, allSprites
      ensures plane == old(plane) && active == old(active) && planeAlive == old(planeAlive)
      ensures score == old(score) && startOffset == old(startOffset) && angleOffset == old(angleOffset)
      ensures forall s :: s in old(allSprites) ==> s.At() == StepPlace(s.kind, old(s.At()), dt)
      ensures allSprites == Without(old(allSprites), PastEdge(old(allSprites)))
      ensures collisionSprites == Without(old(collisionSprites), PastEdge(old(allSprites)))
    {
      var group := allSprites;
      ghost var solids := collisionSprites;
      ghost var before := Places(group);
      ghost var gone: set<Sprite> := {};
      WithoutNothing(group, {});
      WithoutNothing(solids, {});
      var i := 0;
      while i < |group|
        invariant group == old(allSprites) && solids == old(collisionSprites)
        invariant plane == old(plane) && active == old(active) && planeAlive == old(planeAlive)
        invariant score == old(score) && startOffset == old(startOffset) && angleOffset == old(angleOffset)
        invariant Progress(group, before, gone, i, dt)
        invariant allSprites == Without(group, gone)
        invariant collisionSprites == Without(solids, gone)
      {
        var expired := UpdateOne(group[i], dt, group, solids, before, gone, i);
        gone := gone + (if expired then {group[i]} else {});
        i := i + 1;
      }
      forall s | s in group
        ensures s.At() == StepPlace(s.kind, old(s.At()), dt) && (s in gone <==> s.Expired())
      {
        var j :| 0 <= j < |group| && group[j] == s;
      }
      assert gone == PastEdge(group);
    }

    /** The sprites' share of all_sprites.update(dt): they move, expired
        obstacles are killed, and the groups stay well formed. */
    method UpdateGroups(dt: real)
      requires GroupsOk(allSprites, collisionSprites) && 0.0 <= dt
      modifies this, allSprites
      ensures GroupsOk(allSprites, collisionSprites)
      ensures allSprites[..2] == old(allSprites)[..2]
      ensures |old(allSprites)| == 2 ==> allSprites == old(allSprites) && collisionSprites == old(collisionSprites)
      ensures plane == old(plane) && active == old(active) && planeAlive == old(planeAlive)
      ensures score == old(score) && startOffset == old(startOffset) && angleOffset == old(angleOffset)
      ensures forall s :: s in old(allSprites) ==> s.At() == StepPlace(s.kind, old(s.At()), dt)
      ensures allSprites == Without(old(allSprites), PastEdge(old(allSprites)))
      ensures collisionSprites == Without(old(collisionSprites), PastEdge(old(allSprites)))
      ensures forall s :: s in old(allSprites) ==> (s in allSprites <==> !s.Expired())
    {
      ghost var group := allSprites;
      UpdateSprites(dt);
      ghost var leaving := PastEdge(group);
      WithoutMembers(group, leaving);
      WithoutKeepsLayout(group, leaving);
      WithoutDistinct(group, leaving);
      SolidsWithout(group, leaving);
      if |group| == 2 {
        assert allSprites == allSprites[..2];
      }
      forall s | s in allSprites
        ensures s.Valid() && (s.kind != Obstacle ==> s.posX <= 0.0)
      {
        if s.kind != Obstacle {
          ScrollStaysInWindow(s.kind, old(s.posX), old(s.rect), dt);
        }
      }
    }

    /** all_sprites.update(dt): the sprites move and expired obstacles are
        killed; the plane, while alive (the third member of all_sprites in
        the program), falls, animates and rotates. */
    method UpdateAll(dt: real)
      requires Valid() && 0.0 <= dt
      modifies this, plane, allSprites
      ensures Valid()
      ensures plane == old(plane) && active == old(active) && planeAlive == old(planeAlive)
      ensures score == old(score) && startOffset == old(startOffset) && angleOffset == old(angleOffset)
      ensures forall s :: s in old(allSprites) ==> s.At() == StepPlace(s.kind, old(s.At()), dt)
      ensures allSprites == Without(old(allSprites), PastEdge(old(allSprites)))
      ensures collisionSprites == Without(old(collisionSprites), PastEdge(old(allSprites)))
      ensures forall s :: s in old(allSprites) ==> (s in allSprites <==> !s.Expired())
      ensures allSprites[..2] == old(allSprites)[..2] && allSprites[1] == old(allSprites)[1]
      ensures |old(allSprites)| == 2 ==> allSprites == old(allSprites) && collisionSprites == old(collisionSprites)
      ensures planeAlive ==> plane.State() == Flown(old(plane.State()), Gravity, dt)
      ensures !planeAlive ==> unchanged(plane)
    {
      // The plane's update reads and writes only the plane, so where it
      // sits in the group order does not change the outcome.
      if planeAlive {
        var ok := plane.Update(dt);
      }
      UpdateGroups(dt);
    }

    /** The score part of display_score: recomputed while active, frozen
        otherwise. */
    method DisplayScore(ticks: int)
      requires Valid()
      modifies this`score
      ensures Valid()
      ensures score == if active then ElapsedSeconds(ticks, startOffset) else old(score)
    {
      if active {
        score := ElapsedSeconds(ticks, startOffset);
      }
    }

    /** The kill loop of collisions: every obstacle of collision_sprites
        is killed, one after the other. */
    method KillObstacles()
      modifies this
      ensures allSprites == Without(old(allSprites), ObstaclesIn(old(collisionSprites)))
      ensures collisionSprites == Without(old(collisionSprites), ObstaclesIn(old(collisionSprites)))
      ensures active == old(active) && planeAlive == old(planeAlive) && plane == old(plane)
      ensures score == old(score) && startOffset == old(startOffset) && angleOffset == old(angleOffset)
    {
      var group := collisionSprites;
      ghost var all := allSprites;
      ghost var gone: set<Sprite> := {};
      WithoutNothing(all, {});
      WithoutNothing(group, {});
      var i := 0;
      while i < |group|
        invariant 0 <= i <= |group|
        invariant gone == ObstaclesIn(group[..i])
        invariant allSprites == Without(all, gone)
        invariant collisionSprites == Without(group, gone)
        invariant active == old(active) && planeAlive == old(planeAlive) && plane == old(plane)
        invariant score == old(score) && startOffset == old(startOffset) && angleOffset == old(angleOffset)
      {
        var sprite := group[i];
        assert group[..i + 1] == group[..i] + [sprite];
        ObstaclesInSnoc(group[..i], sprite);
        if sprite.kind == Obstacle {
          Kill(sprite);
          WithoutWithout(all, gone, {sprite});
          WithoutWithout(group, gone, {sprite});
          gone := gone + {sprite};
        }
        i := i + 1;
      }
      assert group[..|group|] == group;
    }

    /** collisions: on an overlap reported by the mask test, or with the
        plane's top at or above the window's top edge, every obstacle is
        killed, the session ends and the plane is killed. */
    method Collisions(hits: set<Sprite>)
      requires Valid()
      modifies this
      ensures Valid()
      ensures var fired := Overlapping(old(collisionSprites), hits) || old(plane.rect).Top() <= 0;
        && (fired ==> && !active && !planeAlive
                      && allSprites == old(allSprites)[..2]
                      && collisionSprites == [old(allSprites)[1]])
        && (!fired ==> && active == old(active) && planeAlive == old(planeAlive)
                       && allSprites == old(allSprites) && collisionSprites == old(collisionSprites))
      ensures plane == old(plane) && score == old(score) && startOffset == old(startOffset)
      ensures angleOffset == old(angleOffset)
    {
      if Overlapping(collisionSprites, hits) || plane.rect.Top() <= 0 {
        EndRun();
      }
    }

    /** The end of a run: every obstacle is killed, then the session ends
        and the plane is killed. Only the scenery is left in the groups. */
    method EndRun()
      requires Valid()
      modifies this
      ensures Valid()
      ensures !active && !planeAlive
      ensures allSprites == old(allSprites)[..2] && collisionSprites == [old(allSprites)[1]]
      ensures plane == old(plane) && score == old(score) && startOffset == old(startOffset)
      ensures angleOffset == old(angleOffset)
    {
      ClearedGroupsOk(allSprites, collisionSprites);
      KillObstacles();
      active := false;
      planeAlive := false;
    }

    /** The angle_offset step of draw_koch_snowflake; the drawing is left out. */
    method DrawKochSnowflake()
      requires Valid()
      modifies this`angleOffset
      ensures Valid()
      ensures angleOffset == NextAngle(old(angleOffset))
    {
      angleOffset := angleOffset + 1;
      if angleOffset >= 360 {
        angleOffset := 0;
      }
    }

    /** One event other than quit: a click goes to OnMouseButtonDown, a
        timer event to OnObstacleTimer, and anything else is ignored. The
        obstacles it spawns are `born`. */
    method HandleEvent(e: Event, ticks: int) returns (ghost born: seq<Sprite>)
      requires Valid() && e != Quit && (e.ObstacleTimer? ==> e.draw.Valid())
      modifies this, plane
      ensures Valid()
      ensures active == (old(active) || e == MouseButtonDown)
      ensures plane.State() == PlaneAfter(old(active), old(plane.State()), cfg, [e])
      ensures !old(active) && e == MouseButtonDown ==> fresh(plane) && startOffset == ticks
      ensures old(active) || e != MouseButtonDown ==> plane == old(plane) && startOffset == old(startOffset)
      ensures allSprites == old(allSprites) + born && collisionSprites == old(collisionSprites) + born
      ensures Spawned(born, SpawnedDraws(old(active), [e]), cfg)
      ensures forall s :: s in born ==> fresh(s)
      ensures score == old(score) && angleOffset == old(angleOffset)
    {
      assert [e][1..] == [];
      born := [];
      if e == MouseButtonDown {
        OnMouseButtonDown(ticks);
      } else if e.ObstacleTimer? {
        OnObstacleTimer(e.draw);
        if old(active) {
          born := [allSprites[|allSprites| - 1]];
        }
      }
    }

    /** One turn of the event loop, at index i and not at a quit event:
        HandleEvent on events[i], with the folds moved on by that event. The
        obstacles spawned so far are `born`, made with the draws `drawn`,
        on top of the groups `all0` and `solids0` the loop started from. */
    method HandleNext(events: seq<Event>, i: int, ticks: int, ghost a0: bool, ghost p0: PlaneState,
                      ghost all0: seq<Sprite>, ghost solids0: seq<Sprite>,
                      ghost born: seq<Sprite>, ghost drawn: seq<SpawnDraw>)
      returns (ghost born': seq<Sprite>, ghost drawn': seq<SpawnDraw>)
      requires Valid() && DrawsValid(events)
      requires FoldsSoFar(events, i, a0, p0, cfg, drawn, active, plane.State())
      requires i < |events| && events[i] != Quit
      requires allSprites == all0 + born && collisionSprites == solids0 + born
      requires Spawned(born, drawn, cfg)
      modifies this, plane
      ensures Valid()
      ensures FoldsSoFar(events, i + 1, a0, p0, cfg, drawn', active, plane.State())
      ensures allSprites == all0 + born' && collisionSprites == solids0 + born'
      ensures Spawned(born', drawn', cfg)
      ensures forall s :: s in born' ==> s in born || fresh(s)
      ensures active == (old(active) || events[i] == MouseButtonDown)
      ensures old(active) || events[i] != MouseButtonDown ==> plane == old(plane) && startOffset == old(startOffset)
      ensures !old(active) && events[i] == MouseButtonDown ==> fresh(plane) && startOffset == ticks
      ensures score == old(score) && angleOffset == old(angleOffset)
    {
      var e := events[i];
      FoldsStep(events, i, a0, p0, cfg, drawn, active, plane.State());
      ghost var d := SpawnedDraws(active, [e]);
      ghost var more := HandleEvent(e, ticks);
      SpawnedAppend(born, drawn, more, d, cfg);
      AppendTwice(all0, born, more);
      AppendTwice(solids0, born, more);
      born', drawn' := born + more, drawn + d;
    }

    /** The event loop of one frame. Handling stops at a quit event, where
        the program exits. The obstacles it spawns are `born`. */
    method HandleEvents(events: seq<Event>, ticks: int) returns (quit: bool, ghost born: seq<Sprite>)
      requires Valid() && DrawsValid(events)
      modifies this, plane
      ensures Valid()
      ensures quit <==> Quit in events
      ensures active == ActiveAfter(old(active), events)
      ensures plane.State() == PlaneAfter(old(active), old(plane.State()), cfg, events)
      ensures plane == old(plane) || fresh(plane)
      ensures old(active) || !active ==> plane == old(plane) && startOffset == old(startOffset)
      ensures !old(active) && active ==> fresh(plane) && startOffset == ticks
      ensures allSprites == old(allSprites) + born && collisionSprites == old(collisionSprites) + born
      ensures Spawned(born, SpawnedDraws(old(active), events), cfg)
      ensures forall s :: s in born ==> fresh(s)
      ensures score == old(score) && angleOffset == old(angleOffset)
    {
      quit := false;
      born := [];
      ghost var drawn: seq<SpawnDraw> := [];
      var i := 0;
      FoldsStart(events, active, plane.State(), cfg);
      while i < |events| && !quit
        invariant Valid()
        invariant FoldsSoFar(events, i, old(active), old(plane.State()), cfg, drawn, active, plane.State())
        invariant quit ==> i < |events| && events[i] == Quit
        invariant allSprites == old(allSprites) + born && collisionSprites == old(collisionSprites) + born
        invariant Spawned(born, drawn, cfg)
        invariant forall s :: s in born ==> fresh(s)
        invariant old(active) ==> active
        invariant old(active) || !active ==> plane == old(plane) && startOffset == old(startOffset)
        invariant !old(active) && active ==> fresh(plane) && startOffset == ticks
        invariant score == old(score) && angleOffset == old(angleOffset)
        decreases |events| - i, if quit then 0 else 1
      {
        if events[i] == Quit {
          quit := true;
        } else {
          born, drawn := HandleNext(events, i, ticks, old(active), old(plane.State()),
                                    old(allSprites), old(collisionSprites), born, drawn);
          i := i + 1;
        }
      }
      FoldsDone(events, i, old(active), old(plane.State()), cfg, drawn, active, plane.State());
    }

    /** The rest of a frame once the events are handled:
        all_sprites.update(dt), then the score, then the collision check if
        the session is active, or else the menu counter while the R key is
        held. The collision check sees the groups and the plane as the
        update left them. */
    method Advance(dt: real, scoreTicks: int, hits: set<Sprite>, keyR: bool)
      requires Valid() && 0.0 <= dt
      modifies this, plane, allSprites
      ensures Valid()
      ensures plane == old(plane) && startOffset == old(startOffset)
      ensures forall s :: s in old(allSprites) ==> s.At() == StepPlace(s.kind, old(s.At()), dt)
      ensures old(active) ==> plane.State() == Flown(old(plane.State()), Gravity, dt)
      ensures old(active) ==> score == ElapsedSeconds(scoreTicks, startOffset)
      ensures old(active) ==>
        (!active <==> Overlapping(Without(old(collisionSprites), PastEdge(old(allSprites))), hits) || plane.rect.Top() <= 0)
      ensures old(active) && !active ==> allSprites == old(allSprites)[..2] && collisionSprites == [old(allSprites)[1]]
      ensures old(active) && active ==>
        && allSprites == Without(old(allSprites), PastEdge(old(allSprites)))
        && collisionSprites == Without(old(collisionSprites), PastEdge(old(allSprites)))
      ensures !old(active) ==>
        && !active && score == old(score) && plane.State() == old(plane.State())
        && allSprites == old(allSprites) && collisionSprites == old(collisionSprites)
      ensures angleOffset == if !old(active) && keyR then NextAngle(old(angleOffset)) else old(angleOffset)
    {
      UpdateAll(dt);
      Finish(scoreTicks, hits, keyR, old(allSprites));
    }

    /** What follows all_sprites.update(dt) in a frame: display_score, then
        collisions while active, or else the menu counter while the R key is
        held. Neither touches the plane or a sprite, so where the members
        of any group `g` are, and which of them are past the removal edge,
        stays as it was. */
    method Finish(scoreTicks: int, hits: set<Sprite>, keyR: bool, ghost g: seq<Sprite>)
      requires Valid()
      modifies this
      ensures Valid()
      ensures plane == old(plane) && startOffset == old(startOffset)
      ensures plane.State() == old(plane.State())
      ensures forall s :: s in g ==> s.At() == old(s.At())
      ensures PastEdge(g) == old(PastEdge(g))
      ensures old(active) ==> score == ElapsedSeconds(scoreTicks, startOffset)
      ensures old(active) ==> (!active <==> Overlapping(old(collisionSprites), hits) || plane.rect.Top() <= 0)
      ensures old(active) && !active ==> allSprites == old(allSprites)[..2] && collisionSprites == [old(allSprites)[1]]
      ensures old(active) && active ==> allSprites == old(allSprites) && collisionSprites == old(collisionSprites)
      ensures !old(active) ==>
        && !active && score == old(score)
        && allSprites == old(allSprites) && collisionSprites == old(collisionSprites)
      ensures angleOffset == if !old(active) && keyR then NextAngle(old(angleOffset)) else old(angleOffset)
    {
      DisplayScore(scoreTicks);
      if active {
        Collisions(hits);
      } else if keyR {
        DrawKochSnowflake();
      }
    }

    /** One iteration of run: the events, then the rest of the frame. A quit
        event ends the program before anything else happens. The obstacles
        the events spawn are `born`; the sprites that were there and the new
        ones all move once, and the collision check, while the session is
        active after the events, sees the moved groups and plane. The mask
        test's report is `hits` for the sprites that were there and
        `hitsBorn`, indices into `born`, for the new obstacles. */
    method Frame(events: seq<Event>, dt: real, eventTicks: int, scoreTicks: int,
                 hits: set<Sprite>, hitsBorn: set<int>, keyR: bool)
      returns (quit: bool, ghost born: seq<Sprite>)
      requires Valid() && 0.0 <= dt && DrawsValid(events)
      modifies this, plane, allSprites
      ensures Valid()
      ensures quit <==> Quit in events
      ensures !quit ==> Moved(born, SpawnedDraws(old(active), events), cfg, dt)
      ensures !quit ==> forall s :: s in born ==> fresh(s)
      ensures !quit ==> forall s :: s in old(allSprites) ==> s.At() == StepPlace(s.kind, old(s.At()), dt)
      ensures !quit && ActiveAfter(old(active), events) ==>
        && plane.State() == Flown(PlaneAfter(old(active), old(plane.State()), cfg, events), Gravity, dt)
        && score == ElapsedSeconds(scoreTicks, startOffset)
      ensures !quit && ActiveAfter(old(active), events) ==>
        (!active <==> || Overlapping(Without(old(collisionSprites) + born, PastEdge(old(allSprites) + born)),
                                         Reported(hits, born, hitsBorn))
                      || plane.rect.Top() <= 0)
      ensures !quit && ActiveAfter(old(active), events) && !active ==>
        allSprites == old(allSprites)[..2] && collisionSprites == [old(allSprites)[1]]
      ensures !quit && ActiveAfter(old(active), events) && active ==>
        && allSprites == Without(old(allSprites) + born, PastEdge(old(allSprites) + born))
        && collisionSprites == Without(old(collisionSprites) + born, PastEdge(old(allSprites) + born))
      ensures !quit && !ActiveAfter(old(active), events) ==>
        && !active && plane == old(plane) && plane.State() == old(plane.State())
        && score == old(score) && startOffset == old(startOffset)
        && allSprites == old(allSprites) && collisionSprites == old(collisionSprites)
      ensures !quit && old(active) ==> startOffset == old(startOffset)
      ensures !quit && !old(active) && ActiveAfter(old(active), events) ==> startOffset == eventTicks
      ensures !quit ==>
        angleOffset == if !ActiveAfter(old(active), events) && keyR then NextAngle(old(angleOffset)) else old(angleOffset)
    {
      var before := |allSprites|;
      quit, born := HandleEvents(events, eventTicks);
      var spawned := allSprites[before..];
      assert spawned == born;
      if quit {
        return;
      }
      if old(active) {
        ActiveStaysActive(events);
      } else if !active {
        StillInactive(old(plane.State()), cfg, events);
      }
      StayedPut(old(allSprites));
      GrownByFresh(old(allSprites), born);
      AppendKeepsFront(old(allSprites), born);
      Advance(dt, scoreTicks, Reported(hits, spawned, hitsBorn), keyR);
    }
  }
}
