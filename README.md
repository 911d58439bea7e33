# Flappy Bird game session, modelled in Dafny

This project models the core of a small pygame "Flappy Bird":

- the `Game` session of `code/main.py`;
- the per-sprite update rules of `sprites.py`.

The session is either active or not. It keeps a score, a start offset in milliseconds and the `angle_offset` counter of the menu animation. It holds a plane and two sprite groups: `all_sprites` (background, ground, obstacles and the plane) and `collision_sprites` (ground and obstacles). Each frame the game:

1. handles the pending events (quit, mouse click, obstacle timer);
2. updates every sprite by the elapsed time `dt`;
3. recomputes the score while the session is active;
4. while active, checks for a collision that ends the run; while inactive, steps the menu counter when the R key is held.

The model has four modules, one per file:

- `Geometry` (`geometry.dfy`): pygame's integer `Rect`, Python's `round()` (ties to even) and the truncating conversion of a float to an integer.
- `Sprites` (`sprites.dfy`), after `sprites.py`:
  - The `Sprite` class stands for `BG`, `Ground` and `Obstacle`, told apart by a constant `kind`.
  - The `Plane` class is the plane.
  - The pure step functions (scrolling, gravity, animation, rotation, spawn placement) have lemmas about them.
- `Groups` (`groups.dfy`): pygame groups as sequences of sprites in insertion order.
  - `Without(g, gone)` is the group after `kill()` of the sprites in `gone`.
  - `Solids(g)` is the non-background part of `g`, which is what `collision_sprites` holds.
- `Main` (`game.dfy`), after `code/main.py`:
  - The `Game` class: its fields, the event handlers, the sprite loop of `all_sprites.update`, `collisions`, the score part of `display_score`, the counter step of `draw_koch_snowflake`, and one frame of `run`.
  - The event loop restated as functions of the event sequence: `ActiveAfter` (the session state), `SpawnedDraws` (the draws of the obstacles spawned) and `PlaneAfter` (the plane's state). Lemmas relate them to the events, and the loop is proved to compute them.

Modelling choices:

- Positions and velocities are `real`, an exact stand-in for Python floats.
- Rect coordinates are `int`, obtained from positions by `Round`.
- The plane is held apart from the two sequences. Whether it is still in `all_sprites` is the field `planeAlive`, which the invariant ties to `active`.
- `Obstacle.update` calls `self.kill()` on itself. In the model, `Sprite.Update` reports `expired` and the game's sprite loop kills that sprite at once. Both groups end up the same as with `self.kill()`.
- Inputs from outside are parameters:
  - the clock readings (`ticks`, `dt`);
  - the random draws of an obstacle (`SpawnDraw`, with the `randint` ranges as its validity condition);
  - the window and picture sizes (`Config`);
  - the sprites the pixel-mask test reports as overlapping the plane: `hits` for the sprites that exist before a frame, and `hitsBorn`, indices into the frame's new obstacles, for those spawned during it;
  - whether the R key is held (`keyR`).

## Model

| member | source | states |
|---|---|---|
| Geometry.Round | sprites.py:30 | the result is within one half of the value, and is even when the value lies exactly halfway between two integers (Python's round) |
| Geometry.RoundUnique | sprites.py:30 | those two properties determine the rounded value: any integer that has them is Round(v) |
| Geometry.RoundOfInt | sprites.py:22-23 | rounding a whole number gives it back, so a position copied from a rect's corner rounds back to that corner |
| Geometry.Trunc | sprites.py:67 | for a non-negative value the result is its floor, and for a negative value its ceiling (truncation toward zero) |
| Sprites.ScrollStaysInWindow | sprites.py:25-30 | for dt >= 0, a scrolling layer (background or ground) that starts at or left of 0 stays at or left of 0, and is never further left than half its width plus one frame's scroll |
| Sprites.StepX | sprites.py:25-30 | the definition of pos.x after update(dt) (the same rule at sprites.py:49-54 for the ground and sprites.py:150 for an obstacle): the background and the ground move left by 300*dt or 360*dt and are reset to 0 when the previous rect's centerx is at or left of 0; an obstacle moves left by 400*dt and is never reset; ScrollStaysInWindow and Sprite.Update state its properties |
| Sprites.SpawnRect | sprites.py:131-141 | a new obstacle has the picture's size and its center x is W + jitter, so it lies in [W+40, W+100]; an 'up' obstacle's bottom is H + draw, in [H+10, H+50]; a 'down' obstacle's top is the draw, in [-50, -10] |
| Sprites.Sprite.InitBG | sprites.py:22-23 | the background starts with its rect at top-left (0, 0), its position equal to that corner, and its rect agreeing with the position |
| Sprites.Sprite.InitGround | sprites.py:43-44 | the ground starts with its rect at bottom-left (0, H) and its position at the rect's top-left |
| Sprites.Sprite.InitObstacle | sprites.py:131-143 | an obstacle starts with the rect SpawnRect places and its position at that rect's top-left |
| Sprites.Sprite.Update | sprites.py:148-153 | pos.x moves left by 400*dt for an obstacle, and by 300*dt or 360*dt for a scrolling layer, reset to 0 when the previous rect's centerx is at or left of 0; pos.y and the rect size stay; rect.x becomes the rounded new pos.x; `expired` holds exactly when an obstacle's new rect.right is at or left of -100; a rect that agreed with the position still does |
| Sprites.Fall | sprites.py:91-92 | the definition of one apply_gravity step: the velocity grows by g*dt first, and the new velocity moves pos.y; FallClosedForm gives its closed form over n steps |
| Sprites.FallClosedForm | sprites.py:89-93 | after n gravity steps of the same dt the velocity is v + n*g*dt and the position is y + n*v*dt + n(n+1)/2 * g*dt*dt; the velocity is updated first and the new velocity moves the plane |
| Sprites.TriangleFormula | sprites.py:91-92 | 1 + 2 + ... + n = n(n+1)/2, the sum the gravity steps accumulate |
| Sprites.JumpRises | sprites.py:91-98 | right after a jump, any frame shorter than 2/3 s leaves the velocity negative and moves the plane up |
| Sprites.AnimStep | sprites.py:102-104 | the new frame index is the old index plus 10*dt when that sum is below 3, and exactly 0 when it is 3 or more; so it is always below 3, and non-negative when the old index and dt are |
| Sprites.ShownFrame | sprites.py:105 | the frame that frames[int(frame_index)] selects is one of the three, and for a non-negative index it is the index's integer part |
| Sprites.AnimationStaysInFrames | sprites.py:102-105 | for dt >= 0 and an index in [0, 3), animate keeps the index in [0, 3) and the shown frame in {0, 1, 2} |
| Sprites.RotationAngle | sprites.py:109 | the rotation angle is positive exactly while rising (negative velocity), negative exactly while falling, and zero at rest |
| Sprites.RotationLinear | sprites.py:109 | the angle is linear in the velocity with ratio 3/50, and strictly decreasing in it |
| Sprites.StartRect | sprites.py:67 | the plane's first rect has the picture's size, its left at trunc(W/20) and its vertical middle (top + h//2) at trunc(H/2), as midleft places it |
| Sprites.Plane.constructor | sprites.py:63-72 | a new plane has velocity 0, frame index 0, frame 0, gravity 600 and angle 0, with its rect StartRect's (midleft at (W/20, H/2)) and its position at the rect's top-left |
| Sprites.Plane.ApplyGravity | sprites.py:89-93 | the velocity grows by gravity*dt first and the new velocity moves pos.y; rect.y is the rounded pos.y and nothing else changes |
| Sprites.Plane.Jump | sprites.py:95-98 | the velocity becomes -400 whatever it was (so two jumps equal one) and nothing else changes |
| Sprites.Plane.Animate | sprites.py:100-105 | the frame index takes the AnimStep value; the shown frame follows it, except when int(frame_index) is out of range (an IndexError in the program, then `ok` is false) |
| Sprites.Plane.Rotate | sprites.py:107-111 | the applied angle is RotationAngle of the current velocity and nothing else changes |
| Sprites.Plane.Update | sprites.py:113-117 | gravity, then animation, then rotation (skipped when animate fails); the plane's new state is Flown of its old state, with the velocity grown by gravity*dt first, pos.y moved by the new velocity, rect.y its rounding, the AnimStep frame index, and the frame and angle that index and velocity select; for dt >= 0 it never fails and keeps the plane's invariant |
| Sprites.Flown | sprites.py:113-117 | the definition of the plane's state after update(dt): a Fall step on pos.y and the velocity, rect.y the rounded new pos.y, the AnimStep frame index, and the frame and the angle that index and the new velocity select (unchanged when the index selects no frame); Plane.Update is proved to compute it and FlownShowsFrame states its properties |
| Sprites.FlownShowsFrame | sprites.py:113-117 | for dt >= 0 and a frame index in [0, 3), one update keeps the index in [0, 3), shows frame int(index) (one of 0, 1, 2), applies RotationAngle of the new velocity, and keeps rect.y the rounded pos.y |
| Groups.Without | code/main.py:91 | killing sprites never makes a group longer |
| Groups.WithoutMembers | code/main.py:91 | after kill(), a sprite is in the group exactly when it was in it before and was not killed |
| Groups.Solids | code/main.py:61 | the collision group is never longer than all_sprites |
| Groups.SolidsMembers | code/main.py:61 | collision_sprites holds exactly the members of all_sprites that are not the background |
| Groups.WithoutWithout | code/main.py:89-91 | killing one set of sprites and then another is the same as killing their union |
| Groups.WithoutAppend | code/main.py:89-91 | killing sprites from two groups joined end to end is the same as killing from each and joining the results |
| Groups.SolidsAppend | code/main.py:159 | adding sprites to all_sprites adds their non-background part to collision_sprites |
| Groups.SolidsWithout | code/main.py:91 | kill() keeps the two groups in step: the collision group of the survivors is the survivors of the collision group |
| Groups.WithoutDistinct | code/main.py:91 | killing keeps a group free of duplicates |
| Groups.WithoutObstacles | sprites.py:153 | killing sprites from a group of obstacles leaves a group of obstacles |
| Groups.WithoutKeepsLayout | sprites.py:153 | killing only obstacles keeps the background first, the ground second, and only obstacles after them |
| Groups.WithoutNothing | code/main.py:89-91 | killing sprites that are not in a group leaves it unchanged |
| Groups.WithoutAll | code/main.py:89-91 | killing every member empties a group |
| Groups.ObstaclesInSnoc | code/main.py:89-90 | the obstacles among a group with one more sprite are the old obstacles plus that sprite exactly when it is an obstacle |
| Groups.ObstaclesInSolids | code/main.py:89-90 | the obstacles found in collision_sprites are all the obstacles of all_sprites |
| Groups.KillingObstaclesLeavesScenery | code/main.py:89-91 | killing every obstacle leaves all_sprites as the background and the ground, and collision_sprites as the ground |
| Groups.ClearedScenery | code/main.py:89-93 | killing the obstacles of collision_sprites leaves exactly the background and the ground, still laid out and free of duplicates, and collision_sprites holding just the ground |
| Main.ElapsedSeconds | code/main.py:101 | the score s is the number of whole seconds elapsed: 1000*s <= ticks - start_offset < 1000*s + 1000 (floor division) |
| Main.ScoreMonotone | code/main.py:101 | the score never decreases while the clock does not |
| Main.ScoreStartsAtZero | code/main.py:157 | a run restarted at some tick count scores 0 when scored at the same tick count |
| Main.NextAngle | code/main.py:115-117 | from a counter in [0, 359] the step gives a counter in [0, 359] equal to (a + 1) mod 360 |
| Main.AngleAfterSteps | code/main.py:115-117 | starting from 0, after n steps the counter is n mod 360, so it stays in [0, 359] |
| Main.ActiveAfter | code/main.py:146-157 | the definition of `active` after the event loop: the loop stops at a quit event, and a click sets `active`; ActiveStaysActive and ActiveAfterIff state its properties and HandleEvents is proved to compute it |
| Main.ActiveStaysActive | code/main.py:150-157 | no event makes an active session inactive |
| Main.ActiveAfterIff | code/main.py:146-157 | after the event loop the session is active if and only if it was active before, or a click came before any quit event |
| Main.SpawnedDraws | code/main.py:146-159 | the definition of the draws of the obstacles the event loop spawns, in order: one for each timer event handled while active, none after a quit; InactiveSpawnsNothing, ActiveSpawnsPerTimer and SpawnsAtMostTimers state its properties and HandleEvents is proved to place one obstacle per draw |
| Main.InactiveSpawnsNothing | code/main.py:158-159 | without a click, an inactive session spawns no obstacle and stays inactive |
| Main.StillInactive | code/main.py:150-159 | events that leave an inactive session inactive spawn no obstacle and leave the plane as it was |
| Main.ActiveSpawnsPerTimer | code/main.py:158-159 | an active session without quit events spawns exactly one obstacle per timer event, with that event's draws, in the events' order |
| Main.SpawnsAtMostTimers | code/main.py:158-159 | no event sequence spawns more obstacles than it has timer events |
| Main.StartState | sprites.py:63-72 | the definition of the plane's start state: at rest on frame 0, its rect StartRect's, its position at the rect's top-left, as the Plane constructor leaves it |
| Main.PlaneAfter | code/main.py:146-157 | the definition of the plane's state after the event loop: a click while active sets the velocity to -400, a click while inactive gives a new plane in StartState, other events leave it, and the loop stops at a quit; NoClickKeepsPlane, ActiveClicksOnlyJump and RestartGivesStartPlane state its properties and HandleEvents is proved to compute it |
| Main.NoClickKeepsPlane | code/main.py:150-157 | without a click the event loop leaves the plane's state as it was, whether the session is active or not |
| Main.ActiveClicksOnlyJump | code/main.py:150-152 | while active, clicks only set the velocity to -400: the plane is as it was, or as it was with velocity -400 |
| Main.RestartGivesStartPlane | code/main.py:153-157 | a session the events restart ends the loop with a plane in its start state, possibly with velocity -400 from a later click |
| Main.FoldsStart | code/main.py:146 | before the first event, the state the loop will reach is what the whole event sequence gives |
| Main.FoldsStep | code/main.py:146-159 | handling one more event other than quit moves the session state, the plane state and the spawn list on by that event alone, and the rest of the sequence gives the same outcome |
| Main.FoldsDone | code/main.py:146-149 | when the events run out or a quit comes, the session state, the plane state and the spawn draws so far are exactly what the whole sequence gives, and a quit was met exactly when the loop stopped early |
| Main.SpawnPlace | sprites.py:131-143 | a new obstacle starts at the rect SpawnRect gives, its position at the rect's top-left; so its left lies in [W+40-w//2, W+100-w//2], an 'up' obstacle's bottom (pos.y + h) in [H+10, H+50], a 'down' obstacle's pos.y in [-50, -10], its rect agrees with its rounded position, and, for a non-negative window width, it is not yet past the removal edge |
| Main.SpawnedAppend | code/main.py:158-159 | the obstacles spawned by two runs of the loop, one after the other, are the obstacles spawned by the joined draws |
| Main.StayedPut | code/main.py:146-159 | sprites the event handlers do not touch keep their place |
| Main.GrownByFresh | code/main.py:158-159 | a group grown only by newly made sprites holds at each index either an old member or a new sprite |
| Main.ClearedGroupsOk | code/main.py:89-93 | in well-formed groups, killing the obstacles leaves the first two members of all_sprites and the ground alone in collision_sprites, and the groups stay well formed |
| Main.ReportedMembers | code/main.py:88 | the mask test's report in a frame, Reported, holds exactly the reported old sprites `hits` and the new obstacles whose indices are in `hitsBorn` |
| Main.Overlapping | code/main.py:88 | the definition of a non-empty `spritecollide(plane, group, False, collide_mask)`: some member of the group is among the sprites the mask test reports; Collisions, Advance and Frame state the end of a run with it |
| Main.Game.constructor | code/main.py:49-82 | the session starts active with score 0, start offset 0 and counter 0; all_sprites is a new background with its rect and its position at (0, 0), then a new ground with its rect at bottom-left (0, H) and its position at the rect's top-left (0, H - h); collision_sprites is the ground; the plane is new and in its start state |
| Main.Game.Kill | code/main.py:91 | the sprite leaves both groups and nothing else changes |
| Main.Game.OnMouseButtonDown | code/main.py:150-157 | while active, only the plane's velocity changes, to -400 (pos.x, pos.y, rect, frame index, frame and angle stay); while inactive, a new plane in its start state replaces the old one, the session becomes active and start_offset becomes the click's ticks; the groups and the score stay |
| Main.Game.OnObstacleTimer | code/main.py:158-159 | while active, one new obstacle, placed by SpawnRect with its position at the rect's top-left, is appended to both groups; while inactive nothing changes |
| Main.Game.UpdateOne | code/main.py:163 | one sprite of the sprite loop moves by one update step; exactly when it has passed the removal edge it joins the killed set, and both groups are the originals without the killed set |
| Main.Game.UpdateSprites | code/main.py:163 | each sprite of all_sprites has made exactly one update step, and both groups are the originals without the sprites whose new position has passed the removal edge |
| Main.Game.UpdateGroups | code/main.py:163 | as UpdateSprites, and the groups stay well formed; a sprite survives exactly when it has not passed the removal edge; the background and the ground stay first, and groups without obstacles are unchanged |
| Main.Game.UpdateAll | code/main.py:163 | the sprites move and are killed as UpdateGroups states; a live plane's new state is Flown of its old state; a killed plane is not touched; the session invariant holds |
| Main.Game.DisplayScore | code/main.py:99-105 | while active the score becomes the whole seconds since start_offset; while inactive it keeps its value |
| Main.Game.KillObstacles | code/main.py:89-91 | the loop over collision_sprites kills exactly its obstacles, from both groups |
| Main.Game.EndRun | code/main.py:89-93 | after a collision the session is inactive, the plane is dead, all_sprites is the background and the ground, and collision_sprites is the ground |
| Main.Game.Collisions | code/main.py:88-93 | the run ends (as EndRun states) exactly when the mask test reports an overlap with a member of collision_sprites or the plane's `rect.top <= 0` (at or above the window's top edge); otherwise active, the plane and both groups are unchanged |
| Main.Game.DrawKochSnowflake | code/main.py:115-117 | the counter moves one step, wrapping at 360 |
| Main.Game.HandleEvent | code/main.py:150-159 | one non-quit event: active afterwards iff it was active or the event is a click; the plane's state is PlaneAfter of that event (velocity -400 on a click while active, the start state on a restart, unchanged otherwise); the plane object and start_offset are replaced only on a restart, start_offset then being the click's ticks; both groups grow exactly by the obstacles `born`, new and placed by SpawnPlace from the draws SpawnedDraws gives; the score and the counter stay |
| Main.Game.HandleNext | code/main.py:146-159 | one turn of the event loop keeps the loop's invariant: the session state, the plane state and the spawns so far move on by one event, both groups are still the starting groups followed by the spawned obstacles, and only new sprites are added |
| Main.Game.HandleEvents | code/main.py:146-159 | the loop stops exactly when it meets a quit event; active ends as ActiveAfter says and the plane's state as PlaneAfter says; the plane object and start_offset are replaced only on a restart; both groups grow exactly by the new obstacles `born`, one per draw of SpawnedDraws, each placed by SpawnPlace; the score and the counter stay |
| Main.Game.Advance | code/main.py:161-174 | every sprite of all_sprites makes one update step; in an active session the plane's new state is Flown of the old one, the score is the elapsed seconds, and the session ends exactly when, after the update, the mask test reports an overlap with a surviving member of collision_sprites or the plane's `rect.top <= 0` (at or above the window's top edge): then only the background and the ground are left, and otherwise both groups are the updated groups without the obstacles past the removal edge; an inactive session keeps its score, plane state and groups; the counter steps only when inactive with R held |
| Main.Game.Finish | code/main.py:165-174 | the score is recomputed while active; then the session ends exactly on a collision (as Collisions states) while active, or the counter steps while inactive with R held; no sprite and no plane moves |
| Main.Game.Frame | code/main.py:140-177 | a frame quits exactly when a quit event arrives; otherwise the obstacles `born` are new, one per draw of SpawnedDraws, and have made one update step from their SpawnPlace; the old sprites have made one update step; if the session is active after the events (ActiveAfter), the plane's state is Flown of PlaneAfter's, the score is the elapsed seconds, and the session ends exactly when the mask test reports (as Reported gives it from `hits` and `hitsBorn`) a surviving member of the updated collision_sprites, new obstacles included, or the plane's `rect.top <= 0`, leaving only the background and the ground, while otherwise the groups are the old ones plus `born` without those past the removal edge; if it is inactive after the events, the plane, the score, the start offset and both groups stay; the start offset changes only on a restart, to the click's ticks; the counter steps only when inactive with R held |

## Left out

- Rendering is left out: `fill`, `blit`, `draw`, `display.update`, the font and the score's placement on screen, the menu picture, and the Koch snowflake's geometry and trigonometry. Only the `angle_offset` counter of `draw_koch_snowflake` is modelled.
- Images are left out: loading, scaling, `rotozoom`, `flip`, `mask.from_surface`, `import_frames` and the picture choice `choice((0, 1))`. Picture sizes are parameters (`Config`, `SpawnDraw.width/height`). The plane's current picture and mask are represented by its `frame` and `angle`.
- `collide_mask` is left out. Which sprites the pixel test reports is the parameter `hits` of `Collisions`.
- Sound and music playback are left out.
- The clock is left out: `time.time()` differences, `clock.tick(FRAMERATE)`, and `pygame.time.get_ticks()`. `dt` and the tick counts are parameters of `Frame`.
- The obstacle timer's 1400 ms cadence (`set_timer`) is left out. A timer firing is an incoming `ObstacleTimer` event.
- The settings module is not part of this model. `WINDOW_WIDTH` and `WINDOW_HEIGHT` are `Config` fields, required to be positive.
- The quit event is modelled as `Frame` returning `quit`. Shutting pygame down and `sys.exit()` are left out.
- Python floats are modelled as exact reals. Rounding error in `pos` and `direction` is not modelled.
- The float coordinates W/20 and H/2 given to `get_rect(midleft=...)` are taken to be converted by truncation toward zero (`Trunc`).
- pygame groups are modelled as sequences in insertion order. Their dictionary bookkeeping and a sprite's own list of groups are not modelled.
- The plane's update is done before the background, ground and obstacle updates, while in `all_sprites` it comes third. No update reads another sprite, so the outcome is the same.
- Main.Game.UpdateAll: requires dt >= 0. This is an assumption about the host clock: dt is the difference of two `time.time()` readings, the program does not check its sign, and a wall clock that steps backwards gives a negative dt. The plane's frame index and the scenery invariant depend on it.
- Main.Game.Advance: requires dt >= 0, the same assumption about the host clock as UpdateAll.
- Main.Game.Frame: requires dt >= 0, the same assumption about the host clock as UpdateAll.
- Sprites.ScrollStaysInWindow: stated for dt >= 0 only. With a negative dt a scrolling layer could move right of 0 before its reset.
- Sprites.AnimationStaysInFrames: stated for dt >= 0 only. `Sprites.Plane.Animate` models the out-of-range case as `ok == false`.
