# Booger Blaster: a model of the game core in Dafny

Booger Blaster is a browser arcade game. Bugs fly across an 800 x 600
canvas. The player aims along the bottom edge and fires boogers straight
up, and each bug hit is worth the points of its kind. A round is meant
to last 30 seconds (see "Left out" for why the code as written restarts it). A controller component keeps the game phase, the score, the best
score so far, and an end-of-round comment fetched from a remote service.

This project models four units of that code and proves properties of
them:

- `input_system.dfy` (module `Input`): the gesture interpreter. It is a
  three-state machine (IDLE, RUBBING, FLICKING) over drag samples. It
  keeps a 300 ms sliding window of samples and reports rub distances. On
  release it decides between a flick and a plain release from the oldest
  and newest samples. The arithmetic follows IEEE rules on the few values
  that can arise: a division by a zero time gives an infinity or NaN.
- `physics_system.dfy` (module `Physics`): the booger charger. It holds
  one optional booger. Rubbing grows its radius up to a cap and adds to a
  stress counter, and too much stress ends in a nosebleed. The module also
  has the gravity step for boogers in flight.
- `game_canvas.dfy` (module `Canvas`): the per-frame simulation. This
  covers the weighted bug table and spawning, the round timer, bug motion
  and despawn, booger motion, collision and scoring, explosions and
  particle decay, the round reset and the aim clamp.
- `app.dfy` (module `Controller`): the round controller with its
  start-game and game-over handlers.

`types.dfy` holds the shared records and constants. `randomness.dfy`
models `Math.random` as a fixed stream of draws in [0, 1) with a cursor.
Draws are taken in the order the original evaluates them.

Each stateful unit is a class whose fields are the original's fields or
refs. Its methods have the original's loops and are proved equal to
specification functions on values. The properties the game relies on are
proved as lemmas about those functions. They include:

- the type bands of the bug table;
- spawn geometry;
- explosion bounds;
- the forEach-with-splice sweep of the bugs, including the bug it skips;
- the reverse collision search;
- the scoring invariants of a frame;
- particle lifetimes;
- when the round ends;
- the behaviour of the best score and of the loading flag.

Outside inputs become parameters:

- the clock (`performance.now` and the animation-frame timestamp);
- `Math.sin` (a function `sin`);
- `Math.sqrt` (a function `sqrt` constrained to be a square root);
- the comment text the remote service returns.

JavaScript numbers are exact reals.

## Model

| member | source | states |
|---|---|---|
| Input.WindowMembership | services/InputSystem.ts:63-64 | a sample is in the filtered history exactly when it was in the history and is less than 300 ms old |
| Input.WindowConcat | services/InputSystem.ts:64 | the filter keeps the samples' order: filtering a concatenation is concatenating the filtered parts |
| Input.WindowKeepsRecent | services/InputSystem.ts:64 | a history whose samples are all recent is kept whole |
| Input.WindowSlides | services/InputSystem.ts:60-64 | filtering at one instant and then at a later one equals filtering once at the later one |
| Input.Recent | services/InputSystem.ts:64 | a sample taken at the current instant is recent, and a recent sample is less than 300 ms old |
| Input.Window | services/InputSystem.ts:64 | the 300 ms filter never lengthens the history and keeps only samples less than 300 ms old |
| Input.Add | services/InputSystem.ts:100 | adding JS numbers: finite plus finite is their exact sum, NaN on either side gives NaN, and an infinity only comes from an infinite operand |
| Input.Root | services/InputSystem.ts:100 | `Math.sqrt` of a non-negative finite number is finite, of +Infinity is +Infinity, of -Infinity, a negative number or NaN is NaN |
| Input.Greater | services/InputSystem.ts:105 | the strict comparison with the threshold is false for NaN, true for +Infinity and false for -Infinity |
| Input.Divide | services/InputSystem.ts:98-99 | the velocity division is finite exactly for a non-zero time and then times the time gives the displacement; 0/0 is NaN; otherwise an infinity with the displacement's sign |
| Input.Square | services/InputSystem.ts:100 | a squared component is never negative, and an infinite one squares to +Infinity |
| Input.Classify | services/InputSystem.ts:89-114 | a release always fires a callback, and with fewer than two retained samples it is a plain release |
| Input.SquaredDistance | services/InputSystem.ts:67-71 | a squared step is never negative and is positive exactly when the drag moved on some axis |
| Input.FiniteSpeed | services/InputSystem.ts:100-105 | for finite velocity components the speed is finite and non-negative, squares to the squared velocity, and beats the threshold exactly when the squared velocity beats the squared threshold |
| Input.ClassifyTimed | services/InputSystem.ts:89-111 | with oldest and newest samples at different instants, the velocity is finite, times the elapsed seconds it gives the displacement, and the release is a flick exactly when the squared speed beats the squared threshold; a flick reports that velocity and a speed above the threshold |
| Input.ClassifySameInstant | services/InputSystem.ts:94-111 | with oldest and newest samples at the same instant, the release is a flick exactly when both axes moved, and then the components are signed infinities and the speed is +Infinity |
| Input.InputSystem.constructor | services/InputSystem.ts:12-21 | the interpreter starts IDLE with no drag, no rub distance and a flick threshold of 300 |
| Input.InputSystem.StartDrag | services/InputSystem.ts:38-49 | pressing enters RUBBING with zero rub distance and a drag whose start and current point are the press position and whose history is that one sample |
| Input.InputSystem.UpdateDrag | services/InputSystem.ts:51-76 | outside RUBBING nothing changes and no rub fires; while rubbing the current point moves, the new sample is appended and the history cut to the 300 ms window, and a rub fires exactly when the drag moved, with the step's length, which is added to the accumulated distance |
| Input.InputSystem.EndDrag | services/InputSystem.ts:78-115 | releasing always returns to IDLE with no drag and zero distance; outside RUBBING no callback fires, otherwise the callback is the flick classification of the retained history |
| Input.InputSystem.Reset | services/InputSystem.ts:117-121 | the interpreter returns to IDLE with no drag and zero rub distance |
| Physics.GrowStep | services/PhysicsSystem.ts:33-48 | without a booger nothing changes and the result is OK; with one, the stress grows by the amount, the result is NOSEBLEED exactly when the stress exceeds 1000, and then the slot is empty; otherwise only the radius changes, it stays within 40 and does not shrink for a non-negative amount |
| Physics.GrowAllEmpty | services/PhysicsSystem.ts:34 | once the slot is empty, any further rubbing changes nothing |
| Physics.Fresh | services/PhysicsSystem.ts:18-31 | a new booger has radius 10, within the cap, and no velocity or spin |
| Physics.Grow | services/PhysicsSystem.ts:33-48 | one growBooger call never creates a booger and keeps the radius within 40 |
| Physics.GrowAll | services/PhysicsSystem.ts:33-48 | a run of growBooger calls never creates a booger and keeps the radius within 40 |
| Physics.Step | services/PhysicsSystem.ts:65-76 | one physics step changes only position, vertical speed and spin; its arithmetic is the n = 1 case of `FlyClosedForm` |
| Physics.Fly | services/PhysicsSystem.ts:62-87 | repeated physics steps change only position, vertical speed and spin |
| Physics.NosebleedIffOverLimit | services/PhysicsSystem.ts:36-42 | over a session of non-negative rubs, the booger is lost exactly when the starting stress plus the total rubbed exceeds 1000 |
| Physics.RadiusAfterSession | services/PhysicsSystem.ts:36-45 | while the booger survives a session, its radius is the starting radius plus 0.05 per unit rubbed, capped at 40, and the stress is the starting stress plus the total rubbed |
| Physics.FlyClosedForm | services/PhysicsSystem.ts:65-76 | after n equal steps the booger has moved uniformly across, its vertical speed has grown by gravity each step, its height follows the discrete parabola with triangular-number gravity term, and its spin is linear in n |
| Physics.PhysicsSystem.constructor | services/PhysicsSystem.ts:5-12 | the charger starts with an empty slot and zero stress |
| Physics.PhysicsSystem.CreateBooger | services/PhysicsSystem.ts:18-31 | the slot holds a fresh booger at the point with radius 10, no velocity and no spin, the stress is zero, and the booger is returned |
| Physics.PhysicsSystem.GrowBooger | services/PhysicsSystem.ts:33-48 | the slot, the stress and the result change exactly as one growBooger step on the value |
| Physics.PhysicsSystem.LaunchBooger | services/PhysicsSystem.ts:50-60 | with a booger in the slot its velocity becomes the flick velocity and nothing else changes; without one nothing happens |
| Physics.PhysicsSystem.Update | services/PhysicsSystem.ts:62-87 | every booger of the array is stepped once, gravity then move then spin, and none is removed or reordered |
| Physics.PhysicsSystem.GetBooger | services/PhysicsSystem.ts:89-91 | returns the booger in the slot, if any |
| Physics.PhysicsSystem.Clear | services/PhysicsSystem.ts:93-96 | the slot is empty and the stress zero, whatever they were |
| Canvas.KindBands | components/GameCanvas.tsx:45-90 | every roll in [0, 1) picks exactly the kind whose band holds it, and the bands are 35%, 20%, 15%, 15%, 12% and 3% wide |
| Canvas.KindOf | components/GameCanvas.tsx:45-89 | every roll in [0, 1) gives the kind whose probability band holds it |
| Canvas.Lower | components/GameCanvas.tsx:54-89 | the lower cut-off of each kind's roll band lies in [0, 1) |
| Canvas.Upper | components/GameCanvas.tsx:54-89 | the upper cut-off of each kind's roll band lies above its lower one and at most 1 |
| Canvas.InBand | components/GameCanvas.tsx:54-89 | a roll in a kind's band lies between its cut-offs and in [0, 1) |
| Canvas.ProfileOf | components/GameCanvas.tsx:45-90 | every kind has a positive radius, speed, score and wobble speed |
| Canvas.Angle | components/GameCanvas.tsx:106 | a draw scaled by two pi lies in [0, 2 pi) |
| Canvas.Height | components/GameCanvas.tsx:92 | a spawn height lies in [50, 350) |
| Canvas.Spread | components/GameCanvas.tsx:33-34 | a particle velocity component lies in [-4, 4) |
| Canvas.Size | components/GameCanvas.tsx:35 | a particle radius lies in [2, 6) |
| Canvas.SpawnEntry | components/GameCanvas.tsx:92-108 | a spawned bug has its kind's profile, enters just beyond the left edge heading right or just beyond the right edge heading left at its kind's speed, has no vertical speed, starts in [50, 350) and has a wobble phase in [0, 2 pi) |
| Canvas.Spawned | components/GameCanvas.tsx:92-108 | a spawned bug is worth its kind's positive points, has no vertical speed, and heads right exactly when it starts left of the canvas and left exactly when it starts right of it |
| Canvas.ShardsGrow | components/GameCanvas.tsx:28-40 | each pass of the explosion loop appends one particle made from the next four draws |
| Canvas.ShardsFresh | components/GameCanvas.tsx:27-41 | every explosion particle starts at the hit point with its color, full life, velocity within [-4, 4) on each axis and radius within [2, 6) |
| Canvas.Shard | components/GameCanvas.tsx:29-39 | with draws in [0, 1), a particle's velocity lies in [-4, 4) on each axis and its radius in [2, 6) |
| Canvas.Shards | components/GameCanvas.tsx:27-41 | the explosion loop makes exactly as many particles as asked |
| Canvas.MoveBug | components/GameCanvas.tsx:237-240 | a bug move changes only its position: x moves by its horizontal speed, and y by a wobble of at most half a pixel when sine stays in [-1, 1] |
| Canvas.Drift | components/GameCanvas.tsx:240 | the wobble step is at most half a pixel either way when sine stays in [-1, 1] |
| Canvas.Gone | components/GameCanvas.tsx:313 | a bug within 50 px of the canvas horizontally is never despawned, and a despawned bug is moving |
| Canvas.Remove | components/GameCanvas.tsx:314 | `splice(i, 1)` drops the element at i, keeps those before it and moves those after it down by one |
| Canvas.Sweep | components/GameCanvas.tsx:236-316 | the bug sweep never adds bugs |
| Canvas.SweepKeepsPrefix | components/GameCanvas.tsx:236-316 | the sweep never touches the bugs before its index |
| Canvas.SweepMovesAll | components/GameCanvas.tsx:236-240 | when no bug leaves the screen, every bug is moved exactly once and stays in place |
| Canvas.SweepSkipsNext | components/GameCanvas.tsx:313-314 | when a bug leaves the screen, the bug after it slides into the passed index and is not moved that frame |
| Canvas.SweepScoring | components/GameCanvas.tsx:236-316 | the sweep keeps every remaining bug's points positive |
| Canvas.SweepRef | components/GameCanvas.tsx:236-316 | an independent left-to-right description of the sweep, one bug at a time: a visited bug is moved and dropped if gone, and a drop makes the next bug skipped unmoved; it never adds bugs |
| Canvas.SweepIsRef | components/GameCanvas.tsx:236-316 | the forEach with its in-loop splice, from any index, leaves the bugs before that index and then exactly that description of the rest |
| Canvas.LastHit | components/GameCanvas.tsx:346-361 | the reverse search finds the highest-indexed bug the booger overlaps, no bug after it overlaps, and it finds none exactly when no bug overlaps |
| Canvas.Overlap | components/GameCanvas.tsx:348-350 | a booger and a bug that collide lie within the sum of their radii on both axes |
| Canvas.Closer | components/GameCanvas.tsx:349-350 | a distance under the bound puts each axis within the bound |
| Canvas.SplatColorCases | components/GameCanvas.tsx:352 | the explosion color is gold exactly for the golden beetle and the splat color for every other kind |
| Canvas.ProcessBooger | components/GameCanvas.tsx:319-363 | one booger iteration removes at most that booger and leaves the boogers before it alone |
| Canvas.BoogerOutcome | components/GameCanvas.tsx:319-363 | a booger that moves off the top, past y = -20, is removed with no collision test; otherwise the last overlapping bug is hit, the score rises by its points and is reported, both are removed, and the explosion appended is the eight shards at that bug in its splat color (gold for the golden beetle) made from the next 32 draws; a booger that hits nothing stays, moved |
| Canvas.ProcessKeeps | components/GameCanvas.tsx:345-361 | one booger iteration keeps bugs' points positive and the reports increasing; a hit removes one bug and reports a higher score, otherwise score and bugs are unchanged |
| Canvas.PassScores | components/GameCanvas.tsx:319-363 | over the booger loop the score never drops, the reports increase with the new score last, one bug is removed per score reported, and without reports the score is unchanged |
| Canvas.PassExtends | components/GameCanvas.tsx:353-354 | the booger loop only appends reports, each above the score it started from |
| Canvas.BoogerPass | components/GameCanvas.tsx:319-363 | the booger loop, last to first, never adds boogers or bugs |
| Canvas.PassDraws | components/GameCanvas.tsx:319-363 | the booger loop draws exactly 32 random numbers per score it reports, and no others |
| Canvas.FadeAllAlive | components/GameCanvas.tsx:366-375 | every particle kept by a frame has life left and is a faded particle of the frame before |
| Canvas.Fade | components/GameCanvas.tsx:368-370 | a particle frame changes only position and life, and life strictly drops |
| Canvas.FadeAll | components/GameCanvas.tsx:366-375 | the particle loop never adds particles |
| Canvas.FadeAllKeepsLiving | components/GameCanvas.tsx:366-375 | every particle whose faded copy has life left is kept |
| Canvas.FadeAllKeeps | components/GameCanvas.tsx:366-375 | the particle frame works element by element and keeps the order: it distributes over concatenation |
| Canvas.FadeLifetime | components/GameCanvas.tsx:368-373 | after n frames a particle has moved n times its velocity and lost 0.05 life per frame; an explosion particle survives 19 frames and is gone in the 20th |
| Canvas.TickOf | components/GameCanvas.tsx:182-191 | a gap of a second or more is skipped; otherwise it is taken off the time left, and the round expires exactly when nothing is left |
| Canvas.RoundEnds | components/GameCanvas.tsx:178-191 | over a run of frames with non-negative gaps, the round ends exactly when the sub-second gaps add up to the time left, and until then the time left is the start minus those gaps |
| Canvas.ClampAim | components/GameCanvas.tsx:135 | the aim lies in [20, 780], equals the requested position inside that range and the nearer bound outside it |
| Canvas.Clocked | components/GameCanvas.tsx:178-191 | the timer step sets the frame clock and changes nothing else but the time left; it reports the time exactly when the gap is under a second, and then the time left drops by the gap in seconds unless the round ends; the round ends, reporting 0, exactly when such a gap uses up the time left |
| Canvas.SpawnDue | components/GameCanvas.tsx:194 | a spawn is due only after the last spawn, and never within 800 ms of it |
| Canvas.Spawning | components/GameCanvas.tsx:194-197 | the spawn step appends one bug, made from the next five draws, and moves the spawn clock exactly when more than 800 ms have passed since the last spawn; otherwise nothing changes and nothing is drawn |
| Canvas.FrameOutcome | components/GameCanvas.tsx:175-386 | a frame ends the round, with time 0 reported and nothing else moved, exactly when a sub-second gap uses up the time left; otherwise it asks for the next frame, spawns one bug exactly when more than 800 ms have passed since the last spawn, never lowers the score, reports increasing scores above the old one ending with the new score, and uses five draws for a spawn and 32 for each hit, no others |
| Canvas.Frame | components/GameCanvas.tsx:175-386 | a frame sets the frame clock and keeps the aim; it asks for the next frame exactly when the round is not over, and an ending frame reports no score and draws nothing |
| Canvas.FrameDraws | components/GameCanvas.tsx:194-197 | a frame that does not end the round uses five draws for a spawn and 32 for each score it reports |
| Canvas.Advanced | components/GameCanvas.tsx:236-375 | the moving part of a frame changes only bugs, boogers, particles and score, and never adds boogers |
| Canvas.AdvancedOutcome | components/GameCanvas.tsx:236-375 | the moving part of a frame changes only bugs, boogers, particles and score, removes a bug for every score reported, and reports increasing scores from above the old score up to the new one |
| Randomness.RandomSource.Next | components/GameCanvas.tsx:45 | each `Math.random()` call returns the next draw of the stream, which lies in [0, 1), and advances the cursor by one |
| Canvas.GameCanvas.constructor | components/GameCanvas.tsx:17-24 | the refs start empty with score 0, 30 seconds left, the clocks at 0 and the aim centred |
| Canvas.GameCanvas.StartRound | components/GameCanvas.tsx:389-402 | entering PLAYING clears bugs, boogers and particles, sets score 0 and 30 seconds, the frame clock to now and the spawn clock to 0, keeps the aim, and reports score 0 and time 30 |
| Canvas.GameCanvas.Aim | components/GameCanvas.tsx:133-136 | the aim becomes the requested position clamped to [20, 780] by `ClampAim` |
| Canvas.GameCanvas.Shoot | components/GameCanvas.tsx:112-125 | outside PLAYING nothing happens; while playing one booger is appended at the aim, 20 px above the player line, heading up at speed 12 with radius 6 and a random spin, using two draws |
| Canvas.GameCanvas.SpawnBug | components/GameCanvas.tsx:44-109 | appends the bug made from the next five draws |
| Canvas.GameCanvas.CreateExplosion | components/GameCanvas.tsx:27-41 | appends the eight particles made from the next 32 draws |
| Canvas.GameCanvas.MoveBugs | components/GameCanvas.tsx:236-316 | the forEach with its splice leaves exactly the bugs of the sweep |
| Canvas.GameCanvas.FindHit | components/GameCanvas.tsx:346-361 | the reverse loop returns the index of the last bug the booger overlaps, or none |
| Canvas.GameCanvas.StepBooger | components/GameCanvas.tsx:320-362 | one booger iteration changes bugs, boogers, particles, score, draws and reports exactly as the booger step on values |
| Canvas.GameCanvas.MoveBoogers | components/GameCanvas.tsx:319-363 | the booger loop, last to first, changes the state and reports scores exactly as the booger pass on values |
| Canvas.GameCanvas.FadeParticles | components/GameCanvas.tsx:366-375 | the particle loop, last to first, leaves exactly the faded particles with life left in their order |
| Canvas.GameCanvas.Update | components/GameCanvas.tsx:175-386 | outside PLAYING nothing changes and no frame is requested; while playing the new state, the callbacks and the draws are exactly those of one frame on values |
| Canvas.GameCanvas.Clock | components/GameCanvas.tsx:178-191 | the timer step moves the frame clock and the time left exactly as the timer on values, and reports the time and whether the round is over |
| Canvas.GameCanvas.MaybeSpawn | components/GameCanvas.tsx:194-197 | a bug is spawned and the spawn clock moved exactly when more than 800 ms have passed since the last spawn |
| Canvas.GameCanvas.Advance | components/GameCanvas.tsx:236-375 | the three entity loops change the state and report scores exactly as the moving part of a frame on values, keeping every bug's points positive |
| Controller.StartGame | App.tsx:22-26 | starting a game enters PLAYING with score 0 and no commentary, keeping the best score and time |
| Controller.EndRound | App.tsx:28-38 | the game-over handler enters GAME_OVER and starts loading; the best score is replaced by the score exactly when the score beats it, so it never drops and covers the score |
| Controller.CommentaryArrived | App.tsx:39-41 | the returned comment is shown and loading stops, nothing else changes |
| Controller.HighScoreNeverDrops | App.tsx:32-35 | over any run of events the best score never drops, and only a round end can change it |
| Controller.HighScoreCoversLastRound | App.tsx:32-35 | right after a round ends, the best score is at least that round's score and at least the best score before the run |
| Controller.LoadingWhilePending | App.tsx:38-41 | the loading flag is on exactly while some round end has not yet been followed by a comment, or it was on and no comment has come |
| Controller.LateCommentLands | App.tsx:28-42 | a comment for an earlier round that arrives after a new round starts is still shown and clears loading |
| Controller.Apply | App.tsx:22-42 | one event never lowers the best score, only a round end can change it, and score or time callbacks leave the phase and the loading flag alone |
| Controller.Run | App.tsx:22-65 | a run of events never lowers the best score; a run ending in a start is PLAYING with score 0, and one ending in a round end is GAME_OVER and loading |
| Controller.App.constructor | App.tsx:9-14 | the controller starts in MENU with score 0, best score 0, 30 seconds, no commentary and no loading |
| Controller.App.HandleStartGame | App.tsx:22-26 | the fields change exactly as starting a game on values |
| Controller.App.HandleGameOver | App.tsx:28-38 | the fields change exactly as the game-over handler up to its await |
| Controller.App.ReceiveCommentary | App.tsx:39-41 | the fields change exactly as the arrival of the comment |
| Controller.App.SetScore | App.tsx:64 | the score callback sets the score and nothing else |
| Controller.App.SetTimeLeft | App.tsx:65 | the time callback sets the time left and nothing else |

## Left out

- Drawing is left out: the canvas context calls, the sprites, and the early return when no 2D context is available (components/GameCanvas.tsx:200-201).
- The animation-frame scheduling is left out. `requestAnimationFrame` and `cancelAnimationFrame` appear only as the `reschedule` flag of a frame report.
- React's effect lifecycle and closure identity are left out: the reset is an operation, not an effect that re-runs when callbacks change identity. In the code as written this matters. `handleGameOver` is a new function on every render of the controller (App.tsx:28, no `useCallback`). It is a dependency of `update` (components/GameCanvas.tsx:386), and `update` is a dependency of the reset effect (components/GameCanvas.tsx:389-407). The controller re-renders whenever a frame reports the time (components/GameCanvas.tsx:190 calls `setTimeLeft`). So while PLAYING the round is reset after every such frame and the time left never runs out. `Canvas.RoundEnds` and `Canvas.FrameOutcome` describe the frame callback taken alone, not the running program.
- DOM events, `getBoundingClientRect` and the scaling of client coordinates are left out. `Aim` takes the canvas x coordinate.
- The overlay component and the commentary service are not part of this model. The comment arrives as a parameter.
- `localStorage` is left out: the initial load of the best score (App.tsx:17-20) and its save (App.tsx:34).
- Asynchrony is left out. `handleGameOver` is split at its await into `EndRound` and `CommentaryArrived`, and events are applied one at a time.
- Floating point is left out: numbers are exact reals with no rounding, and no overflow or NaN except in the flick estimate, where `JsNumber` models division by zero.
- Ids are kept as the random draw, not as its decimal string.
- `Math.sqrt`, `Math.sin` and the clock are parameters. `Math.hypot(dx, dy) < s` is the equivalent squared test `s > 0 && dx*dx + dy*dy < s*s`.
- The charger's public settings `maxRadius`, `minRadius`, `maxRubStress` and `gravity` (services/PhysicsSystem.ts:8-15) are assignable fields in the source but constants in the model (40, 10, 1000, 800), unlike the interpreter's `flickThreshold`, which stays a field. Nothing in the modelled code assigns them.
- The unused settings `rubSensitivity`, `flickTimeThreshold`, `growthRate` and `airResistance` are left out. The callbacks of InputSystem are results of its methods instead of stored functions.
- Physics.PhysicsSystem.CreateBooger: the original returns the same object it stores, so later in-place changes are visible through the returned reference. The model returns a value and does not capture that aliasing.
- Physics.NosebleedIffOverLimit: stated for non-negative rub amounts (the interpreter only reports positive distances); a negative amount could lower the stress.
- Physics.RadiusAfterSession: stated for non-negative rub amounts, for the same reason.
- Canvas.RoundEnds: stated for frame gaps that are never negative. The first frame's timestamp can precede the clock reading taken at reset, and a negative gap adds time. `TickOf` and `GameCanvas.Clock` model that case as written.
- Input.ClassifyTimed: stated for a non-negative flick threshold; the threshold is public and could be set negative, which `Classify` still models.
- Canvas.Sweep: its own contract bounds only the length; what the sweep does is stated by `SweepIsRef`, `SweepKeepsPrefix`, `SweepMovesAll`, `SweepSkipsNext` and `SweepScoring`.
- Canvas.MoveBug: the wobble bound assumes `sin` stays in [-1, 1]; `Math.sin` is a parameter, so that is a hypothesis rather than a fact of the model.
- Canvas.ProcessBooger: its own contract states only the frame of the change; the outcome is stated by `BoogerOutcome` and `ProcessKeeps`.
