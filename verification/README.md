# Portfolio core in Dafny: Space Shot, itch.io gallery links, guest board

This project models the logic of three components of a personal portfolio site
and proves properties of that model.

- **Space Shot** (`space_shot.dfy`, module `SpaceShot`) is the canvas minigame. A ship
  follows the pointer, clamped to the lower part of a 700 x 420 logical playfield, and
  fires a bullet every 240 ms. A meteor falls from the top every 700 ms. Each animation
  frame moves everything by `vy * dt` and culls what has left the field. It then resolves
  at most one bullet-meteor hit (+10 points) and ends the run when a meteor touches the
  ship. The best score is kept as a high-water mark. `TickSpec` and its stages say what
  one frame does to a `Session` value. Class `Game` holds the component's mutable refs
  as fields, and its `Tick`, `OnMove`, `Start` and `EndGame` methods are proved to follow
  those functions. The lemmas prove the frame's properties: timers, culling bounds,
  one-pair collision, ending on a ship hit, a preserved invariant, and a best score that
  never decreases.
- **Projects gallery** (`projects_skills.dfy`, module `ProjectsSkills`) covers the links
  that the itch.io loader keeps. They are deduplicated in first-occurrence order, at most
  nine are kept, and the loader falls back to the profile URL. It also covers the title
  shown for each link: the profile prefix and one trailing slash are removed, and dashes
  become spaces.
- **Guest board** (`guest_board.dfy`, module `GuestBoard`) is the stroke recorder of the
  drawing wall. `Step` gives the effect of each pointer or control event. Class `Board`
  keeps `isDrawing`, `currentStroke` and `strokes` in fields, and its handlers are proved
  to follow `Step`. Lemmas over any sequence of events show two things: only strokes of
  two or more points are ever committed, and apart from a clear the log only grows at
  its end.

`wrappers.dfy` holds the `Option` type the modules share. Positions, velocities and
times are exact `real`s, with times in milliseconds. The three `Math.random()` values a
new meteor consumes are the `Draw` parameter of a frame, each in [0, 1).

## Model

| member | source | states |
|---|---|---|
| SpaceShot.Rand | src/components/SpaceShot.jsx:8 | a draw u in [0, 1) maps into [min, max) (into {min} when min == max) |
| SpaceShot.Clamp | src/components/SpaceShot.jsx:35-36 | `Math.max(lo, Math.min(hi, v))` lies in [lo, hi]; an in-range value is unchanged, a low one becomes lo, a high one hi |
| SpaceShot.ToLogical | src/components/SpaceShot.jsx:31-34 | a pointer inside the canvas rectangle maps into [0, size] logical units |
| SpaceShot.PointerToShip | src/components/SpaceShot.jsx:29-37 | whatever the pointer, the ship ends in [20, 680] x [168, 400] with its radius kept; an in-range scaled coordinate is taken as is, an out-of-range one is clamped to the nearer bound |
| SpaceShot.NewMeteor | src/components/SpaceShot.jsx:50 | a spawned meteor has y = -20, x in [20, 680], r in [12, 26), vy in [60, 120) |
| SpaceShot.NewBullet | src/components/SpaceShot.jsx:56 | a shot leaves the muzzle at (ship.x, ship.y - 20) moving up at 320 units/s; from a ship in its box, x lies in [20, 680] |
| SpaceShot.SpawnStep | src/components/SpaceShot.jsx:48-51 | a meteor is appended and lastSpawn becomes t exactly when t - lastSpawn > 700; otherwise nothing changes (at most one meteor per frame) |
| SpaceShot.ShootStep | src/components/SpaceShot.jsx:54-57 | a bullet at (ship.x, ship.y - 20) with vy = -320 is appended and lastShot becomes t exactly when t - lastShot > 240; otherwise nothing changes |
| SpaceShot.MoveBullets | src/components/SpaceShot.jsx:60 | every bullet's y becomes y + vy * dt; count, order, x and vy unchanged |
| SpaceShot.MoveMeteors | src/components/SpaceShot.jsx:61 | every meteor's y becomes y + vy * dt; count, order, x, r and vy unchanged |
| SpaceShot.MoveBulletsExt | src/components/SpaceShot.jsx:60 | a sequence that moves each bullet by vy * dt in place equals the moved sequence |
| SpaceShot.MoveMeteorsExt | src/components/SpaceShot.jsx:61 | a sequence that moves each meteor by vy * dt in place equals the moved sequence |
| SpaceShot.Filter | src/components/SpaceShot.jsx:62-63 | `filter` keeps exactly the elements that pass the test: everything kept passes, nothing that passes is lost |
| SpaceShot.FilterConcat | src/components/SpaceShot.jsx:62-63 | filtering preserves relative order: filtering a + b is filtering a, then b |
| SpaceShot.FilterKeepsAll | src/components/SpaceShot.jsx:62-63 | when every element passes, filtering returns the sequence unchanged |
| SpaceShot.RemoveAt | src/components/SpaceShot.jsx:73-74 | `splice(i, 1)` removes exactly element i: one fewer element, the rest in order, same multiset minus s[i] |
| SpaceShot.LastBulletHit | src/components/SpaceShot.jsx:68-78 | the inner scan finds the highest-index bullet overlapping the meteor (dx² + dy² < (r + 6)²), or none iff no bullet overlaps |
| SpaceShot.FirstHit | src/components/SpaceShot.jsx:66-79 | the pair resolved is the highest-index meteor overlapping any bullet, with its highest-index overlapping bullet; none iff no pair overlaps |
| SpaceShot.FindHit | src/components/SpaceShot.jsx:66-79 | the nested downward loops with `break outer` return exactly `FirstHit` |
| SpaceShot.FirstHitUnique | src/components/SpaceShot.jsx:66-79 | the properties of the resolved pair determine it uniquely |
| SpaceShot.ShipStruck | src/components/SpaceShot.jsx:82-90 | the upward ship scan reports a hit iff some meteor overlaps the ship (dx² + dy² < (r + ship.r)²) |
| SpaceShot.CullBounds | src/components/SpaceShot.jsx:62-63 | after culling every bullet has y > -30 and every meteor y < 450; in-bound entities all survive, and with none out of bounds the lists are unchanged |
| SpaceShot.CollideResolvesOnePair | src/components/SpaceShot.jsx:66-79 | with an overlap, exactly one meteor and one bullet are removed and the score rises by exactly 10; without one, nothing changes |
| SpaceShot.TickTimers | src/components/SpaceShot.jsx:44-57 | after a running frame, last = t, and each timer stamp is t iff its interval was exceeded, else unchanged |
| SpaceShot.TickEndsOnStrike | src/components/SpaceShot.jsx:81-90 | a running frame stops the run iff a meteor left after the collision pass overlaps the ship; the best score then becomes max(high, score); the score rises by 0 or 10 |
| SpaceShot.TickWhenStopped | src/components/SpaceShot.jsx:43 | a frame after the run stopped changes nothing |
| SpaceShot.StartSpec | src/components/SpaceShot.jsx:144-153 | definition of `start`: a running run with score 0 and nothing in flight, ship and best kept; from a well-formed session it gives one satisfying the invariant (further properties in `StartForgetsRun`) |
| SpaceShot.EndGameSpec | src/components/SpaceShot.jsx:155-163 | definition of `endGame`: the run stops, the score is kept, the best is at least the old best and the score; the invariant is kept (further properties in `EndGameHighWater`) |
| SpaceShot.PointerSpec | src/components/SpaceShot.jsx:29-37 | definition of `onMove`: only the ship changes, keeping its radius, and the invariant is kept |
| SpaceShot.AdvanceStep | src/components/SpaceShot.jsx:59-61 | definition of the motion stage: only the two lists change, each keeping its length (per-entity motion in `MoveBullets` and `MoveMeteors`) |
| SpaceShot.CullStep | src/components/SpaceShot.jsx:62-63 | definition of the cull stage: only the two lists change, none grows, and every remaining entity is inside its bound (further properties in `CullBounds`) |
| SpaceShot.CollideStep | src/components/SpaceShot.jsx:65-79 | definition of the collision stage: either nothing changes, or one meteor and one bullet go and the score rises by 10; only those three fields can change (further properties in `CollideResolvesOnePair`) |
| SpaceShot.StrikeStep | src/components/SpaceShot.jsx:81-90 | definition of the ship-hit check: the run is still on afterwards iff it was on and no meteor overlaps the ship; score, ship and lists kept, best never lower |
| SpaceShot.Dt | src/components/SpaceShot.jsx:44 | the frame's dt in seconds: dt * 1000 is the time elapsed since the previous frame |
| SpaceShot.Simulate | src/components/SpaceShot.jsx:44-79 | definition of a running frame up to the ship-hit check: last becomes t; ship, best and run flag are kept; the score rises by 0 or 10 (further properties in `TickTimers`, `TickKeepsInv`) |
| SpaceShot.TickSpec | src/components/SpaceShot.jsx:42-90 | definition of one frame of `loop`: the ship stays, the best never goes down, a stopped run is left unchanged, a running one records t as its last frame (further properties in `TickTimers`, `TickEndsOnStrike`, `TickKeepsInv`) |
| SpaceShot.MovedBulletsStayInColumn | src/components/SpaceShot.jsx:60 | motion keeps bullets' vy = -320 and x in [20, 680] |
| SpaceShot.MovedMeteorsKeepShape | src/components/SpaceShot.jsx:61 | motion keeps every meteor's x, r and vy in their spawn ranges |
| SpaceShot.SpawnShootKeepWellFormed | src/components/SpaceShot.jsx:47-57 | spawning and shooting keep the session invariant |
| SpaceShot.AdvanceKeepsWellFormed | src/components/SpaceShot.jsx:59-61 | motion keeps everything in the invariant except the cull bounds |
| SpaceShot.CullRestoresInv | src/components/SpaceShot.jsx:62-63 | culling re-establishes the full invariant, cull bounds included |
| SpaceShot.CollideKeepsInv | src/components/SpaceShot.jsx:65-79 | the collision pass keeps the invariant (score stays a multiple of 10) |
| SpaceShot.TickKeepsInv | src/components/SpaceShot.jsx:42-90 | every frame keeps the invariant: ship in its box, entities in spawn ranges and cull bounds, score a multiple of 10, a stopped run's score no greater than the best |
| SpaceShot.StartForgetsRun | src/components/SpaceShot.jsx:144-153 | `start` gives score 0, no bullets or meteors, both timer stamps 0 and a running game, whatever the previous run was |
| SpaceShot.EndGameHighWater | src/components/SpaceShot.jsx:155-163 | `endGame` stops the run and sets the best to max(high, score): never lower than before, never below the run's score |
| SpaceShot.Apply | src/components/SpaceShot.jsx:29-163 | one user action or frame: the best score never goes down; Start gives a running run with score 0, Stop stops it, a pointer move leaves lists and score alone |
| SpaceShot.Replay | src/components/SpaceShot.jsx:29-163 | a sequence of actions never lowers the best score (the invariant is in `ReplayKeepsInvAndBest`) |
| SpaceShot.ReplayKeepsInvAndBest | src/components/SpaceShot.jsx:29-163 | over any sequence of starts, pointer moves, frames and stops, the invariant holds and the best score never decreases |
| SpaceShot.BulletMeteorScenario | src/components/SpaceShot.jsx:72-76 | a bullet at (100, 100) and a radius-20 meteor at (103, 104) collide: both are removed, score 0 becomes 10 |
| SpaceShot.ShipStrikeScenario | src/components/SpaceShot.jsx:86-88 | a radius-20 meteor at (355, 365) ends a run with the ship at (350, 360) |
| SpaceShot.Game.constructor | src/components/SpaceShot.jsx:12-20 | on mount the ship is at (350, 360) with radius 16, nothing is in flight, score 0, best as stored, not running |
| SpaceShot.Game.OnMove | src/components/SpaceShot.jsx:29-37 | only the ship changes, to the clamped pointer position; the invariant is kept |
| SpaceShot.Game.Start | src/components/SpaceShot.jsx:144-153 | the fields become the fresh-run state of `StartSpec`; ship and best score are kept |
| SpaceShot.Game.EndGame | src/components/SpaceShot.jsx:155-163 | running becomes false and high becomes max(old high, score) |
| SpaceShot.Game.SpawnMeteor | src/components/SpaceShot.jsx:48-51 | the fields change as `SpawnStep` says |
| SpaceShot.Game.AutoShoot | src/components/SpaceShot.jsx:54-57 | the fields change as `ShootStep` says |
| SpaceShot.Game.Advance | src/components/SpaceShot.jsx:59-61 | the two in-place passes leave the bullets and meteors moved by vy * dt |
| SpaceShot.Game.Cull | src/components/SpaceShot.jsx:62-63 | the lists become their filtered versions |
| SpaceShot.Game.Collide | src/components/SpaceShot.jsx:65-79 | the fields change as `CollideStep` says: the pair found by the scan is spliced out and 10 points are added |
| SpaceShot.Game.Tick | src/components/SpaceShot.jsx:42-90 | one frame changes the fields exactly as `TickSpec` says, with dt = (t - last) / 1000, and keeps the invariant |
| ProjectsSkills.FirstIndex | src/components/ProjectsSkills.jsx:20 | the position of the first occurrence of an element |
| ProjectsSkills.Dedupe | src/components/ProjectsSkills.jsx:20 | `Array.from(new Set(...))` has no duplicates and holds exactly the elements of its input |
| ProjectsSkills.FirstIndexOfPrefix | src/components/ProjectsSkills.jsx:20 | appending an element does not move an earlier element's first occurrence |
| ProjectsSkills.DedupeKeepsFirstOccurrenceOrder | src/components/ProjectsSkills.jsx:20 | deduplicated links appear in the order of their first occurrence in the page |
| ProjectsSkills.LoadedLinks | src/components/ProjectsSkills.jsx:14-28 | after loading, the list is never empty: it is exactly the profile URL when the request threw or nothing matched, and otherwise a prefix of the deduplicated matches of length min(9, count), with no duplicates |
| ProjectsSkills.IndexOf | src/components/ProjectsSkills.jsx:70 | the first position at or after `from` where the pattern occurs, or none iff it does not occur there |
| ProjectsSkills.RemoveFirst | src/components/ProjectsSkills.jsx:70 | `replace` with a string pattern leaves the text alone when the pattern is absent, and otherwise removes exactly its first occurrence: the text is the result with the pattern put back at the position `IndexOf` finds |
| ProjectsSkills.DropTrailingSlash | src/components/ProjectsSkills.jsx:70 | removes one trailing `/` when there is one, and otherwise leaves the text unchanged |
| ProjectsSkills.DashesToSpaces | src/components/ProjectsSkills.jsx:71 | every `-` becomes a space and every other character stays; the result has no dash |
| ProjectsSkills.Slug | src/components/ProjectsSkills.jsx:70 | definition of the slug: never longer than the link; a link without the profile prefix only loses a trailing `/` (profile links in `SlugOfProject`) |
| ProjectsSkills.Title | src/components/ProjectsSkills.jsx:70-72 | a title is never empty and has no dash; an empty slug gives "Visit my itch.io", and otherwise the slug with dashes turned to spaces |
| ProjectsSkills.RemoveFirstOfPrefix | src/components/ProjectsSkills.jsx:70 | removing the profile prefix from `prefix + rest` leaves `rest` |
| ProjectsSkills.SlugOfProject | src/components/ProjectsSkills.jsx:70 | the slug of `profile + slug` without a trailing slash is `slug` |
| ProjectsSkills.ProfileTitleLemma | src/components/ProjectsSkills.jsx:71-72 | the fallback profile URL is titled "Visit my itch.io" |
| ProjectsSkills.ProjectTitle | src/components/ProjectsSkills.jsx:70-71 | a project link `profile + slug` is titled by its slug with dashes as spaces |
| ProjectsSkills.Items | src/components/ProjectsSkills.jsx:69-73 | one item per link, same length and order, each href the link unchanged, each title that link's title |
| ProjectsSkills.FallbackGallery | src/components/ProjectsSkills.jsx:21-28 | a failed or empty load gives one gallery item: the profile URL titled "Visit my itch.io" |
| GuestBoard.Step | src/components/GuestBoard.jsx:90-126 | a clear empties the log; any other event leaves it alone or appends one stroke of at least two points at its end |
| GuestBoard.Replay | src/components/GuestBoard.jsx:90-155 | the board after a sequence of events: without a colour pick the colour is unchanged, without a size pick the size is unchanged (the log's properties in `ReplayCommitsOnlyStrokes`, `ReplayOnlyAppends`) |
| GuestBoard.MovesOf | src/components/GuestBoard.jsx:95-98 | a list of points becomes the matching list of move events, in order |
| GuestBoard.ReplayCommitsOnlyStrokes | src/components/GuestBoard.jsx:113-120 | from a log of strokes with two or more points each, no sequence of events commits a shorter one |
| GuestBoard.ReplayOnlyAppends | src/components/GuestBoard.jsx:113-126 | without a clear, the earlier log is always a prefix of the later one |
| GuestBoard.GestureCommitsItsPoints | src/components/GuestBoard.jsx:90-120 | press, moves and release commit one stroke of all the points, in order, with the current colour and size, when there are two or more points; otherwise nothing is committed |
| GuestBoard.ReplayConcat | src/components/GuestBoard.jsx:90-126 | replaying two event sequences one after the other equals replaying their concatenation |
| GuestBoard.ReplayMoves | src/components/GuestBoard.jsx:95-98 | while drawing, moves append their points to the current stroke in order |
| GuestBoard.Board.constructor | src/components/GuestBoard.jsx:9-19 | not drawing, empty current stroke, the saved log, colour #a78bfa, size 4 |
| GuestBoard.Board.Start | src/components/GuestBoard.jsx:90-94 | isDrawing becomes true and the current stroke holds exactly the start point |
| GuestBoard.Board.Move | src/components/GuestBoard.jsx:95-98 | when not drawing, nothing changes; when drawing, exactly one point is appended at the end of the current stroke |
| GuestBoard.Board.End | src/components/GuestBoard.jsx:113-120 | when not drawing, a no-op; otherwise drawing stops, the current stroke empties, and the stroke is appended with colour and size iff it had more than one point |
| GuestBoard.Board.ClearBoard | src/components/GuestBoard.jsx:122-126 | the log becomes empty; a stroke in progress is unaffected |
| GuestBoard.Board.SetColor | src/components/GuestBoard.jsx:146 | only the brush colour changes |
| GuestBoard.Board.SetSize | src/components/GuestBoard.jsx:155 | only the brush size changes |

## Left out

- Canvas drawing is not modelled: the background grid, stars, ship, bullets and meteors (src/components/SpaceShot.jsx:92-139); `getCtx`, `drawAll` and the live stroke preview in `move` (src/components/GuestBoard.jsx:28-79, 99-111). It is rendering through a foreign API and feeds nothing back into the state.
- React and browser plumbing is not modelled: `useState`, `useEffect`, `requestAnimationFrame` and `cancelAnimationFrame`, listener registration, and the `SpaceShot.__controls` handle. A frame is an explicit `Tick(t, d)` call on the `Game` object. The run flag and the score are fields that every operation reads at call time.
- React's stale closures are not modelled. As written, `loop` reads the `running` captured when the effect last ran (src/components/SpaceShot.jsx:43). `endGame` reads the `score` captured at the same moment (src/components/SpaceShot.jsx:159), and that effect re-runs only when `running` changes. The consequence is that, as written, no frame ever runs with the run flag set: the frame `start` schedules was captured with `running` false and returns at line 43, or is cancelled by the effect's cleanup (src/components/SpaceShot.jsx:172), and the effect that re-runs with `running` true schedules no frame; `endGame` would in any case record the captured score 0. The model describes the game as evidently intended, not what the program does: the frame checks the current run flag, and `endGame` records the current score.
- `localStorage` is not modelled: the best-score key and the stroke log are read and written as JSON or text. Only the stored values appear. `Game`'s constructor takes the stored best score as a `nat`. A missing value becomes 0, but a negative or non-numeric stored value is not modelled. `Board`'s constructor takes the restored stroke list. A corrupt entry that makes `JSON.parse` throw is not modelled.
- Randomness: `Math.random()` becomes the `Draw` argument of a frame, with each value in [0, 1).
- The loader's page request, its regular-expression scan and its `mounted` check are not modelled (src/components/ProjectsSkills.jsx:12-19, 30-34). `LoadedLinks` receives the list of matches, or `None` when the request threw.
- `getPos` (src/components/GuestBoard.jsx:81-88), which subtracts the canvas origin from the pointer position, is not modelled. The board's handlers receive that point directly.
- Floating point is not modelled: positions, velocities, `dt` and `H * 0.4` are exact reals.
- SpaceShot.ToLogical: requires a canvas of positive width and height. A zero-sized canvas would make the browser divide by zero (Infinity or NaN), and no real number models that. Such a canvas cannot receive pointer events anyway.
- Two behaviours follow the code where one might expect otherwise. The first frame after `start` uses dt = t / 1000 rather than 0, because `last` is reset to 0. Meteor radius and fall speed are drawn from the half-open ranges [12, 26) and [60, 120).
- The title's `capitalize` styling is presentation and is not modelled. The static skills list, the other sections of the site and the navigation are not modelled either.
