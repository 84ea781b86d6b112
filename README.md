# MiniGames game logic in Dafny

This project models the game logic of five browser mini-games from the
MiniGames collection and proves properties of it:

- **Jump course** (`games/game-6/main.js`, module `Course`):
  - A course generator grows a chain of up to 140 platforms from a cursor. The platforms never overlap.
  - The post-generation snap moves one platform onto the floor.
  - A one-shot "reached the top" signal fires when the player lands on the highest platform.
  - A sub-stepped physics frame advances the player.
  - The time-attack stopwatch keeps a best time.
- **Shared landing resolver** (module `Landing`):
  - Both jump scenes use it. It picks the supporting platform by a swept crossing test and a near-top test.
  - It also has a sticky-ground rule and a virtual floor.
  - It models the TypeError the sticky rule throws after a virtual-floor landing.
- **Earlier jump course** (`3d/games/game-6/main.js`, module `CourseEarly`):
  - The ground platform counts in the overlap test, and there are 16 tries.
  - When every try fails, a fallback always places a platform. That platform may overlap.
- **Tetris board** (`3d/games/game-3/main.js`, module `Tetris`):
  - The collision test, merging a piece into the arena, and in-place rotation.
  - The row sweep with its doubling score.
  - Spawning, with game over.
  - Gravity and the key moves, each undone on a collision.
- **Slot machine** (`3d/games/game-4/main.js`, module `Slot`):
  - File-name normalisation of symbol paths, and the row payout over the visible 3 by 3 window.
  - Coin and bet bookkeeping.
  - Reel steps, strip rotation and the left-to-right Space stops.
- **Reaction duel** (`games/game-1/main.js`, module `Duel`):
  - The idle/armed/go/finished round machine.
  - Fouls, first-reaction-only recording, and the scoring rule.

Modules `Geometry`, `Options` and `Text` hold the shared arithmetic helpers, the `Option` type and the string built-ins the scripts use.

State the scripts mutate becomes a Dafny `class`: the platform list, the generator cursor, the player, the arena, the reels and coins, and the duel's closure variables. Each handler becomes a `method` whose `ensures` gives the new state in terms of specification functions and predicates. Pure rules are functions with lemmas relating them. The environment is passed in:

- `Math.random()` is an injected stream `rand: nat -> real`, and a `drawn` counter says how many draws each call uses.
- `Math.cos` and `Math.sin` are injected functions.
- `performance.now()` and frame timestamps are method parameters.
- `setTimeout` callbacks and transition ends are methods the page calls when the event fires.

## Model

| member | source | states |
|---|---|---|
| Course.OverlapsCandidate | games/game-6/main.js:138-153 | true exactly when some non-ground platform has both edge gaps below 0.6; the ground never counts |
| Course.Turn | games/game-6/main.js:162 | the turn lies in [-0.6, 0.6) when the first draw is below 0.25, and in [-0.3, 0.3) otherwise |
| Course.RawRise | games/game-6/main.js:168-169 | the raw rise lies in [-0.4, 1.2); on the 0.15 branch it lies in [-0.3, -0.1) |
| Course.Rise | games/game-6/main.js:170-171 | the scaled rise lies in [-0.28, 2.2] and is non-negative exactly when the raw rise is |
| Course.StepLength | games/game-6/main.js:164-172 | the step lies in [minimum, 7.5), shortened by 15% when the rise exceeds 1.6; the minimum is 6.9 here and 3.5 in the earlier variant (3d/games/game-6/main.js, line 142) |
| Course.Size | games/game-6/main.js:177-183 | every 7th platform lies in the rest band w in [8,14), d in [4,8); others in w in [2.6,6.8), d in [1.8,5) |
| Course.HighestTop | games/game-6/main.js:498-502 | None exactly when no platform is non-ground; otherwise it is the top of some non-ground platform and no non-ground top is higher |
| Course.SnapTarget | games/game-6/main.js:233-243 | the chosen index is the lowest platform at or above 0.001 among indices 1.., else the highest, first-seen on ties |
| Course.BestAfter | games/game-6/main.js:436-437 | the new best is the elapsed time exactly when there was no best or it is not above the old best, otherwise the old best; it is never above either |
| Course.JumpGame.constructor | games/game-6/main.js:54-132 | the player starts at (0, 3, 0) at rest with prev equal to pos, not grounded and without contact; page load builds a valid course of 1 to 141 platforms by Built: 140 addNextPlatform steps from the ground and a fresh cursor, then the snap, with the cursor left where the last step put it; the stopwatch is idle, and the best time is the stored one |
| Course.JumpGame.Random | games/game-6/main.js:110 | one draw of the stream, in [0, 1) |
| Course.JumpGame.InitGenState | games/game-6/main.js:105-113 | the cursor is at (0, 1.2, 0) with counter 0 and a heading in [0, 2 pi) |
| Course.JumpGame.DrawRise | games/game-6/main.js:168-171 | the rise drawn for one try lies in [-0.28, 2.2] |
| Course.JumpGame.DrawSize | games/game-6/main.js:177-183 | the footprint drawn for one try is in the size band of the cursor counter |
| Course.JumpGame.Candidate | games/game-6/main.js:162-183 | the candidate centre is within the bounds, its top is the cursor height plus a rise in [-0.28, 2.2], and its size is in band |
| Course.JumpGame.Spot | games/game-6/main.js:194-203 | the radial spot at radius index ri and angle step k is clamped into the bounds |
| Course.JumpGame.Attempts | games/game-6/main.js:155-191 | after 1 to 48 tries the candidate is in bounds, rises by [-0.28, 2.2] and is in band; a taken one overlaps no non-ground platform; without a success all 48 tries were made and the last candidate overlaps |
| Course.JumpGame.RadialSearch | games/game-6/main.js:193-209 | a found spot is the first clear one of the 5 by 16 spots in search order (radius by radius, angle by angle), within the bounds; nothing is found exactly when every spot overlaps a non-ground platform |
| Course.JumpGame.AddNextPlatform | games/game-6/main.js:134-217 | one Step: either exactly one platform is appended (clear of all other non-ground platforms, in bounds, rise in [-0.28, 2.2], in band, colour PAL[i % 10], cursor advanced), or the list and cursor are unchanged, which happens only when the radial search found every spot blocked; a search placement is the first clear spot with the last try's size; the course invariant is kept |
| Course.JumpGame.GrownExtend | games/game-6/main.js:220-222 | a growth history of count Steps followed by one more Step is a history of count + 1 Steps |
| Course.JumpGame.BulkGenerate | games/game-6/main.js:220-222 | a growth history of exactly count addNextPlatform Steps from the old list and cursor to the new ones, at most count platforms appended after the unchanged old list, and the course invariant kept |
| Course.JumpGame.SnapLowestPlatformToFloor | games/game-6/main.js:229-249 | with only the ground nothing changes; otherwise exactly the snap target gets top 1.0 and every other platform and the order stay |
| Course.JumpGame.GeneratePlatforms | games/game-6/main.js:114-132 | BuiltCourse: 140 Steps from the ground and the cursor (0, 1.2, 0) with counter 0, then the snap of the result, and the cursor is the one the 140th Step left; a valid course of 1 to 141 platforms with the congratulation re-armed |
| Course.JumpGame.CheckCollisions | games/game-6/main.js:446-539 | the player's new state is the shared resolver's Resolves (landing, crash, sticky ground, floor or airborne); a player that did not crash rests consistently; the signal fires exactly on a first landing on a non-ground platform within 1e-6 of the highest top, and then stays shown |
| Course.JumpGame.PhysicsStep | games/game-6/main.js:606-629 | the new player state is the end of a Landing.Simulated run from the old one: SubSteps(dt, vy) sub-steps (1 to 10) of length dt / steps, each Integrated then Resolved by checkCollisions, all run unless one throws, and only the last may throw; a throw leaves the player on a virtual-floor contact that no platform catches; otherwise the player rests consistently; a shown congratulation stays shown |
| Course.JumpGame.Frame | games/game-6/main.js:543-602 | a halted loop changes nothing; otherwise the timestamp is recorded; before the start the player is untouched; once started the physics is a Landing.Simulated run over min((t - last) / 1000, 0.05); a crash halts the loop for good; otherwise the player respawns exactly when the physics left it below -20 and is the physics result otherwise, and the stopwatch shows the time since its start while running |
| Course.JumpGame.KeyDown | games/game-6/main.js:271-289 | space, Spacebar and ArrowUp jump (speed 12, off the ground, only when grounded) and change nothing else; N is one addNextPlatform Step and nothing else; R rebuilds by Built with the cursor of the last step, respawns at rest keeping the contact flags, runs the stopwatch from now unfinished at 0 ms, keeps the best, the loop state and the timestamp; other keys change nothing |
| Course.JumpGame.Restart | games/game-6/main.js:639-644 | a course rebuilt by Built with the cursor of the last step, the player at the spawn point at rest with its contact flags kept, the stopwatch running from now with the best kept, and the loop state and timestamp untouched |
| Course.JumpGame.StartGame | games/game-6/main.js:696-705 | the game runs and the stopwatch restarts from now |
| Course.JumpGame.ResetTimeAttack | games/game-6/main.js:408-420 | finished and elapsed are cleared; the stopwatch runs from now exactly when asked to |
| Course.JumpGame.UpdateTimeAttackUI | games/game-6/main.js:422-428 | elapsed is the time since the start while running and not finished, and unchanged otherwise |
| Course.JumpGame.FinishTimeAttack | games/game-6/main.js:430-443 | null and nothing changed unless running and not finished; otherwise finished, elapsed recorded, best updated by BestAfter, seconds returned |
| CourseEarly.OverlapsCandidate | 3d/games/game-6/main.js:118-131 | true exactly when some platform, the ground included, has both edge gaps below 0.4 |
| CourseEarly.GroundBlocksCentre | 3d/games/game-6/main.js:118-131 | every candidate centred within 30.4 of the origin on both axes overlaps the 60 by 60 ground |
| CourseEarly.Nudge | 3d/games/game-6/main.js:172-173 | the nudged coordinate stays in bounds, keeps its sign, never moves toward the origin, and moves at most 0.6 |
| CourseEarly.EarlyGame.constructor | 3d/games/game-6/main.js:54-112 | the player starts at (0, 3, 0) at rest with prev equal to pos, not grounded and without contact; page load builds the course by EarlyBuilt: 140 addNextPlatform steps from the ground and the cursor (0, 1.2, 0) with counter 0, each clear of the course so far or nudged from an overlapping try, with the cursor of the last step |
| CourseEarly.EarlyGame.Random | 3d/games/game-6/main.js:98 | one draw of the stream, in [0, 1) |
| CourseEarly.EarlyGame.InitGenState | 3d/games/game-6/main.js:93-101 | the cursor is at (0, 1.2, 0) with counter 0 and a heading in [0, 2 pi) |
| CourseEarly.EarlyGame.DrawRise | 3d/games/game-6/main.js:146-149 | the rise drawn for one try lies in [-0.28, 2.2] |
| CourseEarly.EarlyGame.DrawSize | 3d/games/game-6/main.js:155-161 | the footprint drawn for one try is in band |
| CourseEarly.EarlyGame.Candidate | 3d/games/game-6/main.js:140-161 | the candidate is in bounds, rises by [-0.28, 2.2], and is in band |
| CourseEarly.EarlyGame.Attempts | 3d/games/game-6/main.js:133-169 | after 1 to 16 tries the candidate is in bounds and in band; a taken one overlaps no platform; without a success all 16 tries were made and the last candidate overlaps |
| CourseEarly.EarlyGame.AddNextPlatform | 3d/games/game-6/main.js:114-180 | one EarlyStep: exactly one platform is always appended, in bounds, rising by [-0.28, 2.2], in band, with the cursor moved onto it; if a try succeeded it clears every platform, otherwise the last try overlapped and the platform is that try nudged outward |
| CourseEarly.EarlyGrownExtend | 3d/games/game-6/main.js:183-185 | a history of count EarlySteps followed by one more EarlyStep is a history of count + 1 EarlySteps |
| CourseEarly.EarlyGame.BulkGenerate | 3d/games/game-6/main.js:183-185 | EarlyGrown: count EarlySteps after the unchanged old list, the history starting at the old cursor and ending at the new one |
| CourseEarly.EarlyGame.GeneratePlatforms | 3d/games/game-6/main.js:102-112 | EarlyBuilt: the ground and 140 EarlySteps from the cursor (0, 1.2, 0) with counter 0, ending at the current cursor |
| CourseEarly.EarlyGame.PhysicsStep | 3d/games/game-6/main.js:432-455 | the new player state is the end of a Landing.Simulated run from the old one: SubSteps(dt, vy) sub-steps (1 to 10), each Integrated then Resolved, all run unless one throws; a throw leaves a virtual-floor contact no platform catches; otherwise the player rests consistently |
| CourseEarly.EarlyGame.Frame | 3d/games/game-6/main.js:371-428 | a halted loop changes nothing; otherwise the timestamp is recorded; before the start the player is untouched; once started the physics is a Landing.Simulated run over min((t - last) / 1000, 0.05); a crash halts the loop; otherwise the player respawns exactly when the physics left it below -20 and is the physics result otherwise |
| CourseEarly.EarlyGame.KeyDown | 3d/games/game-6/main.js:209-221 | space, Spacebar and ArrowUp jump when grounded and change nothing else; N is one EarlyStep (one platform placed from the cursor, clear of all platforms or nudged from an overlapping try); other keys change nothing |
| CourseEarly.EarlyGame.Restart | 3d/games/game-6/main.js:466-469 | a course rebuilt by EarlyBuilt and the player at the spawn point at rest with its contact flags kept |
| CourseEarly.EarlyGame.StartGame | 3d/games/game-6/main.js:522-530 | the game runs |
| Landing.CrossFraction | games/game-6/main.js:469-471 | the clamped crossing fraction lies in [0, 1] |
| Landing.Lerp | games/game-6/main.js:472-473 | the interpolated coordinate lies between the previous and the current value |
| Landing.Probe | games/game-6/main.js:465-482 | the probe point lies between the previous and current positions, and is the current one for a near-top settle |
| Landing.FindSupport | games/game-6/main.js:458-489 | None exactly when no platform qualifies; otherwise the highest-top qualifying platform, first-seen on ties |
| Landing.IsSupportUnique | games/game-6/main.js:458-489 | at most one platform is the resolver's support: the strict tie-break leaves no choice |
| Landing.ResolvesUnique | games/game-6/main.js:446-539 | checkCollisions is deterministic: the outcome and the new state are fixed by the old state and the course |
| Landing.SimulatedUnique | games/game-6/main.js:606-629 | physicsStep is deterministic: two recorded runs from the same state over the same course and frame time are the same run |
| Landing.Gravity | games/game-6/main.js:611-614 | gravity for one sub-step, clamped so that the speed is never below -40 |
| Landing.SubSteps | games/game-6/main.js:608-616 | the sub-step count lies in [1, 10] and is at least the travel and time estimates when they are within the cap |
| Landing.SubStepsSmall | games/game-6/main.js:610-616 | unless the cap bites, each sub-step travels at most 0.3 vertically and lasts at most 0.012 |
| Landing.Player.constructor | games/game-6/main.js:54-61 | the player starts at (0, 3, 0) at rest, not grounded |
| Landing.Player.CheckCollisions | games/game-6/main.js:446-539 | the player lands exactly when some platform qualifies, on the IsSupport choice at top + 1 with zero vertical speed; otherwise sticky ground holds or, after a virtual-floor contact, the TypeError (Crashed) leaves everything unchanged; otherwise the virtual floor catches at y = 1, or the player is airborne with no contact; horizontal state and prev never change |
| Landing.Player.Integrate | games/game-6/main.js:611-624 | the new state is Integrated of the old one: gravity is applied and clamped, prev is the old position, and the position moves by velocity times h |
| Landing.Player.Jump | games/game-6/main.js:272-277 | a grounded player gets vertical speed 12 and leaves the ground; otherwise nothing changes |
| Landing.Player.Respawn | games/game-6/main.js:630-636 | the new state is Respawned of the old one: the player is at (0, 3, 0) at rest with prev equal to pos; the contact is left as it was |
| Tetris.CreateMatrix | 3d/games/game-3/main.js:15-19 | h rows of w zeros |
| Tetris.Collide | 3d/games/game-3/main.js:55-65 | true exactly when some nonzero piece cell falls on a missing row, a missing column or a nonzero arena cell |
| Tetris.MergeWrites | 3d/games/game-3/main.js:47-53 | merging writes each nonzero piece value at its offset and leaves every other cell unchanged; the merged piece then collides |
| Tetris.MergePiece | 3d/games/game-3/main.js:47-53 | the cell-by-cell merge loop yields Merged |
| Tetris.Rotated | 3d/games/game-3/main.js:67-70 | a turn of a square matrix is square of the same side |
| Tetris.RotateUndo | 3d/games/game-3/main.js:67-70 | a turn one way followed by a turn the other way restores the matrix |
| Tetris.RotateMovesBlock | 3d/games/game-3/main.js:67-70 | a turn carries each cell to its turned position, so no block is lost |
| Tetris.Transpose | 3d/games/game-3/main.js:68 | the in-place swap loop transposes the matrix |
| Tetris.ReverseEachRow | 3d/games/game-3/main.js:69 | every row is reversed in place |
| Tetris.ReverseRowOrder | 3d/games/game-3/main.js:69 | the row order is reversed in place |
| Tetris.TransposeThenReverse | 3d/games/game-3/main.js:67-70 | a transpose then a row or order reversal is exactly the turn Rotated |
| Tetris.Rotate | 3d/games/game-3/main.js:67-70 | in-place rotate yields Rotated of the old matrix |
| Tetris.NonFullKept | 3d/games/game-3/main.js:142-156 | the kept rows are exactly the rows that are not full |
| Tetris.CountSplit | 3d/games/game-3/main.js:142-156 | the full rows and the kept rows together are all the rows |
| Tetris.SweptShape | 3d/games/game-3/main.js:150-151 | the sweep keeps the arena 20 by 10 |
| Tetris.SweptNoFull | 3d/games/game-3/main.js:144-149 | no full row is left after the sweep |
| Tetris.SweptRows | 3d/games/game-3/main.js:142-156 | each of the 20 swept rows has 10 cells and is not full |
| Tetris.Sweep | 3d/games/game-3/main.js:142-156 | the bottom-up splice/unshift loop yields zero rows on top and the non-full rows in order, and adds 10 times (2^k - 1) for k full rows |
| Tetris.NoCollideFits | 3d/games/game-3/main.js:47-65 | without a collision every nonzero piece cell is inside the arena |
| Tetris.NoCollideAboveFloor | 3d/games/game-3/main.js:59 | a piece with a block that does not collide has its top row above the floor |
| Tetris.EmptyArenaSpawn | 3d/games/game-3/main.js:167-170 | on an empty arena a square piece of side 2 to 4 never collides at its spawn point |
| Tetris.Pick | 3d/games/game-3/main.js:162-165 | the drawn index is a valid position in "IJLOSTZ" |
| Tetris.TemplatesUpdate | 3d/games/game-3/main.js:195-196 | replacing a template by a square template keeps the seven valid (a turned template stays one) |
| Tetris.TemplatesLiteral | 3d/games/game-3/main.js:23-31 | the literal templates are seven squares of side 2 to 4, each with a block |
| Tetris.RowFull | 3d/games/game-3/main.js:145-149 | the inner sweep loop reports exactly a full row |
| Tetris.DropRow | 3d/games/game-3/main.js:197 | the hard-drop fall ends at LandsAt: every row from the start to the result is free and the next one collides |
| Tetris.LandsAtUnique | 3d/games/game-3/main.js:197 | the landing row of a drop is unique |
| Tetris.KeyAction | 3d/games/game-3/main.js:192-197 | a key selects at most one move; a turn is by 1 or -1 |
| Tetris.LockPiece | 3d/games/game-3/main.js:128-132 | merge then sweep: the board stays 20 by 10 and the score gains the bonus for the full rows of the merged board |
| Tetris.Board.constructor | 3d/games/game-3/main.js:116-178 | an empty arena, the literal templates, score 0, running, the frame clock and the gravity counter at 0, and the first spawn from two draws |
| Tetris.Board.Random | 3d/games/game-3/main.js:163-165 | one draw of the stream |
| Tetris.Board.DrawNext | 3d/games/game-3/main.js:162-166 | the queued type becomes current (drawn first if none is queued) and a fresh type is queued |
| Tetris.Board.Spawn | 3d/games/game-3/main.js:166-176 | the piece is at row 0, column floor((10 - width) / 2); a collision there empties the arena, zeroes the score and stops the game |
| Tetris.Board.PlayerReset | 3d/games/game-3/main.js:161-176 | the next piece is drawn and spawned with the SpawnOutcome rule; the board invariant holds |
| Tetris.Board.ClearArena | 3d/games/game-3/main.js:171 | every arena cell becomes 0 |
| Tetris.Board.Lock | 3d/games/game-3/main.js:129-132 | LockedAt: merge, sweep and spawn as LockOutcome says, the queued type becomes current, the next draw of the stream is queued, and the piece is at the spawn column on row 0; the board invariant holds |
| Tetris.Board.Update | 3d/games/game-3/main.js:121-140 | stopped: only the clock moves; until more than 1000 ms have gathered, only the counter and the clock move; then Dropped: one row down with nothing else changed, or LockedAt the current row with the next piece dealt and spawned, and the counter resets |
| Tetris.Board.SoftDrop | 3d/games/game-3/main.js:127-134 | Dropped: one row down with nothing else changed when free; otherwise LockedAt at its row, with the next piece dealt |
| Tetris.Board.HardDrop | 3d/games/game-3/main.js:197 | the piece locks at LandsAt, the unique row where every row from its position down is free and the next collides, then LockedAt: the queued piece spawns and the next draw is queued |
| Tetris.Board.Shift | 3d/games/game-3/main.js:192-193 | Moved: a sideways move is kept exactly when it does not collide, and nothing else changes |
| Tetris.Board.Turn | 3d/games/game-3/main.js:195-196 | Spun: the current template is turned when that does not collide, and restored otherwise; other templates and the rest of the board are untouched |
| Tetris.Board.KeyDown | 3d/games/game-3/main.js:180-198 | ignored while stopped, and an unbound key changes nothing; a sideways move is Moved; a turn is Spun; down is Dropped; Space locks at LandsAt by LockedAt; down and Space reset the drop counter, other keys keep it |
| Tetris.Board.TogglePause | 3d/games/game-3/main.js:200 | running flips, and resuming restarts the clock at now |
| Slot.SymbolIndex | 3d/games/game-4/main.js:61 | the drawn symbol index is below 7 |
| Slot.SymbolOfCovers | 3d/games/game-4/main.js:61 | every draw lands on a symbol, and every symbol can be drawn |
| Slot.StepCount | 3d/games/game-4/main.js:58 | reel idx starts with 20 + 8 idx to 31 + 8 idx steps |
| Slot.CutAt | 3d/games/game-4/main.js:159-163 | the cut is within the name |
| Slot.CutAtFirst | 3d/games/game-4/main.js:159-163 | the cut falls on the first `?` or `#`, and at the end exactly when neither occurs |
| Slot.Basename | 3d/games/game-4/main.js:155-165 | null exactly for an empty path |
| Slot.BasenameClean | 3d/games/game-4/main.js:157-164 | a name holds no `/`, `?`, `#` or upper-case letter |
| Slot.AfterLastPrefix | 3d/games/game-4/main.js:157 | the text after the last `/` ignores everything up to a `/` |
| Slot.BasenameUnderDir | 3d/games/game-4/main.js:155-165 | a directory in front of a path does not change its name |
| Slot.BasenamePlain | 3d/games/game-4/main.js:155-165 | a plain lower-case file name is its own name |
| Slot.NamesPlain | 3d/games/game-4/main.js:2-10 | the seven file names are plain |
| Slot.SymbolPaths | 3d/games/game-4/main.js:2-10 | each symbol path is `assets/` and its file name |
| Slot.NamesDistinct | 3d/games/game-4/main.js:2-10 | no two symbols share a file name |
| Slot.SymbolNames | 3d/games/game-4/main.js:155-165 | each symbol path normalises to its file name |
| Slot.Visible | 3d/games/game-4/main.js:169-183 | the window has three columns of three names |
| Slot.FirstWin | 3d/games/game-4/main.js:186-196 | the first winning row from a row down, or none |
| Slot.JudgeRule | 3d/games/game-4/main.js:186-199 | no winning row means no payout; otherwise the top-most winning row decides: 200 times the bet for sevens, 30 times otherwise, shown as a big win |
| Slot.Evaluate | 3d/games/game-4/main.js:186-199 | the row loop returns Judge |
| Slot.SettleCoherent | 3d/games/game-4/main.js:65-77 | stopping a waiting reel keeps the reels coherent, and the spin runs until the last one stops |
| Slot.LaunchedOk | 3d/games/game-4/main.js:53-62 | freshly started reels are consistent with the strips and count as a running spin |
| Slot.Machine.InitialStrips | 3d/games/game-4/main.js:27-41 | three strips of 12 children |
| Slot.Machine.constructor | 3d/games/game-4/main.js:18-20 | 100 coins, bet 1, not spinning, and the strips of initReels |
| Slot.Machine.Random | 3d/games/game-4/main.js:35 | one draw of the stream |
| Slot.Machine.InitReels | 3d/games/game-4/main.js:27-41 | every strip refilled with 12 drawn symbols, reel by reel |
| Slot.Machine.BetButton | 3d/games/game-4/main.js:127-130 | the bet becomes min(coins, bet + 1) |
| Slot.Machine.DrawReels | 3d/games/game-4/main.js:53-62 | per reel the step count, then the final symbol, drawn in that order |
| Slot.Machine.Spin | 3d/games/game-4/main.js:45-62 | the stop order and controllers reset on every press; a running spin or too few coins change nothing else; otherwise the coins drop by exactly the bet and all three reels start |
| Slot.Machine.Launch | 3d/games/game-4/main.js:48-62 | the bet is paid and the three reels start |
| Slot.Machine.StopReel | 3d/games/game-4/main.js:206-237 | a reachable controller sets the reel's steps to 0; otherwise only the page fallbacks decide the result |
| Slot.Machine.StopKey | 3d/games/game-4/main.js:239-246 | the stop index never passes 3 and advances by one only on a successful stop |
| Slot.Machine.Step | 3d/games/game-4/main.js:64-99 | with steps left the scroll starts; otherwise the final symbol is shown in the centre and recorded, and the last reel to stop ends the spin and pays Judge |
| Slot.Machine.Finish | 3d/games/game-4/main.js:65-95 | the final symbol goes to the centre; once all have stopped, spinning ends and the judged payout is added; before that coins do not change |
| Slot.Machine.Settle | 3d/games/game-4/main.js:68-74 | the final symbol in the centre child and as the reel's result |
| Slot.Machine.Payout | 3d/games/game-4/main.js:76-93 | spinning ends and the judged payout is added |
| Slot.Machine.TransitionEnd | 3d/games/game-4/main.js:102-116 | the first child moves to the end with a fresh symbol, other strips stay, and one step is counted off |
| Slot.Machine.Tick | 3d/games/game-4/main.js:64-117 | a reel without a pending callback changes nothing; a waiting reel takes the Step effect (scroll, or stop in the centre and, as the last reel, the Judge payout); a moving reel takes the TransitionEnd effect (strip rotated with a fresh symbol, one step counted off); coins change only once the last reel stops |
| Slot.CentreRowIsFinals | 3d/games/game-4/main.js:169-183 | once all reels have stopped, the centre row shows the final symbols' names |
| Slot.CentreNames | 3d/games/game-4/main.js:174-183 | strips all showing p in the centre have p's name across the centre row |
| Slot.SevenName | 3d/games/game-4/main.js:192 | the seven's path normalises to `seven.svg` |
| Slot.CentreSevensPay | 3d/games/game-4/main.js:186-192 | three centre sevens with no top-row win pay 200 times the bet as a big win |
| Duel.ArmDelay | games/game-1/main.js:83 | the arm delay lies in [2000, 5999] ms |
| Duel.Elapsed | games/game-1/main.js:119 | a reaction time is never negative, and equals the time since the signal after it |
| Duel.AwardFirst | games/game-1/main.js:148-172 | player 1 scores exactly when they reacted and player 2 did not react sooner or at all |
| Duel.AwardFair | games/game-1/main.js:148-172 | at most one point per round, the rule is symmetric, and a tie scores nobody |
| Duel.FoulAward | games/game-1/main.js:102-110 | a foul gives exactly the other player the point |
| Duel.Arm | games/game-1/main.js:77-85 | arming draws once, goes armed with the delay of that draw pending, and keeps the scores and the intro |
| Duel.ReactOwnTime | games/game-1/main.js:116-129 | a reaction changes only the presser's own time, and a first reaction is the time since the signal |
| Duel.KeyScores | games/game-1/main.js:97-114 | no key press takes a point away and one press gives at most one point; A or L while armed gives exactly one, to the other player |
| Duel.Game.constructor | games/game-1/main.js:52-62 | scores 0, idle, no timers, and the intro shown when present |
| Duel.Game.Random | games/game-1/main.js:83 | one draw of the stream |
| Duel.Game.ClearTimers | games/game-1/main.js:179-188 | no timer is pending |
| Duel.Game.ResetRound | games/game-1/main.js:64-70 | the round's times and foul are cleared |
| Duel.Game.StartRound | games/game-1/main.js:77-85 | a no-op when armed or signalled (times, foul, timers, delay and draws kept); otherwise armed with times and foul cleared and a delay in [2000, 5999] |
| Duel.Game.SignalGo | games/game-1/main.js:87-95 | the clock is read, the state is go, and the 3000 ms wait starts |
| Duel.Game.ArmTimerFires | games/game-1/main.js:84 | a pending arm timer signals go, and the clock is read at firing |
| Duel.Game.OnFoul | games/game-1/main.js:97-114 | the round ends, the timers are cleared and the other player gets the point |
| Duel.Game.FinalizeRound | games/game-1/main.js:136-177 | a no-op once finished; otherwise finished with the Award points |
| Duel.Game.FinalizeTimerFires | games/game-1/main.js:94 | a pending finalize timer decides the round by Award |
| Duel.Game.RecordReaction | games/game-1/main.js:116-134 | ignored unless go; otherwise the React outcome: only the presser's first reaction is kept, the other player's time and the foul never change, and the second reaction decides the round at once by Award |
| Duel.Game.HideIntro | games/game-1/main.js:28-32 | the intro is hidden |
| Duel.Game.KeyDown | games/game-1/main.js:191-222 | the new state is WindowKey of the lower-cased key: Space hides a visible intro, else arms a round from idle or finished; A or L while armed is that player's foul with the FoulAward point; during go the React outcome; other keys change nothing |
| Duel.Game.PanelKeyDown | games/game-1/main.js:36-41 | Space, Spacebar and Space-named keys hide the intro, and then the window handler runs; so Spacebar only hides the intro, and Space from idle or finished also arms a round; other keys are the window handler alone |
| Duel.Game.Restart | games/game-1/main.js:224-234 | scores 0, idle, no timers, and the round forgotten |
| Text.LowerChar | games/game-1/main.js:192 | ASCII upper-case letters shift to lower case, other characters stay |
| Text.Lower | games/game-1/main.js:192 | lower-cases character by character, keeping the length |
| Text.IndexOfFirst | 3d/games/game-4/main.js:159-160 | indexOf is -1 exactly when the character is absent, else the first position holding it |
| Text.AfterLastSuffix | 3d/games/game-4/main.js:157 | the text after the last separator holds none, is the whole string without one, and is a suffix right after the last one |

## Left out

- Rendering is not modelled: Three.js scenes, meshes, the camera, canvas drawing, the DOM, CSS classes, messages and background colours.
- Mouse capture and mouse look, resize, the settings overlay, the back buttons, the `t` navigation key and the launcher messages are left out, because they are rendering or navigation.
- `Math.random`, `Math.cos`, `Math.sin`, `performance.now` and frame timestamps are injected, not modelled.
- `localStorage` is left out. The stored best time is a constructor parameter.
- `Course.JumpGame.Frame`: the horizontal steering lerp, the dash and the yaw rotation of `animate` are left out as view-relative float kinematics. Horizontal velocity is whatever the player holds.
- `Course.JumpGame.AddNextPlatform`: a skipped step is stated as `Blocked`, meaning that for the heading and size the search used every radial spot overlaps. That heading is the accumulated one after 48 tries. The model does not relate it to the individual draws.
- `Course.JumpGame.FinishTimeAttack`: nothing in the script calls `finishTimeAttack`. Reaching the top only shows the congratulation. The stopwatch operations are therefore standalone, and nothing connects landing at the top to the best time.
- `Landing.Player.CheckCollisions`: after a virtual-floor contact the sticky rule reads a null platform. That throws, ends the frame and stops the `requestAnimationFrame` loop. The model reports `Crashed` and sets `halted`. It does not model what else the exception skips on the page.
- `Landing.Player.Respawn`: like the source, it leaves `onGround` and the contact as they were.
- `CourseEarly`: because the ground counts in the overlap test, the generator mostly falls back near the start (see `CourseEarly.GroundBlocksCentre`). Fallback platforms may overlap, so the model states no separation invariant for this variant.
- `Tetris.Board`: the arena and the seven templates are `seq` fields that the methods reassign, not nested JavaScript arrays. In-place rotation is proved separately on an `array2` (`Tetris.Rotate`) and connected to the turn through `Tetris.Rotated`.
- `Tetris.Board.Turn`: the current piece is the template `pieces[current]` itself. A turn therefore changes that template for every later spawn of its type; this is the source's aliasing. The undo is a second `Rotated` call, and `Tetris.RotateUndo` proves it restores the template.
- `Tetris.Board.Update`: `lastTime` is written at the end rather than first. Both paths set it to the frame time, so the state is the same. The frame loop (`requestAnimationFrame`) is left out: `running` stands for whether frames are delivered.
- `Tetris.Board.KeyDown`: the `t` key's launcher navigation is left out.
- `Slot`: the strips hold the image paths the script assigns; `img.src` reading back as a full URL is covered by `Slot.BasenameUnderDir`. The DOM extraction of the window takes children 5, 6 and 7 of each strip.
- `Slot.Machine.StopReel`: the fallbacks 2 to 4 of `stopReelByIndex` depend on globals and CSS this script does not define. They are the boolean `fallbackStops`.
- `Slot.Machine.Spin`: the wrapper clears the controllers even when the press is rejected. A Space stop during a running spin after such a press therefore goes to the fallbacks, as in the source.
- `Slot.Machine.Step`: the first `step()` of each reel is modelled as the reel entering `Moving` directly. The CSS transition end and the 20 ms timeout are events delivered through `Slot.Machine.Tick`.
- `Slot.Machine.Payout`: `evaluate` reads the bet at the moment the last reel stops. A bet changed during a spin is used, as in the source.
- `Slot.Machine.BetButton`: the bet can reach 0 when the coins do, and a zero bet spins for free, as in the source.
- The slot's auto-spin `setInterval` and the 3-second big-win CSS timer are left out, because they are timer plumbing.
- `Duel.Game.FinalizeRound`: the foul branch is unreachable. A foul already sets `finished`, and the first guard then returns. The model keeps the branch as written.
- `Duel.Game.PanelKeyDown`: Space on the focused intro panel bubbles to the window handler. One press therefore hides the intro and, from idle or finished, starts a round.
- `Text.Lower`: `toLowerCase` is modelled for ASCII letters only.
- `setTimeout` scheduling is not modelled. Pending timers are options with their delays, and the page calls `Duel.Game.ArmTimerFires` and `Duel.Game.FinalizeTimerFires` when they expire.
