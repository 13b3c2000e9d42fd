# Raycaster on PixelDraw — a verified model

PixelDraw is a small SDL2 wrapper (`include/PixelDraw.hh`, namespace `mrt`).
It owns the window, the main loop and the keyboard tables, and it hands each
frame to an application through `on_load` and `on_frame_update`.
The Raycaster (`source/raycaster.cc`) is a Wolfenstein-style renderer built on it.
It has a 24 x 24 tile map, a player who turns with the arrow keys and walks with
W/S/A/D, and one ray marched per screen column into a depth buffer. Sprites
(barrels, pillars and fireballs spawned with SPACE) move, are flagged when they
enter a wall, and are drawn where the depth buffer lets them through. At the end
of each frame the sprites are filtered and sorted far-to-near.

This project models that behaviour in Dafny and proves what the code promises.

| module | file | what it holds |
|---|---|---|
| `Vec` | `vec.dfy` | `vec2<T>` with `operator==` / `operator!=`, and the real-valued vector arithmetic |
| `Grid` | `grid.dfy` | the `map` literal row by row, `get_map_tile`, the closed border, C float-to-int truncation |
| `Angles` | `angles.dfy` | the hit-side range tests, the one-step wrap of `object_angle`, the field-of-view, distance and depth-buffer tests |
| `RayMarch` | `raymarch.dfy` | the column loop `while (!hit_wall && distance_to_wall < depth)`: as a specification function and as the loop itself |
| `Objects` | `objects.dfy` | `remove_if` on the flag and `std::list::sort` by descending key: filtered, ordered, a permutation, stable |
| `Mrt` | `pixeldraw.dfy` | `keys[322]`, `held_keys[322]`, `running`, the event loop of `run`, `get_key_state`, and `Texture` ownership |
| `Raycaster` | `raycaster.dfy` | the `Raycaster` class: constructor, `on_load`, and each phase of `on_frame_update` |

Floating-point quantities are Dafny `real`s. `PI` is the literal `3.14159`.
`sinf`, `cosf`, `atan2f` and `sqrtf` are supplied as a `Maths` value, with sine and cosine in [-1, 1].
SDL's event queue is an input: one batch of events per iteration of the main loop.

The invariant everything rests on is `Raycaster.Raycaster.Valid`:
- the table meets `Grid.MapOk` (576 entries in 0..8, a fully walled border);
- the player stands on an interior tile;
- every sprite is unflagged, on an interior tile, at most 5 tiles per second on each axis, and has a texture of the table.

With a frame time below 0.2 s nothing moves a whole tile in one frame, so every lookup lands next to an interior tile.
From this the model shows that every `get_map_tile` and `textures.at` stays in range.
`on_frame_update` restores the invariant for the next frame.

Two details of the code that the model keeps as written:
- The object-angle wrap (source/raycaster.cc:368-372) adds 2π to an angle below -π, then subtracts 2π from one above π. An angle of exactly -π is left unchanged. One correction brings an angle in [-3π, 3π] into [-π, π], which covers the difference of two atan2f values in [-3π/2, 3π/2]; an angle outside [-3π, 3π] stays outside [-π, π].
- The sort (source/raycaster.cc:416) is `std::list::sort`, which is stable, so stability is proved.

## Model

| member | source | states |
|---|---|---|
| Vec.Equals | include/PixelDraw.hh:39 | `operator==` holds exactly when the two vectors are equal |
| Vec.NotEquals | include/PixelDraw.hh:40 | `operator!=` is the exact negation of `operator==`: it holds exactly when the vectors differ |
| Vec.AddThenSubIsIdentity | source/raycaster.cc:139-146 | subtracting the displacement a blocked move added restores the position exactly (over the reals) |
| Grid.MapEntry | source/raycaster.cc:25-51 | the table has 24 * 24 entries, entry i is row i / 24, column i % 24, and each entry is a material id 0..8 |
| Grid.TileAtCell | source/raycaster.cc:78-80 | for 0 <= x, y < 24, `get_map_tile(x, y)` on the source's table reads row y, column x |
| Grid.MapIsOk | source/raycaster.cc:25-51 | the source's table has 576 entries, all in 0..8, and every tile of row 0, row 23, column 0 and column 23 is a wall |
| Grid.GetMapTileRowMajor | source/raycaster.cc:78-80 | the flat index y * 24 + x is row-major: for 0 <= x < 24 it reads column x of row y, with y in 0..23; for x == 24 it reads column 0 of row y + 1 |
| Grid.GetMapTileAt | source/raycaster.cc:82-84 | the `vec2i` overload reads the same entry as `get_map_tile(x, y)`; on a table meeting MapOk the value indexes the 12 textures loaded at source/raycaster.cc:105-116 |
| Grid.EmptyTileIsInterior | source/raycaster.cc:26-49 | on a walled table an empty tile of the grid is never on the border |
| Grid.NeighbourInGrid | source/raycaster.cc:78-84 | a cell next to an interior cell has its flat index y * 24 + x inside the vector |
| Grid.StartTileIsWall | source/raycaster.cc:87 | the initial position (8, 8) lies on wall tile 7, not on empty space |
| Grid.ColumnPastEdgeWraps | source/raycaster.cc:277-281 | the march guard uses `>`, so x == 24 passes it; for y < 23 that flat index is column 0 of the next row |
| Grid.TruncMonotone | source/raycaster.cc:361 | truncating a float to int never reverses the order of two values |
| Grid.Trunc | source/raycaster.cc:143 | `(int)` on a float truncates toward zero: n <= r < n + 1 for r >= 0, n - 1 < r <= n for r < 0 |
| Grid.NearTilesAdjacent | source/raycaster.cc:143 | positions less than a tile apart on each axis truncate to cells at most one apart |
| Grid.TileOfContains | source/raycaster.cc:143 | `((int)p.x, (int)p.y)` of a position with non-negative coordinates is the cell containing it: c <= p < c + 1 on each axis |
| Angles.QuadrantsPartition | source/raycaster.cc:295-310 | the four ranges of the hit-side tests are disjoint and cover every real, so exactly one test fires |
| Angles.HitSide | source/raycaster.cc:295-310 | side 1 exactly for [-π/4, π/4) and for angles >= 3π/4 or < -3π/4; side 0 exactly for [π/4, 3π/4) and [-3π/4, -π/4) |
| Angles.QuadrantTies | source/raycaster.cc:295-310 | at ±π/4 and ±3π/4 the range whose lower bound is inclusive wins |
| Angles.WrapObjectAngle | source/raycaster.cc:368-372 | at most one ±2π correction is applied; an angle in [-π, π] is unchanged; any angle in [-3π, 3π] lands in [-π, π] |
| Angles.WrapJustAbovePi | source/raycaster.cc:368-372 | π + ε wraps to -π + ε after one correction, for 0 < ε <= 2π |
| Angles.InFieldOfView | source/raycaster.cc:374 | `fabs(object_angle) < fov / 2` holds exactly when the angle lies strictly between -fov / 2 and fov / 2 |
| Angles.ObjectVisible | source/raycaster.cc:374-376 | a sprite is drawn exactly when it is in the field of view and its distance lies in [0.5, depth) |
| Angles.VisibleColumns | source/raycaster.cc:401-404 | a visited column is kept exactly when `depth_buffer[column] >= distance` |
| Angles.DrawSpriteColumns | source/raycaster.cc:388-405 | the sprite's column loop draws exactly the columns passing the depth test, in order, and never writes the depth buffer |
| RayMarch.ProbeStep | source/raycaster.cc:272-275 | consecutive test points are less than a tile apart on each axis |
| RayMarch.MarchFrom | source/raycaster.cc:271-315 | a march from an interior cell never trips the guard: it stops inside the grid, on a non-empty tile, or after exactly 3000 steps on an empty tile |
| RayMarch.MarchFromFirstWall | source/raycaster.cc:271-282 | the march stops at the first non-empty cell: every probe after step k and before the last lands on an empty interior cell |
| RayMarch.MarchStep | source/raycaster.cc:271-282 | one step: the next cell passes the guard and lies in the grid; the march stops there on a wall, ends there at depth, or continues from it |
| RayMarch.ProbeAtDistance | source/raycaster.cc:272-275 | the test point player + eye * distance after k steps is the k-th probe |
| RayMarch.ProbeWithinReach | source/raycaster.cc:271-275 | after k steps the test point lies within k * step of the player on each axis |
| RayMarch.CastResultShape | source/raycaster.cc:277-312 | a column reports the march's last cell and a side of 0 or 1; with no wall, side stays 0 and sample_x keeps its previous value; a ray that left the grid reports depth, one that ran out of depth reports the distance marched |
| RayMarch.MarchFromPlayer | source/raycaster.cc:271-315 | the march from the player takes 1..3000 steps and ends in the grid without leaving it |
| RayMarch.CastStaysInGrid | source/raycaster.cc:271-328 | a column ends on a grid cell whose tile indexes the texture table; on a wall its side is the hit-side of the hit angle; with no wall the distance is depth, side is 0 and sample_x keeps its previous value; every probe before the last lies on an empty cell, so the wall shown is the nearest one along the ray |
| RayMarch.DistanceBelowDepth | source/raycaster.cc:271-272 | the loop test `distance_to_wall < depth` holds exactly while fewer than 3000 steps were taken |
| RayMarch.WallResult | source/raycaster.cc:284-312 | the values the loop computes on a wall hit are the column's specified result |
| RayMarch.ClassifyHit | source/raycaster.cc:295-310 | the four overwriting tests leave side = HitSide(angle), with sample_x taken along y for side 1 and along x for side 0 |
| RayMarch.HitWall | source/raycaster.cc:284-312 | the wall branch, with the side and the fisheye-corrected distance, gives the specified result |
| RayMarch.MarchOnce | source/raycaster.cc:272-314 | one loop body keeps the march on its specified course, and a hit yields the specified result |
| RayMarch.CastRay | source/raycaster.cc:259-315 | the column loop returns exactly the specified cast: distance, last cell, side and sample_x |
| Objects.Survivors | source/raycaster.cc:413 | `remove_if` keeps exactly the entries whose flag is clear |
| Objects.SurvivorsAppend | source/raycaster.cc:413 | filtering keeps relative order: it distributes over concatenation |
| Objects.SurvivorsOfUnflagged | source/raycaster.cc:413 | a list with no flagged entry is unchanged |
| Objects.InsertDescPermutes | source/raycaster.cc:416 | inserting an entry adds exactly that entry |
| Objects.InsertDescSorted | source/raycaster.cc:416 | insertion keeps a list ordered by non-increasing key |
| Objects.InsertDescWithKey | source/raycaster.cc:416 | the inserted entry goes after every entry with the same key |
| Objects.SortByKeyDesc | source/raycaster.cc:416 | the sort keeps the list's length |
| Objects.SortByKeyDescSorted | source/raycaster.cc:416 | after the sort with `a.first > b.first` the keys never increase |
| Objects.SortByKeyDescPermutes | source/raycaster.cc:416 | the sort is a permutation of its input |
| Objects.SortByKeyDescStable | source/raycaster.cc:416 | entries with equal keys keep their prior order, as `std::list::sort` is stable |
| Mrt.ClearFrame | include/PixelDraw.hh:279 | the memset clears every pressed and released flag and leaves held_keys and running alone |
| Mrt.Apply | include/PixelDraw.hh:283-293 | SDL_QUIT clears running; KEYDOWN of a key that is not held sets pressed and held; KEYDOWN of a held key changes nothing; KEYUP sets released and clears held |
| Mrt.HeldIsLastKeyEvent | include/PixelDraw.hh:285-293 | after a frame's events a key is held exactly when its last key event was a KEYDOWN, or, with none, as before |
| Mrt.OtherKeysUntouched | include/PixelDraw.hh:282-294 | events for other keys, and quit, leave a key's entries alone |
| Mrt.NoRepeatWhileHeld | include/PixelDraw.hh:285-289 | auto-repeat never presses a held key again while no KEYUP arrives |
| Mrt.PressedNeedsKeyDown | include/PixelDraw.hh:285-289 | a key's pressed flag is set in a frame only by a KEYDOWN for it |
| Mrt.ReleasedIffKeyUp | include/PixelDraw.hh:290-293 | after the clear, released is set exactly when a KEYUP for the key arrived |
| Mrt.RepressInSameFrame | include/PixelDraw.hh:285-293 | KEYUP then KEYDOWN in one frame leaves the key pressed, released and held |
| Mrt.RunningAfterEvents | include/PixelDraw.hh:283-284 | after a batch, running holds exactly when it held before and no SDL_QUIT came |
| Mrt.ApplyAllAppend | include/PixelDraw.hh:281-294 | the polling loop handles events one at a time, in order: applying a batch is applying any prefix of it, then the rest |
| Mrt.KeyStateOf | include/PixelDraw.hh:335-337 | `get_key_state(sc)` reports the scancode's pressed and released flags of this frame and its held flag |
| Mrt.KeyStateConsistent | include/PixelDraw.hh:279-293 | after the clear and a frame's events, a key pressed and no longer held was released, and a key released and held again was pressed again |
| Mrt.RunFrom | include/PixelDraw.hh:267-297 | the loop calls the update at most once per batch, each time with 322-entry tables |
| Mrt.RunFromStep | include/PixelDraw.hh:267-297 | one iteration clears the frame flags, applies the batch, and then the loop continues from that state |
| Mrt.QuitFrameIsLast | include/PixelDraw.hh:267-298 | the frame whose batch holds SDL_QUIT is still updated and is the last; only that frame sees running == false |
| Mrt.PixelDraw.constructor | include/PixelDraw.hh:232-233 | both key tables start zeroed, and the loop is not running |
| Mrt.PixelDraw.GetKeyState | include/PixelDraw.hh:335-337 | `get_key_state(sc)` is (keys[sc].pressed, held_keys[sc], keys[sc].released) and changes nothing; sc < 322 |
| Mrt.PixelDraw.ClearFrameKeys | include/PixelDraw.hh:279 | the clear loop leaves the tables as ClearFrame says |
| Mrt.PixelDraw.HandleEvent | include/PixelDraw.hh:283-293 | the event branch updates the tables and running as Apply says |
| Mrt.PixelDraw.PollEvents | include/PixelDraw.hh:281-294 | the polling loop applies the frame's events in order |
| Mrt.PixelDraw.RunCycle | include/PixelDraw.hh:268-294 | one iteration counts a cycle, clears the frame flags and applies the batch |
| Mrt.PixelDraw.Run | include/PixelDraw.hh:263-298 | the loop sets running, then runs until SDL_QUIT; the states it hands to the update are those RunFrom specifies, one cycle per frame |
| Mrt.Releases | include/PixelDraw.hh:182-187 | the destructor releases a non-null handle and nothing for nullptr |
| Mrt.Texture.constructor | include/PixelDraw.hh:169-172 | a loaded texture holds its handle and queried size |
| Mrt.Texture.Move | include/PixelDraw.hh:174-180 | the new texture takes the handle, width and height, and the source is left holding nullptr |
| Mrt.Texture.Destroy | include/PixelDraw.hh:182-187 | the destructor releases exactly the handle it holds, if it is non-null |
| Mrt.MoveThenDestroyBoth | include/PixelDraw.hh:174-187 | moving a texture and destroying both objects releases the original handle exactly once |
| Raycaster.TexturePaths | source/raycaster.cc:105-116 | the twelve texture paths are the data path followed by each file name, in load order |
| Raycaster.NormalizeDataPath | source/raycaster.cc:90-92 | the data path ends in '/'; one is appended only when it is missing |
| Raycaster.NormalizeDataPathIdempotent | source/raycaster.cc:90-92 | normalising a normalised path changes nothing |
| Raycaster.TryMove | source/raycaster.cc:139-146 | a move onto a non-empty tile is undone exactly, a move onto an empty tile stands, and the player stays on an interior tile |
| Raycaster.Displacement | source/raycaster.cc:139-177 | each key's step, movement_speed * frame_time times (sin, cos) or its rotation, is less than a tile on each axis |
| Raycaster.MoveIfHeld | source/raycaster.cc:139-147 | a key that is not held leaves the position alone; a held key makes one speculative move |
| Raycaster.Turn | source/raycaster.cc:131-137 | LEFT subtracts and RIGHT adds rotation_speed * frame_time, unconditionally; both or neither cancel |
| Raycaster.Walk | source/raycaster.cc:139-177 | after W, S, A and D, in that order, the player is still on an interior tile |
| Raycaster.WalkStaysOrLandsOnEmpty | source/raycaster.cc:139-177 | the player ends where the frame began or on an empty tile, and stays put when no movement key is held |
| Raycaster.Spawned | source/raycaster.cc:179-186 | a pressed SPACE appends exactly one entry, with key 0, at the player, moving at 5 × (sin, cos), unflagged, with texture 11; nothing else changes |
| Raycaster.Fireball | source/raycaster.cc:180-184 | the fireball starts at the player, unflagged, with texture 11; with sine and cosine in [-1, 1] its speed is at most 5 on each axis |
| Raycaster.FireballOk | source/raycaster.cc:180-185 | a fireball starts on the player's interior tile with a speed of at most 5 per axis |
| Raycaster.Advance | source/raycaster.cc:347-352 | the sprite moves by v * frame_time and stays in the grid; it is flagged exactly when the new tile is non-empty; an unflagged result meets the start-of-frame requirements |
| Raycaster.Updated | source/raycaster.cc:347-361 | each sprite is advanced and keyed by its distance to the player truncated to int |
| Raycaster.UpdatedAll | source/raycaster.cc:346-361 | the sprite loop updates every element in place, keeping the length |
| Raycaster.KeyFollowsDistance | source/raycaster.cc:354-361 | with a monotone `sqrtf`, a position no farther from the player than another never gets a larger key `(int)distance_from_player` |
| Raycaster.ObjectAngle | source/raycaster.cc:363-372 | the angle is atan2 of the eye minus atan2 of the vector, shifted by at most one ±2π; when both atan2 values lie in [-3π/2, 3π/2] it lands in [-π, π] |
| Raycaster.SpriteColumnsDrawn | source/raycaster.cc:363-404 | nothing is drawn outside the field of view or outside distance [0.5, depth); a visible sprite draws exactly the columns of its billboard that pass the depth test; every drawn column is on screen and has a wall no nearer than the sprite |
| Raycaster.SpritesDrawn | source/raycaster.cc:346-406 | one entry per sprite, in list order, each the columns SpriteColumnsDrawn gives for that sprite against the frame's depth buffer |
| Raycaster.EndOfFrameKeyed | source/raycaster.cc:346-416 | every entry that survives the frame carries as key its own distance from the player, truncated to int |
| Raycaster.EndOfFrameFarToNear | source/raycaster.cc:354-416 | with a monotone `sqrtf`, the list the next frame's sprite pass reads runs far to near: an entry ahead of one no nearer to the player has the same key |
| Raycaster.EndOfFrame | source/raycaster.cc:413-416 | the list after `remove_if` and `sort` is no longer than before and its keys never increase |
| Raycaster.EndOfFrameProperties | source/raycaster.cc:413-416 | after `remove_if` and `sort`: no flagged entry, keys non-increasing, a permutation of the survivors, equal keys in prior order |
| Raycaster.EndOfFrameObjectsOk | source/raycaster.cc:346-416 | the sprites that reach the next frame meet the start-of-frame requirements again |
| Raycaster.InitialObjectsOk | source/raycaster.cc:118-123 | the four props of on_load stand on empty interior tiles, unflagged and still |
| Raycaster.RayAngleInView | source/raycaster.cc:258 | column 0 looks fov / 2 to the left of the player's angle, ray angles grow with the column, and no column up to the screen width looks more than fov / 2 away |
| Raycaster.WallColumnsStep | source/raycaster.cc:257-310 | the wall pass grows one column at a time, each cast from the sample_x the previous column left |
| Raycaster.ColumnCastOk | source/raycaster.cc:326-328 | every column ends on a grid cell whose tile indexes the texture table, at depth when no wall was found |
| Raycaster.WallColumnsInGrid | source/raycaster.cc:257-328 | every column of the pass meets that, so `textures.at(get_map_tile(test))` never throws |
| Raycaster.MoveKeys | source/raycaster.cc:139-177 | the four movement blocks, in order, compute Walk |
| Raycaster.MoveKey | source/raycaster.cc:139-147 | one movement block, apply then revert, computes MoveIfHeld |
| Raycaster.MoveObject | source/raycaster.cc:347-352 | the sprite's move and flag, as statements, compute Advance |
| Raycaster.NextColumn | source/raycaster.cc:257-328 | one column of the pass: the ray of column x, cast from the carried sample_x, extends the pass and meets ColumnOk |
| Raycaster.NextColumnStep | source/raycaster.cc:257-312 | the cast of column x extends the first x columns to the first x + 1 |
| Raycaster.Raycaster.constructor | source/raycaster.cc:87-96 | the player starts at (8, 8) with angle 0, the data path ends in '/', the depth buffer has 640 entries, and the invariant holds |
| Raycaster.Raycaster.OnLoad | source/raycaster.cc:104-124 | twelve textures are loaded from the data path in order and the four props are placed |
| Raycaster.Raycaster.MovePlayer | source/raycaster.cc:131-177 | the angle turns as Turn says, then the position moves as Walk says with the turned angle |
| Raycaster.Raycaster.SpawnFireball | source/raycaster.cc:179-186 | the sprite list becomes Spawned of the old list |
| Raycaster.Raycaster.CastWalls | source/raycaster.cc:257-343 | one ray per column, depth_buffer[x] is column x's distance, sample_x is carried from column to column and kept for the next frame |
| Raycaster.Raycaster.UpdateSprites | source/raycaster.cc:346-407 | the sprite loop updates every element and draws each one's visible columns, reading the depth buffer only |
| Raycaster.Raycaster.UpdateSprite | source/raycaster.cc:347-406 | one element: moved, flagged, keyed and drawn |
| Raycaster.Raycaster.DrawSprite | source/raycaster.cc:354-406 | the angle wrap, the field-of-view and distance tests, and the column loop draw SpriteColumnsDrawn |
| Raycaster.Raycaster.EndFrame | source/raycaster.cc:413-416 | `remove_if` then `sort` leave EndOfFrame of the list |
| Raycaster.Raycaster.SpritePass | source/raycaster.cc:346-416 | the sprite loop then the end-of-frame filter and sort, keeping the invariant; the columns drawn are SpritesDrawn of the updated list against the depth buffer |
| Raycaster.Raycaster.OnFrameUpdate | source/raycaster.cc:126-417 | the phases in source order: turn and walk, spawn, the wall pass into the depth buffer, with sample_x as the last column left it for the next frame, the sprites; the columns drawn are SpritesDrawn of the spawned and updated list against the depth buffer this frame's wall pass wrote; the invariant holds again afterwards |

## Left out

- Everything SDL does is left out: window, renderer and texture creation, `SDL_RenderCopy`, `SDL_RenderFillRect`, render targets, `IMG_LoadTexture` and `SDL_PollEvent` itself. A texture is represented by its path, and events arrive as batches.
- Floating point: positions, angles and distances are reals. Apply-then-revert is exact only over the reals; under IEEE rounding a reverted position can differ in the last bit.
- `sinf`, `cosf`, `atan2f` and `sqrtf` are supplied functions. Only the range [-1, 1] of sine and cosine is assumed, and KeyFollowsDistance and EndOfFrameFarToNear also require `sqrtf` to be monotone on the non-negative reals (`SqrtMonotone`).
- RayMarch.Probe: the test point after k steps is built by k additions of eye * step. ProbeAtDistance shows this equals player + eye * (k * step), the source's form over the reals. Accumulated float error in `distance_to_wall` is not modelled.
- Raycaster.SpriteColumnsDrawn: the billboard pixel arithmetic (`object_ceiling`, `object_width`, `object_middle`, `object_column`) is a supplied function, required to give on-screen columns (`ColumnsOk`). The source does not bounds-check `object_column`, and out-of-range reads of `depth_buffer` are not modelled.
- The wall column's projection (`y_start`, `y_end`, `texture_source`, `texture_dest`, `modf` of sample_x) only feeds SDL drawing and is not modelled; the depth buffer entry and the texture lookup are.
- Raycaster.Raycaster.OnFrameUpdate: requires a frame time in [0, 0.2) s (`FrameTimeOk`), so that nothing crosses a whole tile in one frame. Longer frames, where the player or a sprite could skip over a wall or leave the grid, are not modelled.
- Raycaster.Raycaster.Valid: requires the player to stand on an interior tile and every sprite to move at most 5 tiles per second per axis. This holds for the initial pose (8, 8), which is interior even though it is a wall tile, and for the props and fireballs. A pose on the border is not modelled.
- Raycaster.NormalizeDataPath: requires a non-empty data path (`|path| > 0`), as does Raycaster.Raycaster.constructor. The source reads `data_path[data_path.size()-1]` unchecked at source/raycaster.cc:90, which is undefined behaviour for an empty `argv[1]`, so that case is not modelled.
- Mrt.ValidEvent: key events must carry a scancode below 322. The source indexes the 322-entry tables without a check.
- Mrt.PixelDraw.Run: the frame time from `std::chrono`, `clear_screen`, `update_screen`, the FPS title (`snprintf`) and `set_fps_cap` are left out. The call to `on_frame_update` is represented by the input state it observes. The loop also ends when the supplied batches run out.
- The PixelDraw constructor's SDL and IMG initialisation, its `exit` on failure, `stop`, and both destructors' SDL cleanup are foreign calls and are left out; the key tables' zeroing is modelled.
- `Texture::get_sdl_texture`, `get_width` and `get_height` are plain field reads and get no members of their own.
- Objects.SortByKeyDesc: `std::list::sort` is specified by a stable insertion sort. The result is proved ordered, a permutation and stable; the library's own merge steps are not modelled.
- `vec3` and its operators are not used by the raycaster and are left out.
- The commented-out floor caster and wall shading are dead code, and `main`'s argument handling is process I/O; both are left out.
- Raycaster.Raycaster.CastWalls: the `texture_column_width` step of the column loop is its constant 1; other widths are not modelled.
