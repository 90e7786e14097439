# Dwarfing world-state model

A Dafny model of the core of *Dwarfing*, a dig-downward arcade game in which a
player falls under gravity through rows of breakable blocks and clicks to mine
them. The model covers the per-frame bookkeeping of `Dwarfing` in
`src/dwarfing.rs`:

- row spawning, with depth-dependent rock and gold probabilities;
- culling of blocks that fall behind the player;
- strict rectangle collision and landing;
- mining of the first live block under the player;
- player placement.

It also covers the block entity of `src/block.rs`.

Layout, one module per source file:

- `shape.dfy` (`Shapes`): `Vec2` and `Shape`. Colour is left out.
- `block.dfy` (`Blocks`): `BlockType`, `Block`, both forms of `Block::new`,
  and `is_destroyed`. The two source files do not match here.
  `src/block.rs` declares two kinds with `hp` only and a one-argument `new`.
  `src/dwarfing.rs` builds three kinds (Dirt, Rock, Gold) with `base_hp` and
  `hp`, and calls a two-argument `new`. The model follows the calls:
  three kinds with both fields. It keeps the one-argument `new` as
  `NewDefault`.
- `player.dfy` (`Players`) and `score.dfy` (`Scores`): plain records.
- `dwarfing.dfy` (`Game`): the helpers and the `Dwarfing` class.

The associated helpers `spawn_row_of_blocks` and `resolve_collision` each take
one `&mut` borrow, and `destroy_touching_blocks` takes two, the block slice
and the score. The borrows never alias each other or anything else the helper
reads. So the helpers are modelled on values: the old values go in, and the
new ones come out. `spawn_row_of_blocks` and `destroy_touching_blocks` are
methods with the source's loops (the second keeps its early `return`).
The `&mut self` update steps are methods of the class `Game.Dwarfing`. They
reassign its fields `player`, `blocks`, `params` and `score` and keep the
world invariant `Valid()`:

- blocks are in row order;
- every block is `BLOCK_SIZE` square;
- no block lies below the watermark `last_row_y`.

Each step also states its new state as a function of the old one:

- `Gravitated` and `Placed` for the player motion;
- `SpawnedRow` for the new row;
- `Retain` for culling;
- `CollideAll` for landing;
- `Mined` for a click.

`Update` chains them through the intermediate states of the frame.

Positions, speeds and probabilities are `f32` in the source. They are modelled
as exact reals. The operations are sums, differences, products (among them
`speed * delta_time`, a product of two variables, src/dwarfing.rs:107),
divisions by constants, `min` and `max`, `ceil`, the saturating `as i32` cast
(src/dwarfing.rs:57), the `x as f32` conversion of a column index (:303), and
comparisons. Rounding is not
modelled.

Host queries and ambient inputs are parameters:

- `screen_width()` and `screen_height()`;
- `get_frame_time()`;
- one random roll per column (`rolls[x]`, from `thread_rng`);
- the results of the two `ln` calls;
- the mouse flags;
- `subtract_block_hp` and `update_score`, whose bodies are not part of this
  model. They are passed in as functions, so no damage or reward amounts are
  assumed.

## Model

| member | source | states |
|---|---|---|
| `Blocks.New` | src/dwarfing.rs:345 | `Block::new(shape, block_type)` keeps the shape and the kind unchanged, so the block is destroyed exactly when the kind's hp is at most 0 |
| `Blocks.NewDefault` | src/block.rs:22-28 | the one-argument constructor stores the shape unchanged and gives a Dirt block with hp 50 that is not destroyed |
| `Blocks.IsDestroyed` | src/block.rs:30-34 | destroyed iff hp <= 0 (zero and negative both count), with the same answer for every kind |
| `Blocks.DestroyedDependsOnlyOnHp` | src/block.rs:32 | two blocks with equal hp agree on `is_destroyed` whatever their kind, full hp or shape |
| `Game.DynamicRockCap` | src/dwarfing.rs:311 | the rock cap lies in [0.3, 0.8]: exactly 0.3 down to y = 1000, then 0.3 + 0.001·(y − 1000) up to y = 1500, and 0.8 from there on |
| `Game.RockCapMonotone` | src/dwarfing.rs:311 | the rock cap never decreases with depth |
| `Game.RockProbability` | src/dwarfing.rs:312 | the rock probability is the smaller of 0.01·ln y and the cap, so it never exceeds the cap or 0.8 |
| `Game.RockProbabilityMonotone` | src/dwarfing.rs:311-312 | a deeper row whose `ln y` is no smaller gets a rock probability no smaller |
| `Game.DynamicGoldCap` | src/dwarfing.rs:314 | the gold cap lies in [0.02, 0.2]: exactly 0.02 down to y = 2000, then 0.02 + 0.001·(y − 2000) up to y = 2180, and 0.2 from there on |
| `Game.GoldCapMonotone` | src/dwarfing.rs:314 | the gold cap never decreases with depth |
| `Game.GoldProbability` | src/dwarfing.rs:315-319 | gold probability is 0 whenever y <= 2000; below that it is the smaller of 0.002·ln(y−2000) and the cap, never above the cap or 0.2 |
| `Game.GoldProbabilityMonotone` | src/dwarfing.rs:314-316 | below y = 2000, a deeper row whose `ln(y − 2000)` is no smaller gets a gold probability no smaller |
| `Game.SelectBlockType` | src/dwarfing.rs:325-343 | first match wins: Gold (100/100) iff r < gold; Rock (70/70) iff gold <= r < rock + gold; Dirt (50/50) otherwise; every choice has hp = base_hp > 0 |
| `Game.NoGoldDownTo2000` | src/dwarfing.rs:315-331 | a row at y <= 2000 never receives a Gold block from a non-negative roll, whatever the logarithms are |
| `Game.Min` | src/dwarfing.rs:311-316 | `f32::min`: the result is one of the two arguments and at most both |
| `Game.Max` | src/dwarfing.rs:311-314 | `f32::max`: the result is one of the two arguments and at least both |
| `Game.Columns` | src/dwarfing.rs:301 | `0..needed_x` runs max(needed_x, 0) times: none for a non-positive bound, otherwise exactly needed_x |
| `Game.SpawnedRow` | src/dwarfing.rs:300-347 | the grown vector is the old one followed by one row that satisfies `RowAppended`: column i at x = i·32, at the row's y, 32×32, with the kind chosen by the i-th roll |
| `Game.RowAppendedIsSpawnedRow` | src/dwarfing.rs:300-347 | `RowAppended` admits exactly one vector, `SpawnedRow` |
| `Game.SpawnRowOfBlocks` | src/dwarfing.rs:300-347 | appends exactly max(needed_x, 0) blocks and keeps the old ones in place, so the result is `SpawnedRow`; the i-th new block is at x = i·32 and the given y, is 32×32, and has the kind chosen by the i-th roll; every new block has hp = base_hp > 0 and is not destroyed |
| `Game.CheckCollision` | src/dwarfing.rs:349-351 | a collision implies the first shape's bottom is below the second's top; for positive sizes, a collision holds iff the overlaps max(left) < min(right) and max(top) < min(bottom) are both non-empty |
| `Game.CollisionIffCommonInteriorPoint` | src/dwarfing.rs:349-351 | for rectangles of positive size, `check_collision` holds iff they share a point strictly inside both (open boundaries) |
| `Game.CollisionSymmetric` | src/dwarfing.rs:349-351 | `check_collision` is symmetric in its two arguments |
| `Game.EdgeContactIsNoCollision` | src/dwarfing.rs:349-351 | rectangles that only share an edge or a corner do not collide |
| `Game.ResolveCollision` | src/dwarfing.rs:353-361 | when the player's bottom is below the block's top, speed becomes 0 and offset_y becomes block_area_top − block_top; otherwise the player is unchanged; the shape is never changed |
| `Game.PlayerY` | src/dwarfing.rs:114-115 | the placed player's bottom edge is at block_area_top − offset_y |
| `Game.CollisionIsLanding` | src/dwarfing.rs:349-357 | whenever `check_collision` holds, so does `player_bottom > block_top`, so every collision in `player_collision` is a landing |
| `Game.LandingRestsOnBlock` | src/dwarfing.rs:353-361 | after a landing and placement from the new offset, the player's bottom equals the block's top and the two no longer collide |
| `Game.Touching` | src/dwarfing.rs:141 | a block counts for collision and mining iff it is not destroyed (hp > 0) and collides with the shape |
| `Game.CollideAll` | src/dwarfing.rs:138-145 | the collision loop over the blocks in vector order never changes `player.shape` |
| `Game.LastTouching` | src/dwarfing.rs:140-141 | the index of the last non-destroyed block overlapping the player, or −1 when none does |
| `Game.CollideAllLastWins` | src/dwarfing.rs:138-145 | with no live overlapping block the player is unchanged; otherwise speed is 0 and the last live overlapping block in vector order sets offset_y |
| `Game.DestroyedBlocksIgnored` | src/dwarfing.rs:140-141 | removing a destroyed block from anywhere in the vector (front + [b] + back against front + back) leaves the outcome of `player_collision` unchanged |
| `Game.FirstTouching` | src/dwarfing.rs:364-365 | the index of the first non-destroyed block overlapping the player, or the length when none does |
| `Game.Mined` | src/dwarfing.rs:363-373 | one click keeps the length and every shape; with no live overlapping block nothing changes; only the first one can change; the score changes only if the hit reports destruction |
| `Game.DestroyTouchingBlocks` | src/dwarfing.rs:363-373 | only the first live overlapping block in vector order is hit, and only its kind changes; every other block is unchanged; the score changes only when that hit reports destruction; with no such block neither blocks nor score change; the result is `Mined` |
| `Game.Retain` | src/dwarfing.rs:133-136 | culling never grows the vector |
| `Game.RetainMembers` | src/dwarfing.rs:133-136 | culling keeps exactly the blocks with y > player.y − screen_height, unmodified: a block is kept iff it was present and lies below the line |
| `Game.RetainAppend` | src/dwarfing.rs:133-136 | culling distributes over concatenation, so the kept blocks keep their original relative order |
| `Game.RetainAllKept` | src/dwarfing.rs:133-136 | when every block is below the line, culling removes nothing |
| `Game.RetainKeepsSorted` | src/dwarfing.rs:133-136 | culling keeps the blocks in row order |
| `Game.RetainSortedDropsPrefix` | src/dwarfing.rs:133-136 | on blocks in row order, culling removes a prefix of the vector: the kept blocks are exactly its last \|kept\| entries |
| `Game.TailIsSuffix` | src/dwarfing.rs:133-136 | dropping any prefix of the vector leaves a suffix in the sense of `IsSuffixOf` |
| `Game.SuffixIsTail` | src/dwarfing.rs:133-136 | every `IsSuffixOf` suffix is the vector's last \|s\| entries, so the two descriptions agree |
| `Game.Ceil` | src/dwarfing.rs:57 | `ceil` gives the least integer at or above its argument |
| `Game.SaturateI32` | src/dwarfing.rs:57 | the saturating `as i32` cast keeps in-range values, sends every value above the range to 2^31 − 1 and every value below it to −2^31 |
| `Game.NeededColumns` | src/dwarfing.rs:57 | for a screen width in [0, (2^31 − 1)·32], needed_x is non-negative and is the least count of 32-wide columns that covers the width (needed_x·32 ≥ w > (needed_x − 1)·32), i.e. ceil(w / 32); for any wider screen the cast saturates at 2^31 − 1 |
| `Game.Gravitated` | src/dwarfing.rs:104-108 | gravity keeps the shape, speed grows by GRAVITY·dt, and then offset_y drops by the new speed times dt |
| `Game.Placed` | src/dwarfing.rs:110-117 | placement centres the player horizontally, puts its bottom offset_y above block_area_top, and changes nothing else (size, speed and offset are kept) |
| `Players.New` | src/player.rs:11-18 | a new player keeps the given shape, with speed MOVEMENT_SPEED = 1 and offset 0 |
| `Scores.Init` | src/score.rs:8-14 | every counter starts at 0 |
| `Shapes.Splat` | src/dwarfing.rs:305 | `Vec2::splat(v)` has both components equal to v |
| `Game.Dwarfing.Init` | src/dwarfing.rs:44-76 | the world starts with no blocks, zero score, the player's left edge at screen_width / 2 (it is centred only by the first `update_player_position`), y 0, a 32×32 size, speed 1 and offset 0, block_area_top = last_row_y = screen_height / 2, and the invariant holding |
| `Game.Dwarfing.ApplyGravity` | src/dwarfing.rs:104-108 | the player becomes `Gravitated`: speed grows by GRAVITY·dt, then offset_y drops by the new speed·dt; nothing else changes |
| `Game.Dwarfing.UpdatePlayerPosition` | src/dwarfing.rs:110-117 | the player becomes `Placed`: centred horizontally, with its bottom offset_y above block_area_top; only x and y change |
| `Game.Dwarfing.UpdateBlocks` | src/dwarfing.rs:119-131 | a row spawns only when player.y + screen_height > last_row_y; it is exactly one row at last_row_y + 32 (`SpawnedRow`), and last_row_y advances by exactly 32; otherwise the blocks and params are unchanged; the invariant is kept |
| `Game.Dwarfing.RemoveOffScreenBlocks` | src/dwarfing.rs:133-136 | the blocks become the culled vector, which is a suffix of the old one (`IsSuffixOf`), and nothing else changes; the invariant is kept |
| `Game.Dwarfing.PlayerCollision` | src/dwarfing.rs:138-145 | the player becomes the result of the collision loop in vector order, and the blocks, params and score are unchanged |
| `Game.Dwarfing.HandleInput` | src/dwarfing.rs:147-158 | without a press nothing changes; a press turns blocks and score into `Mined` of the old ones, which hits only the first live overlapping block; the length, the player and params are unchanged and the invariant is kept |
| `Game.Dwarfing.Update` | src/dwarfing.rs:78-87 | one frame keeps the world invariant and needed_x and block_area_top, and leaves the player centred. The final state is the steps chained in the source's order: the placed player is `Placed(Gravitated(player))`. The spawned blocks are `SpawnedRow` with last_row_y advanced by 32 when the screen reaches past it, or the old blocks and params otherwise. The kept blocks are `Retain` of those at placed.y − screen_height, the player is `CollideAll` of the placed player over the kept blocks, and a press gives `Mined` of the kept blocks and the old score |

## Left out

- Rendering, camera and UI (`draw`, `draw_blocks`, `draw_player`, `draw_ui`, `draw_debug_info`, `handle_camera`): host drawing calls with no logic.
- Audio (`init_music`): it only starts and stops sounds.
- Asset loading (src/resources.rs) and the host frame loop (src/main.rs): host I/O.
- Textures in `BlockType` and `texture_selector`: presentation only.
- Sprite animation in `handle_input` (`set_animation`, `sprite.update`): presentation only. The mouse state comes in as two booleans.
- `subtract_block_hp` and `update_score`: their bodies are not part of this model, so they are parameters. `subtract_block_hp` is taken to read and change only the block's kind, not its shape (type `BlockType -> (BlockType, bool)`). `update_score` gets `&mut` access to the block (src/dwarfing.rs:364-368) but is taken to leave the block unchanged and only return the new score (type `(Block, Score) -> Score`).
- Float semantics: f32 rounding, NaN and infinities are not modelled. This matters most for `ln` of a non-positive y, and for `f32::min` and `f32::max` with NaN. Each `ln` result is an unconstrained real input.
- Randomness: `thread_rng().gen::<f32>()` is replaced by the injected sequence `rolls`. The model does not constrain it to [0, 1), except where `NoGoldDownTo2000` asks for a non-negative roll.
- Game.CollisionIffCommonInteriorPoint: stated only for rectangles of positive size, because a zero or negative size has no interior.
- Blocks.New: src/block.rs has only the one-argument `Block::new`. The two-argument form that src/dwarfing.rs:345 calls is not part of this model, and is taken to store both arguments unchanged.
- Logarithms of non-positive depths: `y.ln()` and `(y - 2000.0).ln()` are taken with no clamp (src/dwarfing.rs:312, 316). The model takes both results as unconstrained real inputs, so nothing depends on their value for small y.
- `is_destroyed` is `hp <= 0` (src/block.rs:32), so a block whose hp goes below zero is destroyed too. The model uses that test as written.
