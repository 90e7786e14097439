/**
 * The world-state bookkeeping of the game (src/dwarfing.rs): row spawning,
 * culling, collision, landing, mining and player placement.
 *
 * The associated helpers of `Dwarfing` that take a `&mut` borrow nothing
 * else aliases (`spawn_row_of_blocks`, `resolve_collision`,
 * `destroy_touching_blocks`) are modelled on values: they take the old
 * value and return the new one. The `Dwarfing` class holds the fields its
 * `&mut self` update steps change in place.
 *
 * Host queries and ambient inputs are parameters: the screen size, the
 * frame time, the random numbers drawn per column, the results of the two
 * `ln` calls, the mouse flags, and the bodies of `subtract_block_hp` and
 * `update_score`, which are not part of this model.
 */
module Game {
  import opened Shapes
  import opened Blocks
  import opened Players
  import opened Scores

  const Gravity: real := 500.0
  const BlockSize: real := 32.0

  const GoldHp: int := 100
  const RockHp: int := 70
  const DirtHp: int := 50

  /** Row-generation parameters: columns per row, the y of the block area, the deepest row so far. */
  datatype Params = Params(neededX: int, blockAreaTop: real, lastRowY: real)

  /** `f32::min` and `f32::max` (NaN is not modelled). */
  function Min(a: real, b: real): (m: real)
    ensures m <= a && m <= b
    ensures m == a || m == b
  {
    if a <= b then a else b
  }

  function Max(a: real, b: real): (m: real)
    ensures m >= a && m >= b
    ensures m == a || m == b
  {
    if a >= b then a else b
  }

  //
  // Row generation
  //

  /** The rock cap: 0.3, rising by 0.001 per unit below y = 1000, at most 0.8. */
  function DynamicRockCap(y: real): (cap: real)
    ensures 0.3 <= cap <= 0.8
    ensures y <= 1000.0 ==> cap == 0.3
    ensures 1000.0 <= y <= 1500.0 ==> cap == 0.3 + 0.001 * (y - 1000.0)
    ensures y >= 1500.0 ==> cap == 0.8
  {
    Min(0.3 + 0.001 * Max(y - 1000.0, 0.0), 0.8)
  }

  /** The rock cap never shrinks with depth. */
  lemma RockCapMonotone(y1: real, y2: real)
    requires y1 <= y2
    ensures DynamicRockCap(y1) <= DynamicRockCap(y2)
  {
  }

  /** The rock probability at depth `y`, where `lnY` is the f32 `y.ln()`. */
  function RockProbability(y: real, lnY: real): (p: real)
    ensures p <= DynamicRockCap(y) && p <= 0.8
    ensures p <= 0.01 * lnY
    ensures p == 0.01 * lnY || p == DynamicRockCap(y)
  {
    Min(0.01 * lnY, DynamicRockCap(y))
  }

  /** Deeper rows, whose logarithm is no smaller, get a rock probability no smaller. */
  lemma RockProbabilityMonotone(y1: real, lnY1: real, y2: real, lnY2: real)
    requires y1 <= y2 && lnY1 <= lnY2
    ensures RockProbability(y1, lnY1) <= RockProbability(y2, lnY2)
  {
    RockCapMonotone(y1, y2);
  }

  /** The gold cap: 0.02, rising by 0.001 per unit below y = 2000, at most 0.2. */
  function DynamicGoldCap(y: real): (cap: real)
    ensures 0.02 <= cap <= 0.2
    ensures y <= 2000.0 ==> cap == 0.02
    ensures 2000.0 <= y <= 2180.0 ==> cap == 0.02 + 0.001 * (y - 2000.0)
    ensures y >= 2180.0 ==> cap == 0.2
  {
    Min(0.02 + 0.001 * Max(y - 2000.0, 0.0), 0.2)
  }

  /** The gold cap never shrinks with depth. */
  lemma GoldCapMonotone(y1: real, y2: real)
    requires y1 <= y2
    ensures DynamicGoldCap(y1) <= DynamicGoldCap(y2)
  {
  }

  /**
   * The gold probability at depth `y`, where `lnBelow2000` is the f32
   * `(y - 2000.0).ln()`; no gold at all down to y = 2000.
   */
  function GoldProbability(y: real, lnBelow2000: real): (p: real)
    ensures y <= 2000.0 ==> p == 0.0
    ensures p <= DynamicGoldCap(y) && p <= 0.2
    ensures y > 2000.0 ==> p <= 0.002 * lnBelow2000
    ensures y > 2000.0 ==> p == 0.002 * lnBelow2000 || p == DynamicGoldCap(y)
  {
    if y > 2000.0 then Min(0.002 * lnBelow2000, DynamicGoldCap(y)) else 0.0
  }

  /** Below y = 2000, deeper rows with a logarithm no smaller get a gold probability no smaller. */
  lemma GoldProbabilityMonotone(y1: real, ln1: real, y2: real, ln2: real)
    requires 2000.0 < y1 <= y2 && ln1 <= ln2
    ensures GoldProbability(y1, ln1) <= GoldProbability(y2, ln2)
  {
    GoldCapMonotone(y1, y2);
  }

  /** The kind for one column: the first threshold the roll falls below wins. */
  function SelectBlockType(roll: real, goldProbability: real, rockProbability: real): (t: BlockType)
    ensures t.Gold? <==> roll < goldProbability
    ensures t.Rock? <==> goldProbability <= roll < rockProbability + goldProbability
    ensures t.Dirt? <==> goldProbability <= roll && rockProbability + goldProbability <= roll
    ensures t.Gold? ==> t.hp == GoldHp
    ensures t.Rock? ==> t.hp == RockHp
    ensures t.Dirt? ==> t.hp == DirtHp
    ensures t.baseHp == t.hp && t.hp > 0
  {
    if roll < goldProbability then Gold(GoldHp, GoldHp)
    else if roll < rockProbability + goldProbability then Rock(RockHp, RockHp)
    else Dirt(DirtHp, DirtHp)
  }

  /** A non-negative roll never yields Gold in a row at y <= 2000, whatever the logarithms are. */
  lemma NoGoldDownTo2000(y: real, roll: real, lnY: real, lnBelow2000: real)
    requires y <= 2000.0 && 0.0 <= roll
    ensures !SelectBlockType(roll, GoldProbability(y, lnBelow2000), RockProbability(y, lnY)).Gold?
  {
  }

  /** The number of iterations of `for x in 0..needed_x`. */
  function Columns(neededX: int): (n: nat)
    ensures n >= neededX
    ensures n == 0 || n == neededX
  {
    if neededX < 0 then 0 else neededX
  }

  /**
   * `after` is `before` followed by one row at height `y`: the block of
   * column i sits at x = i * BLOCK_SIZE, is BLOCK_SIZE square and has the
   * kind chosen by the i-th roll.
   */
  ghost predicate RowAppended(before: seq<Block>, after: seq<Block>, neededX: int, y: real,
                              rolls: seq<real>, lnY: real, lnBelow2000: real)
    requires Columns(neededX) <= |rolls|
  {
    && |after| == |before| + Columns(neededX)
    && after[..|before|] == before
    && forall j :: |before| <= j < |after| ==>
         && after[j].shape == Shape(Splat(BlockSize), (j - |before|) as real * BlockSize, y)
         && after[j].blockType == SelectBlockType(rolls[j - |before|], GoldProbability(y, lnBelow2000), RockProbability(y, lnY))
  }

  /** The row that `spawn_row_of_blocks` appends to `before`; the only sequence `RowAppended` admits. */
  ghost function SpawnedRow(before: seq<Block>, neededX: int, y: real,
                            rolls: seq<real>, lnY: real, lnBelow2000: real): (after: seq<Block>)
    requires Columns(neededX) <= |rolls|
    ensures RowAppended(before, after, neededX, y, rolls, lnY, lnBelow2000)
  {
    before + seq(Columns(neededX), i requires 0 <= i < Columns(neededX) =>
      Block(Shape(Splat(BlockSize), i as real * BlockSize, y),
            SelectBlockType(rolls[i], GoldProbability(y, lnBelow2000), RockProbability(y, lnY))))
  }

  /** `RowAppended` fixes the grown vector completely. */
  lemma RowAppendedIsSpawnedRow(before: seq<Block>, after: seq<Block>, neededX: int, y: real,
                                rolls: seq<real>, lnY: real, lnBelow2000: real)
    requires Columns(neededX) <= |rolls|
    requires RowAppended(before, after, neededX, y, rolls, lnY, lnBelow2000)
    ensures after == SpawnedRow(before, neededX, y, rolls, lnY, lnBelow2000)
  {
    var row := SpawnedRow(before, neededX, y, rolls, lnY, lnBelow2000);
    forall j | 0 <= j < |after| ensures after[j] == row[j] {
      if j < |before| {
        assert after[..|before|][j] == after[j];
        assert row[..|before|][j] == row[j];
      }
    }
  }

  /**
   * `spawn_row_of_blocks`: pushes one block per column. `rolls[x]` is the
   * random number drawn for column x.
   */
  method SpawnRowOfBlocks(blocks: seq<Block>, neededX: int, y: real,
                          rolls: seq<real>, lnY: real, lnBelow2000: real)
    returns (grown: seq<Block>)
    requires Columns(neededX) <= |rolls|
    ensures RowAppended(blocks, grown, neededX, y, rolls, lnY, lnBelow2000)
    ensures grown == SpawnedRow(blocks, neededX, y, rolls, lnY, lnBelow2000)
    ensures forall j :: |blocks| <= j < |grown| ==>
              grown[j].blockType.hp == grown[j].blockType.baseHp > 0 && !IsDestroyed(grown[j])
  {
    grown := blocks;
    var x := 0;
    while x < neededX
      invariant 0 <= x <= Columns(neededX)
      invariant |grown| == |blocks| + x
      invariant grown[..|blocks|] == blocks
      invariant forall j :: |blocks| <= j < |grown| ==>
                  && grown[j].shape == Shape(Splat(BlockSize), (j - |blocks|) as real * BlockSize, y)
                  && grown[j].blockType == SelectBlockType(rolls[j - |blocks|], GoldProbability(y, lnBelow2000), RockProbability(y, lnY))
    {
      var shape := Shape(Splat(BlockSize), x as real * BlockSize, y);
      var rockProbability := RockProbability(y, lnY);
      var goldProbability := GoldProbability(y, lnBelow2000);
      var blockType := SelectBlockType(rolls[x], goldProbability, rockProbability);
      grown := grown + [Blocks.New(shape, blockType)];
      x := x + 1;
    }
    RowAppendedIsSpawnedRow(blocks, grown, neededX, y, rolls, lnY, lnBelow2000);
  }

  //
  // Collision
  //

  /** `check_collision`: strict overlap of two rectangles. */
  function CheckCollision(a: Shape, b: Shape): (collide: bool)
    ensures collide ==> a.y + a.size.y > b.y
    ensures a.size.x > 0.0 && a.size.y > 0.0 && b.size.x > 0.0 && b.size.y > 0.0 ==>
              (collide <==> (Max(a.x, b.x) < Min(a.x + a.size.x, b.x + b.size.x) &&
                             Max(a.y, b.y) < Min(a.y + a.size.y, b.y + b.size.y)))
  {
    a.x < b.x + b.size.x && a.x + a.size.x > b.x && a.y < b.y + b.size.y && a.y + a.size.y > b.y
  }

  /** The point (px, py) lies in the open interior of `s`. */
  ghost predicate StrictlyInside(s: Shape, px: real, py: real)
  {
    s.x < px < s.x + s.size.x && s.y < py < s.y + s.size.y
  }

  /** For rectangles of positive size, colliding means sharing an interior point. */
  lemma CollisionIffCommonInteriorPoint(a: Shape, b: Shape)
    requires a.size.x > 0.0 && a.size.y > 0.0 && b.size.x > 0.0 && b.size.y > 0.0
    ensures CheckCollision(a, b) <==> exists px, py :: StrictlyInside(a, px, py) && StrictlyInside(b, px, py)
  {
    if CheckCollision(a, b) {
      var px := (Max(a.x, b.x) + Min(a.x + a.size.x, b.x + b.size.x)) / 2.0;
      var py := (Max(a.y, b.y) + Min(a.y + a.size.y, b.y + b.size.y)) / 2.0;
      assert StrictlyInside(a, px, py) && StrictlyInside(b, px, py);
    }
  }

  lemma CollisionSymmetric(a: Shape, b: Shape)
    ensures CheckCollision(a, b) == CheckCollision(b, a)
  {
  }

  /** Rectangles that only share an edge or a corner do not collide. */
  lemma EdgeContactIsNoCollision(a: Shape, b: Shape)
    requires a.x + a.size.x == b.x || b.x + b.size.x == a.x || a.y + a.size.y == b.y || b.y + b.size.y == a.y
    ensures !CheckCollision(a, b)
  {
  }

  /**
   * `resolve_collision`: when the player's bottom is below the block's top,
   * the player lands on it.
   */
  function ResolveCollision(player: Player, block: Shape, blockAreaTop: real): (landed: Player)
    ensures landed.shape == player.shape
    ensures player.shape.y + player.shape.size.y > block.y ==>
              landed.speed == 0.0 && landed.offsetY == blockAreaTop - block.y
    ensures player.shape.y + player.shape.size.y <= block.y ==> landed == player
  {
    var playerBottom := player.shape.y + player.shape.size.y;
    var blockTop := block.y;
    if playerBottom > blockTop then player.(offsetY := blockAreaTop - blockTop, speed := 0.0)
    else player
  }

  /** The y that `update_player_position` derives from the player's offset. */
  function PlayerY(player: Player, blockAreaTop: real): (y: real)
    ensures y + player.shape.size.y == blockAreaTop - player.offsetY
  {
    blockAreaTop - player.shape.size.y - player.offsetY
  }

  /** A collision always passes the test in `resolve_collision`, so it is always a landing. */
  lemma CollisionIsLanding(player: Shape, block: Shape)
    requires CheckCollision(player, block)
    ensures player.y + player.size.y > block.y
  {
  }

  /**
   * After landing on a block and being placed again, the player stands on it:
   * its bottom is the block's top, so the two no longer collide.
   */
  lemma LandingRestsOnBlock(player: Player, block: Shape, blockAreaTop: real)
    requires CheckCollision(player.shape, block)
    ensures var landed := ResolveCollision(player, block, blockAreaTop);
            && PlayerY(landed, blockAreaTop) + landed.shape.size.y == block.y
            && !CheckCollision(landed.shape.(y := PlayerY(landed, blockAreaTop)), block)
  {
  }

  /** A block the player interacts with: not destroyed and overlapping the player. */
  function Touching(shape: Shape, block: Block): (touching: bool)
    ensures touching <==> block.blockType.hp > 0 && CheckCollision(shape, block.shape)
  {
    !IsDestroyed(block) && CheckCollision(shape, block.shape)
  }

  /** The loop of `player_collision` over the first |blocks| blocks, in vector order. */
  function CollideAll(player: Player, blocks: seq<Block>, blockAreaTop: real): (after: Player)
    ensures after.shape == player.shape
    decreases |blocks|
  {
    if blocks == [] then player
    else
      var before := CollideAll(player, blocks[..|blocks| - 1], blockAreaTop);
      var block := blocks[|blocks| - 1];
      if Touching(before.shape, block) then ResolveCollision(before, block.shape, blockAreaTop) else before
  }

  /** The index of the last live block overlapping `shape`, or -1 when there is none. */
  function LastTouching(blocks: seq<Block>, shape: Shape): (k: int)
    ensures -1 <= k < |blocks|
    ensures k >= 0 ==> Touching(shape, blocks[k])
    ensures forall j :: k < j < |blocks| ==> !Touching(shape, blocks[j])
    decreases |blocks|
  {
    if blocks == [] then -1
    else if Touching(shape, blocks[|blocks| - 1]) then |blocks| - 1
    else LastTouching(blocks[..|blocks| - 1], shape)
  }

  /**
   * `player_collision` leaves the player as it was when no live block
   * overlaps it; otherwise the last overlapping live block in vector order
   * decides the offset and the speed is zero. The shape is never changed.
   */
  lemma {:induction false} CollideAllLastWins(player: Player, blocks: seq<Block>, blockAreaTop: real)
    ensures var after := CollideAll(player, blocks, blockAreaTop);
            var k := LastTouching(blocks, player.shape);
            && (k == -1 ==> after == player)
            && (k >= 0 ==> after == player.(speed := 0.0, offsetY := blockAreaTop - blocks[k].shape.y))
    decreases |blocks|
  {
    if blocks != [] {
      var prefix := blocks[..|blocks| - 1];
      CollideAllLastWins(player, prefix, blockAreaTop);
      var block := blocks[|blocks| - 1];
      if Touching(player.shape, block) {
        CollisionIsLanding(player.shape, block.shape);
      }
    }
  }

  /** A destroyed block at the end of the vector does not change the outcome of `player_collision`. */
  lemma DestroyedLastBlockIgnored(player: Player, blocks: seq<Block>, block: Block, blockAreaTop: real)
    requires IsDestroyed(block)
    ensures CollideAll(player, blocks + [block], blockAreaTop) == CollideAll(player, blocks, blockAreaTop)
  {
  }

  /** A destroyed block anywhere in the vector does not change the outcome of `player_collision`. */
  lemma {:induction false} DestroyedBlocksIgnored(player: Player, front: seq<Block>, block: Block,
                                                  back: seq<Block>, blockAreaTop: real)
    requires IsDestroyed(block)
    ensures CollideAll(player, front + [block] + back, blockAreaTop) == CollideAll(player, front + back, blockAreaTop)
    decreases |back|
  {
    if back == [] {
      assert front + [block] + back == front + [block];
      assert front + back == front;
      DestroyedLastBlockIgnored(player, front, block, blockAreaTop);
    } else {
      var init := back[..|back| - 1];
      DestroyedBlocksIgnored(player, front, block, init, blockAreaTop);
      var withBlock := front + [block] + back;
      var without := front + back;
      assert withBlock[..|withBlock| - 1] == front + [block] + init;
      assert without[..|without| - 1] == front + init;
      assert withBlock[|withBlock| - 1] == without[|without| - 1];
    }
  }

  //
  // Mining
  //

  /** The index of the first live block overlapping `shape`, or |blocks| when there is none. */
  function FirstTouching(blocks: seq<Block>, shape: Shape): (k: nat)
    ensures k <= |blocks|
    ensures k < |blocks| ==> Touching(shape, blocks[k])
    ensures forall j :: 0 <= j < k ==> !Touching(shape, blocks[j])
  {
    if blocks == [] then 0
    else if Touching(shape, blocks[0]) then 0
    else 1 + FirstTouching(blocks[1..], shape)
  }

  /**
   * The blocks and score after one mining click: the first live block
   * overlapping `shape` is hit, and the score is updated when the hit
   * destroys it.
   */
  function Mined(blocks: seq<Block>, shape: Shape, score: Score,
                 subtractBlockHp: BlockType -> (BlockType, bool),
                 updateScore: (Block, Score) -> Score): (after: (seq<Block>, Score))
    ensures |after.0| == |blocks|
    ensures FirstTouching(blocks, shape) == |blocks| ==> after == (blocks, score)
    ensures forall j :: 0 <= j < |blocks| && j != FirstTouching(blocks, shape) ==> after.0[j] == blocks[j]
    ensures forall j :: 0 <= j < |blocks| ==> after.0[j].shape == blocks[j].shape
    ensures after.1 != score ==>
              FirstTouching(blocks, shape) < |blocks| &&
              subtractBlockHp(blocks[FirstTouching(blocks, shape)].blockType).1
  {
    var k := FirstTouching(blocks, shape);
    if k == |blocks| then (blocks, score)
    else
      var hit := subtractBlockHp(blocks[k].blockType);
      var hitBlocks := blocks[k := blocks[k].(blockType := hit.0)];
      (hitBlocks, if hit.1 then updateScore(hitBlocks[k], score) else score)
  }

  /**
   * `destroy_touching_blocks`: only the first live block overlapping the
   * player is hit. `subtractBlockHp` stands for `subtract_block_hp` (the
   * new kind with its hit points, and whether the hit destroyed the block)
   * and `updateScore` for `update_score`.
   */
  method DestroyTouchingBlocks(blocks: seq<Block>, player: Player, score: Score,
                               subtractBlockHp: BlockType -> (BlockType, bool),
                               updateScore: (Block, Score) -> Score)
    returns (blocks': seq<Block>, score': Score)
    ensures |blocks'| == |blocks|
    ensures FirstTouching(blocks, player.shape) == |blocks| ==> blocks' == blocks && score' == score
    ensures var k := FirstTouching(blocks, player.shape);
            k < |blocks| ==>
              var hit := subtractBlockHp(blocks[k].blockType);
              && blocks' == blocks[k := blocks[k].(blockType := hit.0)]
              && score' == (if hit.1 then updateScore(blocks'[k], score) else score)
    ensures forall j :: 0 <= j < |blocks| && j != FirstTouching(blocks, player.shape) ==> blocks'[j] == blocks[j]
    ensures forall j :: 0 <= j < |blocks| ==> blocks'[j].shape == blocks[j].shape
    ensures (blocks', score') == Mined(blocks, player.shape, score, subtractBlockHp, updateScore)
  {
    blocks', score' := blocks, score;
    var i := 0;
    while i < |blocks|
      invariant 0 <= i <= |blocks|
      invariant forall j :: 0 <= j < i ==> !Touching(player.shape, blocks[j])
    {
      if !IsDestroyed(blocks[i]) && CheckCollision(player.shape, blocks[i].shape) {
        var hit := subtractBlockHp(blocks[i].blockType);
        blocks' := blocks[i := blocks[i].(blockType := hit.0)];
        if hit.1 {
          score' := updateScore(blocks'[i], score);
        }
        return;
      }
      i := i + 1;
    }
  }

  //
  // Culling
  //

  /** `retain(|block| block.shape.y > minY)`. */
  function Retain(blocks: seq<Block>, minY: real): (kept: seq<Block>)
    ensures |kept| <= |blocks|
  {
    if blocks == [] then []
    else (if blocks[0].shape.y > minY then [blocks[0]] else []) + Retain(blocks[1..], minY)
  }

  /** Culling keeps exactly the blocks below the line, unmodified. */
  lemma {:induction false} RetainMembers(blocks: seq<Block>, minY: real)
    ensures forall b :: b in Retain(blocks, minY) <==> b in blocks && b.shape.y > minY
    decreases |blocks|
  {
    if blocks != [] {
      RetainMembers(blocks[1..], minY);
      assert blocks == [blocks[0]] + blocks[1..];
    }
  }

  /** Culling works block by block and keeps the relative order. */
  lemma {:induction false} RetainAppend(a: seq<Block>, b: seq<Block>, minY: real)
    ensures Retain(a + b, minY) == Retain(a, minY) + Retain(b, minY)
    decreases |a|
  {
    if a == [] {
      assert a + b == b;
    } else {
      assert (a + b)[0] == a[0];
      assert (a + b)[1..] == a[1..] + b;
      RetainAppend(a[1..], b, minY);
    }
  }

  /** Nothing is removed when every block is below the line. */
  lemma {:induction false} RetainAllKept(blocks: seq<Block>, minY: real)
    requires forall j :: 0 <= j < |blocks| ==> blocks[j].shape.y > minY
    ensures Retain(blocks, minY) == blocks
    decreases |blocks|
  {
    if blocks != [] {
      RetainAllKept(blocks[1..], minY);
    }
  }

  /** Blocks appear in the order of their rows: y never decreases along the vector. */
  ghost predicate SortedByRow(blocks: seq<Block>)
  {
    forall i, j :: 0 <= i < j < |blocks| ==> blocks[i].shape.y <= blocks[j].shape.y
  }

  lemma {:induction false} RetainKeepsSorted(blocks: seq<Block>, minY: real)
    requires SortedByRow(blocks)
    ensures SortedByRow(Retain(blocks, minY))
    decreases |blocks|
  {
    if blocks != [] {
      RetainKeepsSorted(blocks[1..], minY);
      RetainMembers(blocks[1..], minY);
      var rest := Retain(blocks[1..], minY);
      forall b | b in rest ensures blocks[0].shape.y <= b.shape.y {
        var j :| 0 <= j < |blocks[1..]| && blocks[1..][j] == b;
        assert blocks[j + 1] == b;
      }
    }
  }

  /** `s` is what remains of `t` once some prefix of `t` is dropped. */
  ghost predicate IsSuffixOf(s: seq<Block>, t: seq<Block>)
    decreases |t|
  {
    s == t || (|t| > 0 && IsSuffixOf(s, t[1..]))
  }

  /** Every tail `t[k..]` is a suffix of `t`, and every suffix is such a tail. */
  lemma {:induction false} TailIsSuffix(t: seq<Block>, k: nat)
    requires k <= |t|
    ensures IsSuffixOf(t[k..], t)
    decreases k
  {
    if k > 0 {
      TailIsSuffix(t[1..], k - 1);
      assert t[1..][k - 1..] == t[k..];
    } else {
      assert t[0..] == t;
    }
  }

  lemma {:induction false} SuffixIsTail(s: seq<Block>, t: seq<Block>)
    requires IsSuffixOf(s, t)
    ensures |s| <= |t| && s == t[|t| - |s|..]
    decreases |t|
  {
    if s == t {
      assert t[0..] == t;
    } else {
      SuffixIsTail(s, t[1..]);
      assert t[1..][|t| - 1 - |s|..] == t[|t| - |s|..];
    }
  }

  /** On rows in order, culling drops a prefix of the vector: the rows above the line. */
  lemma {:induction false} RetainSortedDropsPrefix(blocks: seq<Block>, minY: real)
    requires SortedByRow(blocks)
    ensures Retain(blocks, minY) == blocks[|blocks| - |Retain(blocks, minY)|..]
    decreases |blocks|
  {
    if blocks == [] {
    } else if blocks[0].shape.y > minY {
      RetainAllKept(blocks, minY);
      assert blocks[0..] == blocks;
    } else {
      var rest := blocks[1..];
      RetainSortedDropsPrefix(rest, minY);
      assert Retain(blocks, minY) == Retain(rest, minY);
      assert rest[|rest| - |Retain(rest, minY)|..] == blocks[|blocks| - |Retain(blocks, minY)|..];
    }
  }

  //
  // World initialisation
  //

  /** The least integer at or above `r`. */
  function Ceil(r: real): (n: int)
    ensures n as real - 1.0 < r <= n as real
  {
    -((-r).Floor)
  }

  /** Rust's saturating `f32 as i32` on a value that is already integral. */
  function SaturateI32(n: int): (m: int)
    ensures -0x8000_0000 <= m <= 0x7FFF_FFFF
    ensures -0x8000_0000 <= n <= 0x7FFF_FFFF ==> m == n
    ensures n > 0x7FFF_FFFF ==> m == 0x7FFF_FFFF
    ensures n < -0x8000_0000 ==> m == -0x8000_0000
  {
    if n < -0x8000_0000 then -0x8000_0000 else if n > 0x7FFF_FFFF then 0x7FFF_FFFF else n
  }

  /** The widest screen whose columns still fit in an i32: (2^31 - 1) * BLOCK_SIZE. */
  const MaxCoveredWidth: real := 0x7FFF_FFFF as real * BlockSize

  /** `(screen_width() / BLOCK_SIZE).ceil() as i32`: enough columns to cover the screen. */
  function NeededColumns(screenWidth: real): (n: int)
    ensures 0.0 <= screenWidth <= MaxCoveredWidth ==> 0 <= n && (n as real) * BlockSize >= screenWidth
    ensures 0.0 <= screenWidth <= MaxCoveredWidth ==> ((n - 1) as real) * BlockSize < screenWidth
    ensures screenWidth > MaxCoveredWidth ==> n == 0x7FFF_FFFF
  {
    SaturateI32(Ceil(screenWidth / BlockSize))
  }

  //
  // Player motion
  //

  /** The player after `apply_gravity`: speed first, then the offset from the new speed. */
  function Gravitated(player: Player, deltaTime: real): (after: Player)
    ensures after.shape == player.shape
    ensures after.speed == player.speed + Gravity * deltaTime
    ensures after.offsetY == player.offsetY - after.speed * deltaTime
  {
    var speed := player.speed + Gravity * deltaTime;
    player.(speed := speed, offsetY := player.offsetY - speed * deltaTime)
  }

  /** The player after `update_player_position`: centred, with its bottom `offsetY` above the block area top. */
  function Placed(player: Player, screenWidth: real, blockAreaTop: real): (after: Player)
    ensures after.shape.x + after.shape.size.x / 2.0 == screenWidth / 2.0
    ensures after.shape.y + after.shape.size.y == blockAreaTop - player.offsetY
    ensures after == player.(shape := after.shape) && after.shape.size == player.shape.size
  {
    var centred := player.shape.(x := screenWidth / 2.0 - player.shape.size.x / 2.0);
    player.(shape := centred.(y := PlayerY(player, blockAreaTop)))
  }

  /** The game state that the update steps change in place. */
  class Dwarfing {
    var score: Score
    var player: Player
    var blocks: seq<Block>
    var params: Params

    /**
     * The world keeps its blocks in row order, every block is BLOCK_SIZE
     * square, and none lies below the watermark `lastRowY`.
     */
    ghost predicate Valid()
      reads this
    {
      && SortedByRow(blocks)
      && forall i :: 0 <= i < |blocks| ==> blocks[i].shape.size == Splat(BlockSize) && blocks[i].shape.y <= params.lastRowY
    }

    /** `Dwarfing::init`, with the screen size as parameters. */
    constructor Init(screenWidth: real, screenHeight: real)
      ensures Valid()
      ensures score == Scores.Init()
      ensures player == Players.New(Shape(Splat(32.0), screenWidth / 2.0, 0.0))
      ensures blocks == []
      ensures params == Params(NeededColumns(screenWidth), screenHeight / 2.0, screenHeight / 2.0)
    {
      var playerShape := Shape(Splat(32.0), screenWidth / 2.0, 0.0);
      score := Scores.Init();
      player := Players.New(playerShape);
      blocks := [];
      var blockAreaTop := screenHeight / 2.0;
      params := Params(NeededColumns(screenWidth), blockAreaTop, blockAreaTop);
    }

    /** `apply_gravity` over a frame of `deltaTime` seconds. */
    method ApplyGravity(deltaTime: real)
      requires Valid()
      modifies this
      ensures Valid()
      ensures player == Gravitated(old(player), deltaTime)
      ensures player.speed == old(player.speed) + Gravity * deltaTime
      ensures player.offsetY == old(player.offsetY) - player.speed * deltaTime
      ensures player.shape == old(player.shape)
      ensures blocks == old(blocks) && params == old(params) && score == old(score)
    {
      player := player.(speed := player.speed + Gravity * deltaTime);
      player := player.(offsetY := player.offsetY - player.speed * deltaTime);
    }

    /** `update_player_position`: centred horizontally, and below the block area top by the offset. */
    method UpdatePlayerPosition(screenWidth: real)
      requires Valid()
      modifies this
      ensures Valid()
      ensures player.shape.x + player.shape.size.x / 2.0 == screenWidth / 2.0
      ensures player == Placed(old(player), screenWidth, params.blockAreaTop)
      ensures player.shape.y == PlayerY(old(player), params.blockAreaTop)
      ensures player.shape.y + player.shape.size.y == params.blockAreaTop - player.offsetY
      ensures player == old(player).(shape := player.shape)
      ensures player.shape.size == old(player.shape.size)
      ensures blocks == old(blocks) && params == old(params) && score == old(score)
    {
      player := player.(shape := player.shape.(x := screenWidth / 2.0 - player.shape.size.x / 2.0));
      player := player.(shape := player.shape.(y := params.blockAreaTop - player.shape.size.y - player.offsetY));
    }

    /**
     * `update_blocks`: when the screen reaches past the watermark, one row
     * is spawned one block below it and the watermark moves to that row.
     * `lnY` and `lnBelow2000` are the logarithms taken for the new row's y.
     */
    method UpdateBlocks(screenHeight: real, rolls: seq<real>, lnY: real, lnBelow2000: real)
      requires Valid()
      requires Columns(params.neededX) <= |rolls|
      modifies this
      ensures Valid()
      ensures old(player.shape.y + screenHeight > params.lastRowY) ==>
                && params == old(params).(lastRowY := old(params.lastRowY) + BlockSize)
                && RowAppended(old(blocks), blocks, params.neededX, params.lastRowY, rolls, lnY, lnBelow2000)
                && blocks == SpawnedRow(old(blocks), params.neededX, params.lastRowY, rolls, lnY, lnBelow2000)
      ensures old(player.shape.y + screenHeight <= params.lastRowY) ==>
                blocks == old(blocks) && params == old(params)
      ensures player == old(player) && score == old(score)
    {
      if player.shape.y + screenHeight > params.lastRowY {
        var newRowY := params.lastRowY + BlockSize;
        var grown := SpawnRowOfBlocks(blocks, params.neededX, newRowY, rolls, lnY, lnBelow2000);
        ghost var oldLen := |blocks|;
        assert forall j :: 0 <= j < oldLen ==> grown[j] == blocks[j] by {
          assert grown[..oldLen] == blocks;
        }
        blocks := grown;
        params := params.(lastRowY := newRowY);
      }
    }

    /** `remove_off_screen_blocks`: keeps the blocks below `player.y - screen_height`. */
    method RemoveOffScreenBlocks(screenHeight: real)
      requires Valid()
      modifies this
      ensures Valid()
      ensures blocks == Retain(old(blocks), player.shape.y - screenHeight)
      ensures IsSuffixOf(blocks, old(blocks))
      ensures player == old(player) && params == old(params) && score == old(score)
    {
      var minY := player.shape.y - screenHeight;
      RetainKeepsSorted(blocks, minY);
      RetainSortedDropsPrefix(blocks, minY);
      var kept := Retain(blocks, minY);
      ghost var dropped := |blocks| - |kept|;
      assert forall i :: 0 <= i < |kept| ==> kept[i] == blocks[dropped + i];
      TailIsSuffix(blocks, dropped);
      blocks := kept;
    }

    /** `player_collision`: every live overlapping block, in vector order, resolves a landing. */
    method PlayerCollision()
      requires Valid()
      modifies this
      ensures Valid()
      ensures player == CollideAll(old(player), blocks, params.blockAreaTop)
      ensures blocks == old(blocks) && params == old(params) && score == old(score)
    {
      var i := 0;
      while i < |blocks|
        invariant 0 <= i <= |blocks|
        invariant player == CollideAll(old(player), blocks[..i], params.blockAreaTop)
        invariant blocks == old(blocks) && params == old(params) && score == old(score)
      {
        assert blocks[..i + 1][..i] == blocks[..i];
        if !IsDestroyed(blocks[i]) && CheckCollision(player.shape, blocks[i].shape) {
          player := ResolveCollision(player, blocks[i].shape, params.blockAreaTop);
        }
        i := i + 1;
      }
      assert blocks[..|blocks|] == blocks;
    }

    /**
     * `handle_input` without the sprite animation: a press of the mouse
     * button mines the first live block overlapping the player.
     */
    method HandleInput(mouseDown: bool, mousePressed: bool,
                       subtractBlockHp: BlockType -> (BlockType, bool),
                       updateScore: (Block, Score) -> Score)
      requires Valid()
      modifies this
      ensures Valid()
      ensures !(mouseDown && mousePressed) ==> blocks == old(blocks) && score == old(score)
      ensures mouseDown && mousePressed ==>
                (blocks, score) == Mined(old(blocks), player.shape, old(score), subtractBlockHp, updateScore)
      ensures |blocks| == old(|blocks|)
      ensures player == old(player) && params == old(params)
    {
      if mouseDown && mousePressed {
        var mined, newScore := DestroyTouchingBlocks(blocks, player, score, subtractBlockHp, updateScore);
        blocks, score := mined, newScore;
      }
    }

    /**
     * One frame of `update`, without the music and the camera: gravity,
     * placement, row spawning, culling, landing and mining, in that order.
     */
    method Update(deltaTime: real, screenWidth: real, screenHeight: real,
                  rolls: seq<real>, lnY: real, lnBelow2000: real,
                  mouseDown: bool, mousePressed: bool,
                  subtractBlockHp: BlockType -> (BlockType, bool),
                  updateScore: (Block, Score) -> Score)
      returns (ghost placed: Player, ghost spawned: seq<Block>, ghost kept: seq<Block>)
      requires Valid()
      requires Columns(params.neededX) <= |rolls|
      modifies this
      ensures Valid()
      ensures params.neededX == old(params.neededX) && params.blockAreaTop == old(params.blockAreaTop)
      ensures player.shape.x + player.shape.size.x / 2.0 == screenWidth / 2.0
      // the player after gravity and placement
      ensures placed == Placed(Gravitated(old(player), deltaTime), screenWidth, old(params.blockAreaTop))
      // the blocks after the row spawn
      ensures placed.shape.y + screenHeight > old(params.lastRowY) ==>
                && params == old(params).(lastRowY := old(params.lastRowY) + BlockSize)
                && spawned == SpawnedRow(old(blocks), old(params.neededX), params.lastRowY, rolls, lnY, lnBelow2000)
      ensures placed.shape.y + screenHeight <= old(params.lastRowY) ==>
                params == old(params) && spawned == old(blocks)
      // the blocks after culling, the player after landing
      ensures kept == Retain(spawned, placed.shape.y - screenHeight)
      ensures player == CollideAll(placed, kept, old(params.blockAreaTop))
      // the blocks and the score after mining
      ensures mouseDown && mousePressed ==>
                (blocks, score) == Mined(kept, player.shape, old(score), subtractBlockHp, updateScore)
      ensures !(mouseDown && mousePressed) ==> blocks == kept && score == old(score)
    {
      ApplyGravity(deltaTime);
      UpdatePlayerPosition(screenWidth);
      placed := player;
      UpdateBlocks(screenHeight, rolls, lnY, lnBelow2000);
      spawned := blocks;
      assert player == placed;
      RemoveOffScreenBlocks(screenHeight);
      kept := blocks;
      assert kept == Retain(spawned, placed.shape.y - screenHeight);
      PlayerCollision();
      HandleInput(mouseDown, mousePressed, subtractBlockHp, updateScore);
    }
  }
}
