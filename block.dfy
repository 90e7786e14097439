/** Breakable blocks and their hit points (src/block.rs). */
module Blocks {
  import opened Shapes

  /**
   * The kind of a block. Every kind carries its full hit points `baseHp`
   * and its remaining hit points `hp` (i32 in the source); the texture
   * each kind also carries is presentation only and is left out.
   */
  datatype BlockType =
    | Dirt(baseHp: int, hp: int)
    | Rock(baseHp: int, hp: int)
    | Gold(baseHp: int, hp: int)

  datatype Block = Block(shape: Shape, blockType: BlockType)

  /** `Block::new(shape, block_type)`: the block keeps both arguments as given. */
  function New(shape: Shape, blockType: BlockType): (b: Block)
    ensures b.shape == shape
    ensures b.blockType == blockType
    ensures IsDestroyed(b) <==> blockType.hp <= 0
  {
    Block(shape, blockType)
  }

  /** The one-argument `Block::new(shape)` written in src/block.rs: a full Dirt block. */
  function NewDefault(shape: Shape): (b: Block)
    ensures b.shape == shape
    ensures b.blockType.Dirt? && b.blockType.hp == 50
    ensures !IsDestroyed(b)
  {
    Block(shape, Dirt(50, 50))
  }

  /** `is_destroyed`: one arm for every kind, so only the remaining hit points matter. */
  function IsDestroyed(b: Block): (destroyed: bool)
    ensures destroyed <==> b.blockType.hp <= 0
  {
    match b.blockType
    case Dirt(_, hp) => hp <= 0
    case Rock(_, hp) => hp <= 0
    case Gold(_, hp) => hp <= 0
  }

  /** Neither the kind, the full hit points nor the shape affect `is_destroyed`. */
  lemma DestroyedDependsOnlyOnHp(a: Block, b: Block)
    requires a.blockType.hp == b.blockType.hp
    ensures IsDestroyed(a) == IsDestroyed(b)
  {
  }
}
