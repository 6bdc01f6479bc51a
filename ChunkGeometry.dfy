/**
 * Chunk coordinates and the six axis directions of the voxel grid.  A chunk
 * position is a block position whose components are chunk indices; the
 * direction vectors are Minecraft's (`Direction` is not part of this model,
 * its unit vectors are).
 */
module ChunkGeometry {

  datatype Direction = Down | Up | North | South | West | East
  {
    function OffsetX(): int { match this case West => -1 case East => 1 case _ => 0 }
    function OffsetY(): int { match this case Down => -1 case Up => 1 case _ => 0 }
    function OffsetZ(): int { match this case North => -1 case South => 1 case _ => 0 }

    /** `getOpposite`: the other direction on the same axis. */
    function Opposite(): (d: Direction)
      ensures d != this
      ensures d.OffsetX() == -OffsetX() && d.OffsetY() == -OffsetY() && d.OffsetZ() == -OffsetZ()
    {
      match this
      case Down => Up
      case Up => Down
      case North => South
      case South => North
      case West => East
      case East => West
    }
  }

  /** `Direction.EAST` or `Direction.WEST`. */
  predicate OnXAxis(d: Direction) { d == East || d == West }
  /** `Direction.UP` or `Direction.DOWN`. */
  predicate OnYAxis(d: Direction) { d == Up || d == Down }
  /** `Direction.SOUTH` or `Direction.NORTH`. */
  predicate OnZAxis(d: Direction) { d == South || d == North }

  datatype ChunkPos = ChunkPos(x: int, y: int, z: int)
  {
    /** `offset(direction)`: the neighbouring chunk one step along `d`. */
    function Offset(d: Direction): (q: ChunkPos)
      ensures Distance(this, q) == 1
    {
      ChunkPos(x + d.OffsetX(), y + d.OffsetY(), z + d.OffsetZ())
    }
  }

  function Abs(n: int): nat { if n < 0 then -n else n }

  /** Manhattan distance between two chunk positions. */
  function Distance(p: ChunkPos, q: ChunkPos): nat
  {
    Abs(p.x - q.x) + Abs(p.y - q.y) + Abs(p.z - q.z)
  }
}
