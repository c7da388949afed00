/**
 * The part of the grid world the agents touch: its size, the start and goal
 * cells and the agent's position, which the agents move. The grid itself, its
 * obstacle layout and neighbour enumeration are not part of this model.
 */
module Environment {

  /** A cell as (row, col). */
  type Pos = (int, int)

  function Abs(x: int): nat
  {
    if x < 0 then -x else x
  }

  /** |r1 - r2| + |c1 - c2|. */
  function Manhattan(a: Pos, b: Pos): (d: nat)
    ensures d == 0 <==> a == b
  {
    Abs(a.0 - b.0) + Abs(a.1 - b.1)
  }

  class GridWorld {
    var width: nat
    var height: nat
    var start: Pos
    var goal: Pos
    var agentPos: Pos

    constructor (width: nat, height: nat, start: Pos, goal: Pos)
      ensures this.width == width && this.height == height
      ensures this.start == start && this.goal == goal && agentPos == start
    {
      this.width, this.height := width, height;
      this.start, this.goal := start, goal;
      agentPos := start;
    }
  }
}
