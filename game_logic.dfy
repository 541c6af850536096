/**
 * Setting up a game (src/bl/GameLogic.java): the direction-to-glyph table, a
 * one-segment snake heading right, the food cell, and the head painted on the
 * board. The per-tick engine is not part of this model.
 */
module BlGameLogic {
  import opened DalDirection
  import opened DalGrid
  import opened DalCell

  const HeadRight: string := "▶"
  const HeadLeft: string := "◀"
  const HeadUp: string := "▲"
  const HeadDown: string := "▼"
  const FoodTexture: string := "X"

  /**
   * `InitializeKeyTextures`: a fresh map filled by four successive puts; it
   * covers every direction and gives each its own arrow.
   */
  method InitializeKeyTextures() returns (keyTextures: map<Direction, string>)
    ensures forall d: Direction :: d in keyTextures
    ensures keyTextures[LEFT] == HeadLeft && keyTextures[RIGHT] == HeadRight
    ensures keyTextures[UP] == HeadUp && keyTextures[DOWN] == HeadDown
    ensures forall d1, d2 :: keyTextures[d1] == keyTextures[d2] ==> d1 == d2
  {
    keyTextures := map[];
    keyTextures := keyTextures[LEFT := HeadLeft];
    keyTextures := keyTextures[RIGHT := HeadRight];
    keyTextures := keyTextures[UP := HeadUp];
    keyTextures := keyTextures[DOWN := HeadDown];
    forall d: Direction ensures d in keyTextures {
      assert d == LEFT || d == RIGHT || d == UP || d == DOWN;
    }
  }

  class GameLogic {
    var grid: Grid
    var snakeCells: array<Cell?>
    var food: Cell
    var currentDirection: Direction
    var keyTextures: map<Direction, string>

    /** A valid board and a snake with a head segment. */
    ghost predicate Valid()
      reads this, snakeCells
    {
      grid.Valid() && snakeCells.Length >= 1 && snakeCells[0] != null
    }

    /**
     * `new GameLogic(grid, snakeHead)` up to and including `InitializeGameTable`
     * (the closing `SpawnFood` call is not modelled).
     */
    constructor (grid: Grid, snakeHead: Cell)
      requires grid.Valid()
      modifies snakeHead, grid.table
      ensures Valid()
      ensures this.grid == grid && currentDirection == RIGHT
      ensures forall d: Direction :: d in keyTextures
      ensures keyTextures[LEFT] == HeadLeft && keyTextures[RIGHT] == HeadRight
      ensures keyTextures[UP] == HeadUp && keyTextures[DOWN] == HeadDown
      // a snake of one segment: the given head, drawn as the arrow of the initial direction
      ensures fresh(snakeCells) && snakeCells.Length == 1 && snakeCells[0] == snakeHead
      ensures snakeHead.texture == HeadRight == keyTextures[currentDirection]
      ensures snakeHead.x == old(snakeHead.x) && snakeHead.y == old(snakeHead.y)
      // the food: a new cell of the same grid, at the default position, drawn as X
      ensures fresh(food) && food.grid == grid && food.texture == FoodTexture
      ensures food.x == 1 && food.y == 1
      // the board: the head's glyph at the head's tile, every other tile untouched
      ensures InBounds(snakeHead.x, snakeHead.y, grid.xLength, grid.yLength) ==>
                grid.table[snakeHead.y - 1, snakeHead.x - 1] == HeadRight
      ensures forall i, j ::
                0 <= i < grid.yLength && 0 <= j < grid.xLength && (i, j) != (snakeHead.y - 1, snakeHead.x - 1)
                ==> grid.table[i, j] == old(grid.table[i, j])
    {
      var cells := new Cell?[1];
      var textures := InitializeKeyTextures();
      cells[0] := snakeHead;
      snakeHead.SetTexture(HeadRight);
      var f := new Cell(grid);
      f.SetTexture(FoodTexture);
      this.snakeCells := cells;
      this.currentDirection := RIGHT;
      this.keyTextures := textures;
      this.grid := grid;
      this.food := f;
      new;
      InitializeGameTable();
    }

    /** `InitializeGameTable`: paints the head's glyph at the head's tile. */
    method InitializeGameTable()
      requires Valid()
      modifies grid.table
      ensures InBounds(snakeCells[0].x, snakeCells[0].y, grid.xLength, grid.yLength) ==>
                grid.table[snakeCells[0].y - 1, snakeCells[0].x - 1] == snakeCells[0].texture
      ensures forall i, j ::
                0 <= i < grid.yLength && 0 <= j < grid.xLength && (i, j) != (snakeCells[0].y - 1, snakeCells[0].x - 1)
                ==> grid.table[i, j] == old(grid.table[i, j])
    {
      var head := snakeCells[0];
      grid.SetTextureToGrid(head.x, head.y, head.texture);
    }
  }

  /**
   * The board after the program's start-up wiring (`new Grid(w, h)`, a new
   * head cell, `new GameLogic`): the top-left tile holds the right-pointing
   * head and every other tile is still empty.
   */
  method InitialBoard(xLength: int, yLength: int) returns (tiles: seq<seq<string>>)
    requires xLength > 0 && yLength > 0
    ensures |tiles| == yLength && forall i :: 0 <= i < yLength ==> |tiles[i]| == xLength
    ensures tiles[0][0] == HeadRight
    ensures forall i, j :: 0 <= i < yLength && 0 <= j < xLength && (i, j) != (0, 0) ==>
              tiles[i][j] == DefaultTexture
  {
    var g := new Grid(xLength, yLength);
    var head := new Cell(g);
    var logic := new GameLogic(g, head);
    tiles := seq(yLength, i requires 0 <= i < yLength reads g.table =>
               seq(xLength, j requires 0 <= j < xLength reads g.table => g.table[i, j]));
  }
}
