/** The game board: a `yLength` x `xLength` table of glyphs (src/dal/Grid.java). */
module DalGrid {
  import opened Wrappers

  /** The glyph of an empty tile. */
  const DefaultTexture: string := "⬜"

  /** The message of the exception the constructor throws for a non-positive size. */
  const BadLengths: string := "Lengths must be positive."

  /** Whether 1-indexed (x, y) names a tile of an xLength-by-yLength board. */
  predicate InBounds(x: int, y: int, xLength: int, yLength: int)
  {
    !(x <= 0 || y <= 0 || x >= xLength + 1 || y >= yLength + 1)
  }

  class Grid {
    /** Row y - 1, column x - 1 holds the glyph of the 1-indexed tile (x, y). */
    const table: array2<string>
    const xLength: int
    const yLength: int
    const texture: string

    ghost predicate Valid()
    {
      && xLength > 0 && yLength > 0
      && table.Length0 == yLength && table.Length1 == xLength
      && texture == DefaultTexture
    }

    /** The whole table as rows of glyphs. */
    ghost function Tiles(): (rows: seq<seq<string>>)
      requires Valid()
      reads table
      ensures |rows| == yLength
      ensures forall i :: 0 <= i < yLength ==> |rows[i]| == xLength
      ensures forall i, j :: 0 <= i < yLength && 0 <= j < xLength ==> rows[i][j] == table[i, j]
    {
      seq(yLength, i requires 0 <= i < yLength reads table =>
        seq(xLength, j requires 0 <= j < xLength reads table => table[i, j]))
    }

    /** The Java constructor once its size check has passed. */
    constructor (xLength: int, yLength: int)
      requires xLength > 0 && yLength > 0
      ensures Valid() && fresh(table)
      ensures this.xLength == xLength && this.yLength == yLength
      ensures forall i, j :: 0 <= i < yLength && 0 <= j < xLength ==> table[i, j] == DefaultTexture
    {
      this.texture := DefaultTexture;
      this.table := new string[yLength, xLength];
      this.xLength := xLength;
      this.yLength := yLength;
      new;
      TableInitialize();
    }

    /**
     * `new Grid(xLength, yLength)`: throws when either size is not positive,
     * otherwise yields a board whose every tile is the default glyph.
     */
    static method Create(xLength: int, yLength: int) returns (r: Result<Grid, string>)
      ensures r.Failure? <==> xLength <= 0 || yLength <= 0
      ensures r.Failure? ==> r.error == BadLengths
      ensures r.Success? ==> fresh(r.value) && fresh(r.value.table) && r.value.Valid()
      ensures r.Success? ==> r.value.xLength == xLength && r.value.yLength == yLength
      ensures r.Success? ==> forall i, j :: 0 <= i < yLength && 0 <= j < xLength ==>
                               r.value.table[i, j] == DefaultTexture
    {
      if xLength <= 0 || yLength <= 0 {
        return Failure(BadLengths);
      }
      var g := new Grid(xLength, yLength);
      return Success(g);
    }

    /** `tableInitialize`: fills every tile with the default glyph, row by row. */
    method TableInitialize()
      requires Valid()
      modifies table
      ensures forall i, j :: 0 <= i < yLength && 0 <= j < xLength ==> table[i, j] == DefaultTexture
    {
      for i := 0 to yLength
        invariant forall i', j :: 0 <= i' < i && 0 <= j < xLength ==> table[i', j] == DefaultTexture
      {
        for j := 0 to xLength
          invariant forall i', j' :: 0 <= i' < i && 0 <= j' < xLength ==> table[i', j'] == DefaultTexture
          invariant forall j' :: 0 <= j' < j ==> table[i, j'] == DefaultTexture
        {
          table[i, j] := texture;
        }
      }
    }

    /**
     * `setTextureToGrid(x, y, texture)`: writes the glyph at the 1-indexed
     * tile (x, y); a coordinate off the board is silently ignored.
     */
    method SetTextureToGrid(x: int, y: int, texture: string)
      requires Valid()
      modifies table
      ensures InBounds(x, y, xLength, yLength) ==> table[y - 1, x - 1] == texture
      ensures forall i, j :: 0 <= i < yLength && 0 <= j < xLength && (i, j) != (y - 1, x - 1) ==>
                table[i, j] == old(table[i, j])
      ensures !InBounds(x, y, xLength, yLength) ==> Tiles() == old(Tiles())
    {
      if !(x <= 0 || y <= 0 || x >= xLength + 1 || y >= yLength + 1) {
        table[y - 1, x - 1] := texture;
      }
    }

    /** `getTexture`: the default glyph, whatever has been written to the board. */
    function GetTexture(): (t: string)
      requires Valid()
      ensures t == DefaultTexture
    {
      texture
    }
  }
}
