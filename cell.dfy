/**
 * One cell of the game: a snake segment or the food (src/dal/Cell.java).
 * The getters of the Java class are the fields themselves here.
 */
module DalCell {
  import opened Wrappers
  import DalGrid

  /** The glyph a new cell starts with. */
  const DefaultCellTexture: string := "■"

  class Cell {
    var x: int
    var y: int
    /** The grid the cell belongs to; fixed at construction. */
    const grid: DalGrid.Grid
    var texture: string

    /** `new Cell(grid)`: at (1, 1) with the default glyph. */
    constructor (grid: DalGrid.Grid)
      ensures this.grid == grid
      ensures x == 1 && y == 1 && texture == DefaultCellTexture
    {
      this.x := 1;
      this.y := 1;
      this.grid := grid;
      this.texture := DefaultCellTexture;
    }

    method SetX(x: int)
      modifies this`x
      ensures this.x == x
      ensures y == old(y) && texture == old(texture)
    {
      this.x := x;
    }

    method SetY(y: int)
      modifies this`y
      ensures this.y == y
      ensures x == old(x) && texture == old(texture)
    {
      this.y := y;
    }

    method SetTexture(texture: string)
      modifies this`texture
      ensures this.texture == texture
      ensures x == old(x) && y == old(y)
    {
      this.texture := texture;
    }
  }

  /** One call of a `Cell` setter, with its argument. */
  datatype SetterCall = CallSetX(x: int) | CallSetY(y: int) | CallSetTexture(texture: string)

  datatype Axis = X | Y

  /** The coordinate a call sets on the given axis, if it sets one. */
  function CoordinateSet(call: SetterCall, axis: Axis): Option<int>
  {
    match call
    case CallSetX(v) => if axis == X then Some(v) else None
    case CallSetY(v) => if axis == Y then Some(v) else None
    case CallSetTexture(_) => None
  }

  /** Call `k` sets the coordinate on `axis` and no later call does. */
  predicate LastCoordinateCall(calls: seq<SetterCall>, axis: Axis, k: nat)
    requires k < |calls|
  {
    CoordinateSet(calls[k], axis).Some? && forall j :: k < j < |calls| ==> CoordinateSet(calls[j], axis).None?
  }

  /** Call `k` sets the glyph and no later call does. */
  predicate LastTextureCall(calls: seq<SetterCall>, k: nat)
    requires k < |calls|
  {
    calls[k].CallSetTexture? && forall j :: k < j < |calls| ==> !calls[j].CallSetTexture?
  }

  /**
   * The coordinate on `axis` after the calls: the value of the last call that
   * sets it, or `default` when none does.
   */
  function LastCoordinate(calls: seq<SetterCall>, axis: Axis, default: int): (r: int)
    ensures (forall k :: 0 <= k < |calls| ==> CoordinateSet(calls[k], axis).None?) ==> r == default
    ensures forall k :: 0 <= k < |calls| && LastCoordinateCall(calls, axis, k) ==>
      r == CoordinateSet(calls[k], axis).value
  {
    if |calls| == 0 then default
    else match CoordinateSet(calls[|calls| - 1], axis)
      case Some(v) => v
      case None =>
        var r := LastCoordinate(calls[..|calls| - 1], axis, default);
        assert forall k :: 0 <= k < |calls| - 1 ==> calls[..|calls| - 1][k] == calls[k];
        r
  }

  /** The glyph after the calls: that of the last `setTexture`, or `default` when there is none. */
  function LastTexture(calls: seq<SetterCall>, default: string): (r: string)
    ensures (forall k :: 0 <= k < |calls| ==> !calls[k].CallSetTexture?) ==> r == default
    ensures forall k :: 0 <= k < |calls| && LastTextureCall(calls, k) ==> r == calls[k].texture
  {
    if |calls| == 0 then default
    else if calls[|calls| - 1].CallSetTexture? then calls[|calls| - 1].texture
    else
      var r := LastTexture(calls[..|calls| - 1], default);
      assert forall k :: 0 <= k < |calls| - 1 ==> calls[..|calls| - 1][k] == calls[k];
      r
  }

  /**
   * The getters of a new cell after any run of setter calls: each returns
   * the value most recently set, or its default when never set; the grid
   * is the one the cell was built with.
   */
  method GettersAfterSetters(g: DalGrid.Grid, calls: seq<SetterCall>)
    returns (gotX: int, gotY: int, gotTexture: string, owner: DalGrid.Grid)
    ensures gotX == LastCoordinate(calls, X, 1) && gotY == LastCoordinate(calls, Y, 1)
    ensures gotTexture == LastTexture(calls, DefaultCellTexture)
    ensures owner == g
  {
    var c := new Cell(g);
    for i := 0 to |calls|
      invariant c.x == LastCoordinate(calls[..i], X, 1) && c.y == LastCoordinate(calls[..i], Y, 1)
      invariant c.texture == LastTexture(calls[..i], DefaultCellTexture)
      invariant c.grid == g
    {
      assert calls[..i + 1][..i] == calls[..i];
      match calls[i]
      case CallSetX(v) => c.SetX(v);
      case CallSetY(v) => c.SetY(v);
      case CallSetTexture(t) => c.SetTexture(t);
    }
    assert calls[..|calls|] == calls;
    gotX, gotY, gotTexture, owner := c.x, c.y, c.texture, c.grid;
  }
}
