/** The initial `mapObjects` list: one corner mark, then a grid of marks
    every 50 units. */
module MapObjects {
  import opened Config

  datatype Kind = CornerMark | Gridmark

  datatype MapObject = MapObject(kind: Kind, x: int, y: int)

  const GRID_COLUMNS: int := 25
  const GRID_ROWS: int := 20
  const GRID_SPACING: int := 50
  /** Marks are drawn this far up and left of their grid point. */
  const GRIDMARK_OFFSET: int := 2
  /** The corner mark sits this far in from the bottom-right of the first screen. */
  const CORNER_MARK_INSET: int := 6

  /** Where the inner loop pushes the mark of column `i`, row `j`. */
  function GridIndex(i: int, j: int): int
  {
    1 + i * GRID_ROWS + j
  }

  function GridmarkAt(i: int, j: int): MapObject
  {
    MapObject(Gridmark, i * GRID_SPACING - GRIDMARK_OFFSET, j * GRID_SPACING - GRIDMARK_OFFSET)
  }

  /** Every entry after the corner mark belongs to exactly one grid cell, so
      the grid positions below describe the whole list. */
  function GridCell(k: int): (c: (int, int))
    requires 1 <= k <= GRID_COLUMNS * GRID_ROWS
    ensures 0 <= c.0 < GRID_COLUMNS && 0 <= c.1 < GRID_ROWS
    ensures GridIndex(c.0, c.1) == k
    ensures forall i, j :: 0 <= i < GRID_COLUMNS && 0 <= j < GRID_ROWS && GridIndex(i, j) == k ==> (i, j) == c
  {
    ((k - 1) / GRID_ROWS, (k - 1) % GRID_ROWS)
  }

  /** The module-level construction: the corner mark, then the nested
      column/row loops pushing one grid mark each. */
  method BuildMapObjects() returns (objects: seq<MapObject>)
    ensures |objects| == 1 + GRID_COLUMNS * GRID_ROWS
    ensures objects[0] == MapObject(CornerMark, WIDTH - CORNER_MARK_INSET, HEIGHT - CORNER_MARK_INSET)
    ensures forall k :: 1 <= k < |objects| ==> objects[k].kind == Gridmark
    ensures forall i, j :: 0 <= i < GRID_COLUMNS && 0 <= j < GRID_ROWS ==>
      objects[GridIndex(i, j)] == GridmarkAt(i, j)
  {
    objects := [MapObject(CornerMark, WIDTH - CORNER_MARK_INSET, HEIGHT - CORNER_MARK_INSET)];
    var i := 0;
    while i < GRID_COLUMNS
      invariant 0 <= i <= GRID_COLUMNS
      invariant |objects| == GridIndex(i, 0)
      invariant objects[0] == MapObject(CornerMark, WIDTH - CORNER_MARK_INSET, HEIGHT - CORNER_MARK_INSET)
      invariant forall k :: 1 <= k < |objects| ==> objects[k].kind == Gridmark
      invariant forall i', j :: 0 <= i' < i && 0 <= j < GRID_ROWS ==> objects[GridIndex(i', j)] == GridmarkAt(i', j)
    {
      var j := 0;
      while j < GRID_ROWS
        invariant 0 <= j <= GRID_ROWS
        invariant |objects| == GridIndex(i, j)
        invariant objects[0] == MapObject(CornerMark, WIDTH - CORNER_MARK_INSET, HEIGHT - CORNER_MARK_INSET)
        invariant forall k :: 1 <= k < |objects| ==> objects[k].kind == Gridmark
        invariant forall i', j' :: 0 <= i' < i && 0 <= j' < GRID_ROWS ==> objects[GridIndex(i', j')] == GridmarkAt(i', j')
        invariant forall j' :: 0 <= j' < j ==> objects[GridIndex(i, j')] == GridmarkAt(i, j')
      {
        objects := objects + [MapObject(Gridmark, i * 50 - 2, j * 50 - 2)];
        j := j + 1;
      }
      i := i + 1;
    }
  }
}
