/**
 * The entry-point search in `Taxi.__init__` (taxi.py:88-98): a taxi with no
 * preferred start looks for the first map node on the left edge column of
 * the world, top to bottom, then on the right edge column, and raises
 * `ValueError` if there is none.
 */
module EntryPoints {
  import opened Common
  import opened RoadMaps

  /** The rows the scan visits in each column: `0 .. ySize - 1`, and row 0 even in a world with no rows. */
  function Height(ySize: int): (h: nat)
    ensures h >= 1 && h >= ySize
  {
    if ySize > 1 then ySize else 1
  }

  /** The scan as written (taxi.py:91-95): one step of the `while` body. */
  function StepAsWritten(pos: Coord, xSize: int, ySize: int): Coord {
    var y := pos.1 + 1;
    if y >= ySize then (pos.0 + xSize - 1, 0) else (pos.0, y)
  }

  /** The loop guard: no map node here, and still inside the world's width. */
  predicate Searching(m: RoadMap, pos: Coord, xSize: int) {
    pos !in m && pos.0 < xSize
  }

  /** The position after `n` steps of the scan as written, starting at `(0, 0)`. */
  function AfterAsWritten(n: nat, xSize: int, ySize: int): Coord
    decreases n
  {
    if n == 0 then (0, 0) else StepAsWritten(AfterAsWritten(n - 1, xSize, ySize), xSize, ySize)
  }

  /**
   * In a world one column wide, the step `x += xSize - 1` adds nothing: when
   * column 0 has no map node the scan goes round that column for ever
   * instead of raising `ValueError`. For instance `xSize == 1`, `ySize == 1`
   * and an empty map.
   */
  lemma {:induction false} AsWrittenSpinsOnNarrowWorld(m: RoadMap, ySize: int, n: nat)
    requires forall y :: 0 <= y < Height(ySize) ==> (0, y) !in m
    ensures AfterAsWritten(n, 1, ySize).0 == 0 && 0 <= AfterAsWritten(n, 1, ySize).1 < Height(ySize)
    ensures Searching(m, AfterAsWritten(n, 1, ySize), 1)
    decreases n
  {
    if n > 0 {
      AsWrittenSpinsOnNarrowWorld(m, ySize, n - 1);
    }
  }

  /** A column the scan covers: the left edge, and the right edge of a world at least two wide. */
  predicate EdgeColumn(x: int, xSize: int) {
    0 <= x < xSize && (x == 0 || x == xSize - 1)
  }

  /** `a` comes before `b` in scan order: by column, then by row. */
  predicate ScannedBefore(a: Coord, b: Coord) {
    a.0 < b.0 || (a.0 == b.0 && a.1 < b.1)
  }

  /**
   * The search with the column step `x += max(1, xSize - 1)`, which is
   * `xSize - 1` in every world at least two wide. It finds the first map
   * node on an edge column in scan order, or reports that there is none (the
   * `ValueError`).
   */
  method EntryPoint(m: RoadMap, xSize: int, ySize: int) returns (r: Option<Coord>)
    ensures r.Some? ==> r.value in m && EdgeColumn(r.value.0, xSize) && 0 <= r.value.1 < Height(ySize)
    ensures r.Some? ==> forall x, y :: EdgeColumn(x, xSize) && 0 <= y < Height(ySize) && ScannedBefore((x, y), r.value) ==> (x, y) !in m
    ensures r.None? <==> forall x, y :: EdgeColumn(x, xSize) && 0 <= y < Height(ySize) ==> (x, y) !in m
  {
    var step := if xSize - 1 > 1 then xSize - 1 else 1;
    var x, y := 0, 0;
    while (x, y) !in m && x < xSize
      invariant x == 0 || x == xSize - 1 || x >= xSize
      invariant x >= 0 && 0 <= y < Height(ySize)
      invariant x >= xSize ==> y == 0
      invariant forall x', y' :: EdgeColumn(x', xSize) && 0 <= y' < Height(ySize) && ScannedBefore((x', y'), (x, y)) ==> (x', y') !in m
      decreases if x < xSize then xSize - x else 0, Height(ySize) - y
    {
      y := y + 1;
      if y >= ySize {
        y := 0;
        x := x + step;
      }
    }
    if x >= xSize {
      return None;
    }
    r := Some((x, y));
  }
}
