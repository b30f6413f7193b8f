/**
 * The dense latency tables and the in-place write that every branch of the
 * wildcard merge performs.
 *
 * Each branch of the audio and video merges fixes some axes to one index and
 * runs a nested `for` loop over the others, so the cells it visits form a box:
 * a product of three half-open index ranges. FillBox visits a box in the
 * same lexicographic order as those loops, warns about every visited cell
 * that already held a latency, and stores the new value.
 */
module LatencyTables {
  import opened LipTypes

  /** One cell of a three-dimensional latency table. */
  datatype Cell = Cell(x: nat, y: nat, z: nat)

  /** The cells [x0, x1) × [y0, y1) × [z0, z1). */
  datatype Box = Box(x0: nat, x1: nat, y0: nat, y1: nat, z0: nat, z1: nat) {
    predicate Contains(x: int, y: int, z: int) {
      x0 <= x < x1 && y0 <= y < y1 && z0 <= z < z1
    }

    /** The box is non-degenerate and lies inside the table. */
    predicate Within(a: array3<byte>) {
      x0 <= x1 <= a.Length0 && y0 <= y1 <= a.Length1 && z0 <= z1 <= a.Length2
    }
  }

  function Single(x: nat, y: nat, z: nat): Box {
    Box(x, x + 1, y, y + 1, z, z + 1)
  }

  /** Innermost loop: the cells (x, y, z) for z in [z0, z1). */
  method FillRow(a: array3<byte>, x: nat, y: nat, z0: nat, z1: nat, v: byte) returns (ghost warned: set<Cell>)
    requires x < a.Length0 && y < a.Length1 && z0 <= z1 <= a.Length2
    modifies a
    ensures forall i, j, k | 0 <= i < a.Length0 && 0 <= j < a.Length1 && 0 <= k < a.Length2 ::
              a[i, j, k] == if i == x && j == y && z0 <= k < z1 then v else old(a[i, j, k])
    ensures forall c: Cell :: c in warned <==>
              c.x == x && c.y == y && z0 <= c.z < z1 && old(a[c.x, c.y, c.z]) != LIP_INVALID_LATENCY
  {
    warned := {};
    var k := z0;
    while k < z1
      invariant z0 <= k <= z1
      invariant forall i, j, l | 0 <= i < a.Length0 && 0 <= j < a.Length1 && 0 <= l < a.Length2 ::
                  a[i, j, l] == if i == x && j == y && z0 <= l < k then v else old(a[i, j, l])
      invariant forall c: Cell :: c in warned <==>
                  c.x == x && c.y == y && z0 <= c.z < k && old(a[c.x, c.y, c.z]) != LIP_INVALID_LATENCY
    {
      if a[x, y, k] != LIP_INVALID_LATENCY {
        warned := warned + {Cell(x, y, k)};
      }
      a[x, y, k] := v;
      k := k + 1;
    }
  }

  /** Middle loop: the cells (x, y, z) for y in [y0, y1) and z in [z0, z1). */
  method FillPlane(a: array3<byte>, x: nat, y0: nat, y1: nat, z0: nat, z1: nat, v: byte) returns (ghost warned: set<Cell>)
    requires x < a.Length0 && y0 <= y1 <= a.Length1 && z0 <= z1 <= a.Length2
    modifies a
    ensures forall i, j, k | 0 <= i < a.Length0 && 0 <= j < a.Length1 && 0 <= k < a.Length2 ::
              a[i, j, k] == if i == x && y0 <= j < y1 && z0 <= k < z1 then v else old(a[i, j, k])
    ensures forall c: Cell :: c in warned <==>
              c.x == x && y0 <= c.y < y1 && z0 <= c.z < z1 && old(a[c.x, c.y, c.z]) != LIP_INVALID_LATENCY
  {
    warned := {};
    var j := y0;
    while j < y1
      invariant y0 <= j <= y1
      invariant forall i, m, k | 0 <= i < a.Length0 && 0 <= m < a.Length1 && 0 <= k < a.Length2 ::
                  a[i, m, k] == if i == x && y0 <= m < j && z0 <= k < z1 then v else old(a[i, m, k])
      invariant forall c: Cell :: c in warned <==>
                  c.x == x && y0 <= c.y < j && z0 <= c.z < z1 && old(a[c.x, c.y, c.z]) != LIP_INVALID_LATENCY
    {
      ghost var row := FillRow(a, x, j, z0, z1, v);
      warned := warned + row;
      j := j + 1;
    }
  }

  /** Outer loop: every cell of `b`, in lexicographic order. Afterwards the
      cells of `b` hold `v`, every other cell is unchanged, and the warnings
      name exactly the cells of `b` that held a latency before. */
  method FillBox(a: array3<byte>, b: Box, v: byte) returns (ghost warned: set<Cell>)
    requires b.Within(a)
    modifies a
    ensures forall i, j, k | 0 <= i < a.Length0 && 0 <= j < a.Length1 && 0 <= k < a.Length2 ::
              a[i, j, k] == if b.Contains(i, j, k) then v else old(a[i, j, k])
    ensures forall c: Cell :: c in warned <==>
              b.Contains(c.x, c.y, c.z) && old(a[c.x, c.y, c.z]) != LIP_INVALID_LATENCY
  {
    warned := {};
    var i := b.x0;
    while i < b.x1
      invariant b.x0 <= i <= b.x1
      invariant forall m, j, k | 0 <= m < a.Length0 && 0 <= j < a.Length1 && 0 <= k < a.Length2 ::
                  a[m, j, k] == if b.Contains(m, j, k) && m < i then v else old(a[m, j, k])
      invariant forall c: Cell :: c in warned <==>
                  b.Contains(c.x, c.y, c.z) && c.x < i && old(a[c.x, c.y, c.z]) != LIP_INVALID_LATENCY
    {
      ghost var plane := FillPlane(a, i, b.y0, b.y1, b.z0, b.z1, v);
      warned := warned + plane;
      i := i + 1;
    }
  }
}
