/** The index buffer of the globe mesh (star3map.cpp, Initialize): a grid of
    (Slices + 1) x (Wedges + 1) vertices, row pitch Wedges + 1, and two
    triangles per grid cell. */
module SphereMesh {
  const Wedges: nat := 36
  const Slices: nat := 18
  const Pitch: nat := Wedges + 1
  /** Number of vertices pushed by the vertex loop (j and i both inclusive). */
  const VertexCount: nat := (Slices + 1) * Pitch
  /** Indices are stored as `ushort`. */
  const UShortLimit: nat := 0x1_0000

  /** The six indices of cell (j, i): the lower-right then the upper-left
      triangle. */
  function CellIndices(j: nat, i: nat): seq<int>
  {
    [j * Pitch + i, j * Pitch + (i + 1), (j + 1) * Pitch + (i + 1),
     j * Pitch + i, (j + 1) * Pitch + (i + 1), (j + 1) * Pitch + i]
  }

  /** The index buffer after the first `q` cells in row-major order. */
  function IndicesUpTo(q: nat): (r: seq<int>)
    ensures |r| == 6 * q
  {
    if q == 0 then [] else IndicesUpTo(q - 1) + CellIndices((q - 1) / Wedges, (q - 1) % Wedges)
  }

  /** The nested loop filling `index`. */
  method BuildSphereIndices() returns (index: seq<int>)
    ensures index == IndicesUpTo(Slices * Wedges)
    ensures |index| == 6 * Slices * Wedges
    ensures forall k :: 0 <= k < |index| ==> 0 <= index[k] < VertexCount
    ensures forall k :: 0 <= k < |index| ==> index[k] < UShortLimit
  {
    index := [];
    var pitch := Wedges + 1;
    for j := 0 to Slices
      invariant index == IndicesUpTo(j * Wedges)
    {
      for i := 0 to Wedges
        invariant index == IndicesUpTo(j * Wedges + i)
      {
        ghost var before := index;
        index := index + [(j + 0) * pitch + (i + 0)];
        index := index + [(j + 0) * pitch + (i + 1)];
        index := index + [(j + 1) * pitch + (i + 1)];
        index := index + [(j + 0) * pitch + (i + 0)];
        index := index + [(j + 1) * pitch + (i + 1)];
        index := index + [(j + 1) * pitch + (i + 0)];
        assert index == before + CellIndices(j, i);
        NextCell(j, i);
      }
      WholeRow(j);
    }
    IndicesInRange(Slices * Wedges);
  }

  /** Cell (j, i) is the next one after the first j * Wedges + i cells. */
  lemma NextCell(j: nat, i: nat)
    requires i < Wedges
    ensures IndicesUpTo(j * Wedges + i + 1) == IndicesUpTo(j * Wedges + i) + CellIndices(j, i)
  {
    var q := j * Wedges + i;
    assert q / Wedges == j && q % Wedges == i;
  }

  lemma WholeRow(j: nat)
    ensures j * Wedges + Wedges == (j + 1) * Wedges
  {
  }

  /** Every index of the first `q` cells names a vertex of the grid, as long
      as those cells lie within the Slices rows. */
  lemma {:induction false} IndicesInRange(q: nat)
    requires q <= Slices * Wedges
    ensures forall k :: 0 <= k < |IndicesUpTo(q)| ==> 0 <= IndicesUpTo(q)[k] < VertexCount
  {
    if q > 0 {
      IndicesInRange(q - 1);
      var c := q - 1;
      var j, i := c / Wedges, c % Wedges;
      assert j < Slices && i < Wedges;
      CellInRange(j, i);
      var prefix, cell := IndicesUpTo(q - 1), CellIndices(j, i);
      assert IndicesUpTo(q) == prefix + cell;
      forall k | 0 <= k < |prefix + cell|
        ensures 0 <= (prefix + cell)[k] < VertexCount
      {
        if k >= |prefix| {
          assert (prefix + cell)[k] == cell[k - |prefix|];
        }
      }
    }
  }

  /** The corners of a cell inside the grid are vertices of the grid. */
  lemma CellInRange(j: nat, i: nat)
    requires j < Slices && i < Wedges
    ensures forall k :: 0 <= k < |CellIndices(j, i)| ==> 0 <= CellIndices(j, i)[k] < VertexCount
  {
    assert (j + 1) * Pitch + (i + 1) <= Slices * Pitch + Wedges;
  }

  /** Both triangles of a cell are proper (three distinct corners) and share
      the cell's diagonal. */
  lemma CellTrianglesProper(j: nat, i: nat)
    ensures var t := CellIndices(j, i);
      t[0] != t[1] && t[1] != t[2] && t[0] != t[2] &&
      t[3] != t[4] && t[4] != t[5] && t[3] != t[5] &&
      t[0] == t[3] && t[2] == t[4]
  {
  }
}
