/** Where the shim puts things: the sparse encoding of one dense row, the slot
    of entry `j` of row `i` in a problem's node block, and the index that the
    row-major feature buffer is read at. */
module Layout {
  import opened Libsvm

  /** Offset of node `j` of row `i` in a block of rows `nbDim + 1` nodes wide. */
  function Slot(i: int, j: int, nbDim: int): int
  {
    i * (nbDim + 1) + j
  }

  /** Index of feature `j` of sample `i` in a row-major buffer of `nbDim` columns. */
  function Cell(i: int, j: int, nbDim: int): int
  {
    i * nbDim + j
  }

  /** The entries of the sparse form of a dense row: feature `k` at index `k + 1`. */
  function Sparse(v: seq<real>): seq<SvmNode>
  {
    seq(|v|, k requires 0 <= k < |v| => SvmNode(k + 1, v[k]))
  }

  /** `nodes` is the sparse form of `v` followed by a terminator. The
      terminator's value is whatever the memory held. */
  ghost predicate EncodesRow(nodes: seq<SvmNode>, v: seq<real>)
  {
    && |nodes| == |v| + 1
    && (forall k :: 0 <= k < |v| ==> nodes[k] == SvmNode(k + 1, v[k]))
    && nodes[|v|].index == Terminator
  }

  /** No entry of a sparse row is a terminator, and the indices are 1-based and
      strictly ascending, as libsvm requires of its input. */
  lemma SparseIndices(v: seq<real>)
    ensures forall k :: 0 <= k < |v| ==> Sparse(v)[k].index == k + 1 != Terminator
    ensures forall a, b :: 0 <= a < b < |v| ==> Sparse(v)[a].index < Sparse(v)[b].index
  {
  }

  /** A reader that stops at the first terminator stops exactly at position `n`
      when that is the first terminator. */
  lemma {:induction false} UntilFirstTerminator(nodes: seq<SvmNode>, n: nat)
    requires n < |nodes| && nodes[n].index == Terminator
    requires forall k :: 0 <= k < n ==> nodes[k].index != Terminator
    ensures UntilTerminator(nodes) == nodes[..n]
  {
    if n > 0 {
      UntilFirstTerminator(nodes[1..], n - 1);
      assert nodes[..n] == [nodes[0]] + nodes[1..][..n - 1];
    }
  }

  /** Round trip: reading an encoded row back up to its terminator yields
      exactly the sparse form of the dense row, whatever the terminator's value. */
  lemma ReadBack(nodes: seq<SvmNode>, v: seq<real>)
    requires EncodesRow(nodes, v)
    ensures UntilTerminator(nodes) == Sparse(v)
  {
    UntilFirstTerminator(nodes, |v|);
    assert nodes[..|v|] == Sparse(v);
  }

  lemma MulMonotone(a: int, b: int, c: int)
    requires a <= b && 0 <= c
    ensures a * c <= b * c
  {
  }

  /** Every node of every row lies inside the block of `nbFeat * (nbDim + 1)` nodes. */
  lemma SlotInBlock(i: int, j: int, nbFeat: int, nbDim: int)
    requires 0 <= i < nbFeat && 0 <= j <= nbDim
    ensures 0 <= Slot(i, j, nbDim) < nbFeat * (nbDim + 1)
  {
    MulMonotone(0, i, nbDim + 1);
    MulMonotone(i + 1, nbFeat, nbDim + 1);
  }

  /** Every feature read lies inside the row-major buffer of `nbFeat * nbDim` values. */
  lemma CellInData(i: int, j: int, nbFeat: int, nbDim: int)
    requires 0 <= i < nbFeat && 0 <= j < nbDim
    ensures 0 <= Cell(i, j, nbDim) < nbFeat * nbDim
  {
    MulMonotone(0, i, nbDim);
    MulMonotone(i + 1, nbFeat, nbDim);
  }

  /** Rows do not overlap: distinct (row, column) pairs, the terminator column
      included, have distinct slots, and a lower row lies wholly before a higher one. */
  lemma SlotInjective(i1: int, j1: int, i2: int, j2: int, nbDim: int)
    requires 0 <= i1 < i2 && 0 <= j1 <= nbDim && 0 <= j2 <= nbDim
    ensures Slot(i1, j1, nbDim) < Slot(i2, 0, nbDim) <= Slot(i2, j2, nbDim)
  {
    MulMonotone(i1 + 1, i2, nbDim + 1);
  }

  /** The slot of (i, j) differs from every other slot of the block. */
  lemma SlotApart(i: int, j: int, nbDim: int)
    requires 0 <= i && 0 <= j <= nbDim
    ensures forall i2, j2 :: 0 <= i2 && 0 <= j2 <= nbDim && (i2 != i || j2 != j) ==>
      Slot(i2, j2, nbDim) != Slot(i, j, nbDim)
  {
    forall i2, j2 | 0 <= i2 && 0 <= j2 <= nbDim && (i2 != i || j2 != j)
      ensures Slot(i2, j2, nbDim) != Slot(i, j, nbDim)
    {
      if i2 < i {
        SlotInjective(i2, j2, i, j, nbDim);
      } else if i < i2 {
        SlotInjective(i, j, i2, j2, nbDim);
      }
    }
  }

  /** The rows tile the block in order: row `i + 1` starts right after row `i`'s
      terminator, the first row at 0, and the last ends at the block's end. */
  lemma RowsTileBlock(nbFeat: nat, nbDim: nat)
    ensures Slot(0, 0, nbDim) == 0
    ensures forall i :: 0 <= i < nbFeat ==> Slot(i + 1, 0, nbDim) == Slot(i, nbDim, nbDim) + 1
    ensures Slot(nbFeat, 0, nbDim) == nbFeat * (nbDim + 1)
  {
  }
}
