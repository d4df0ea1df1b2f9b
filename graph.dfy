/**
 * Edge-index tables of the three graph levels. A 2 x E `edge_index` tensor is
 * modelled as a sequence of E columns, each an `Edge(src, dst)`:
 *   AtomBondGraph_edges:      bond b joins atoms (src, dst)
 *   BondAngleGraph_edges:     angle a joins bonds (src, dst)
 *   AngleDihedralGraph_edges: dihedral d joins angles (src, dst)
 */
module Graph {

  datatype Edge = Edge(src: int, dst: int)

  /** Row 0 of an edge table (`edges[0]`). */
  function Srcs(es: seq<Edge>): (r: seq<int>)
    ensures |r| == |es|
    ensures forall k | 0 <= k < |es| :: r[k] == es[k].src
  {
    seq(|es|, k requires 0 <= k < |es| => es[k].src)
  }

  /** Row 1 of an edge table (`edges[1]`). */
  function Dsts(es: seq<Edge>): (r: seq<int>)
    ensures |r| == |es|
    ensures forall k | 0 <= k < |es| :: r[k] == es[k].dst
  {
    seq(|es|, k requires 0 <= k < |es| => es[k].dst)
  }
}
