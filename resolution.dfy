/**
 * Backward index resolution of the `EGEM._get_*_loss` helpers: a masked bond,
 * angle or dihedral is traced through the edge tables down to the atoms
 * whose representations are concatenated for the prediction head.
 *
 *   bond b        -> (src b, dst b)
 *   angle (b1,b2) -> (src b1, dst b1, dst b2)
 *   dihedral (a1,a2), a1 = (b1,_), a2 = (_,b3)
 *                 -> (src b1, dst b1, src b3, dst b3)
 *
 * `index_select` raises on a negative index or one past the end; here that
 * is `None`.
 */
module Resolution {
  import opened Wrappers
  import opened Graph

  /** `table.index_select(1, idx)`: the selected columns of an edge table. */
  function SelectEdges(table: seq<Edge>, idx: seq<int>): (r: Option<seq<Edge>>)
    ensures r.Some? <==> forall k | 0 <= k < |idx| :: 0 <= idx[k] < |table|
    ensures r.Some? ==> |r.value| == |idx| && forall k | 0 <= k < |idx| :: r.value[k] == table[idx[k]]
  {
    if forall k | 0 <= k < |idx| :: 0 <= idx[k] < |table| then
      Some(seq(|idx|, k requires 0 <= k < |idx| => table[idx[k]]))
    else
      None
  }

  /** `atom_attr.index_select(0, atoms)` accepts every atom of every tuple. */
  predicate AtomsInRange(tuples: seq<seq<int>>, numAtoms: int)
  {
    forall k, c | 0 <= k < |tuples| && 0 <= c < |tuples[k]| :: 0 <= tuples[k][c] < numAtoms
  }

  /** Bond `b` can be traced to its atoms. */
  predicate BondResolvable(ab: seq<Edge>, b: int)
  {
    0 <= b < |ab|
  }

  /** Angle `a` can be traced through both of its bonds. */
  predicate AngleResolvable(ab: seq<Edge>, ba: seq<Edge>, a: int)
  {
    0 <= a < |ba| && 0 <= ba[a].src < |ab| && 0 <= ba[a].dst < |ab|
  }

  /** Dihedral `d` can be traced through both of its angles to the outer bonds. */
  predicate DihedralResolvable(ab: seq<Edge>, ba: seq<Edge>, ad: seq<Edge>, d: int)
  {
    0 <= d < |ad| &&
    0 <= ad[d].src < |ba| && 0 <= ad[d].dst < |ba| &&
    0 <= ba[ad[d].src].src < |ab| && 0 <= ba[ad[d].dst].dst < |ab|
  }

  /** The atom pairs of `_get_Blr_loss` and `_get_wiberg_loss`. */
  function BondAtoms(ab: seq<Edge>, bonds: seq<int>): (r: Option<seq<seq<int>>>)
    ensures r.Some? <==> forall k | 0 <= k < |bonds| :: BondResolvable(ab, bonds[k])
    ensures r.Some? ==> |r.value| == |bonds|
    ensures r.Some? ==> forall k | 0 <= k < |bonds| :: r.value[k] == [ab[bonds[k]].src, ab[bonds[k]].dst]
  {
    var pairs :- SelectEdges(ab, bonds);
    Some(seq(|bonds|, k requires 0 <= k < |bonds| => [pairs[k].src, pairs[k].dst]))
  }

  /** The atom triples of `_get_Bar_loss`. */
  function AngleAtoms(ab: seq<Edge>, ba: seq<Edge>, angles: seq<int>): (r: Option<seq<seq<int>>>)
    ensures r.Some? <==> forall k | 0 <= k < |angles| :: AngleResolvable(ab, ba, angles[k])
    ensures r.Some? ==> |r.value| == |angles|
    ensures r.Some? ==> forall k | 0 <= k < |angles| ::
        r.value[k] == [ab[ba[angles[k]].src].src, ab[ba[angles[k]].src].dst, ab[ba[angles[k]].dst].dst]
  {
    var bondPairs :- SelectEdges(ba, angles);
    var first :- SelectEdges(ab, Srcs(bondPairs));
    var second :- SelectEdges(ab, Dsts(bondPairs));
    Some(seq(|angles|, k requires 0 <= k < |angles| => [first[k].src, first[k].dst, second[k].dst]))
  }

  /** The atom quadruples of `_get_Dar_loss`. */
  function DihedralAtoms(ab: seq<Edge>, ba: seq<Edge>, ad: seq<Edge>, dihedrals: seq<int>): (r: Option<seq<seq<int>>>)
    ensures r.Some? <==> forall k | 0 <= k < |dihedrals| :: DihedralResolvable(ab, ba, ad, dihedrals[k])
    ensures r.Some? ==> |r.value| == |dihedrals|
    ensures r.Some? ==> forall k | 0 <= k < |dihedrals| ::
        var first := ab[ba[ad[dihedrals[k]].src].src];
        var last := ab[ba[ad[dihedrals[k]].dst].dst];
        r.value[k] == [first.src, first.dst, last.src, last.dst]
  {
    var anglePairs :- SelectEdges(ad, dihedrals);
    var firstAngles :- SelectEdges(ba, Srcs(anglePairs));
    var secondAngles :- SelectEdges(ba, Dsts(anglePairs));
    var firstBonds :- SelectEdges(ab, Srcs(firstAngles));
    var lastBonds :- SelectEdges(ab, Dsts(secondAngles));
    Some(seq(|dihedrals|, k requires 0 <= k < |dihedrals| =>
      [firstBonds[k].src, firstBonds[k].dst, lastBonds[k].src, lastBonds[k].dst]))
  }

  /** `values[idx]` with tensor indexing: `k` in `[-n, 0)` reads entry `n + k`. */
  function Gather(values: seq<real>, idx: seq<int>): (r: Option<seq<real>>)
    ensures r.Some? <==> forall k | 0 <= k < |idx| :: -|values| <= idx[k] < |values|
    ensures r.Some? ==> |r.value| == |idx|
    ensures r.Some? ==> forall k | 0 <= k < |idx| :: r.value[k] == values[if idx[k] < 0 then idx[k] + |values| else idx[k]]
  {
    if forall k | 0 <= k < |idx| :: -|values| <= idx[k] < |values| then
      Some(seq(|idx|, k requires 0 <= k < |idx| => values[if idx[k] < 0 then idx[k] + |values| else idx[k]]))
    else
      None
  }

  /**
   * When the two bonds of angle `a` meet head to tail, the Bar triple walks
   * along them: atoms 0-1 are the first bond and atoms 1-2 the second.
   */
  lemma AngleTupleIsPath(ab: seq<Edge>, ba: seq<Edge>, angles: seq<int>, k: int)
    requires AngleAtoms(ab, ba, angles).Some? && 0 <= k < |angles|
    requires ab[ba[angles[k]].src].dst == ab[ba[angles[k]].dst].src
    ensures var t := AngleAtoms(ab, ba, angles).value[k];
      Edge(t[0], t[1]) == ab[ba[angles[k]].src] && Edge(t[1], t[2]) == ab[ba[angles[k]].dst]
  {
    assert AngleResolvable(ab, ba, angles[k]);
  }

  /**
   * When the two angles of dihedral `d` share their middle bond and the
   * bonds meet head to tail, the Dar quadruple walks the whole chain: atoms
   * 0-1, 1-2 and 2-3 are its three bonds, the middle one not being read.
   */
  lemma DihedralTupleIsPath(ab: seq<Edge>, ba: seq<Edge>, ad: seq<Edge>, dihedrals: seq<int>, k: int)
    requires DihedralAtoms(ab, ba, ad, dihedrals).Some? && 0 <= k < |dihedrals|
    requires var d := ad[dihedrals[k]];
      ba[d.src].dst == ba[d.dst].src && 0 <= ba[d.src].dst < |ab| &&
      ab[ba[d.src].src].dst == ab[ba[d.src].dst].src && ab[ba[d.dst].src].dst == ab[ba[d.dst].dst].src
    ensures var t := AngleChain(ab, ba, ad, dihedrals[k]);
      DihedralAtoms(ab, ba, ad, dihedrals).value[k] == [t.0.src, t.0.dst, t.2.src, t.2.dst] &&
      t.0.dst == t.1.src && t.1.dst == t.2.src
  {
    assert DihedralResolvable(ab, ba, ad, dihedrals[k]);
  }

  /** The three bonds a dihedral's angles run through: first, middle (shared) and last. */
  function AngleChain(ab: seq<Edge>, ba: seq<Edge>, ad: seq<Edge>, d: int): (Edge, Edge, Edge)
    requires DihedralResolvable(ab, ba, ad, d) && 0 <= ba[ad[d].src].dst < |ab|
  {
    (ab[ba[ad[d].src].src], ab[ba[ad[d].src].dst], ab[ba[ad[d].dst].dst])
  }
}
