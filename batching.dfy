/**
 * Derivation of the per-bond and per-angle graph-assignment vectors in
 * `EGeoGNNModel.forward`:
 *   bond_batch  = repeat_interleave(arange(num_graphs), num_bonds)
 *   angle_batch = repeat_interleave(arange(num_graphs), num_angles)
 * Graph `g` is repeated `counts[g]` times, in graph order.
 */
module Batching {
  import opened Wrappers

  /** Why `repeat_interleave` refuses its arguments. */
  datatype BatchError =
    | NegativeRepeat        // some count is below zero
    | RepeatsShapeMismatch  // neither one count per graph nor a single broadcast count

  predicate NonNegative(s: seq<int>)
  {
    forall k | 0 <= k < |s| :: s[k] >= 0
  }

  /** Sum of the counts, taken from the back so that it peels like `Interleave`. */
  function Total(counts: seq<int>): int
  {
    if counts == [] then 0 else Total(counts[..|counts| - 1]) + counts[|counts| - 1]
  }

  function Replicate(v: int, k: nat): (r: seq<int>)
    ensures |r| == k
    ensures forall i | 0 <= i < k :: r[i] == v
  {
    seq(k, _ => v)
  }

  /** `torch.arange(n)` */
  function Arange(n: nat): (r: seq<int>)
    ensures |r| == n
    ensures forall i | 0 <= i < n :: r[i] == i
  {
    seq(n, i => i)
  }

  /** Each `values[g]` repeated `counts[g]` times, in order. */
  function Interleave(values: seq<int>, counts: seq<int>): (r: seq<int>)
    requires |values| == |counts| && NonNegative(counts)
    ensures |r| == Total(counts)
  {
    if counts == [] then []
    else
      var n := |counts| - 1;
      Interleave(values[..n], counts[..n]) + Replicate(values[n], counts[n])
  }

  /** The per-element counts actually used: a single count is broadcast to every element. */
  function EffectiveRepeats(n: nat, repeats: seq<int>): seq<int>
  {
    if |repeats| == 1 then Replicate(repeats[0], n) else repeats
  }

  /**
   * `torch.repeat_interleave(values, repeats, dim=0)` on a one-dimensional
   * tensor. The shape of `repeats` is checked first; a single count is then
   * broadcast, and only the counts actually used must be non-negative.
   */
  function RepeatInterleave(values: seq<int>, repeats: seq<int>): (r: Result<seq<int>, BatchError>)
    ensures r == Failure(RepeatsShapeMismatch) <==> |repeats| != 1 && |repeats| != |values|
    ensures r.Success? <==>
      (|repeats| == 1 || |repeats| == |values|) && NonNegative(EffectiveRepeats(|values|, repeats))
    ensures r.Success? ==>
      |EffectiveRepeats(|values|, repeats)| == |values| && |r.value| == Total(EffectiveRepeats(|values|, repeats))
  {
    if |repeats| != 1 && |repeats| != |values| then Failure(RepeatsShapeMismatch)
    else
      var counts := EffectiveRepeats(|values|, repeats);
      if !NonNegative(counts) then Failure(NegativeRepeat)
      else Success(Interleave(values, counts))
  }

  /** The graph-assignment vector of `num_graphs` graphs with the given per-graph counts. */
  function BatchVector(numGraphs: nat, counts: seq<int>): Result<seq<int>, BatchError>
  {
    RepeatInterleave(Arange(numGraphs), counts)
  }

  /** Position `i` lies in the block of graph `g`. */
  predicate InSlot(counts: seq<int>, g: nat, i: int)
    requires g < |counts|
  {
    Total(counts[..g]) <= i < Total(counts[..g + 1])
  }

  lemma {:induction false} TotalMonotone(counts: seq<int>, a: nat, b: nat)
    requires NonNegative(counts) && a <= b <= |counts|
    ensures Total(counts[..a]) <= Total(counts[..b])
  {
    if a < b {
      TotalMonotone(counts, a, b - 1);
      assert counts[..b][..b - 1] == counts[..b - 1];
    }
  }

  /** Every position of the block of `g` holds `values[g]`. */
  lemma {:induction false} InterleaveSlot(values: seq<int>, counts: seq<int>, g: nat, i: int)
    requires |values| == |counts| && NonNegative(counts)
    requires g < |counts| && InSlot(counts, g, i)
    ensures 0 <= i < |Interleave(values, counts)|
    ensures Interleave(values, counts)[i] == values[g]
  {
    var n := |counts| - 1;
    assert counts[..n + 1] == counts;
    assert counts[..n][..g] == counts[..g];
    assert counts[..0] == [];
    TotalMonotone(counts, 0, g);
    TotalMonotone(counts, g + 1, n + 1);
    if g < n {
      assert counts[..n][..g + 1] == counts[..g + 1];
      TotalMonotone(counts, g + 1, n);
      InterleaveSlot(values[..n], counts[..n], g, i);
    } else {
      assert counts[..g] == counts[..n];
      assert counts[..g + 1] == counts;
    }
  }

  /** Every position of the output lies in the block of some graph. */
  lemma {:induction false} SlotExists(counts: seq<int>, i: int) returns (g: nat)
    requires NonNegative(counts) && 0 <= i < Total(counts)
    ensures g < |counts| && InSlot(counts, g, i)
  {
    var n := |counts| - 1;
    assert counts[..n + 1] == counts;
    if i < Total(counts[..n]) {
      g := SlotExists(counts[..n], i);
      assert counts[..n][..g] == counts[..g];
      assert counts[..n][..g + 1] == counts[..g + 1];
    } else {
      g := n;
    }
  }

  /** The blocks of two different graphs do not overlap. */
  lemma SlotUnique(counts: seq<int>, g: nat, h: nat, i: int)
    requires NonNegative(counts) && g < |counts| && h < |counts|
    requires InSlot(counts, g, i) && InSlot(counts, h, i)
    ensures g == h
  {
    if g < h {
      TotalMonotone(counts, g + 1, h);
    } else if h < g {
      TotalMonotone(counts, h + 1, g);
    }
  }

  /**
   * Contiguity: graph `g` occupies exactly the positions of its block, and
   * every graph id lies in `[0, num_graphs)`.
   */
  lemma BatchVectorBlocks(numGraphs: nat, counts: seq<int>, i: int, g: nat)
    requires BatchVector(numGraphs, counts).Success?
    requires g < numGraphs && 0 <= i < |BatchVector(numGraphs, counts).value|
    ensures 0 <= BatchVector(numGraphs, counts).value[i] < numGraphs
    ensures BatchVector(numGraphs, counts).value[i] == g <==> InSlot(EffectiveRepeats(numGraphs, counts), g, i)
  {
    var c := EffectiveRepeats(numGraphs, counts);
    var r := BatchVector(numGraphs, counts).value;
    assert r == Interleave(Arange(numGraphs), c);
    var h := SlotExists(c, i);
    InterleaveSlot(Arange(numGraphs), c, h, i);
    if InSlot(c, g, i) {
      SlotUnique(c, g, h, i);
    }
  }

  /** The assignment vector is sorted by graph id. */
  lemma BatchVectorNonDecreasing(numGraphs: nat, counts: seq<int>, i: int, j: int)
    requires BatchVector(numGraphs, counts).Success?
    requires 0 <= i <= j < |BatchVector(numGraphs, counts).value|
    ensures BatchVector(numGraphs, counts).value[i] <= BatchVector(numGraphs, counts).value[j]
  {
    var c := EffectiveRepeats(numGraphs, counts);
    var r := BatchVector(numGraphs, counts).value;
    assert r == Interleave(Arange(numGraphs), c);
    var gi := SlotExists(c, i);
    var gj := SlotExists(c, j);
    InterleaveSlot(Arange(numGraphs), c, gi, i);
    InterleaveSlot(Arange(numGraphs), c, gj, j);
    if gj < gi {
      TotalMonotone(c, gj + 1, gi);
    }
  }

  lemma {:induction false} InterleaveArangeCount(counts: seq<int>, g: int)
    requires NonNegative(counts)
    ensures multiset(Interleave(Arange(|counts|), counts))[g] == if 0 <= g < |counts| then counts[g] else 0
  {
    if counts != [] {
      var n := |counts| - 1;
      var prefix := Interleave(Arange(n), counts[..n]);
      var block := Replicate(n, counts[n]);
      assert Arange(n + 1)[..n] == Arange(n);
      assert Interleave(Arange(n + 1), counts) == prefix + block;
      InterleaveArangeCount(counts[..n], g);
      if g != n {
        assert g !in multiset(block);
      }
      assert block == seq(counts[n], _ => n);
      if g == n {
        MultisetOfConstant(n, counts[n]);
      }
    }
  }

  lemma {:induction false} MultisetOfConstant(v: int, k: nat)
    ensures multiset(Replicate(v, k))[v] == k
  {
    if k > 0 {
      assert Replicate(v, k) == Replicate(v, k - 1) + [v];
      MultisetOfConstant(v, k - 1);
    }
  }

  /** Graph `g` occurs exactly as many times as its (effective) count. */
  lemma BatchVectorCounts(numGraphs: nat, counts: seq<int>, g: int)
    requires BatchVector(numGraphs, counts).Success?
    ensures multiset(BatchVector(numGraphs, counts).value)[g] ==
      if 0 <= g < numGraphs then EffectiveRepeats(numGraphs, counts)[g] else 0
  {
    var c := EffectiveRepeats(numGraphs, counts);
    assert BatchVector(numGraphs, counts).value == Interleave(Arange(|c|), c);
    InterleaveArangeCount(c, g);
  }
}
