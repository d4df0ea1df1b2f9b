/**
 * What `EGeoGNNModel.mask_attr` computes, stated on values. A categorical
 * feature matrix is a sequence of rows; a geometry array is a sequence of
 * reals. Masked rows of a categorical matrix take the reserved last slot of
 * every column's vocabulary (`vocab[c] - 1`); masked scalars become 0.
 * Index lists follow tensor indexing: an index `k` in `[-n, 0)` stands for
 * row `n + k`; `None` masks nothing.
 */
module Masking {
  import opened Wrappers

  /** Row `i` of an `n`-row tensor is selected by the index list. */
  predicate Hits(idx: Option<seq<int>>, n: int, i: int)
  {
    idx.Some? && (i in idx.value || i - n in idx.value)
  }

  /** Extending an index list by one index adds exactly the row (or rows) that index names. */
  lemma HitsExtend(idx: seq<int>, k: nat, n: int)
    requires k < |idx|
    ensures forall i :: Hits(Some(idx[..k + 1]), n, i) <==> Hits(Some(idx[..k]), n, i) || i == idx[k] || i - n == idx[k]
  {
    var before, after := idx[..k], idx[..k + 1];
    assert after == before + [idx[k]];
    forall i
      ensures Hits(Some(after), n, i) <==> Hits(Some(before), n, i) || i == idx[k] || i - n == idx[k]
    {
      assert i in after <==> i in before || i == idx[k];
      assert i - n in after <==> i - n in before || i - n == idx[k];
    }
  }

  /** Every index addresses a row of an `n`-row tensor (otherwise tensor indexing raises). */
  predicate InBounds(idx: Option<seq<int>>, n: int)
  {
    idx.Some? ==> forall k | 0 <= k < |idx.value| :: -n <= idx.value[k] < n
  }

  /** The row of mask tokens for the first `w` columns. */
  function MaskToken(vocab: seq<int>, w: nat): (r: seq<int>)
    requires w <= |vocab|
    ensures |r| == w
    ensures forall c | 0 <= c < w :: r[c] == vocab[c] - 1
  {
    seq(w, c requires 0 <= c < w => vocab[c] - 1)
  }

  /** The vocabulary covers every column of the matrix whenever something is masked. */
  predicate Maskable(m: seq<seq<int>>, vocab: seq<int>, idx: Option<seq<int>>)
  {
    idx.Some? ==> forall i | 0 <= i < |m| :: |m[i]| <= |vocab|
  }

  predicate Rectangular(m: seq<seq<int>>, w: nat)
  {
    forall i | 0 <= i < |m| :: |m[i]| == w
  }

  /** Categorical matrix after masking the selected rows. */
  function MaskRows(m: seq<seq<int>>, vocab: seq<int>, idx: Option<seq<int>>): (r: seq<seq<int>>)
    requires Maskable(m, vocab, idx)
    ensures |r| == |m|
    ensures forall i | 0 <= i < |m| :: |r[i]| == |m[i]|
    ensures forall i, c | 0 <= i < |m| && 0 <= c < |m[i]| && Hits(idx, |m|, i) :: r[i][c] == vocab[c] - 1
    ensures forall i | 0 <= i < |m| && !Hits(idx, |m|, i) :: r[i] == m[i]
  {
    seq(|m|, i requires 0 <= i < |m| => if Hits(idx, |m|, i) then MaskToken(vocab, |m[i]|) else m[i])
  }

  /** Scalar array after zeroing the selected entries. */
  function ZeroAt(s: seq<real>, idx: Option<seq<int>>): (r: seq<real>)
    ensures |r| == |s|
    ensures forall i | 0 <= i < |s| :: r[i] == if Hits(idx, |s|, i) then 0.0 else s[i]
  {
    seq(|s|, i requires 0 <= i < |s| => if Hits(idx, |s|, i) then 0.0 else s[i])
  }

  /** Zeroing with `None` leaves the array as it was. */
  lemma ZeroAtNone(s: seq<real>)
    ensures ZeroAt(s, None) == s
  {
  }

  /** Masking with `None` leaves the matrix as it was. */
  lemma MaskRowsNone(m: seq<seq<int>>, vocab: seq<int>)
    ensures MaskRows(m, vocab, None) == m
  {
    assert forall i | 0 <= i < |m| :: MaskRows(m, vocab, None)[i] == m[i];
  }

  /**
   * No leak: the masked matrix does not depend on the original contents of
   * the masked rows, only on their width.
   */
  lemma MaskRowsHidesMasked(m1: seq<seq<int>>, m2: seq<seq<int>>, vocab: seq<int>, idx: Option<seq<int>>)
    requires |m1| == |m2| && Maskable(m1, vocab, idx) && Maskable(m2, vocab, idx)
    requires forall i | 0 <= i < |m1| :: |m1[i]| == |m2[i]|
    requires forall i | 0 <= i < |m1| && !Hits(idx, |m1|, i) :: m1[i] == m2[i]
    ensures MaskRows(m1, vocab, idx) == MaskRows(m2, vocab, idx)
  {
    forall i | 0 <= i < |m1|
      ensures MaskRows(m1, vocab, idx)[i] == MaskRows(m2, vocab, idx)[i]
    {
    }
  }

  /**
   * When the featurizer never uses the reserved last slot, a row of the
   * masked matrix is a row of mask tokens exactly when it was masked.
   */
  lemma MaskTokenMarksMaskedRows(m: seq<seq<int>>, vocab: seq<int>, idx: Option<seq<int>>, w: nat, i: int)
    requires 0 < w <= |vocab| && Rectangular(m, w)
    requires forall r, c | 0 <= r < |m| && 0 <= c < w :: 0 <= m[r][c] < vocab[c] - 1
    requires 0 <= i < |m|
    ensures MaskRows(m, vocab, idx)[i] == MaskToken(vocab, w) <==> Hits(idx, |m|, i)
  {
    if !Hits(idx, |m|, i) {
      assert MaskRows(m, vocab, idx)[i][0] == m[i][0] != MaskToken(vocab, w)[0];
    }
  }

  /** No leak: the zeroed array does not depend on the original masked values. */
  lemma ZeroAtHidesMasked(s1: seq<real>, s2: seq<real>, idx: Option<seq<int>>)
    requires |s1| == |s2|
    requires forall i | 0 <= i < |s1| && !Hits(idx, |s1|, i) :: s1[i] == s2[i]
    ensures ZeroAt(s1, idx) == ZeroAt(s2, idx)
  {
    assert forall i | 0 <= i < |s1| :: ZeroAt(s1, idx)[i] == ZeroAt(s2, idx)[i];
  }
}
