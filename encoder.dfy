/**
 * `EGeoGNNModel`: its per-layer module lists, `mask_attr` on copies of the
 * input arrays, and `forward`, which grows one hidden-state list per level
 * by one entry per layer. The learned sub-layers are the symbolic modules
 * of `Dataflow`; `get_feature_dims` is replaced by the vocabulary sizes
 * given to the constructor.
 */
module Encoder {
  import opened Wrappers
  import opened Graph
  import opened Batching
  import opened Masking
  import opened Dataflow

  /** Which per-layer `ModuleList` an entry belongs to. */
  datatype Role =
    | BondEmbeddings
    | BondFloatRbfs
    | BondAngleFloatRbfs
    | DihedralAngleFloatRbfs
    | AtomBondBlocks
    | BondAngleBlocks
    | AngleDihedralBlocks

  /** The module the constructor appends to list `role` at `layer_id = l` out of `n` layers. */
  function Entry(role: Role, l: nat, n: nat): (r: Module)
    ensures !r.IsInit() && r.Depth() == l
    ensures (r.AtomBondBlock? || r.BondAngleBlock? || r.AngleDihedralBlock?) ==> (r.lastAct <==> l + 1 != n)
    ensures match role
      case BondEmbeddings => r.BondEmbedding?
      case BondFloatRbfs => r.BondFloatRbf?
      case BondAngleFloatRbfs => r.BondAngleFloatRbf?
      case DihedralAngleFloatRbfs => r.DihedralAngleFloatRbf?
      case AtomBondBlocks => r.AtomBondBlock?
      case BondAngleBlocks => r.BondAngleBlock?
      case AngleDihedralBlocks => r.AngleDihedralBlock?
  {
    match role
    case BondEmbeddings => BondEmbedding(l)
    case BondFloatRbfs => BondFloatRbf(l)
    case BondAngleFloatRbfs => BondAngleFloatRbf(l)
    case DihedralAngleFloatRbfs => DihedralAngleFloatRbf(l)
    case AtomBondBlocks => AtomBondBlock(l, LastAct(l, n))
    case BondAngleBlocks => BondAngleBlock(l, LastAct(l, n))
    case AngleDihedralBlocks => AngleDihedralBlock(l, LastAct(l, n))
  }

  /** Per-layer list `role` of an `n`-layer model after `k` iterations of the constructor's loop. */
  function Built(role: Role, k: nat, n: nat): (r: seq<Module>)
    ensures |r| == k
  {
    if k == 0 then [] else Built(role, k - 1, n) + [Entry(role, k - 1, n)]
  }

  /** Entry `l` of a per-layer list is the module of layer `l`. */
  lemma {:induction false} BuiltEntry(role: Role, k: nat, n: nat, l: nat)
    requires l < k
    ensures Built(role, k, n)[l] == Entry(role, l, n)
  {
    if l < k - 1 {
      BuiltEntry(role, k - 1, n, l);
    }
  }

  predicate IsBlockList(role: Role)
  {
    role == AtomBondBlocks || role == BondAngleBlocks || role == AngleDihedralBlocks
  }

  /** In every block list, `last_act` is off on the last layer and on no other. */
  lemma BlocksLastAct(role: Role, n: nat, l: nat)
    requires IsBlockList(role) && l < n
    ensures var m := Built(role, n, n)[l];
      (m.AtomBondBlock? || m.BondAngleBlock? || m.AngleDihedralBlock?) && m.layer == l && (m.lastAct <==> l != n - 1)
  {
    BuiltEntry(role, n, n, l);
  }

  /** `node_hidden_list` and `edge_hidden_list` hold the states of layers `0..k` of the no-dihedral variant. */
  predicate PlainListsMatch(nodes: seq<Repr>, edges: seq<Repr>, n: nat, inp: EncoderInput, bondBatch: seq<int>, k: nat)
    requires k <= n
  {
    |nodes| == k + 1 && |edges| == k + 1 &&
    forall l | 0 <= l <= k :: PlainState(nodes[l], edges[l]) == PlainLayers(n, inp, bondBatch, l)
  }

  /** Appending the states of layer `k + 1` keeps the lists in step with the layer stack. */
  lemma PlainListsExtend(nodes: seq<Repr>, edges: seq<Repr>, n: nat, inp: EncoderInput, bondBatch: seq<int>, k: nat,
                         node: Repr, edge: Repr)
    requires k < n && PlainListsMatch(nodes, edges, n, inp, bondBatch, k)
    requires PlainState(node, edge) == PlainNext(n, inp, bondBatch, k, PlainState(nodes[k], edges[k]))
    ensures PlainListsMatch(nodes + [node], edges + [edge], n, inp, bondBatch, k + 1)
  {
    assert PlainState(node, edge) == PlainLayers(n, inp, bondBatch, k + 1);
  }

  /** The three hidden-state lists hold the states of layers `0..k` of the dihedral variant. */
  predicate HierListsMatch(nodes: seq<Repr>, edges: seq<Repr>, angles: seq<Repr>, n: nat, inp: EncoderInput,
                           bondBatch: seq<int>, angleBatch: seq<int>, k: nat)
    requires k <= n
  {
    |nodes| == k + 1 && |edges| == k + 1 && |angles| == k + 1 &&
    forall l | 0 <= l <= k :: HierState(nodes[l], edges[l], angles[l]) == HierLayers(n, inp, bondBatch, angleBatch, l)
  }

  lemma HierListsExtend(nodes: seq<Repr>, edges: seq<Repr>, angles: seq<Repr>, n: nat, inp: EncoderInput,
                        bondBatch: seq<int>, angleBatch: seq<int>, k: nat, node: Repr, edge: Repr, angle: Repr)
    requires k < n && HierListsMatch(nodes, edges, angles, n, inp, bondBatch, angleBatch, k)
    requires HierState(node, edge, angle) ==
      HierNext(n, inp, bondBatch, angleBatch, k, HierState(nodes[k], edges[k], angles[k]))
    ensures HierListsMatch(nodes + [node], edges + [edge], angles + [angle], n, inp, bondBatch, angleBatch, k + 1)
  {
    assert HierState(node, edge, angle) == HierLayers(n, inp, bondBatch, angleBatch, k + 1);
  }

  /** Layer `k` of the no-dihedral variant, computed with the modules of the built per-layer lists. */
  lemma PlainLayerFromLists(n: nat, inp: EncoderInput, bondBatch: seq<int>, k: nat, h: PlainState,
                            node: Repr, edge: Repr)
    requires k < n
    requires node == Conv(Built(AtomBondBlocks, n, n)[k], h.node, h.edge, inp.atomBondEdges, inp.atomBatch)
    requires edge == Conv(Built(BondAngleBlocks, n, n)[k],
                          Add(Embed(Built(BondEmbeddings, n, n)[k], inp.bondAttr),
                              Expand(Built(BondFloatRbfs, n, n)[k], inp.bondLengths)),
                          Expand(Built(BondAngleFloatRbfs, n, n)[k], inp.bondAngles), inp.bondAngleEdges, bondBatch)
    ensures PlainState(node, edge) == PlainNext(n, inp, bondBatch, k, h)
  {
    BuiltEntry(AtomBondBlocks, n, n, k);
    BuiltEntry(BondEmbeddings, n, n, k);
    BuiltEntry(BondFloatRbfs, n, n, k);
    BuiltEntry(BondAngleFloatRbfs, n, n, k);
    BuiltEntry(BondAngleBlocks, n, n, k);
  }

  /** Layer `k` of the dihedral variant, computed with the modules of the built per-layer lists. */
  lemma HierLayerFromLists(n: nat, inp: EncoderInput, bondBatch: seq<int>, angleBatch: seq<int>, k: nat,
                           h: HierState, node: Repr, edge: Repr, angle: Repr, curDihedral: Repr)
    requires k < n
    requires node == Conv(Built(AtomBondBlocks, n, n)[k], h.node, h.edge, inp.atomBondEdges, inp.atomBatch)
    requires edge == Conv(Built(BondAngleBlocks, n, n)[k],
                          Add(Embed(Built(BondEmbeddings, n, n)[k], inp.bondAttr),
                              Expand(Built(BondFloatRbfs, n, n)[k], inp.bondLengths)),
                          h.angle, inp.bondAngleEdges, bondBatch)
    requires curDihedral == Expand(Built(DihedralAngleFloatRbfs, n, n)[k], inp.dihedralAngles)
    requires angle == Conv(Built(AngleDihedralBlocks, n, n)[k], Expand(Built(BondAngleFloatRbfs, n, n)[k], inp.bondAngles),
                           curDihedral, inp.angleDihedralEdges, angleBatch)
    ensures curDihedral == CurDihedral(k, inp)
    ensures HierState(node, edge, angle) == HierNext(n, inp, bondBatch, angleBatch, k, h)
  {
    BuiltEntry(AtomBondBlocks, n, n, k);
    BuiltEntry(BondEmbeddings, n, n, k);
    BuiltEntry(BondFloatRbfs, n, n, k);
    BuiltEntry(BondAngleBlocks, n, n, k);
    BuiltEntry(BondAngleFloatRbfs, n, n, k);
    BuiltEntry(DihedralAngleFloatRbfs, n, n, k);
    BuiltEntry(AngleDihedralBlocks, n, n, k);
  }

  /** The rows of a two-dimensional integer tensor. */
  function Grid(a: array2<int>): (r: seq<seq<int>>)
    reads a
    ensures |r| == a.Length0
    ensures forall i | 0 <= i < a.Length0 :: |r[i]| == a.Length1 && forall c | 0 <= c < a.Length1 :: r[i][c] == a[i, c]
  {
    seq(a.Length0, i requires 0 <= i < a.Length0 reads a =>
      seq(a.Length1, c requires 0 <= c < a.Length1 reads a => a[i, c]))
  }

  /** The row an in-bounds tensor index addresses. */
  function Wrap(k: int, n: int): int
  {
    if k < 0 then k + n else k
  }

  /** `copy.deepcopy` of a two-dimensional tensor. */
  method CopyGrid(a: array2<int>) returns (b: array2<int>)
    ensures fresh(b) && b.Length0 == a.Length0 && b.Length1 == a.Length1 && Grid(b) == Grid(a)
  {
    b := new int[a.Length0, a.Length1];
    for i := 0 to a.Length0
      invariant forall r, c | 0 <= r < i && 0 <= c < a.Length1 :: b[r, c] == a[r, c]
    {
      for c := 0 to a.Length1
        invariant forall r, c' | 0 <= r < i && 0 <= c' < a.Length1 :: b[r, c'] == a[r, c']
        invariant forall c' | 0 <= c' < c :: b[i, c'] == a[i, c']
      {
        b[i, c] := a[i, c];
      }
    }
    assert forall r | 0 <= r < a.Length0 :: Grid(b)[r] == Grid(a)[r];
  }

  /** `copy.deepcopy` of a one-dimensional tensor. */
  method CopyArray(a: array<real>) returns (b: array<real>)
    ensures fresh(b) && b[..] == a[..]
  {
    b := new real[a.Length](i requires 0 <= i < a.Length reads a => a[i]);
  }

  /**
   * `for i in range(shape[1]): t[:, i][idx] = vocab[i] - 1`: every column of
   * the selected rows takes its reserved mask token.
   */
  method MaskColumns(a: array2<int>, vocab: seq<int>, idx: seq<int>)
    requires a.Length1 <= |vocab|
    requires a.Length1 > 0 ==> InBounds(Some(idx), a.Length0)
    modifies a
    ensures Grid(a) == MaskRows(old(Grid(a)), vocab, Some(idx))
  {
    ghost var m := Grid(a);
    for c := 0 to a.Length1
      invariant forall r, c' | 0 <= r < a.Length0 && 0 <= c' < a.Length1 ::
        a[r, c'] == if c' < c && Hits(Some(idx), a.Length0, r) then vocab[c'] - 1 else m[r][c']
    {
      for k := 0 to |idx|
        invariant forall r, c' | 0 <= r < a.Length0 && 0 <= c' < a.Length1 ::
          a[r, c'] == if (c' < c && Hits(Some(idx), a.Length0, r)) || (c' == c && Hits(Some(idx[..k]), a.Length0, r))
                      then vocab[c'] - 1 else m[r][c']
      {
        HitsExtend(idx, k, a.Length0);
        a[Wrap(idx[k], a.Length0), c] := vocab[c] - 1;
      }
      assert idx[..|idx|] == idx;
    }
    assert forall r | 0 <= r < a.Length0 :: Grid(a)[r] == MaskRows(m, vocab, Some(idx))[r];
  }

  /** `t[idx] = 0` on a one-dimensional tensor. */
  method ZeroEntries(a: array<real>, idx: seq<int>)
    requires InBounds(Some(idx), a.Length)
    modifies a
    ensures a[..] == ZeroAt(old(a[..]), Some(idx))
  {
    ghost var s := a[..];
    for k := 0 to |idx|
      invariant a[..] == ZeroAt(s, Some(idx[..k]))
    {
      HitsExtend(idx, k, a.Length);
      a[Wrap(idx[k], a.Length)] := 0.0;
    }
    assert idx[..|idx|] == idx;
  }

  /** A deep copy of a categorical feature matrix with the selected rows masked. */
  method MaskedCopy(a: array2<int>, vocab: seq<int>, idx: Option<seq<int>>) returns (b: array2<int>)
    requires idx.Some? ==> a.Length1 <= |vocab|
    requires a.Length1 > 0 ==> InBounds(idx, a.Length0)
    ensures fresh(b) && Grid(b) == MaskRows(Grid(a), vocab, idx)
  {
    b := CopyGrid(a);
    if idx.Some? {
      MaskColumns(b, vocab, idx.value);
    } else {
      MaskRowsNone(Grid(a), vocab);
    }
  }

  /** A deep copy of a scalar array with the selected entries zeroed. */
  method ZeroedCopy(a: array<real>, idx: Option<seq<int>>) returns (b: array<real>)
    requires InBounds(idx, a.Length)
    ensures fresh(b) && b[..] == ZeroAt(a[..], idx)
  {
    b := CopyArray(a);
    if idx.Some? {
      ZeroEntries(b, idx.value);
    } else {
      ZeroAtNone(a[..]);
    }
  }

  /** What `mask_attr` needs of its arguments so that no indexing raises. */
  predicate MaskableArgs(
    atomVocab: seq<int>, bondVocab: seq<int>, atomRows: int, atomCols: int, bondRows: int, bondCols: int,
    numLengths: int, numAngles: int, numDihedrals: int,
    maskedAtoms: Option<seq<int>>, maskedBonds: Option<seq<int>>,
    maskedAngles: Option<seq<int>>, maskedDihedrals: Option<seq<int>>)
  {
    (maskedAtoms.Some? ==> atomCols <= |atomVocab|) &&
    (atomCols > 0 ==> InBounds(maskedAtoms, atomRows)) &&
    (maskedBonds.Some? ==> bondCols <= |bondVocab|) &&
    (bondCols > 0 ==> InBounds(maskedBonds, bondRows)) &&
    InBounds(maskedBonds, numLengths) &&
    InBounds(maskedAngles, numAngles) &&
    InBounds(maskedDihedrals, numDihedrals)
  }

  /** The encoder input `forward` builds from the masked copies. */
  function MaskedInput(
    atomBondEdges: seq<Edge>, bondAngleEdges: seq<Edge>, angleDihedralEdges: seq<Edge>,
    atomVocab: seq<int>, bondVocab: seq<int>,
    x: seq<seq<int>>, bondAttr: seq<seq<int>>, bondLengths: seq<real>, bondAngles: seq<real>, dihedralAngles: seq<real>,
    atomBatch: seq<int>, numBonds: seq<int>, numAngles: seq<int>, numGraphs: nat,
    maskedAtoms: Option<seq<int>>, maskedBonds: Option<seq<int>>,
    maskedAngles: Option<seq<int>>, maskedDihedrals: Option<seq<int>>): EncoderInput
    requires Maskable(x, atomVocab, maskedAtoms) && Maskable(bondAttr, bondVocab, maskedBonds)
  {
    EncoderInput(atomBondEdges, bondAngleEdges, angleDihedralEdges,
                 MaskRows(x, atomVocab, maskedAtoms), MaskRows(bondAttr, bondVocab, maskedBonds),
                 ZeroAt(bondLengths, maskedBonds), ZeroAt(bondAngles, maskedAngles), ZeroAt(dihedralAngles, maskedDihedrals),
                 atomBatch, numBonds, numAngles, numGraphs)
  }

  class EGeoGNNModel {
    const withoutDihedral: bool
    const latentSize: nat
    const dropoutRate: real
    const nLayers: nat
    /** `get_feature_dims(atom_names)` and `get_feature_dims(bond_names)`. */
    const atomVocab: seq<int>
    const bondVocab: seq<int>

    const bondEmbeddingList: seq<Module>
    const bondFloatRbfList: seq<Module>
    const bondAngleFloatRbfList: seq<Module>
    /** Only the dihedral variant has this attribute. */
    const dihedralAngleFloatRbfList: Option<seq<Module>>
    const atomBondBlockList: seq<Module>
    const bondAngleBlockList: seq<Module>
    /** Only the dihedral variant has this attribute. */
    const angleDihedralBlockList: Option<seq<Module>>

    /**
     * Every per-layer list has one entry per layer, the blocks of the last
     * layer alone have `last_act` off, and the dihedral lists exist exactly
     * in the dihedral variant.
     */
    ghost predicate Valid()
      reads this
    {
      bondEmbeddingList == Built(BondEmbeddings, nLayers, nLayers) &&
      bondFloatRbfList == Built(BondFloatRbfs, nLayers, nLayers) &&
      bondAngleFloatRbfList == Built(BondAngleFloatRbfs, nLayers, nLayers) &&
      atomBondBlockList == Built(AtomBondBlocks, nLayers, nLayers) &&
      bondAngleBlockList == Built(BondAngleBlocks, nLayers, nLayers) &&
      (dihedralAngleFloatRbfList.Some? <==> !withoutDihedral) &&
      (angleDihedralBlockList.Some? <==> !withoutDihedral) &&
      (dihedralAngleFloatRbfList.Some? ==> dihedralAngleFloatRbfList.value == Built(DihedralAngleFloatRbfs, nLayers, nLayers)) &&
      (angleDihedralBlockList.Some? ==> angleDihedralBlockList.value == Built(AngleDihedralBlocks, nLayers, nLayers))
    }

    constructor (latentSize: nat, encoderDropout: real, nLayers: nat, atomVocab: seq<int>, bondVocab: seq<int>,
                 withoutDihedral: bool)
      ensures this.withoutDihedral == withoutDihedral && this.latentSize == latentSize
      ensures this.dropoutRate == encoderDropout && this.nLayers == nLayers
      ensures this.atomVocab == atomVocab && this.bondVocab == bondVocab
      ensures Valid()
    {
      var bondEmbeddings: seq<Module> := [];
      var bondFloatRbfs: seq<Module> := [];
      var bondAngleFloatRbfs: seq<Module> := [];
      var dihedralAngleFloatRbfs: seq<Module> := [];
      var atomBondBlocks: seq<Module> := [];
      var bondAngleBlocks: seq<Module> := [];
      var angleDihedralBlocks: seq<Module> := [];
      for layerId := 0 to nLayers
        invariant bondEmbeddings == Built(BondEmbeddings, layerId, nLayers)
        invariant bondFloatRbfs == Built(BondFloatRbfs, layerId, nLayers)
        invariant bondAngleFloatRbfs == Built(BondAngleFloatRbfs, layerId, nLayers)
        invariant atomBondBlocks == Built(AtomBondBlocks, layerId, nLayers)
        invariant bondAngleBlocks == Built(BondAngleBlocks, layerId, nLayers)
        invariant !withoutDihedral ==> dihedralAngleFloatRbfs == Built(DihedralAngleFloatRbfs, layerId, nLayers)
        invariant !withoutDihedral ==> angleDihedralBlocks == Built(AngleDihedralBlocks, layerId, nLayers)
      {
        bondEmbeddings := bondEmbeddings + [BondEmbedding(layerId)];
        bondFloatRbfs := bondFloatRbfs + [BondFloatRbf(layerId)];
        bondAngleFloatRbfs := bondAngleFloatRbfs + [BondAngleFloatRbf(layerId)];
        if !withoutDihedral {
          dihedralAngleFloatRbfs := dihedralAngleFloatRbfs + [DihedralAngleFloatRbf(layerId)];
        }
        atomBondBlocks := atomBondBlocks + [AtomBondBlock(layerId, layerId != nLayers - 1)];
        bondAngleBlocks := bondAngleBlocks + [BondAngleBlock(layerId, layerId != nLayers - 1)];
        if !withoutDihedral {
          angleDihedralBlocks := angleDihedralBlocks + [AngleDihedralBlock(layerId, layerId != nLayers - 1)];
        }
      }
      this.withoutDihedral := withoutDihedral;
      this.latentSize := latentSize;
      this.dropoutRate := encoderDropout;
      this.nLayers := nLayers;
      this.atomVocab := atomVocab;
      this.bondVocab := bondVocab;
      bondEmbeddingList := bondEmbeddings;
      bondFloatRbfList := bondFloatRbfs;
      bondAngleFloatRbfList := bondAngleFloatRbfs;
      dihedralAngleFloatRbfList := if withoutDihedral then None else Some(dihedralAngleFloatRbfs);
      atomBondBlockList := atomBondBlocks;
      bondAngleBlockList := bondAngleBlocks;
      angleDihedralBlockList := if withoutDihedral then None else Some(angleDihedralBlocks);
    }

    /**
     * `mask_attr`: deep copies of the five arrays, with the selected atom and
     * bond rows set to their mask tokens and the selected scalars set to 0.
     * The caller's arrays are not modified.
     */
    method MaskAttr(
      x: array2<int>, bondAttr: array2<int>, bondLengths: array<real>, bondAngles: array<real>, dihedralAngles: array<real>,
      maskedAtomIndices: Option<seq<int>>, maskedBondIndices: Option<seq<int>>,
      maskedAngleIndices: Option<seq<int>>, maskedDihedralIndices: Option<seq<int>>)
      returns (xCopy: array2<int>, bondAttrCopy: array2<int>, bondLengthsCopy: array<real>,
               bondAnglesCopy: array<real>, dihedralAnglesCopy: array<real>)
      requires MaskableArgs(atomVocab, bondVocab, x.Length0, x.Length1, bondAttr.Length0, bondAttr.Length1,
                            bondLengths.Length, bondAngles.Length, dihedralAngles.Length,
                            maskedAtomIndices, maskedBondIndices, maskedAngleIndices, maskedDihedralIndices)
      ensures fresh(xCopy) && fresh(bondAttrCopy) && fresh(bondLengthsCopy) && fresh(bondAnglesCopy) && fresh(dihedralAnglesCopy)
      ensures Grid(xCopy) == MaskRows(Grid(x), atomVocab, maskedAtomIndices)
      ensures Grid(bondAttrCopy) == MaskRows(Grid(bondAttr), bondVocab, maskedBondIndices)
      ensures bondLengthsCopy[..] == ZeroAt(bondLengths[..], maskedBondIndices)
      ensures bondAnglesCopy[..] == ZeroAt(bondAngles[..], maskedAngleIndices)
      ensures dihedralAnglesCopy[..] == ZeroAt(dihedralAngles[..], maskedDihedralIndices)
    {
      xCopy := MaskedCopy(x, atomVocab, maskedAtomIndices);
      bondAttrCopy := MaskedCopy(bondAttr, bondVocab, maskedBondIndices);
      bondLengthsCopy := ZeroedCopy(bondLengths, maskedBondIndices);
      bondAnglesCopy := ZeroedCopy(bondAngles, maskedAngleIndices);
      dihedralAnglesCopy := ZeroedCopy(dihedralAngles, maskedDihedralIndices);
    }

    /**
     * The layer loop of the no-dihedral variant: one new node and edge state
     * per layer, appended to `node_hidden_list` and `edge_hidden_list`.
     */
    method PlainHiddenLists(inp: EncoderInput, bondBatch: seq<int>, nodeHidden: Repr, bondHidden: Repr)
      returns (nodeHiddenList: seq<Repr>, edgeHiddenList: seq<Repr>)
      requires Valid()
      requires nodeHidden == InitNode(inp) && bondHidden == InitEdge(inp)
      ensures |nodeHiddenList| == nLayers + 1 && |edgeHiddenList| == nLayers + 1
      ensures forall l | 0 <= l <= nLayers ::
        PlainState(nodeHiddenList[l], edgeHiddenList[l]) == PlainLayers(nLayers, inp, bondBatch, l)
    {
      nodeHiddenList := [nodeHidden];
      edgeHiddenList := [bondHidden];
      for layerId := 0 to nLayers
        invariant PlainListsMatch(nodeHiddenList, edgeHiddenList, nLayers, inp, bondBatch, layerId)
      {
        var nodeHidden := Conv(atomBondBlockList[layerId], nodeHiddenList[layerId], edgeHiddenList[layerId],
                               inp.atomBondEdges, inp.atomBatch);
        var curEdgeHidden := Embed(bondEmbeddingList[layerId], inp.bondAttr);
        curEdgeHidden := Add(curEdgeHidden, Expand(bondFloatRbfList[layerId], inp.bondLengths));
        var curAngleHidden := Expand(bondAngleFloatRbfList[layerId], inp.bondAngles);
        var edgeHidden := Conv(bondAngleBlockList[layerId], curEdgeHidden, curAngleHidden, inp.bondAngleEdges, bondBatch);
        PlainLayerFromLists(nLayers, inp, bondBatch, layerId, PlainState(nodeHiddenList[layerId], edgeHiddenList[layerId]),
                            nodeHidden, edgeHidden);
        PlainListsExtend(nodeHiddenList, edgeHiddenList, nLayers, inp, bondBatch, layerId, nodeHidden, edgeHidden);
        nodeHiddenList := nodeHiddenList + [nodeHidden];
        edgeHiddenList := edgeHiddenList + [edgeHidden];
      }
    }

    /**
     * The layer loop of the dihedral variant: one new node, edge and angle
     * state per layer; `cur_dihedral_hidden` is bound by the first iteration
     * and holds the last one's dihedral re-embedding.
     */
    method HierHiddenLists(inp: EncoderInput, bondBatch: seq<int>, angleBatch: seq<int>,
                           nodeHidden: Repr, bondHidden: Repr, angleHidden: Repr)
      returns (nodeHiddenList: seq<Repr>, edgeHiddenList: seq<Repr>, angleHiddenList: seq<Repr>,
               curDihedralHidden: Option<Repr>)
      requires Valid() && !withoutDihedral
      requires nodeHidden == InitNode(inp) && bondHidden == InitEdge(inp)
      requires angleHidden == Expand(InitBondAngleFloatRbf, inp.bondAngles)
      ensures |nodeHiddenList| == nLayers + 1 && |edgeHiddenList| == nLayers + 1 && |angleHiddenList| == nLayers + 1
      ensures forall l | 0 <= l <= nLayers ::
        HierState(nodeHiddenList[l], edgeHiddenList[l], angleHiddenList[l]) ==
        HierLayers(nLayers, inp, bondBatch, angleBatch, l)
      ensures curDihedralHidden == if nLayers == 0 then None else Some(CurDihedral(nLayers - 1, inp))
    {
      nodeHiddenList := [nodeHidden];
      edgeHiddenList := [bondHidden];
      angleHiddenList := [angleHidden];
      curDihedralHidden := None;
      for layerId := 0 to nLayers
        invariant HierListsMatch(nodeHiddenList, edgeHiddenList, angleHiddenList, nLayers, inp, bondBatch, angleBatch, layerId)
        invariant curDihedralHidden == if layerId == 0 then None else Some(CurDihedral(layerId - 1, inp))
      {
        var nodeHidden := Conv(atomBondBlockList[layerId], nodeHiddenList[layerId], edgeHiddenList[layerId],
                               inp.atomBondEdges, inp.atomBatch);
        var curEdgeHidden := Embed(bondEmbeddingList[layerId], inp.bondAttr);
        curEdgeHidden := Add(curEdgeHidden, Expand(bondFloatRbfList[layerId], inp.bondLengths));
        var edgeHidden := Conv(bondAngleBlockList[layerId], curEdgeHidden, angleHiddenList[layerId],
                               inp.bondAngleEdges, bondBatch);
        var curAngleHidden := Expand(bondAngleFloatRbfList[layerId], inp.bondAngles);
        var curDihedral := Expand(dihedralAngleFloatRbfList.value[layerId], inp.dihedralAngles);
        curDihedralHidden := Some(curDihedral);
        var angleHidden := Conv(angleDihedralBlockList.value[layerId], curAngleHidden, curDihedral,
                                inp.angleDihedralEdges, angleBatch);
        HierLayerFromLists(nLayers, inp, bondBatch, angleBatch, layerId,
                           HierState(nodeHiddenList[layerId], edgeHiddenList[layerId], angleHiddenList[layerId]),
                           nodeHidden, edgeHidden, angleHidden, curDihedral);
        HierListsExtend(nodeHiddenList, edgeHiddenList, angleHiddenList, nLayers, inp, bondBatch, angleBatch, layerId,
                        nodeHidden, edgeHidden, angleHidden);
        nodeHiddenList := nodeHiddenList + [nodeHidden];
        edgeHiddenList := edgeHiddenList + [edgeHidden];
        angleHiddenList := angleHiddenList + [angleHidden];
      }
    }

    /**
     * `forward`: mask copies of the inputs, embed them, derive the bond (and
     * angle) graph-assignment vectors, run the layer loop and return the last
     * entries of the hidden lists with the mean-pooled graph representation.
     */
    method Forward(
      atomBondEdges: seq<Edge>, bondAngleEdges: seq<Edge>, angleDihedralEdges: seq<Edge>,
      x: array2<int>, bondAttr: array2<int>, bondLengths: array<real>, bondAngles: array<real>, dihedralAngles: array<real>,
      atomBatch: seq<int>, numBonds: seq<int>, numAngles: seq<int>, numGraphs: nat,
      maskedAtomIndices: Option<seq<int>>, maskedBondIndices: Option<seq<int>>,
      maskedAngleIndices: Option<seq<int>>, maskedDihedralIndices: Option<seq<int>>)
      returns (r: Result<Encoding, EncodeError>)
      requires Valid()
      requires MaskableArgs(atomVocab, bondVocab, x.Length0, x.Length1, bondAttr.Length0, bondAttr.Length1,
                            bondLengths.Length, bondAngles.Length, dihedralAngles.Length,
                            maskedAtomIndices, maskedBondIndices, maskedAngleIndices, maskedDihedralIndices)
      ensures r == Encode(withoutDihedral, nLayers,
        MaskedInput(atomBondEdges, bondAngleEdges, angleDihedralEdges, atomVocab, bondVocab,
                    Grid(x), Grid(bondAttr), bondLengths[..], bondAngles[..], dihedralAngles[..],
                    atomBatch, numBonds, numAngles, numGraphs,
                    maskedAtomIndices, maskedBondIndices, maskedAngleIndices, maskedDihedralIndices))
    {
      var xMasked, bondAttrMasked, bondLengthsMasked, bondAnglesMasked, dihedralAnglesMasked :=
        MaskAttr(x, bondAttr, bondLengths, bondAngles, dihedralAngles,
                 maskedAtomIndices, maskedBondIndices, maskedAngleIndices, maskedDihedralIndices);
      var inp := EncoderInput(atomBondEdges, bondAngleEdges, angleDihedralEdges,
                              Grid(xMasked), Grid(bondAttrMasked),
                              bondLengthsMasked[..], bondAnglesMasked[..], dihedralAnglesMasked[..],
                              atomBatch, numBonds, numAngles, numGraphs);

      var nodeHidden := Embed(InitAtomEmbedding, inp.x);
      var bondEmbed := Embed(InitBondEmbedding, inp.bondAttr);
      var bondHidden := Add(bondEmbed, Expand(InitBondFloatRbf, inp.bondLengths));

      if withoutDihedral {
        var bondBatch := BatchVector(numGraphs, numBonds);
        if bondBatch.Failure? {
          return Failure(BatchFailure(bondBatch.error));
        }
        var nodeHiddenList, edgeHiddenList := PlainHiddenLists(inp, bondBatch.value, nodeHidden, bondHidden);
        var nodeRepr := nodeHiddenList[|nodeHiddenList| - 1];
        var edgeRepr := edgeHiddenList[|edgeHiddenList| - 1];
        var graphRepr := MeanPool(nodeRepr, atomBatch, numGraphs);
        return Success(Encoding(nodeRepr, edgeRepr, None, None, graphRepr));
      }

      var angleHidden := Expand(InitBondAngleFloatRbf, inp.bondAngles);
      var bondBatch := BatchVector(numGraphs, numBonds);
      if bondBatch.Failure? {
        return Failure(BatchFailure(bondBatch.error));
      }
      var angleBatch := BatchVector(numGraphs, numAngles);
      if angleBatch.Failure? {
        return Failure(BatchFailure(angleBatch.error));
      }
      var nodeHiddenList, edgeHiddenList, angleHiddenList, curDihedralHidden :=
        HierHiddenLists(inp, bondBatch.value, angleBatch.value, nodeHidden, bondHidden, angleHidden);
      var nodeRepr := nodeHiddenList[|nodeHiddenList| - 1];
      var edgeRepr := edgeHiddenList[|edgeHiddenList| - 1];
      var angleRepr := angleHiddenList[|angleHiddenList| - 1];
      if curDihedralHidden.None? {
        return Failure(UnboundDihedral);
      }
      var graphRepr := MeanPool(nodeRepr, atomBatch, numGraphs);
      return Success(Encoding(nodeRepr, edgeRepr, Some(angleRepr), curDihedralHidden, graphRepr));
    }
  }
}
