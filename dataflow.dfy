/**
 * The forward dataflow of `EGeoGNNModel`, stated on symbolic representations.
 * Embeddings, RBF expansions, message-passing blocks and pooling are not
 * interpreted: a `Repr` is the term that records which module was applied
 * to which inputs. Two representations are equal exactly when they were
 * computed by the same modules from the same inputs, so the lemmas here are
 * about which layer's outputs feed which layer.
 */
module Dataflow {
  import opened Wrappers
  import opened Graph
  import opened Batching

  /**
   * A learned sub-layer, identified by its role and, for the per-layer
   * lists, by its position. Blocks carry their `last_act` flag.
   */
  datatype Module =
    | InitAtomEmbedding
    | InitBondEmbedding
    | InitBondFloatRbf
    | InitBondAngleFloatRbf
    | BondEmbedding(layer: nat)
    | BondFloatRbf(layer: nat)
    | BondAngleFloatRbf(layer: nat)
    | DihedralAngleFloatRbf(layer: nat)
    | AtomBondBlock(layer: nat, lastAct: bool)
    | BondAngleBlock(layer: nat, lastAct: bool)
    | AngleDihedralBlock(layer: nat, lastAct: bool)
  {
    predicate IsInit()
    {
      InitAtomEmbedding? || InitBondEmbedding? || InitBondFloatRbf? || InitBondAngleFloatRbf?
    }

    /** The position in the per-layer lists; the initial modules come before layer 0. */
    function Depth(): int
    {
      if IsInit() then -1 else layer
    }
  }

  /** A hidden representation (one row per node, edge, angle or graph). */
  datatype Repr =
    | Embed(table: Module, features: seq<seq<int>>)      // AtomBondEmbedding on categorical rows
    | Expand(rbf: Module, values: seq<real>)              // *FloatRBF on scalars
    | Add(left: Repr, right: Repr)                        // element-wise sum
    | Conv(block: Module, node: Repr, edge: Repr, edges: seq<Edge>, batch: seq<int>)  // EGeoGNNBlock
    | MeanPool(rows: Repr, batch: seq<int>, size: nat)    // global_mean_pool

  /** Representation `r` was computed, somewhere along the way, with module `m`. */
  predicate Uses(r: Repr, m: Module)
  {
    match r
    case Embed(t, _) => t == m
    case Expand(t, _) => t == m
    case Add(a, b) => Uses(a, m) || Uses(b, m)
    case Conv(t, node, edge, _, _) => t == m || Uses(node, m) || Uses(edge, m)
    case MeanPool(rows, _, _) => Uses(rows, m)
  }

  /** The encoder's inputs after masking, as the forward pass sees them. */
  datatype EncoderInput = EncoderInput(
    atomBondEdges: seq<Edge>,
    bondAngleEdges: seq<Edge>,
    angleDihedralEdges: seq<Edge>,
    x: seq<seq<int>>,
    bondAttr: seq<seq<int>>,
    bondLengths: seq<real>,
    bondAngles: seq<real>,
    dihedralAngles: seq<real>,
    atomBatch: seq<int>,
    numBonds: seq<int>,
    numAngles: seq<int>,
    numGraphs: nat)

  /** The tuple `(node_repr, edge_repr, angle_repr, dihedral_repr, graph_repr)`. */
  datatype Encoding = Encoding(node: Repr, edge: Repr, angle: Option<Repr>, dihedral: Option<Repr>, graph: Repr)

  datatype EncodeError =
    | BatchFailure(cause: BatchError)  // repeat_interleave refused the per-graph counts
    | UnboundDihedral                  // `cur_dihedral_hidden` read before any layer assigned it

  /** `last_act` of the blocks of layer `k` out of `n`. */
  function LastAct(k: nat, n: nat): bool
  {
    k != n - 1
  }

  /** `cur_edge_hidden` of layer `k`: the raw bond features re-embedded with layer `k`'s tables. */
  function CurEdge(k: nat, inp: EncoderInput): (r: Repr)
    ensures forall m :: Uses(r, m) <==> m == BondEmbedding(k) || m == BondFloatRbf(k)
  {
    Add(Embed(BondEmbedding(k), inp.bondAttr), Expand(BondFloatRbf(k), inp.bondLengths))
  }

  /** Entries `l` of `node_hidden_list` and `edge_hidden_list` (no-dihedral variant). */
  datatype PlainState = PlainState(node: Repr, edge: Repr)

  /** Entries `l` of the three hidden lists (dihedral variant). */
  datatype HierState = HierState(node: Repr, edge: Repr, angle: Repr)

  /** `node_hidden` before the first layer: the atom features through the initial embedding. */
  function InitNode(inp: EncoderInput): (r: Repr)
    ensures forall m :: Uses(r, m) <==> m == InitAtomEmbedding
  {
    Embed(InitAtomEmbedding, inp.x)
  }

  /** `bond_hidden` before the first layer: the initial bond embedding plus the initial bond-length RBF. */
  function InitEdge(inp: EncoderInput): (r: Repr)
    ensures forall m :: Uses(r, m) <==> m == InitBondEmbedding || m == InitBondFloatRbf
  {
    Add(Embed(InitBondEmbedding, inp.bondAttr), Expand(InitBondFloatRbf, inp.bondLengths))
  }

  /**
   * Which input arrays feed the initial and per-layer input terms: each term
   * is determined by, and determines, exactly the arrays the source passes to
   * its modules.
   */
  lemma InputTermsReadTheirArrays(k: nat, inp: EncoderInput, inp2: EncoderInput)
    ensures InitNode(inp) == InitNode(inp2) <==> inp.x == inp2.x
    ensures InitEdge(inp) == InitEdge(inp2) <==> inp.bondAttr == inp2.bondAttr && inp.bondLengths == inp2.bondLengths
    ensures CurEdge(k, inp) == CurEdge(k, inp2) <==> inp.bondAttr == inp2.bondAttr && inp.bondLengths == inp2.bondLengths
    ensures CurDihedral(k, inp) == CurDihedral(k, inp2) <==> inp.dihedralAngles == inp2.dihedralAngles
  {
  }

  /** One iteration `layer_id = k` of the no-dihedral loop. */
  function PlainNext(n: nat, inp: EncoderInput, bondBatch: seq<int>, k: nat, h: PlainState): PlainState
  {
    PlainState(
      Conv(AtomBondBlock(k, LastAct(k, n)), h.node, h.edge, inp.atomBondEdges, inp.atomBatch),
      Conv(BondAngleBlock(k, LastAct(k, n)), CurEdge(k, inp), Expand(BondAngleFloatRbf(k), inp.bondAngles),
           inp.bondAngleEdges, bondBatch))
  }

  /** One iteration `layer_id = k` of the dihedral loop. */
  function HierNext(n: nat, inp: EncoderInput, bondBatch: seq<int>, angleBatch: seq<int>, k: nat, h: HierState): HierState
  {
    HierState(
      Conv(AtomBondBlock(k, LastAct(k, n)), h.node, h.edge, inp.atomBondEdges, inp.atomBatch),
      Conv(BondAngleBlock(k, LastAct(k, n)), CurEdge(k, inp), h.angle, inp.bondAngleEdges, bondBatch),
      Conv(AngleDihedralBlock(k, LastAct(k, n)), Expand(BondAngleFloatRbf(k), inp.bondAngles),
           CurDihedral(k, inp), inp.angleDihedralEdges, angleBatch))
  }

  /** Entry `l` of the hidden lists of the no-dihedral variant. */
  function PlainLayers(n: nat, inp: EncoderInput, bondBatch: seq<int>, l: nat): PlainState
    requires l <= n
  {
    if l == 0 then PlainState(InitNode(inp), InitEdge(inp))
    else PlainNext(n, inp, bondBatch, l - 1, PlainLayers(n, inp, bondBatch, l - 1))
  }

  /** Entry `l` of the hidden lists of the dihedral variant. */
  function HierLayers(n: nat, inp: EncoderInput, bondBatch: seq<int>, angleBatch: seq<int>, l: nat): HierState
    requires l <= n
  {
    if l == 0 then HierState(InitNode(inp), InitEdge(inp), Expand(InitBondAngleFloatRbf, inp.bondAngles))
    else HierNext(n, inp, bondBatch, angleBatch, l - 1, HierLayers(n, inp, bondBatch, angleBatch, l - 1))
  }

  /** `cur_dihedral_hidden` of layer `k`. */
  function CurDihedral(k: nat, inp: EncoderInput): (r: Repr)
    ensures forall m :: Uses(r, m) <==> m == DihedralAngleFloatRbf(k)
  {
    Expand(DihedralAngleFloatRbf(k), inp.dihedralAngles)
  }

  /** The result of `EGeoGNNModel.forward` on already-masked inputs. */
  function Encode(withoutDihedral: bool, n: nat, inp: EncoderInput): (r: Result<Encoding, EncodeError>)
    ensures r.Failure? <==>
      BatchVector(inp.numGraphs, inp.numBonds).Failure? ||
      (!withoutDihedral && (BatchVector(inp.numGraphs, inp.numAngles).Failure? || n == 0))
    ensures r.Success? ==> (r.value.angle.None? <==> withoutDihedral) && (r.value.dihedral.None? <==> withoutDihedral)
    ensures r.Success? ==> r.value.graph == MeanPool(r.value.node, inp.atomBatch, inp.numGraphs)
    ensures r.Success? && n == 0 ==> r.value.node == Embed(InitAtomEmbedding, inp.x)
    ensures r.Success? && n > 0 ==>
      r.value.node.Conv? && r.value.node.block == AtomBondBlock(n - 1, false) &&
      r.value.edge.Conv? && r.value.edge.block == BondAngleBlock(n - 1, false) &&
      (r.value.angle.Some? ==> r.value.angle.value.Conv? && r.value.angle.value.block == AngleDihedralBlock(n - 1, false))
    ensures r.Success? && r.value.dihedral.Some? ==> r.value.dihedral.value == CurDihedral(n - 1, inp)
  {
    match BatchVector(inp.numGraphs, inp.numBonds)
    case Failure(e) => Failure(BatchFailure(e))
    case Success(bondBatch) =>
      if withoutDihedral then
        var h := PlainLayers(n, inp, bondBatch, n);
        Success(Encoding(h.node, h.edge, None, None, MeanPool(h.node, inp.atomBatch, inp.numGraphs)))
      else
        match BatchVector(inp.numGraphs, inp.numAngles)
        case Failure(e) => Failure(BatchFailure(e))
        case Success(angleBatch) =>
          if n == 0 then Failure(UnboundDihedral)
          else
            var h := HierLayers(n, inp, bondBatch, angleBatch, n);
            Success(Encoding(h.node, h.edge, Some(h.angle), Some(CurDihedral(n - 1, inp)),
                             MeanPool(h.node, inp.atomBatch, inp.numGraphs)))
  }

  /** The modules one no-dihedral layer applies on top of the states it reads. */
  lemma PlainNextUses(n: nat, inp: EncoderInput, bondBatch: seq<int>, k: nat, h: PlainState, h2: PlainState, m: Module)
    requires h2 == PlainNext(n, inp, bondBatch, k, h)
    ensures Uses(h2.node, m) <==> m == AtomBondBlock(k, LastAct(k, n)) || Uses(h.node, m) || Uses(h.edge, m)
    ensures Uses(h2.edge, m) <==>
      m == BondAngleBlock(k, LastAct(k, n)) || m == BondEmbedding(k) || m == BondFloatRbf(k) || m == BondAngleFloatRbf(k)
  {
  }

  /** The modules one dihedral-variant layer applies on top of the states it reads. */
  lemma HierNextUses(n: nat, inp: EncoderInput, bondBatch: seq<int>, angleBatch: seq<int>, k: nat, h: HierState, h2: HierState, m: Module)
    requires h2 == HierNext(n, inp, bondBatch, angleBatch, k, h)
    ensures Uses(h2.node, m) <==> m == AtomBondBlock(k, LastAct(k, n)) || Uses(h.node, m) || Uses(h.edge, m)
    ensures Uses(h2.edge, m) <==>
      m == BondAngleBlock(k, LastAct(k, n)) || m == BondEmbedding(k) || m == BondFloatRbf(k) || Uses(h.angle, m)
    ensures Uses(h2.angle, m) <==>
      m == AngleDihedralBlock(k, LastAct(k, n)) || m == BondAngleFloatRbf(k) || m == DihedralAngleFloatRbf(k)
  {
  }

  /** The modules used by a no-dihedral state all come from layers below `l`. */
  predicate PlainBelow(h: PlainState, m: Module, l: int)
  {
    Uses(h.node, m) || Uses(h.edge, m) ==> m.Depth() < l
  }

  lemma PlainNextDepth(n: nat, inp: EncoderInput, bondBatch: seq<int>, k: nat, h: PlainState, h2: PlainState, m: Module)
    requires h2 == PlainNext(n, inp, bondBatch, k, h)
    requires PlainBelow(h, m, k)
    ensures PlainBelow(h2, m, k + 1)
  {
    PlainNextUses(n, inp, bondBatch, k, h, h2, m);
  }

  /** Layer `l` of the no-dihedral variant is computed only with the initial modules and those of layers below `l`. */
  lemma {:induction false} PlainLayersUseEarlierModules(n: nat, inp: EncoderInput, bondBatch: seq<int>, l: nat, m: Module)
    requires l <= n
    ensures PlainBelow(PlainLayers(n, inp, bondBatch, l), m, l)
  {
    if l > 0 {
      PlainLayersUseEarlierModules(n, inp, bondBatch, l - 1, m);
      PlainNextDepth(n, inp, bondBatch, l - 1, PlainLayers(n, inp, bondBatch, l - 1), PlainLayers(n, inp, bondBatch, l), m);
    }
  }

  /** The modules used by a dihedral-variant state all come from layers below `l`. */
  predicate HierBelow(h: HierState, m: Module, l: int)
  {
    Uses(h.node, m) || Uses(h.edge, m) || Uses(h.angle, m) ==> m.Depth() < l
  }

  lemma HierNextDepth(n: nat, inp: EncoderInput, bondBatch: seq<int>, angleBatch: seq<int>, k: nat, h: HierState, h2: HierState, m: Module)
    requires h2 == HierNext(n, inp, bondBatch, angleBatch, k, h)
    requires HierBelow(h, m, k)
    ensures HierBelow(h2, m, k + 1)
  {
    HierNextUses(n, inp, bondBatch, angleBatch, k, h, h2, m);
  }

  /** Layer `l` of the dihedral variant is computed only with the initial modules and those of layers below `l`. */
  lemma {:induction false} HierLayersUseEarlierModules(n: nat, inp: EncoderInput, bondBatch: seq<int>, angleBatch: seq<int>, l: nat, m: Module)
    requires l <= n
    ensures HierBelow(HierLayers(n, inp, bondBatch, angleBatch, l), m, l)
  {
    if l > 0 {
      HierLayersUseEarlierModules(n, inp, bondBatch, angleBatch, l - 1, m);
      HierNextDepth(n, inp, bondBatch, angleBatch, l - 1,
                   HierLayers(n, inp, bondBatch, angleBatch, l - 1), HierLayers(n, inp, bondBatch, angleBatch, l), m);
    }
  }

  /** Modules that only the dihedral variant applies. */
  predicate DihedralOnly(m: Module)
  {
    m.DihedralAngleFloatRbf? || m.AngleDihedralBlock? || m == InitBondAngleFloatRbf
  }

  /** No state of the no-dihedral variant applies a dihedral-only module. */
  predicate PlainAvoids(h: PlainState, m: Module)
  {
    !Uses(h.node, m) && !Uses(h.edge, m)
  }

  lemma PlainAvoidsStep(n: nat, inp: EncoderInput, bondBatch: seq<int>, k: nat, h: PlainState, h2: PlainState, m: Module)
    requires h2 == PlainNext(n, inp, bondBatch, k, h)
    requires DihedralOnly(m) && PlainAvoids(h, m)
    ensures PlainAvoids(h2, m)
  {
    PlainNextUses(n, inp, bondBatch, k, h, h2, m);
  }

  /** The no-dihedral variant never applies a dihedral RBF, an angle-dihedral block or the initial angle RBF. */
  lemma {:induction false} PlainLayersAvoidDihedralModules(n: nat, inp: EncoderInput, bondBatch: seq<int>, l: nat, m: Module)
    requires l <= n && DihedralOnly(m)
    ensures PlainAvoids(PlainLayers(n, inp, bondBatch, l), m)
  {
    if l > 0 {
      PlainLayersAvoidDihedralModules(n, inp, bondBatch, l - 1, m);
      PlainAvoidsStep(n, inp, bondBatch, l - 1, PlainLayers(n, inp, bondBatch, l - 1), PlainLayers(n, inp, bondBatch, l), m);
    }
  }

  /** The no-dihedral hidden states do not read dihedral angles, the dihedral graph or the angle counts. */
  lemma {:induction false} PlainLayersIgnoreDihedralInputs(
    n: nat, inp: EncoderInput, bondBatch: seq<int>, l: nat,
    dihedralAngles: seq<real>, angleDihedralEdges: seq<Edge>, numAngles: seq<int>)
    requires l <= n
    ensures PlainLayers(n, inp, bondBatch, l) ==
      PlainLayers(n, inp.(dihedralAngles := dihedralAngles, angleDihedralEdges := angleDihedralEdges, numAngles := numAngles), bondBatch, l)
  {
    if l > 0 {
      PlainLayersIgnoreDihedralInputs(n, inp, bondBatch, l - 1, dihedralAngles, angleDihedralEdges, numAngles);
    }
  }

  /** The encoder without dihedral gives the same result whatever the dihedral inputs are. */
  lemma WithoutDihedralIgnoresDihedralInputs(
    n: nat, inp: EncoderInput, dihedralAngles: seq<real>, angleDihedralEdges: seq<Edge>, numAngles: seq<int>)
    ensures Encode(true, n, inp) ==
      Encode(true, n, inp.(dihedralAngles := dihedralAngles, angleDihedralEdges := angleDihedralEdges, numAngles := numAngles))
  {
    if BatchVector(inp.numGraphs, inp.numBonds).Success? {
      PlainLayersIgnoreDihedralInputs(n, inp, BatchVector(inp.numGraphs, inp.numBonds).value, n,
                                      dihedralAngles, angleDihedralEdges, numAngles);
    }
  }

  /**
   * How far the dihedral RBF of layer `j` has travelled in the state of
   * layer `l`: it is in the angle state only when `j + 1 == l`, in the edge
   * state only when `j + 2 == l`, and in the node state from `j + 3 <= l` on.
   */
  predicate DihedralReach(h: HierState, j: nat, l: nat)
  {
    (Uses(h.angle, DihedralAngleFloatRbf(j)) <==> j + 1 == l) &&
    (Uses(h.edge, DihedralAngleFloatRbf(j)) <==> j + 2 == l) &&
    (Uses(h.node, DihedralAngleFloatRbf(j)) <==> j + 3 <= l)
  }

  lemma DihedralReachStep(n: nat, inp: EncoderInput, bondBatch: seq<int>, angleBatch: seq<int>, k: nat, h: HierState, h2: HierState, j: nat)
    requires h2 == HierNext(n, inp, bondBatch, angleBatch, k, h)
    requires DihedralReach(h, j, k)
    ensures DihedralReach(h2, j, k + 1)
  {
    HierNextUses(n, inp, bondBatch, angleBatch, k, h, h2, DihedralAngleFloatRbf(j));
  }

  /**
   * Dihedral information reaches the atom representations two layers after
   * it enters the angle states. With fewer than three layers the atom
   * representations do not depend on dihedral angles at all.
   */
  lemma {:induction false} DihedralReachLayers(n: nat, inp: EncoderInput, bondBatch: seq<int>, angleBatch: seq<int>, l: nat, j: nat)
    requires l <= n
    ensures DihedralReach(HierLayers(n, inp, bondBatch, angleBatch, l), j, l)
  {
    if l > 0 {
      DihedralReachLayers(n, inp, bondBatch, angleBatch, l - 1, j);
      DihedralReachStep(n, inp, bondBatch, angleBatch, l - 1, HierLayers(n, inp, bondBatch, angleBatch, l - 1),
                        HierLayers(n, inp, bondBatch, angleBatch, l), j);
    }
  }

  /**
   * In the returned tuple of the dihedral variant, the atom representations
   * depend on the dihedral RBF of layer `j` exactly when `j + 3 <= n_layers`.
   */
  lemma EncodeNodeDihedralReach(n: nat, inp: EncoderInput, j: nat)
    requires Encode(false, n, inp).Success?
    ensures Uses(Encode(false, n, inp).value.node, DihedralAngleFloatRbf(j)) <==> j + 3 <= n
    ensures Uses(Encode(false, n, inp).value.angle.value, DihedralAngleFloatRbf(j)) <==> j + 1 == n
  {
    var bondBatch := BatchVector(inp.numGraphs, inp.numBonds).value;
    var angleBatch := BatchVector(inp.numGraphs, inp.numAngles).value;
    DihedralReachLayers(n, inp, bondBatch, angleBatch, n, j);
  }

  /** The no-dihedral variant's node and edge representations apply no dihedral-only module. */
  lemma EncodeWithoutDihedralAvoids(n: nat, inp: EncoderInput, m: Module)
    requires Encode(true, n, inp).Success? && DihedralOnly(m)
    ensures !Uses(Encode(true, n, inp).value.node, m) && !Uses(Encode(true, n, inp).value.edge, m)
    ensures !Uses(Encode(true, n, inp).value.graph, m)
  {
    var bondBatch := BatchVector(inp.numGraphs, inp.numBonds).value;
    PlainLayersAvoidDihedralModules(n, inp, bondBatch, n, m);
  }
}
