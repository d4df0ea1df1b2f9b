/**
 * The pretraining wrapper `EGEM`: one prediction head per selected task,
 * the `_get_*_loss` helpers that feed each head the representations of the
 * atoms behind a masked atom, bond, angle or dihedral, and `compute_loss`,
 * which adds up the losses of the selected tasks in a fixed order and
 * reports them by name.
 *
 * What a head predicts and how its criterion scores the prediction is
 * numerics; it is the parameter `lossOf`, which gets the task and exactly
 * the inputs the helper hands to the head.
 */
module Pretrain {
  import opened Wrappers
  import opened Graph
  import opened Batching
  import opened Masking
  import opened Dataflow
  import opened Resolution
  import opened Encoder

  datatype Task = Blr | Bar | Dar | Adc | CM5 | ESPC | Hirshfeld | NPA | Wiberg

  /** The name that selects the task in `pretrain_tasks`. */
  function Name(t: Task): string
  {
    match t
    case Blr => "Blr"
    case Bar => "Bar"
    case Dar => "Dar"
    case Adc => "Adc"
    case CM5 => "CM5"
    case ESPC => "ESPC"
    case Hirshfeld => "HIRSHFELD"
    case NPA => "NPA"
    case Wiberg => "WIBERG"
  }

  /** How many atom representations the head reads side by side per prediction. */
  function Arity(t: Task): nat
  {
    match t
    case Blr => 2
    case Bar => 3
    case Dar => 4
    case Adc => 2
    case CM5 => 1
    case ESPC => 1
    case Hirshfeld => 1
    case NPA => 1
    case Wiberg => 2
  }

  /** The tasks `compute_loss` visits, in its order; `Adc` gets a head but no loss. */
  const LossOrder: seq<Task> := [Blr, Bar, Dar, CM5, ESPC, Hirshfeld, NPA, Wiberg]

  /** The key of the task's entry in the returned loss dictionary. */
  function LossKey(t: Task): string
    requires t != Adc
  {
    match t
    case Blr => "bond_length_loss"
    case Bar => "bond_angle_loss"
    case Dar => "dihedral_angle_loss"
    case CM5 => "cm5_charge_loss"
    case ESPC => "espc_charge_loss"
    case Hirshfeld => "hirshfeld_charge_loss"
    case NPA => "npa_charge_loss"
    case Wiberg => "wiberg_order_loss"
  }

  /** Different tasks report under different keys, none of them the total's key. */
  lemma LossKeysDistinct(t: Task, u: Task)
    requires t != Adc && u != Adc
    ensures LossKey(t) == LossKey(u) <==> t == u
    ensures LossKey(t) != "loss"
  {
  }

  /** Different tasks are selected by different names. */
  lemma NamesDistinct(t: Task, u: Task)
    ensures Name(t) == Name(u) <==> t == u
  {
  }

  // ---------------------------------------------------------------- heads

  datatype Criterion = SmoothL1 | CrossEntropy

  /** An `MLP(input_size, output_sizes, use_layer_norm, use_bn, ReLU, dropout)`. */
  datatype Mlp = Mlp(inputSize: int, outputSizes: seq<int>, useLayerNorm: bool, useBn: bool, dropout: real)

  datatype Head = Head(mlp: Mlp, criterion: Criterion)

  /** The constructor arguments every head is built from. */
  datatype HeadConfig = HeadConfig(
    latentSize: nat, nLayers: int, hiddenSize: int, dropoutRate: real,
    useLayerNorm: bool, useBn: bool, adcVocab: int)

  /**
   * How many hidden layers `[hidden_size] * n_layers` gives: a list
   * repeated a negative number of times is empty, as for zero.
   */
  function HiddenLayers(c: HeadConfig): (r: nat)
    ensures c.nLayers <= 0 ==> r == 0
    ensures c.nLayers >= 0 ==> r == c.nLayers
  {
    if c.nLayers < 0 then 0 else c.nLayers
  }

  /**
   * The head `__init__` builds for task `t`: `n_layers` hidden layers and
   * one output per prediction, except the distance classifier, which scores
   * `adc_vocab + 3` classes with cross-entropy.
   */
  function HeadFor(t: Task, c: HeadConfig): (r: Head)
    ensures r.mlp.inputSize == c.latentSize * Arity(t)
    ensures |r.mlp.outputSizes| == HiddenLayers(c) + 1
    ensures forall l | 0 <= l < HiddenLayers(c) :: r.mlp.outputSizes[l] == c.hiddenSize
    ensures r.mlp.outputSizes[HiddenLayers(c)] == if t == Adc then c.adcVocab + 3 else 1
    ensures r.criterion == CrossEntropy <==> t == Adc
    ensures r.mlp.useLayerNorm == c.useLayerNorm && r.mlp.useBn == c.useBn && r.mlp.dropout == c.dropoutRate
  {
    var width := match t
      case Blr => c.latentSize * 2
      case Bar => c.latentSize * 3
      case Dar => c.latentSize * 4
      case Adc => c.latentSize * 2
      case Wiberg => c.latentSize * 2
      case _ => c.latentSize;
    var out := if t == Adc then c.adcVocab + 3 else 1;
    Head(Mlp(width, Replicate(c.hiddenSize, HiddenLayers(c)) + [out], c.useLayerNorm, c.useBn, c.dropoutRate),
         if t == Adc then CrossEntropy else SmoothL1)
  }

  /**
   * One `if '<name>' in pretrain_tasks:` block of `__init__`: the task's
   * `<task>_mlp` and `<task>_loss` attributes, set only when it is selected.
   */
  function SelectedHead(t: Task, tasks: seq<string>, c: HeadConfig): Option<Head>
  {
    if Name(t) in tasks then Some(HeadFor(t, c)) else None
  }

  // ------------------------------------------------------ loss helpers

  /** Everything `compute_loss` receives, the atom representations being the encoder's node output. */
  datatype LossBatch = LossBatch(
    atomAttr: Repr, numAtoms: int,
    bondLengths: seq<real>, bondAngles: seq<real>, dihedralAngles: seq<real>,
    atomBondEdges: seq<Edge>, bondAngleEdges: seq<Edge>, angleDihedralEdges: seq<Edge>,
    cm5Charges: Option<seq<real>>, espcCharges: Option<seq<real>>, hirshfeldCharges: Option<seq<real>>,
    npaCharges: Option<seq<real>>, bondOrders: Option<seq<real>>,
    maskedAtoms: Option<seq<int>>, maskedBonds: Option<seq<int>>,
    maskedAngles: Option<seq<int>>, maskedDihedrals: Option<seq<int>>)

  /** What a helper hands to its head: which atoms' rows to concatenate, and the targets. */
  datatype HeadInput = HeadInput(atomAttr: Repr, atoms: seq<seq<int>>, targets: seq<real>)

  datatype LossError =
    | MissingIndices(task: Task)   // the task's masked indices are `None`
    | IndexOutOfRange(task: Task)  // `index_select` or target indexing refused an index
    | MissingTargets(task: Task)   // the task's target array is `None`, which cannot be indexed
    | NoLossTerm                   // no task added a loss, so `loss` is still the integer 0

  /** The masked indices a task's helper is given. */
  function Indices(t: Task, b: LossBatch): Option<seq<int>>
  {
    match t
    case Blr => b.maskedBonds
    case Wiberg => b.maskedBonds
    case Bar => b.maskedAngles
    case Dar => b.maskedDihedrals
    case _ => b.maskedAtoms
  }

  /**
   * The values a task's head learns to predict. The geometric arrays are
   * modelled as always present; the per-atom charges and the bond orders
   * may be `None`.
   */
  function Targets(t: Task, b: LossBatch): Option<seq<real>>
  {
    match t
    case Blr => Some(b.bondLengths)
    case Bar => Some(b.bondAngles)
    case Dar => Some(b.dihedralAngles)
    case CM5 => b.cm5Charges
    case ESPC => b.espcCharges
    case Hirshfeld => b.hirshfeldCharges
    case NPA => b.npaCharges
    case Wiberg => b.bondOrders
    case Adc => Some([])
  }

  /** The atoms behind each masked item, traced through the edge tables. */
  function Atoms(t: Task, b: LossBatch, idx: seq<int>): Option<seq<seq<int>>>
  {
    match t
    case Blr => BondAtoms(b.atomBondEdges, idx)
    case Wiberg => BondAtoms(b.atomBondEdges, idx)
    case Bar => AngleAtoms(b.atomBondEdges, b.bondAngleEdges, idx)
    case Dar => DihedralAtoms(b.atomBondEdges, b.bondAngleEdges, b.angleDihedralEdges, idx)
    case _ => Some(seq(|idx|, k requires 0 <= k < |idx| => [idx[k]]))
  }

  /** The masked items of task `t` lead, through the edge tables, to atoms that `atom_attr` has rows for. */
  predicate Resolved(t: Task, b: LossBatch, idx: seq<int>)
  {
    Atoms(t, b, idx).Some? && AtomsInRange(Atoms(t, b, idx).value, b.numAtoms)
  }

  /**
   * The `_get_*_loss` helper of task `t` up to the call of its head: the
   * atom tuples and targets, or the reason it raises. The helper first
   * selects the atom rows, then indexes the targets.
   */
  function TaskInput(t: Task, b: LossBatch): (r: Result<HeadInput, LossError>)
    requires t != Adc
    ensures r.Failure? ==>
      r.error == MissingIndices(t) || r.error == IndexOutOfRange(t) || r.error == MissingTargets(t)
    ensures r == Failure(MissingIndices(t)) <==> Indices(t, b).None?
    ensures Indices(t, b).Some? ==> var idx := Indices(t, b).value;
      (r == Failure(MissingTargets(t)) <==> Resolved(t, b, idx) && Targets(t, b).None?) &&
      (r.Success? <==> Resolved(t, b, idx) && Targets(t, b).Some? && Gather(Targets(t, b).value, idx).Some?)
    ensures r.Success? ==> var idx := Indices(t, b).value;
      r.value.atomAttr == b.atomAttr && r.value.atoms == Atoms(t, b, idx).value &&
      ((t == Blr || t == Wiberg) ==> r.value.atoms == BondAtoms(b.atomBondEdges, idx).value) &&
      (t == Bar ==> r.value.atoms == AngleAtoms(b.atomBondEdges, b.bondAngleEdges, idx).value) &&
      (t == Dar ==>
         r.value.atoms == DihedralAtoms(b.atomBondEdges, b.bondAngleEdges, b.angleDihedralEdges, idx).value) &&
      (Arity(t) == 1 ==> forall k | 0 <= k < |idx| :: r.value.atoms[k] == [idx[k]])
    ensures r.Success? ==> var idx := Indices(t, b).value; var values := Targets(t, b).value;
      |r.value.atoms| == |idx| && |r.value.targets| == |idx| &&
      AtomsInRange(r.value.atoms, b.numAtoms) &&
      (forall k | 0 <= k < |idx| :: |r.value.atoms[k]| == Arity(t)) &&
      (forall k | 0 <= k < |idx| :: -|values| <= idx[k] < |values| &&
         r.value.targets[k] == values[Wrap(idx[k], |values|)])
  {
    match Indices(t, b)
    case None => Failure(MissingIndices(t))
    case Some(idx) =>
      var atoms := Atoms(t, b, idx);
      if atoms.None? || !AtomsInRange(atoms.value, b.numAtoms) then Failure(IndexOutOfRange(t))
      else if Targets(t, b).None? then Failure(MissingTargets(t))
      else
        var targets := Gather(Targets(t, b).value, idx);
        if targets.None? then Failure(IndexOutOfRange(t))
        else Success(HeadInput(b.atomAttr, atoms.value, targets.value))
  }

  /** The helper's loss: the head's prediction on the tuples, scored against the targets. */
  function TaskLoss(t: Task, b: LossBatch, lossOf: (Task, HeadInput) -> real): Result<real, LossError>
    requires t != Adc
  {
    var input :- TaskInput(t, b);
    Success(lossOf(t, input))
  }

  /**
   * The concatenated tuple a head receives is exactly as wide as the head
   * `__init__` built for the task.
   */
  lemma HeadWidthMatchesInput(t: Task, b: LossBatch, c: HeadConfig, k: int)
    requires t != Adc && TaskInput(t, b).Success?
    requires 0 <= k < |TaskInput(t, b).value.atoms|
    ensures c.latentSize * |TaskInput(t, b).value.atoms[k]| == HeadFor(t, c).mlp.inputSize
  {
  }

  /**
   * The geometric targets are the unmasked values: the head of `Blr`, `Bar`
   * or `Dar` is scored against exactly the value the encoder saw as 0.
   */
  lemma GeometricTargetsHiddenFromEncoder(t: Task, b: LossBatch, k: int)
    requires t == Blr || t == Bar || t == Dar
    requires TaskInput(t, b).Success? && 0 <= k < |Indices(t, b).value|
    ensures Targets(t, b).Some?
    ensures var values := Targets(t, b).value; var i := Wrap(Indices(t, b).value[k], |values|);
      0 <= i < |values| &&
      TaskInput(t, b).value.targets[k] == values[i] &&
      ZeroAt(values, Indices(t, b))[i] == 0.0
  {
    var idx := Indices(t, b).value;
    var values := Targets(t, b).value;
    var i := Wrap(idx[k], |values|);
    assert Hits(Indices(t, b), |values|, i) by {
      assert idx[k] in idx;
    }
  }

  // ------------------------------------------------------- compute_loss

  /** The running `loss`, `loss_dict`, and whether `loss` has become a tensor. */
  datatype LossState = LossState(total: real, dict: map<string, real>, isTensor: bool)

  /** What each loss helper returns for the current batch: its loss, or the error it raises. */
  type Outcomes = Task -> Result<real, LossError>

  /** The helpers of this batch; `Adc` has none and `compute_loss` never asks for it. */
  function Helpers(b: LossBatch, lossOf: (Task, HeadInput) -> real): Outcomes
  {
    t => if t == Adc then Failure(MissingIndices(Adc)) else TaskLoss(t, b, lossOf)
  }

  predicate NoAdc(order: seq<Task>)
  {
    forall i | 0 <= i < |order| :: order[i] != Adc
  }

  /** One `if "<name>" in self.pretrain_tasks:` block of `compute_loss`. */
  function Step(s: LossState, t: Task, tasks: seq<string>, h: Outcomes): Result<LossState, LossError>
    requires t != Adc
  {
    if Name(t) in tasks then
      var v :- h(t);
      Success(LossState(s.total + v, s.dict[LossKey(t) := v], true))
    else
      Success(s)
  }

  /** The returned pair, or the error of `.detach()` on a `loss` that is still the integer 0. */
  function Finish(s: LossState): Result<(real, map<string, real>), LossError>
  {
    if !s.isTensor then Failure(NoLossTerm) else Success((s.total, s.dict["loss" := s.total]))
  }

  /** The eight blocks of `compute_loss` one after the other, then the total under `"loss"`. */
  function Blocks(tasks: seq<string>, h: Outcomes): Result<(real, map<string, real>), LossError>
  {
    var s0 := LossState(0.0, map[], false);
    var s1 :- Step(s0, Blr, tasks, h);
    var s2 :- Step(s1, Bar, tasks, h);
    var s3 :- Step(s2, Dar, tasks, h);
    var s4 :- Step(s3, CM5, tasks, h);
    var s5 :- Step(s4, ESPC, tasks, h);
    var s6 :- Step(s5, Hirshfeld, tasks, h);
    var s7 :- Step(s6, NPA, tasks, h);
    var s8 :- Step(s7, Wiberg, tasks, h);
    Finish(s8)
  }

  /** `compute_loss` on a batch: the blocks with this batch's helpers. */
  function ComputeLossSpec(tasks: seq<string>, b: LossBatch, lossOf: (Task, HeadInput) -> real)
    : Result<(real, map<string, real>), LossError>
  {
    Blocks(tasks, Helpers(b, lossOf))
  }

  /** The blocks for the first `k` tasks of `order`, run one after the other from the initial `0` and `{}`. */
  function Accumulate(order: seq<Task>, k: nat, tasks: seq<string>, h: Outcomes): Result<LossState, LossError>
    requires NoAdc(order) && k <= |order|
  {
    if k == 0 then Success(LossState(0.0, map[], false))
    else
      var s :- Accumulate(order, k - 1, tasks, h);
      Step(s, order[k - 1], tasks, h)
  }

  /** Every selected task among the first `k` of `order` gets through its helper. */
  predicate Resolves(order: seq<Task>, k: nat, tasks: seq<string>, h: Outcomes)
    requires k <= |order|
  {
    forall i | 0 <= i < k && Name(order[i]) in tasks :: h(order[i]).Success?
  }

  /** The loss task `t` contributes to the total: its helper's loss if selected, else nothing. */
  function Term(t: Task, tasks: seq<string>, h: Outcomes): real
    requires Name(t) in tasks ==> h(t).Success?
  {
    if Name(t) in tasks then h(t).value else 0.0
  }

  /** Reference total: the contributions of tasks `i` to `k - 1` of `order`, summed from the front. */
  function Sum(order: seq<Task>, i: nat, k: nat, tasks: seq<string>, h: Outcomes): real
    requires i <= k <= |order| && Resolves(order, k, tasks, h)
    decreases k - i
  {
    if i == k then 0.0 else Term(order[i], tasks, h) + Sum(order, i + 1, k, tasks, h)
  }

  /** The keys the selected tasks among the first `k` of `order` report under. */
  function Keys(order: seq<Task>, k: nat, tasks: seq<string>): set<string>
    requires NoAdc(order) && k <= |order|
  {
    set i | 0 <= i < k && Name(order[i]) in tasks :: LossKey(order[i])
  }

  /** Some task among the first `k` of `order` is selected. */
  predicate AnySelected(order: seq<Task>, k: nat, tasks: seq<string>)
    requires k <= |order|
  {
    exists i | 0 <= i < k :: Name(order[i]) in tasks
  }

  /** Each selected task among the first `k` of `order` has its helper's loss in the dictionary. */
  predicate ValuesRecorded(dict: map<string, real>, order: seq<Task>, k: nat, tasks: seq<string>, h: Outcomes)
    requires NoAdc(order) && k <= |order| && Resolves(order, k, tasks, h)
  {
    forall i | 0 <= i < k && Name(order[i]) in tasks ::
      LossKey(order[i]) in dict && dict[LossKey(order[i])] == h(order[i]).value
  }

  /** What the state after the first `k` blocks of `order` holds. */
  predicate Summarises(s: LossState, order: seq<Task>, k: nat, tasks: seq<string>, h: Outcomes)
    requires NoAdc(order) && k <= |order| && Resolves(order, k, tasks, h)
  {
    s.total == Sum(order, 0, k, tasks, h) &&
    s.dict.Keys == Keys(order, k, tasks) &&
    ValuesRecorded(s.dict, order, k, tasks, h) &&
    (s.isTensor <==> AnySelected(order, k, tasks))
  }

  /** Summing from the front up to `k + 1` is summing up to `k` and adding the term of task `k`. */
  lemma {:induction false} SumSnoc(order: seq<Task>, i: nat, k: nat, tasks: seq<string>, h: Outcomes)
    requires i <= k < |order| && Resolves(order, k + 1, tasks, h)
    ensures Sum(order, i, k + 1, tasks, h) == Sum(order, i, k, tasks, h) + Term(order[k], tasks, h)
    decreases k - i
  {
    if i < k {
      SumSnoc(order, i + 1, k, tasks, h);
    }
  }

  /** One block adds the key of its task when the task is selected. */
  lemma KeysStep(order: seq<Task>, k: nat, tasks: seq<string>)
    requires NoAdc(order) && k < |order|
    ensures Keys(order, k + 1, tasks) ==
      Keys(order, k, tasks) + (if Name(order[k]) in tasks then {LossKey(order[k])} else {})
  {
  }

  /** One block keeps the dictionary's values right for every task visited so far. */
  lemma ValuesStep(order: seq<Task>, k: nat, tasks: seq<string>, h: Outcomes, s: LossState, s2: LossState)
    requires NoAdc(order) && k < |order| && Resolves(order, k + 1, tasks, h)
    requires ValuesRecorded(s.dict, order, k, tasks, h)
    requires Step(s, order[k], tasks, h) == Success(s2)
    ensures ValuesRecorded(s2.dict, order, k + 1, tasks, h)
  {
    forall i | 0 <= i < k + 1 && Name(order[i]) in tasks
      ensures LossKey(order[i]) in s2.dict && s2.dict[LossKey(order[i])] == h(order[i]).value
    {
      LossKeysDistinct(order[i], order[k]);
    }
  }

  /** One block keeps the tensor flag equal to "some task visited so far is selected". */
  lemma TensorStep(order: seq<Task>, k: nat, tasks: seq<string>, h: Outcomes, s: LossState, s2: LossState)
    requires NoAdc(order) && k < |order|
    requires s.isTensor <==> AnySelected(order, k, tasks)
    requires Step(s, order[k], tasks, h) == Success(s2)
    ensures s2.isTensor <==> AnySelected(order, k + 1, tasks)
  {
    if AnySelected(order, k + 1, tasks) && Name(order[k]) !in tasks {
      var i :| 0 <= i < k + 1 && Name(order[i]) in tasks;
      assert i < k;
    }
  }

  /**
   * The first `k` blocks of `order` succeed exactly when every selected
   * task's helper among them does, and then the state holds the sum of the
   * selected losses, one dictionary entry per selected task, and a tensor
   * exactly when some task was selected.
   */
  lemma {:induction false} AccumulateSummarises(order: seq<Task>, k: nat, tasks: seq<string>, h: Outcomes)
    requires NoAdc(order) && k <= |order|
    ensures Accumulate(order, k, tasks, h).Success? <==> Resolves(order, k, tasks, h)
    ensures Accumulate(order, k, tasks, h).Success? ==> Summarises(Accumulate(order, k, tasks, h).value, order, k, tasks, h)
  {
    if k > 0 {
      AccumulateSummarises(order, k - 1, tasks, h);
      if Resolves(order, k, tasks, h) {
        var s := Accumulate(order, k - 1, tasks, h).value;
        var s2 := Accumulate(order, k, tasks, h).value;
        SumSnoc(order, 0, k - 1, tasks, h);
        KeysStep(order, k - 1, tasks);
        ValuesStep(order, k - 1, tasks, h, s, s2);
        TensorStep(order, k - 1, tasks, h, s, s2);
      }
    }
  }

  /** A helper that raises ends the blocks: a failure after `m` blocks is the failure after any later one. */
  lemma {:induction false} FailurePersists(order: seq<Task>, m: nat, k: nat, tasks: seq<string>, h: Outcomes)
    requires NoAdc(order) && m <= k <= |order|
    requires Accumulate(order, m, tasks, h).Failure?
    ensures Accumulate(order, k, tasks, h) == Accumulate(order, m, tasks, h)
  {
    if m < k {
      FailurePersists(order, m, k - 1, tasks, h);
    }
  }

  /** One more block of `order` after the first `k`. */
  lemma AccumulateNext(order: seq<Task>, k: nat, tasks: seq<string>, h: Outcomes, s: LossState)
    requires NoAdc(order) && k < |order|
    requires Accumulate(order, k, tasks, h) == Success(s)
    ensures Accumulate(order, k + 1, tasks, h) == Step(s, order[k], tasks, h)
  {
  }

  /** The eight blocks of `compute_loss` are the blocks of `LossOrder`, run in that order. */
  lemma ComputeLossIsFold(tasks: seq<string>, h: Outcomes)
    ensures NoAdc(LossOrder)
    ensures Blocks(tasks, h) == var s :- Accumulate(LossOrder, |LossOrder|, tasks, h); Finish(s)
  {
    var r0: Result<LossState, LossError> := Success(LossState(0.0, map[], false));
    var r1 := Step(r0.value, Blr, tasks, h);
    AccumulateNext(LossOrder, 0, tasks, h, r0.value);
    if r1.Failure? {
      FailurePersists(LossOrder, 1, |LossOrder|, tasks, h);
      return;
    }
    var r2 := Step(r1.value, Bar, tasks, h);
    AccumulateNext(LossOrder, 1, tasks, h, r1.value);
    if r2.Failure? {
      FailurePersists(LossOrder, 2, |LossOrder|, tasks, h);
      return;
    }
    var r3 := Step(r2.value, Dar, tasks, h);
    AccumulateNext(LossOrder, 2, tasks, h, r2.value);
    if r3.Failure? {
      FailurePersists(LossOrder, 3, |LossOrder|, tasks, h);
      return;
    }
    var r4 := Step(r3.value, CM5, tasks, h);
    AccumulateNext(LossOrder, 3, tasks, h, r3.value);
    if r4.Failure? {
      FailurePersists(LossOrder, 4, |LossOrder|, tasks, h);
      return;
    }
    var r5 := Step(r4.value, ESPC, tasks, h);
    AccumulateNext(LossOrder, 4, tasks, h, r4.value);
    if r5.Failure? {
      FailurePersists(LossOrder, 5, |LossOrder|, tasks, h);
      return;
    }
    var r6 := Step(r5.value, Hirshfeld, tasks, h);
    AccumulateNext(LossOrder, 5, tasks, h, r5.value);
    if r6.Failure? {
      FailurePersists(LossOrder, 6, |LossOrder|, tasks, h);
      return;
    }
    var r7 := Step(r6.value, NPA, tasks, h);
    AccumulateNext(LossOrder, 6, tasks, h, r6.value);
    if r7.Failure? {
      FailurePersists(LossOrder, 7, |LossOrder|, tasks, h);
      return;
    }
    var r8 := Step(r7.value, Wiberg, tasks, h);
    AccumulateNext(LossOrder, 7, tasks, h, r7.value);
  }

  /**
   * `compute_loss` returns the sum of the selected tasks' losses and a
   * dictionary holding each selected task's loss under its key and the sum
   * under `"loss"`. It raises when a selected helper raises or when no
   * loss-bearing task is selected.
   */
  lemma ComputeLossOutcome(tasks: seq<string>, h: Outcomes)
    ensures NoAdc(LossOrder)
    ensures Blocks(tasks, h).Success? <==>
      Resolves(LossOrder, |LossOrder|, tasks, h) && AnySelected(LossOrder, |LossOrder|, tasks)
    ensures Resolves(LossOrder, |LossOrder|, tasks, h) && !AnySelected(LossOrder, |LossOrder|, tasks) ==>
      Blocks(tasks, h) == Failure(NoLossTerm)
    ensures Blocks(tasks, h).Success? ==>
      var (total, dict) := Blocks(tasks, h).value;
      total == Sum(LossOrder, 0, |LossOrder|, tasks, h) &&
      dict.Keys == Keys(LossOrder, |LossOrder|, tasks) + {"loss"} &&
      dict["loss"] == total &&
      forall t | t in LossOrder && Name(t) in tasks :: h(t).Success? && dict[LossKey(t)] == h(t).value
  {
    ComputeLossIsFold(tasks, h);
    AccumulateSummarises(LossOrder, |LossOrder|, tasks, h);
    var acc := Accumulate(LossOrder, |LossOrder|, tasks, h);
    if acc.Success? && acc.value.isTensor {
      var dict := Blocks(tasks, h).value.1;
      forall t | t in LossOrder && Name(t) in tasks
        ensures h(t).Success? && dict[LossKey(t)] == h(t).value
      {
        var i :| 0 <= i < |LossOrder| && LossOrder[i] == t;
        LossKeysDistinct(t, t);
      }
    }
  }

  /**
   * On a batch: `compute_loss` succeeds only when every selected helper
   * resolves its indices and has targets, and then each selected task's
   * entry is the criterion applied to the resolved atom tuples and the
   * gathered targets.
   */
  lemma ComputeLossUsesHelpers(tasks: seq<string>, b: LossBatch, lossOf: (Task, HeadInput) -> real, t: Task)
    requires ComputeLossSpec(tasks, b, lossOf).Success?
    requires t in LossOrder && Name(t) in tasks
    ensures t != Adc && TaskInput(t, b).Success?
    ensures LossKey(t) in ComputeLossSpec(tasks, b, lossOf).value.1
    ensures ComputeLossSpec(tasks, b, lossOf).value.1[LossKey(t)] == lossOf(t, TaskInput(t, b).value)
    ensures Indices(t, b).Some? && Resolved(t, b, Indices(t, b).value) && Targets(t, b).Some?
    ensures var idx := Indices(t, b).value; var targets := Gather(Targets(t, b).value, idx);
      targets.Some? &&
      ComputeLossSpec(tasks, b, lossOf).value.1[LossKey(t)] ==
        lossOf(t, HeadInput(b.atomAttr, Atoms(t, b, idx).value, targets.value))
  {
    ComputeLossOutcome(tasks, Helpers(b, lossOf));
    assert Helpers(b, lossOf)(t) == TaskLoss(t, b, lossOf);
  }

  /**
   * Only which of the eight loss tasks are selected matters: the order of
   * `pretrain_tasks`, repeats, `"Adc"` and unknown names change nothing.
   */
  lemma {:induction false} SelectionIsAllThatMatters(order: seq<Task>, k: nat, tasks1: seq<string>,
                                                     tasks2: seq<string>, h: Outcomes)
    requires NoAdc(order) && k <= |order|
    requires forall i | 0 <= i < k :: Name(order[i]) in tasks1 <==> Name(order[i]) in tasks2
    ensures Accumulate(order, k, tasks1, h) == Accumulate(order, k, tasks2, h)
  {
    if k > 0 {
      SelectionIsAllThatMatters(order, k - 1, tasks1, tasks2, h);
    }
  }

  /** Selecting `"Adc"` adds a head but never a loss; selecting only it makes `compute_loss` raise. */
  lemma AdcAddsNoLoss(tasks: seq<string>, h: Outcomes)
    ensures Blocks(tasks + ["Adc"], h) == Blocks(tasks, h)
    ensures Blocks(["Adc"], h) == Failure(NoLossTerm)
  {
    forall i | 0 <= i < |LossOrder|
      ensures Name(LossOrder[i]) in tasks + ["Adc"] <==> Name(LossOrder[i]) in tasks
      ensures Name(LossOrder[i]) in ["Adc"] <==> Name(LossOrder[i]) in []
    {
      NamesDistinct(LossOrder[i], Adc);
    }
    ComputeLossIsFold(tasks + ["Adc"], h);
    ComputeLossIsFold(tasks, h);
    ComputeLossIsFold(["Adc"], h);
    SelectionIsAllThatMatters(LossOrder, |LossOrder|, tasks + ["Adc"], tasks, h);
    SelectionIsAllThatMatters(LossOrder, |LossOrder|, ["Adc"], [], h);
    AccumulateSummarises(LossOrder, |LossOrder|, [], h);
  }

  // ---------------------------------------------------------------- EGEM

  datatype PretrainError =
    | EncoderFailure(encoderCause: EncodeError)
    | LossFailure(lossCause: LossError)

  function LiftLoss(r: Result<(real, map<string, real>), LossError>): Result<(real, map<string, real>), PretrainError>
  {
    match r
    case Success(v) => Success(v)
    case Failure(e) => Failure(LossFailure(e))
  }

  class EGEM {
    const compoundEncoder: EGeoGNNModel
    const pretrainTasks: seq<string>
    const config: HeadConfig
    /** `self.<task>_mlp` with `self.<task>_loss`, one attribute pair per task; `None` when never set. */
    const blrHead: Option<Head>
    const barHead: Option<Head>
    const darHead: Option<Head>
    const adcHead: Option<Head>
    const cm5Head: Option<Head>
    const espcHead: Option<Head>
    const hirshfeldHead: Option<Head>
    const npaHead: Option<Head>
    const wibergHead: Option<Head>

    /** The head attributes of task `t`. */
    function HeadOf(t: Task): Option<Head>
      reads this
    {
      match t
      case Blr => blrHead
      case Bar => barHead
      case Dar => darHead
      case Adc => adcHead
      case CM5 => cm5Head
      case ESPC => espcHead
      case Hirshfeld => hirshfeldHead
      case NPA => npaHead
      case Wiberg => wibergHead
    }

    ghost predicate Valid()
      reads this, compoundEncoder
    {
      compoundEncoder.Valid() && config.latentSize == compoundEncoder.latentSize &&
      forall t :: HeadOf(t) == SelectedHead(t, pretrainTasks, config)
    }

    /** `__init__`: one head per selected task, each sized for its task. */
    constructor (compoundEncoder: EGeoGNNModel, pretrainTasks: seq<string>, nLayers: int, hiddenSize: int,
                 dropoutRate: real, useLayerNorm: bool, useBn: bool, adcVocab: int)
      requires compoundEncoder.Valid()
      ensures this.compoundEncoder == compoundEncoder && this.pretrainTasks == pretrainTasks
      ensures config == HeadConfig(compoundEncoder.latentSize, nLayers, hiddenSize, dropoutRate,
                                   useLayerNorm, useBn, adcVocab)
      ensures forall t :: HeadOf(t) == SelectedHead(t, pretrainTasks, config)
      ensures Valid()
    {
      var c := HeadConfig(compoundEncoder.latentSize, nLayers, hiddenSize, dropoutRate, useLayerNorm, useBn, adcVocab);
      var blr := SelectedHead(Blr, pretrainTasks, c);
      var bar := SelectedHead(Bar, pretrainTasks, c);
      var dar := SelectedHead(Dar, pretrainTasks, c);
      var adc := SelectedHead(Adc, pretrainTasks, c);
      var cm5 := SelectedHead(CM5, pretrainTasks, c);
      var espc := SelectedHead(ESPC, pretrainTasks, c);
      var hirshfeld := SelectedHead(Hirshfeld, pretrainTasks, c);
      var npa := SelectedHead(NPA, pretrainTasks, c);
      var wiberg := SelectedHead(Wiberg, pretrainTasks, c);
      this.compoundEncoder := compoundEncoder;
      this.pretrainTasks := pretrainTasks;
      this.config := c;
      blrHead, barHead, darHead, adcHead, cm5Head := blr, bar, dar, adc, cm5;
      espcHead, hirshfeldHead, npaHead, wibergHead := espc, hirshfeld, npa, wiberg;
    }

    /**
     * One `if "<name>" in self.pretrain_tasks:` block of `compute_loss`: when
     * the task is selected, call its helper, add the loss to the running
     * total and record it under the task's key. `Step` is its specification.
     */
    method RunLossBlock(t: Task, s: LossState, b: LossBatch, lossOf: (Task, HeadInput) -> real)
      returns (r: Result<LossState, LossError>)
      requires t != Adc
      ensures r == Step(s, t, pretrainTasks, Helpers(b, lossOf))
    {
      if Name(t) in pretrainTasks {
        assert Helpers(b, lossOf)(t) == TaskLoss(t, b, lossOf);
        var taskLoss :- TaskLoss(t, b, lossOf);
        return Success(LossState(s.total + taskLoss, s.dict[LossKey(t) := taskLoss], true));
      }
      return Success(s);
    }

    /**
     * `compute_loss`: the eight blocks in order, then the total under `"loss"`.
     * `Blocks` is its specification, and `ComputeLossOutcome` says what it returns.
     */
    method ComputeLoss(b: LossBatch, lossOf: (Task, HeadInput) -> real)
      returns (r: Result<(real, map<string, real>), LossError>)
      ensures r == ComputeLossSpec(pretrainTasks, b, lossOf)
    {
      var s := LossState(0.0, map[], false);
      s :- RunLossBlock(Blr, s, b, lossOf);
      s :- RunLossBlock(Bar, s, b, lossOf);
      s :- RunLossBlock(Dar, s, b, lossOf);
      s :- RunLossBlock(CM5, s, b, lossOf);
      s :- RunLossBlock(ESPC, s, b, lossOf);
      s :- RunLossBlock(Hirshfeld, s, b, lossOf);
      s :- RunLossBlock(NPA, s, b, lossOf);
      s :- RunLossBlock(Wiberg, s, b, lossOf);
      if !s.isTensor {
        return Failure(NoLossTerm);
      }
      return Success((s.total, s.dict["loss" := s.total]));
    }
    /**
     * `forward`: encode the masked batch, then score the encoder's atom
     * representation. The loss helpers read the UNMASKED bond lengths, bond
     * angles and dihedral angles, so the encoder never sees the geometric
     * values it is asked to predict.
     */
    method Forward(
      atomBondEdges: seq<Edge>, bondAngleEdges: seq<Edge>, angleDihedralEdges: seq<Edge>,
      x: array2<int>, bondAttr: array2<int>, bondLengths: array<real>, bondAngles: array<real>, dihedralAngles: array<real>,
      cm5Charges: Option<seq<real>>, espcCharges: Option<seq<real>>, hirshfeldCharges: Option<seq<real>>,
      npaCharges: Option<seq<real>>, bondOrders: Option<seq<real>>,
      numGraphs: nat, numBonds: seq<int>, numAngles: seq<int>, atomBatch: seq<int>,
      maskedAtomIndices: Option<seq<int>>, maskedBondIndices: Option<seq<int>>,
      maskedAngleIndices: Option<seq<int>>, maskedDihedralIndices: Option<seq<int>>,
      lossOf: (Task, HeadInput) -> real)
      returns (r: Result<(real, map<string, real>), PretrainError>)
      requires Valid()
      requires MaskableArgs(compoundEncoder.atomVocab, compoundEncoder.bondVocab, x.Length0, x.Length1,
                            bondAttr.Length0, bondAttr.Length1,
                            bondLengths.Length, bondAngles.Length, dihedralAngles.Length,
                            maskedAtomIndices, maskedBondIndices, maskedAngleIndices, maskedDihedralIndices)
      ensures var enc := Encode(compoundEncoder.withoutDihedral, compoundEncoder.nLayers,
        MaskedInput(atomBondEdges, bondAngleEdges, angleDihedralEdges,
                    compoundEncoder.atomVocab, compoundEncoder.bondVocab,
                    Grid(x), Grid(bondAttr), bondLengths[..], bondAngles[..], dihedralAngles[..],
                    atomBatch, numBonds, numAngles, numGraphs,
                    maskedAtomIndices, maskedBondIndices, maskedAngleIndices, maskedDihedralIndices));
        r == if enc.Failure? then Failure(EncoderFailure(enc.error))
             else LiftLoss(ComputeLossSpec(pretrainTasks,
                    LossBatch(enc.value.node, x.Length0, bondLengths[..], bondAngles[..], dihedralAngles[..],
                              atomBondEdges, bondAngleEdges, angleDihedralEdges,
                              cm5Charges, espcCharges, hirshfeldCharges, npaCharges, bondOrders,
                              maskedAtomIndices, maskedBondIndices, maskedAngleIndices, maskedDihedralIndices),
                    lossOf))
    {
      var encoded := compoundEncoder.Forward(atomBondEdges, bondAngleEdges, angleDihedralEdges,
                                             x, bondAttr, bondLengths, bondAngles, dihedralAngles,
                                             atomBatch, numBonds, numAngles, numGraphs,
                                             maskedAtomIndices, maskedBondIndices,
                                             maskedAngleIndices, maskedDihedralIndices);
      if encoded.Failure? {
        return Failure(EncoderFailure(encoded.error));
      }
      var b := LossBatch(encoded.value.node, x.Length0, bondLengths[..], bondAngles[..], dihedralAngles[..],
                         atomBondEdges, bondAngleEdges, angleDihedralEdges,
                         cm5Charges, espcCharges, hirshfeldCharges, npaCharges, bondOrders,
                         maskedAtomIndices, maskedBondIndices, maskedAngleIndices, maskedDihedralIndices);
      var loss := ComputeLoss(b, lossOf);
      return LiftLoss(loss);
    }
  }
}
