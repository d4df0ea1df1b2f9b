# egem-torch: the geometric GNN encoder and its pretraining wrapper, in Dafny

This project models the discrete bookkeeping of `models/gin/model.py` and proves
properties of it. That file holds the encoder `EGeoGNNModel` and the
self-supervised wrapper `EGEM`. The numerics are not interpreted. What is
modelled is which arrays are copied and masked, which modules are built and
which of them feed which layer, how masked bonds, angles and dihedrals are
traced back to atoms, and how the per-task losses are added up and reported.

Modules, one file each:

- `wrappers.dfy` (`Wrappers`): `Option` and `Result`, which model the error paths.
- `graph.dfy` (`Graph`): a 2 x E `edge_index` tensor as a sequence of `Edge(src, dst)` columns.
- `batching.dfy` (`Batching`): `repeat_interleave(arange(num_graphs), counts)`.
  - It builds the per-bond and per-angle graph-assignment vectors.
  - A single count is broadcast to every graph.
  - A count tensor of the wrong shape is an error, checked first; a negative count in use is an error after that.
- `masking.dfy` (`Masking`): what `mask_attr` computes, stated on values.
  - A masked categorical row takes `vocab[c] - 1` in every column `c`.
  - A masked scalar becomes `0`.
  - An index `k` in `[-n, 0)` addresses row `n + k`.
  - `None` masks nothing.
- `dataflow.dfy` (`Dataflow`): the forward pass as symbolic terms.
  - A `Repr` records which module (role, layer, `last_act`) was applied to which inputs.
  - Equal terms are equal dataflow.
  - `Encode` is the result of `forward`, including both error paths:
    - `repeat_interleave` refusing the per-graph counts;
    - the `UnboundLocalError` of `cur_dihedral_hidden` when the dihedral variant has zero layers.
- `encoder.dfy` (`Encoder`): the class `EGeoGNNModel`.
  - Its constructor fills the per-layer module lists in a loop.
  - `MaskAttr` deep-copies the five arrays and masks the copies in place.
  - `Forward` grows the hidden-state lists by one entry per layer in a loop.
  - Each method is proved against the functions of `Masking` and `Dataflow`.
- `resolution.dfy` (`Resolution`): the `index_select` compositions of the `_get_*_loss` helpers.
  - They trace bonds, angles and dihedrals back to atom tuples, in order.
  - `index_select` refuses negative and out-of-range indices.
  - Target indexing `values[idx]` accepts `[-n, n)`.
- `pretrain.dfy` (`Pretrain`): the task table, the heads `__init__` builds, the helpers' inputs and the class `EGEM`.
  - A helper raises when its masked indices are `None`, when an index does not resolve, or when its target array (a charge or bond-order array) is `None`.
  - `compute_loss` is specified by `Blocks`, its eight `if` blocks written out in source order, over the helpers' outcomes.
  - `Accumulate` is the same blocks as a fold over the table `LossOrder`; the lemmas about the total and the dictionary are proved on it.
  - The method `EGEM.ComputeLoss` runs the eight blocks one after the other and is proved equal to the specification.

The prediction heads and criteria are numerics. They are the parameter
`lossOf(task, input)`, where the input holds exactly what the helper hands
to its head: the atom representations, the atom tuples whose rows are
concatenated, and the gathered targets.

## Model

| member | source | states |
|---|---|---|
| Batching.RepeatInterleave | models/gin/model.py:142 | A shape error exactly when there is neither one count per graph nor a single count. Otherwise a single count is broadcast to every graph, and the call succeeds exactly when the counts in use are non-negative. The output is as long as the sum of those counts. |
| Batching.BatchVector | models/gin/model.py:141-142 | `repeat_interleave(arange(num_graphs), counts)`, the assignment of bonds (and, at 177-179, angles) to graphs. It has no contract of its own; `BatchVectorBlocks`, `BatchVectorNonDecreasing` and `BatchVectorCounts` state its properties. |
| Batching.BatchVectorBlocks | models/gin/model.py:141-142 | Every entry of the assignment vector is a graph id in `[0, num_graphs)`, and position `i` holds graph `g` exactly when `i` lies in `g`'s block of the prefix sums of the counts, so each graph's entries are contiguous. |
| Batching.BatchVectorNonDecreasing | models/gin/model.py:177-179 | The assignment vector is non-decreasing. |
| Batching.BatchVectorCounts | models/gin/model.py:177-179 | Graph `g` occurs exactly `counts[g]` times (or the broadcast count), and no other value occurs. |
| Masking.MaskToken | models/gin/model.py:100-103 | The mask row holds `vocab[c] - 1` in each column `c`. |
| Masking.MaskRows | models/gin/model.py:100-108 | The shape is kept, every column of a masked row becomes `vocab[c] - 1`, and every unmasked row is unchanged. |
| Masking.ZeroAt | models/gin/model.py:110-115 | The length is kept, a masked entry becomes 0, and every other entry is unchanged. |
| Masking.MaskRowsNone | models/gin/model.py:101-103 | With `None` indices the categorical matrix is unchanged. |
| Masking.ZeroAtNone | models/gin/model.py:110-115 | With `None` indices the scalar array is unchanged. |
| Masking.MaskRowsHidesMasked | models/gin/model.py:100-108 | The masked matrix does not depend on what the masked rows held. |
| Masking.MaskTokenMarksMaskedRows | models/gin/model.py:100-103 | When the featurizer never uses the reserved slot, a row is all mask tokens exactly when it was masked. |
| Masking.ZeroAtHidesMasked | models/gin/model.py:110-115 | The zeroed array does not depend on the masked values. |
| Dataflow.InitNode | models/gin/model.py:133 | The initial `node_hidden` applies exactly one module, the initial atom embedding. |
| Dataflow.InitEdge | models/gin/model.py:134-135 | The initial `bond_hidden` applies exactly the initial bond embedding and the initial bond-length RBF. |
| Dataflow.CurEdge | models/gin/model.py:189-190 | `cur_edge_hidden` of layer `k` applies exactly layer `k`'s bond embedding and bond-length RBF, and no earlier state. |
| Dataflow.CurDihedral | models/gin/model.py:199 | `cur_dihedral_hidden` of layer `k` applies exactly layer `k`'s dihedral RBF. |
| Dataflow.InputTermsReadTheirArrays | models/gin/model.py:133-199 | The initial node term is determined by exactly `x`. The initial and per-layer bond terms are determined by exactly `bond_attr` and `bond_lengths`. `cur_dihedral_hidden` is determined by exactly `dihedral_angles`. Equal terms mean equal arrays and the converse. |
| Dataflow.PlainNext | models/gin/model.py:145-160 | One iteration of the no-dihedral loop, as terms. It has no contract of its own; `PlainNextUses` states which modules each new state applies. |
| Dataflow.HierNext | models/gin/model.py:182-205 | One iteration of the dihedral loop, as terms. It has no contract of its own; `HierNextUses` states which modules each new state applies. |
| Dataflow.PlainLayers | models/gin/model.py:137-163 | Entry `l` of `node_hidden_list` and `edge_hidden_list`: the initial states after `l` iterations. `PlainLayersUseEarlierModules`, `PlainLayersAvoidDihedralModules` and `PlainLayersIgnoreDihedralInputs` state its properties. |
| Dataflow.HierLayers | models/gin/model.py:171-209 | Entry `l` of the three hidden lists of the dihedral variant. `HierLayersUseEarlierModules` and `DihedralReachLayers` state its properties. |
| Dataflow.Encode | models/gin/model.py:119-217 | `forward` fails exactly when the bond counts (or, with dihedrals, the angle counts) are refused, or the dihedral variant has no layer. The angle and dihedral slots are `None` exactly without dihedrals. The graph representation is the mean pool of the node representation. With layers, node, edge and angle come out of the last layer's blocks, which have `last_act` off. The dihedral slot is the last layer's dihedral RBF. |
| Dataflow.PlainNextUses | models/gin/model.py:144-163 | One no-dihedral layer: the new node state applies its atom-bond block plus what the previous node and edge states applied. The new edge state applies only layer `k`'s bond-angle block, bond embedding, bond RBF and angle RBF. |
| Dataflow.HierNextUses | models/gin/model.py:181-209 | One dihedral layer: node as above. The new edge state applies layer `k`'s block, embedding and RBF plus what the previous angle state applied. The new angle state applies only layer `k`'s angle-dihedral block, angle RBF and dihedral RBF. |
| Dataflow.PlainLayersUseEarlierModules | models/gin/model.py:144-163 | The state after `l` no-dihedral layers applies only initial modules and modules of layers below `l`. |
| Dataflow.HierLayersUseEarlierModules | models/gin/model.py:181-209 | The state after `l` dihedral layers applies only initial modules and modules of layers below `l`. |
| Dataflow.PlainLayersAvoidDihedralModules | models/gin/model.py:137-169 | The no-dihedral states never apply a dihedral RBF, an angle-dihedral block or the initial angle RBF. |
| Dataflow.PlainLayersIgnoreDihedralInputs | models/gin/model.py:137-169 | The no-dihedral states do not change when the dihedral angles, the dihedral graph or the angle counts change. |
| Dataflow.WithoutDihedralIgnoresDihedralInputs | models/gin/model.py:137-169 | The whole no-dihedral `forward` result is independent of the dihedral angles, the dihedral graph and the angle counts. |
| Dataflow.DihedralReachLayers | models/gin/model.py:181-209 | Layer `j`'s dihedral RBF is in the angle state of layer `j + 1` only, in the edge state of layer `j + 2` only, and in the node state from layer `j + 3` on. |
| Dataflow.EncodeNodeDihedralReach | models/gin/model.py:199-214 | In the returned tuple the atom representation depends on layer `j`'s dihedral RBF exactly when `j + 3 <= n_layers`; the angle representation depends on it exactly when `j` is the last layer. |
| Dataflow.EncodeWithoutDihedralAvoids | models/gin/model.py:137-169 | The no-dihedral node, edge and graph representations apply no dihedral-only module. |
| Encoder.Entry | models/gin/model.py:54-77 | The module appended at `layer_id = l` to each list is of that list's kind (embedding, one of the three RBFs, or one of the three blocks) and belongs to layer `l`, not to the initial modules. A block's `last_act` is off exactly when `l` is the last layer. |
| Encoder.Built | models/gin/model.py:54-77 | After `k` iterations of the constructor's loop every per-layer list has `k` entries. |
| Encoder.BuiltEntry | models/gin/model.py:54-77 | Entry `l` of every per-layer list is the module of layer `l`. |
| Encoder.BlocksLastAct | models/gin/model.py:68-77 | In every block list the entry of layer `l` is a block of layer `l`, and its `last_act` is off exactly on the last layer. |
| Encoder.PlainListsExtend | models/gin/model.py:162-163 | Appending layer `k + 1`'s states keeps `node_hidden_list` and `edge_hidden_list` equal to the layer stack's first states. |
| Encoder.HierListsExtend | models/gin/model.py:207-209 | The same for the three lists of the dihedral variant. |
| Encoder.PlainLayerFromLists | models/gin/model.py:145-160 | The loop body's calls through the per-layer lists compute exactly the layer step of the no-dihedral stack. |
| Encoder.HierLayerFromLists | models/gin/model.py:182-205 | The loop body's calls compute the dihedral layer step, and `cur_dihedral_hidden` is that layer's dihedral RBF. |
| Encoder.CopyGrid | models/gin/model.py:94-95 | A fresh two-dimensional array with the same shape and contents. |
| Encoder.CopyArray | models/gin/model.py:96-98 | A fresh array with the same contents. |
| Encoder.MaskColumns | models/gin/model.py:101-108 | The column loop of `mask_attr` leaves the array equal to `MaskRows` of its old contents. |
| Encoder.ZeroEntries | models/gin/model.py:110-115 | The indexed assignment `t[idx] = 0` leaves the array equal to `ZeroAt` of its old contents. |
| Encoder.MaskedCopy | models/gin/model.py:94-108 | A fresh copy of the categorical matrix, masked; the original is untouched. |
| Encoder.ZeroedCopy | models/gin/model.py:96-115 | A fresh copy of the scalar array, zeroed at the indices; the original is untouched. |
| Encoder.EGeoGNNModel.constructor | models/gin/model.py:24-77 | The configuration is stored. Every per-layer list holds one module per layer, in order, with `last_act` off only on the last block. The dihedral lists exist exactly in the dihedral variant. |
| Encoder.EGeoGNNModel.MaskAttr | models/gin/model.py:89-117 | Returns five fresh arrays: the categorical copies masked as `MaskRows`, the three geometric copies zeroed as `ZeroAt`. The caller's arrays are not written. |
| Encoder.EGeoGNNModel.PlainHiddenLists | models/gin/model.py:137-163 | The no-dihedral loop leaves `n_layers + 1` entries in each list; entry `l` is the state after `l` layers. |
| Encoder.EGeoGNNModel.HierHiddenLists | models/gin/model.py:171-209 | The dihedral loop leaves `n_layers + 1` entries in each list; entry `l` is the state after `l` layers. `cur_dihedral_hidden` is unbound without layers and otherwise the last layer's dihedral RBF. |
| Encoder.EGeoGNNModel.Forward | models/gin/model.py:119-217 | The result is `Encode` of the masked copies, so every property of `Encode` holds for `forward`. |
| Resolution.SelectEdges | models/gin/model.py:340 | `index_select` succeeds exactly when every index is in `[0, E)`, and column `k` is the table's column `idx[k]`. |
| Resolution.BondAtoms | models/gin/model.py:340-342 | Succeeds exactly when every bond is in range; bond `b` gives `(src b, dst b)`. |
| Resolution.AngleAtoms | models/gin/model.py:356-363 | Succeeds exactly when every angle and both of its bonds are in range; angle `(b1, b2)` gives `(src b1, dst b1, dst b2)`. |
| Resolution.DihedralAtoms | models/gin/model.py:377-388 | Succeeds exactly when every dihedral, its two angles and its outer bonds are in range; the tuple is `(src, dst)` of the first angle's first bond followed by `(src, dst)` of the second angle's second bond. |
| Resolution.Gather | models/gin/model.py:346-349 | Target indexing succeeds exactly when every index is in `[-n, n)`, and entry `k` is the value at the wrapped index. |
| Resolution.AngleTupleIsPath | models/gin/model.py:356-364 | When an angle's bonds meet head to tail, atoms 0-1 of its triple are the first bond and atoms 1-2 the second. |
| Resolution.DihedralTupleIsPath | models/gin/model.py:377-389 | When a dihedral's angles share their middle bond and its bonds meet head to tail, the quadruple walks the three bonds in order. |
| Pretrain.Name | models/gin/model.py:455-527 | The name that selects each task in `pretrain_tasks`. `NamesDistinct` states that the names are pairwise different. |
| Pretrain.LossKey | models/gin/model.py:463-532 | The `loss_dict` key of each loss task. `LossKeysDistinct` states that the keys are pairwise different and never `"loss"`. |
| Pretrain.LossKeysDistinct | models/gin/model.py:455-534 | Different tasks report under different keys, and none of them is `"loss"`. |
| Pretrain.NamesDistinct | models/gin/model.py:231-337 | Different tasks are selected by different names. |
| Pretrain.HeadFor | models/gin/model.py:231-337 | The head of task `t`: input width `latent_size * arity(t)`, `max(n_layers, 0)` hidden layers of `hidden_size` (a negative `n_layers` gives none, as `[hidden_size] * n_layers` does), one output (or `adc_vocab + 3` for Adc), cross-entropy exactly for Adc, and the flags and dropout of the configuration. |
| Pretrain.SelectedHead | models/gin/model.py:231-337 | One `if '<name>' in pretrain_tasks:` block of `__init__`: the task's head, built by `HeadFor`, when its name is selected, and none otherwise. The `EGEM.constructor` contract states the result for all nine tasks. |
| Pretrain.Indices | models/gin/model.py:455-532 | Which masked-index argument each helper receives: bonds for Blr and WIBERG, angles for Bar, dihedrals for Dar, atoms for the four charge tasks. `TaskInput` states what the helper makes of them. |
| Pretrain.Targets | models/gin/model.py:455-532 | Which target array each helper receives. The geometric arrays are modelled as always present; the charge and bond-order arrays may be `None`. `TaskInput` states the error when they are `None`. |
| Pretrain.Atoms | models/gin/model.py:339-443 | The atom tuples behind the masked items: `BondAtoms` for Blr and WIBERG, `AngleAtoms` for Bar, `DihedralAtoms` for Dar, and each atom alone for the charge tasks. The contracts of those three functions state the tuples. |
| Pretrain.TaskInput | models/gin/model.py:339-443 | A helper fails only with its own task's error. It reports missing indices exactly when they are `None`. Given indices, it reports missing targets exactly when the atoms resolve but the target array is `None`. It succeeds exactly when the atoms resolve into `atom_attr`'s rows and every index addresses a target. On success, the tuples are the `BondAtoms`, `AngleAtoms` or `DihedralAtoms` result (or `[i]` for the charge tasks), each of the task's arity, and each target is the value at the wrapped index. |
| Pretrain.TaskLoss | models/gin/model.py:339-443 | A helper's full result: the criterion on what `TaskInput` builds, or its error. `ComputeLossUsesHelpers` states how it reaches the dictionary. |
| Pretrain.HeadWidthMatchesInput | models/gin/model.py:231-443 | The concatenated atom rows of every tuple a helper builds are exactly as wide as its head's input. |
| Pretrain.GeometricTargetsHiddenFromEncoder | models/gin/model.py:339-395 | For Blr, Bar and Dar the target of each masked item is the original value, which the encoder's masked copy holds as 0. |
| Pretrain.Step | models/gin/model.py:455-463 | One block of `compute_loss` over the helpers' outcomes. It has no contract of its own; `AccumulateSummarises` and `FailurePersists` state what a run of blocks does. |
| Pretrain.Finish | models/gin/model.py:534-535 | The returned pair with the total under `"loss"`, or the `.detach()` error when no block made `loss` a tensor. `ComputeLossOutcome` states both cases. |
| Pretrain.Blocks | models/gin/model.py:452-535 | The body of `compute_loss`, its eight blocks written out in source order, over the helpers' outcomes. `ComputeLossIsFold` and `ComputeLossOutcome` state its result. |
| Pretrain.Accumulate | models/gin/model.py:452-532 | The first `k` blocks of a task order, as a fold. `AccumulateSummarises` states its result. |
| Pretrain.Sum | models/gin/model.py:462-531 | The reference total: the selected tasks' losses summed from the front, as the `loss +=` lines add them. `AccumulateSummarises` proves that the running total equals it. |
| Pretrain.AccumulateSummarises | models/gin/model.py:452-532 | The first `k` blocks succeed exactly when every selected helper among them succeeds. The running total is then the front-to-back sum of the selected losses. The dictionary holds exactly the selected tasks' keys with their losses. `loss` is a tensor exactly when some task was selected. |
| Pretrain.FailurePersists | models/gin/model.py:455-532 | Once a block's helper raises, every later block keeps that same error, so the first raising helper decides `compute_loss`'s error. |
| Pretrain.ComputeLossIsFold | models/gin/model.py:452-535 | The eight written-out blocks are the fold over `LossOrder` (Blr, Bar, Dar, CM5, ESPC, HIRSHFELD, NPA, WIBERG), followed by the total under `"loss"`. |
| Pretrain.ComputeLossOutcome | models/gin/model.py:452-535 | Succeeds exactly when every selected helper succeeds and some loss task is selected; with none selected it raises. The total is the in-order sum. The keys are the selected tasks' keys plus `"loss"`, each holding its helper's loss, and `"loss"` holds the total. |
| Pretrain.ComputeLossUsesHelpers | models/gin/model.py:455-532 | On a batch, a successful `compute_loss` means every selected helper had indices, resolved them and had targets. Each entry is then the criterion applied to `atom_attr`, the tuples from `Atoms`, and the targets gathered at the masked indices. |
| Pretrain.SelectionIsAllThatMatters | models/gin/model.py:455-532 | Only which loss tasks are selected matters: order, repeats and other names in `pretrain_tasks` change nothing. |
| Pretrain.AdcAddsNoLoss | models/gin/model.py:452-535 | Adding `"Adc"` to the tasks leaves `compute_loss` unchanged, and selecting only `"Adc"` makes it raise. |
| Pretrain.EGEM.constructor | models/gin/model.py:221-337 | The encoder and task list are stored, and the heads of exactly the selected tasks are set, each built by `HeadFor` from the configuration. Any integer `n_layers` is accepted; a negative one gives heads without hidden layers. |
| Pretrain.HiddenLayers | models/gin/model.py:235 | The number of hidden layers `[hidden_size] * n_layers` gives: `n_layers` when it is non-negative, and none when it is negative. |
| Pretrain.EGEM.RunLossBlock | models/gin/model.py:455-463 | One block: when the task is selected its helper's loss is added to the total and recorded under its key, or the helper's error is raised; otherwise nothing changes. |
| Pretrain.EGEM.ComputeLoss | models/gin/model.py:445-535 | Running the eight blocks and storing the total under `"loss"` gives exactly `ComputeLossSpec` on the batch, so `ComputeLossOutcome` describes its result. |
| Pretrain.EGEM.Forward | models/gin/model.py:537-578 | Encoder failure is reported as such. Otherwise the result is `compute_loss` on the encoder's node representation and the UNMASKED bond lengths, bond angles and dihedral angles. |

## Left out

- Numerics:
  - The internals of `AtomBondEmbedding`, the `*FloatRBF` modules, `EGeoGNNBlock`, `MLP` and `global_mean_pool` are symbolic terms. They live in `models/gin/encoder.py` and `models/conv.py`, which are not part of this model.
  - `SmoothL1Loss` and `CrossEntropyLoss` values are the parameter `lossOf`.
  - The total is a sum of reals; floating-point rounding and summation order beyond the source's order are not modelled.
- `get_feature_dims` is a call into the featurizer. The vocabulary sizes are constructor parameters (`atomVocab`, `bondVocab`).
- `device`, `.to(x.device)`, autograd, `.detach().item()` and `**kwargs` are not modelled. A recorded loss is the same real as the loss added to the total.
- `node_dim` and `graph_dim` read the never-set `embed_dim` and always raise; they are not modelled.
- `inference_regr_transformer.py` is I/O and inference glue and is not part of this model.
- `Adc` has a head but no loss helper. `Pretrain.Helpers` gives it a value that `compute_loss` never reads, and `TaskInput` requires a task other than Adc.
- Encoder.EGeoGNNModel.MaskAttr: requires every masked index to address a row (`MaskableArgs`). An out-of-range index makes torch raise `IndexError`, and that raising path is not modelled.
- Encoder.EGeoGNNModel.MaskAttr: also requires that, when atoms (bonds) are masked, `x` (`bond_attr`) has no more columns than `get_feature_dims` has entries. A wider matrix makes `atom_vocab_sizes[i]` (`bond_vocab_sizes[i]`) at lines 103 and 108 raise `IndexError`, and that path is not modelled either.
- Encoder.EGeoGNNModel.Forward: inherits the same requirement on masked indices from `mask_attr`.
- Pretrain.EGEM.Forward: inherits the same requirement on masked indices from `mask_attr`.
- Pretrain.EGEM.Forward: the number of rows of `atom_attr` is taken to be the number of rows of `x`, since the encoder's node representation has one row per atom.
- Pretrain.EGEM.RunLossBlock: the eight identical `if` blocks of `compute_loss` are one method called eight times in source order; each block is not written out separately.
- Pretrain.EGEM.constructor: each `if 'X' in pretrain_tasks:` block is `SelectedHead`. The `<task>_mlp` and `<task>_loss` attribute pair is one `Option<Head>` field.
- Masked index tensors are integer index lists; boolean-mask indexing is not modelled.
- `repeat_interleave` is modelled for one-dimensional count tensors only.
- Encoder.EGeoGNNModel.constructor: `n_layers` is a `nat`. Python also accepts a negative `n_layers`, for which `range` builds no layer, as `n_layers = 0` does. Negative values are not modelled.
- Pretrain.Targets: `bond_lengths`, `bond_angles` and `dihedral_angles` are modelled as arrays. In the no-dihedral variant the source never reads `dihedral_angles` unless a dihedral is masked or `Dar` is selected, so it could be `None` there. That case is not modelled.
- Encoder.EGeoGNNModel.Forward: `num_graphs` is a `nat`. `torch.arange` of a negative `num_graphs` raises, and that error is not modelled.
- Pretrain.EGEM.Forward: the same restriction on `num_graphs` applies.
- `atom_batch` is passed through to the pooling term and is not checked.
