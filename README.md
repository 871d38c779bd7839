# DANNN core model

A Dafny model of the core of `src/core_models/dannn.rs` from steel_ml, a
network whose nodes are drawn from a catalog of typed operators ("DANNN").
The model has three parts, one module each, plus a small `Wrappers` module
that stands for Rust's `Option` and `Result`:

- `NodeSelection` (`node_selection.dfy`) models the node-type catalog
  `NodeSelectionTable`. It is a class whose `descriptors` field, a `map` from
  node-type id to `Descriptor`, is updated in place. There are bulk enable and
  disable methods for the five id groups: logic 101–117, simple arithmetic
  201–204, advanced arithmetic 205–224, string modification 301–304, and
  special 401. There are also `EnableAll`/`DisableAll` and the single-id
  `EnableById`/`DisableById`. The literal descriptors of the source are
  stored column by column, one function per descriptor field. The canonical
  table is the map of all 46 of them: that is what `enable_all` produces on
  an empty table, and `enable_by_id` copies from it. The column functions
  are what ties the model to the source's literal `insert`/`remove` blocks.
  The lemmas about group keys and the canonical table follow from how both
  tables are built from the same columns. Each table operation is also
  stated as a function of the old table. Lemmas about those functions
  prove "nothing else changes", idempotence, the enable/disable round trip,
  and the object invariant: the live table only holds canonical entries,
  unaltered, so `disable_all` always empties it.
- `NodeEvaluation` (`node_evaluation.dfy`) models the min/max/mean scan
  `get_mean_of_lowest_and_highest` and the gate evaluator `run_node`. Both are
  methods with the source's loops. The loops are proved against `Smallest`,
  `Largest` and `MeanOfLowestAndHighest`, and against `NodeOutput`, which
  states each gate's decision as "some input stops the scan". Lemmas prove
  that a gate's output is always one of the two extremes, that NAND and NOR
  are AND and OR with the outcomes swapped, how NOT behaves, that other ids
  yield nothing, and the source's test vectors.
- `NetworkModel` (`network.dfy`) models the graph container. `Network` is a
  class with `layers: seq<Layer>`, `inputs: seq<real>` and its own
  `NodeSelectionTable`. `Layer` and `Node` are values. There are methods for
  adding a layer, adding a node to a layer, and the two bounds-checked
  accessors.

`f64` and `f32` are modelled as `real` and `usize` as `nat`. Where the source
returns a `&mut` reference to a layer or node, the model returns a copy of
that value.

Behaviour of the source that the model keeps:
- The NOT descriptor (104) declares exactly one connection, as both its
  minimum and its maximum (src/core_models/dannn.rs:103-110). `run_node`
  itself uses the first input and ignores the rest
  (src/core_models/dannn.rs:825-830).
- The gates do not check the catalog's arity bounds. A gate given no inputs
  returns `Some(0)`.
- `enable_by_id` panics on an id with no canonical descriptor; it does not
  return an error. The model makes this a precondition.
- The prevalence accessors have no behaviour (see "Left out").
- `get_node` checks the node index against the wrong bound (see "Findings").

## Model

| member | source | states |
|---|---|---|
| `NodeSelection.CategoryRanges` | src/core_models/dannn.rs:72-519 | the ids each enable/disable pair handles are exactly the ranges 101–117, 201–204, 205–224, 301–304 and 401 |
| `NodeSelection.CategoriesDisjoint` | src/core_models/dannn.rs:217-519 | no id belongs to two groups |
| `NodeSelection.CategoryTableKeys` | src/core_models/dannn.rs:72-515 | each `enable_<category>` block inserts a descriptor for exactly the ids its `disable_<category>` removes |
| `NodeSelection.CanonicalCoversCategory` | src/core_models/dannn.rs:55-62 | the canonical table agrees with each group's descriptors on that group's ids |
| `NodeSelection.CanonicalIdsByRange` | src/core_models/dannn.rs:521-527 | an id has a canonical descriptor, so `enable_by_id` does not panic on it, iff it lies in 101–117, 201–224, 301–304 or is 401 |
| `NodeSelection.CanonicalKeys` | src/core_models/dannn.rs:521-527 | the ids with a canonical descriptor are exactly the union of the five groups |
| `NodeSelection.CanonicalDescriptorWellFormed` | src/core_models/dannn.rs:80-514 | every canonical descriptor has a minimum of at least one connection, a maximum no smaller than the minimum when present, and prevalence 1.0 |
| `NodeSelection.ColumnsWellFormed` | src/core_models/dannn.rs:80-514 | the same bounds facts, stated over the literal min/max columns |
| `NodeSelection.WithCategoryEffect` | src/core_models/dannn.rs:72-515 | after enabling a group every id of it maps to its canonical descriptor; every other key and value is unchanged |
| `NodeSelection.WithCategoryAt` | src/core_models/dannn.rs:72-515 | the same effect at a single id: a key iff it was one or is in the group |
| `NodeSelection.WithCategoryIdempotent` | src/core_models/dannn.rs:72-515 | re-enabling a group changes nothing |
| `NodeSelection.WithoutCategoryEffect` | src/core_models/dannn.rs:217-519 | after disabling a group none of its ids is a key; every other key and value is unchanged |
| `NodeSelection.EnableThenDisable` | src/core_models/dannn.rs:72-519 | enabling then disabling a group equals disabling it, and is no change on a table without that group |
| `NodeSelection.DisableThenEnable` | src/core_models/dannn.rs:72-519 | disabling then enabling a group equals enabling it |
| `NodeSelection.WithAllIsCanonicalOverlay` | src/core_models/dannn.rs:55-62 | the five enable calls of `enable_all` overwrite exactly the canonical ids with canonical descriptors and keep all other entries |
| `NodeSelection.EnableAllFromEmptyIsCanonical` | src/core_models/dannn.rs:522-523 | `enable_all` on a new table yields exactly the canonical table |
| `NodeSelection.WithoutAllEmptiesLiveTable` | src/core_models/dannn.rs:64-70 | the five disable calls remove exactly the canonical ids, so a live table becomes empty |
| `NodeSelection.WithoutIdEffect` | src/core_models/dannn.rs:539-541 | removing an id removes only that id, and is a no-op when it is absent |
| `NodeSelection.WithIdAbsorbedByCategory` | src/core_models/dannn.rs:521-537 | enabling one id of a group and then the group is the same as enabling the group |
| `NodeSelection.LiveWithCategory` | src/core_models/dannn.rs:72-515 | enabling a group keeps the table a sub-map of the canonical table |
| `NodeSelection.LiveWithoutCategory` | src/core_models/dannn.rs:217-519 | disabling a group keeps the table a sub-map of the canonical table |
| `NodeSelection.LiveWithAll` | src/core_models/dannn.rs:55-62 | `enable_all` keeps the table a sub-map of the canonical table |
| `NodeSelection.LiveWithId` | src/core_models/dannn.rs:521-537 | enabling one canonical id keeps the table a sub-map of the canonical table |
| `NodeSelection.LiveWithoutId` | src/core_models/dannn.rs:539-541 | disabling one id keeps the table a sub-map of the canonical table |
| `NodeSelection.NodeSelectionTable.constructor` | src/core_models/dannn.rs:49-54 | a new table is empty (and valid) |
| `NodeSelection.NodeSelectionTable.EnableLogic` | src/core_models/dannn.rs:72-215 | inserts the 17 logic descriptors over the old table; keeps the invariant |
| `NodeSelection.NodeSelectionTable.DisableLogic` | src/core_models/dannn.rs:217-235 | removes ids 101–117 from the old table; keeps the invariant |
| `NodeSelection.NodeSelectionTable.EnableSimpleArithmetic` | src/core_models/dannn.rs:237-270 | inserts the descriptors of 201–204 over the old table |
| `NodeSelection.NodeSelectionTable.DisableSimpleArithmetic` | src/core_models/dannn.rs:272-277 | removes ids 201–204 from the old table |
| `NodeSelection.NodeSelectionTable.EnableAdvancedArithmetic` | src/core_models/dannn.rs:279-440 | inserts the descriptors of 205–224 over the old table |
| `NodeSelection.NodeSelectionTable.DisableAdvancedArithmetic` | src/core_models/dannn.rs:442-463 | removes ids 205–224 from the old table |
| `NodeSelection.NodeSelectionTable.EnableStringModification` | src/core_models/dannn.rs:465-497 | inserts the descriptors of 301–304 over the old table |
| `NodeSelection.NodeSelectionTable.DisableStringModification` | src/core_models/dannn.rs:499-504 | removes ids 301–304 from the old table |
| `NodeSelection.NodeSelectionTable.EnableSpecialFunctions` | src/core_models/dannn.rs:506-515 | inserts the descriptor of 401 over the old table |
| `NodeSelection.NodeSelectionTable.DisableSpecialFunctions` | src/core_models/dannn.rs:517-519 | removes id 401 from the old table |
| `NodeSelection.NodeSelectionTable.EnableAll` | src/core_models/dannn.rs:55-62 | the new table is the old one overlaid with the whole canonical table |
| `NodeSelection.NodeSelectionTable.DisableAll` | src/core_models/dannn.rs:64-70 | the table is empty afterwards, whatever was enabled before |
| `NodeSelection.NodeSelectionTable.EnableById` | src/core_models/dannn.rs:521-537 | for a canonical id (else the source panics), only that id changes and it now holds its canonical descriptor; the body builds a template table with `EnableAll` as the source does |
| `NodeSelection.NodeSelectionTable.DisableById` | src/core_models/dannn.rs:539-541 | removes only `id`; no change when it was absent |
| `NodeEvaluation.Smallest` | src/core_models/dannn.rs:774-783 | the running minimum of the scan is an element of the input and is at most every element |
| `NodeEvaluation.Largest` | src/core_models/dannn.rs:773-783 | the running maximum of the scan is an element of the input and is at least every element |
| `NodeEvaluation.MeanOfLowestAndHighest` | src/core_models/dannn.rs:769-786 | for a non-empty input, `smallest` and `largest` are inputs that bound every input, and `mean` is their midpoint, so `smallest <= mean <= largest`; for an empty input all three are 0 |
| `NodeEvaluation.GetMeanOfLowestAndHighest` | src/core_models/dannn.rs:769-786 | the loop returns exactly that triple |
| `NodeEvaluation.RunNode` | src/core_models/dannn.rs:788-848 | the early-return scans decide as stated: AND returns `smallest` iff some input is below the mean and differs from `smallest`, else `largest`; NAND swaps those two outcomes; OR returns `largest` iff some input is at least the mean and is neither extreme, else `smallest`; NOR swaps those; NOT returns the negated first input, or nothing on empty input; every other id returns nothing |
| `NodeEvaluation.GateOutputIsExtreme` | src/core_models/dannn.rs:790-841 | ids 101, 102, 103 and 105 always give `Some(v)` with `v` equal to `smallest` or `largest`; `v` is an input between the minimum and maximum, or 0 for no inputs |
| `NodeEvaluation.NegatedGatesAreOpposites` | src/core_models/dannn.rs:790-841 | NAND gives the opposite extreme of AND, and NOR the opposite extreme of OR |
| `NodeEvaluation.TwoLevelInputs` | src/core_models/dannn.rs:793-810 | on inputs taking only the two extreme values, AND gives `largest` and OR gives `smallest`, because AND omits only the smallest value and OR omits both extremes |
| `NodeEvaluation.NotGate` | src/core_models/dannn.rs:825-830 | NOT gives the negation of the first input and ignores the rest; with no input it gives nothing |
| `NodeEvaluation.OtherIdsYieldNothing` | src/core_models/dannn.rs:843-846 | every id outside 101–105 gives no result, the empty XOR arm included |
| `NodeEvaluation.SourceTestVectors` | src/core_models/dannn.rs:751-765 | the six assertions of `node_tests` hold |
| `NodeEvaluation.SpreadInputVector` | src/core_models/dannn.rs:754 | AND on `[10, 20, 30, 40]` gives 10: 20 is below the mean 25 and is not the smallest |
| `NodeEvaluation.UpperPairVector` | src/core_models/dannn.rs:755-763 | on `[10, 30, 30, 40]` AND gives 40, OR gives 40 and NOR gives 10: 30 reaches the mean and is neither extreme |
| `NodeEvaluation.LowerPairVector` | src/core_models/dannn.rs:758-762 | on `[10, 20, 20, 40]` OR gives 10 and NOR gives 40: no interior input reaches the mean 25 |
| `NodeEvaluation.ScanOfFour` | src/core_models/dannn.rs:769-786 | the scan of the test inputs gives `(25, 10, 40)` |
| `NetworkModel.NodeLookupAsWritten` | src/core_models/dannn.rs:686-696 | `get_node` as written: `InvalidLayer` iff the layer index is out of range; `InvalidNode` iff the node index is at least the layer count; a panic iff it passes both checks but is past the end of that layer; otherwise the addressed node |
| `NetworkModel.NodeLookup` | src/core_models/dannn.rs:686-696 | the lookup as intended: it succeeds iff both indices address a node and then returns that node; otherwise it gives `InvalidLayer` or `InvalidNode` |
| `NetworkModel.NodeGuardCounterexamples` | src/core_models/dannn.rs:690-694 | two inputs where the written check is wrong: one panics, one refuses an existing node |
| `NetworkModel.AsWrittenAgreesWithIntended` | src/core_models/dannn.rs:686-696 | when the written lookup finds a node it is the right node, and both lookups agree on out-of-range layers and on indices below both bounds |
| `NetworkModel.Network.constructor` | src/core_models/dannn.rs:645-652 | a new network has no layers, no inputs and a fresh, empty selection table |
| `NetworkModel.Network.GenerateNodeToLayer` | src/core_models/dannn.rs:653-669 | fails with `InvalidLayer` and changes nothing iff the layer index is at least the layer count; otherwise appends a node with that type, no connections and state 0 (`Node::new`, lines 565-571) to that layer only, leaving every other layer unchanged |
| `NetworkModel.Network.GenerateLayerToNetwork` | src/core_models/dannn.rs:671-677 | appends exactly one empty layer (`Layer::new`) and returns it |
| `NetworkModel.Network.GetLayer` | src/core_models/dannn.rs:679-684 | the layer at the index, or `InvalidLayer` exactly when out of range |
| `NetworkModel.Network.GetNode` | src/core_models/dannn.rs:686-696 | `get_node` as written, panic excluded: `InvalidLayer` iff the layer is out of range, `InvalidNode` iff the node index is at least the layer count, else the addressed node |
| `NetworkModel.SourceNetworkExample` | src/core_models/dannn.rs:743-749 | a new network given one layer and then a node of type 201 in layer 0 holds `[Layer([Node(201, [], 0.0)])]`, no inputs and an empty table |

## Left out

- `set_prevalence_by_id` and `get_prevalence_by_id` are not modelled. Their bodies are `todo!()`, so they have no behaviour to state. Because nothing can change a stored descriptor, every live entry stays equal to its canonical descriptor.
- XOR (106) has no semantics. Its arm `106 => {}` (src/core_models/dannn.rs:843-845) has type `()`, while the other arms of that final `match` have type `Option<f64>`. So the file as written does not type-check, and the model rests on its text alone. The model gives 106 no result, like every other unimplemented id, and invents no parity rule.
- The comparison gates (107–117) and the arithmetic, trigonometric, string and random operators (201–224, 301–304, 401) have descriptors but no evaluation code. `run_node` returns nothing for them, and that is all the model says.
- `ConnectionType`, `NodeConnection`, `Constant`, `Input` and the `Connection` trait hold borrowed references. Lifetimes and aliasing are not modelled. A `Connection` keeps only the value it supplies, and nodes are only ever created with no connections.
- No forward pass or wiring exists in the source, so none is modelled.
- Floating point is modelled as `real`. NaN, infinities, rounding and the `f32` width of `prevalence` are not modelled. `usize` is modelled as `nat`, so overflow is not modelled.
- Names and descriptions are stored as plain strings. The `println!`/`{:?}` tests check formatting only and are not modelled. `HashMap` iteration order is not modelled.
- The handles that the network methods return are copies. A caller mutating the network through a returned `&mut` handle is not modelled.
- The `NodeAddition` error branch of `generate_node_to_layer` is not modelled: it follows a `get_mut` that cannot fail after the bounds check. `Initialize`, `PrevalenceConfigure`, `LayerRetrieval` and `NodeRetrieval` are never produced by the source, so they are declared but never returned.
- `NodeSelection.NodeSelectionTable.EnableById`: requires a canonical id (`IsCanonicalId`, stated by the five id ranges), because the source panics at line 526 on any other id.
- `NetworkModel.Network.GetNode`: requires that an index passing both checks addresses a node, because otherwise the source's `unwrap` at line 694 panics. `NetworkModel.NodeLookupAsWritten` models that panic as an outcome.
- Every `NodeSelection.NodeSelectionTable` mutator requires `Valid()`, the invariant that the table is a sub-map of the canonical table. Every constructor and mutator establishes it.

## Findings

| source | as written | input that shows it | evidently intended | confidence | as-written member | corrected member |
|---|---|---|---|---|---|---|
| src/core_models/dannn.rs:690 | `get_node` checks `node_index < self.layers.len()`: the number of layers, not the number of nodes in the layer | layers `[Layer([n]), Layer([])]`, `get_node(0, 1)`: passes both checks and the `unwrap` at line 694 panics. Layers `[Layer([n, n])]`, `get_node(0, 1)`: returns `InvalidNode` for an existing node | check against `layers[layer_index].nodes.len()` and return `InvalidNode` when out of range | high; not executed | `NetworkModel.NodeGuardCounterexamples` | `NetworkModel.NodeLookup` |

`NetworkModel.Network.GetNode` keeps the check as written, so that the model
matches the source's behaviour. `NetworkModel.NodeLookup` is the intended
accessor, and its contract is proved: it succeeds exactly when both indices
address a node.
