# Verified model of the RK3576 graph planner and the register-program core

A Dafny model of three parts of rocket-userspace, a user-space driver library for the Rockchip
NPU, with proofs about them.

**The graph planner** (`GraphLayers` to `GraphKickPlan`, `ChainRuns`). A network is a table of
layers. Five passes over shared arrays decide which tensors stay in the part's cube layout, which
producers write slices of a shared buffer, and which readers take a producer's surface; a sixth
step finds the runs of layers that go out as one submit. Each pass asks a library that may refuse
any call, and undoes what it did when one does.

- `GraphPlan` holds the invariant `Sound`: what a handle is bound to is what its producer describes
  now, no reader on the part is left without its tensor, every slice has its writer, and every
  buffer its owner. `GraphPlanner` is the planner itself, a class whose methods reassign its
  arrays; every pass keeps the invariant, and an attempt that fails leaves plan, bindings and
  counters exactly as they were. At the end the counters balance (`GraphAccounting`,
  `GraphRefusals`). `GraphDecide` says what each pass asks and the plans its decisions can end
  in; under the hypothesis `generous`, that the library refuses only what the modelled contracts
  let it (plane, row pitch, split output, packed image, depth, alignment, stride, tail), that is
  one plan, and each refused pair is filed under the reason the pair itself gives.
- `GraphRun` gives a plan its meaning. Memory is a plane for each channel of each surface and
  buffer; a layer is an arbitrary function of the planes its DMA reads. `GraphMeaning` proves that
  running through the surfaces, slices and views, inference after inference over the same memory,
  gives every layer the output it has on row-major tensors. `GraphExact` says exactly when: three
  conditions are not checked by the passes. `GraphRules` gives the condition on the table alone
  that is exact over every sound plan of it, `GraphReach` the one on the table and the knobs that is
  exact over the plans the passes can reach, `GraphWitness` tables whose one plan breaks each
  condition, and `GraphTwin` the condition an add's wiring rests on and no pass tests. `GraphRows`
  works the passes' questions and the library's contracts out into rules on the rows' own fields,
  and says what every reached plan owes to them. `GraphTails` and `GraphAdd` derive from the
  arithmetic what the meaning theorem assumes of it.
- `ChainRuns` is the run finder, sound and, with room for all runs, complete up to a split at the
  program bound. `GraphKickPlan` builds the kicks and puts every other layer in one bucket; under
  the hypothesis `willing`, that the library builds every stream and no allocation fails, every run
  found that the localizer lets through becomes a kick as long as it may be.

**The layout and register-program core** (`WeightCube`, `FeatureCube`, `ConvCubes`, `Cbuf`,
`CbufPlaces`, `Emitter`, `Decoder`, `RegisterMap`). The tiled index functions are bijections; a
convolution contracted through the packed cubes is the row-major convolution, whose pad is a zero
border, whose stride skips and whose dilation spreads the kernel; a shape is accepted exactly when
some split of the on-chip buffer holds every element it must; the emitted program decodes to the
descriptors it was given, and is the register map word for word.

**The requantization pair and the convolution extents** (`Requant`, `Extents`). The pair's gain
bound, with its one exception, and the end-to-end statement that an output is within one count of
that of the exact scale; the transposed extent inverted; the trailing pad bounded.

## What a table must describe

`GraphLayers.WellFormed` states what the planner relies on and does not check: operands precede
their reader; a convolution or a pool has one operand; an add's have its own channel count; a
concatenation and a host layer have no handle; channel counts are positive. Building a
plan requires `GraphDecide.TwinsIdle` too: an add of one layer with itself is either not attempted,
or the library keeps to its contracts and one of them speaks against it. One add of the pass is
modelled without.

A handle's promises are those of include/rocket_conv.h:1299-1409 and include/rocket_pool.h:246-293,
each of which may also be refused for no reason. A layer's output depends on the channels past its
operand only when its input channels do not fill a group of 32 and its weight zero point is not
zero. A depthwise program writes its raw channel count.

## Where the code and its documentation differ

- graph/rocket_graph_rk3576.h:90-96 says a layer whose input the caller prepares is never a cube
  consumer. The planner asks that of convolutions only (graph/rocket_graph_rk3576.c:140-146): it
  binds a prepared pool, a prepared add and a prepared concatenation, and the plan then computes
  something else.
- include/rocket_conv.h:134-136 calls the trailing pad zero for a symmetric descriptor. Of a window
  that fits the padded plane the code gives zero exactly when the extent's division drops at least
  the leading pad and, where the dilation is zero, the kernel's other taps: the extent reads a zero
  dilation as it is and the trailing pad as one (include/rocket_conv.h:55-150), and the RK3576
  entries accept it (src/rocket_conv2d_rk3576.c:163-168). A 3-tap window at stride 1 with a pad of
  one trails by one, and one with no pad and a zeroed dilation by two.
- include/npu_requant.h:16 states its bound at every scale. It holds exactly for exponents 1 to 141
  but where a carry meets a shift of zero and drops fraction bits, and for the subnormal scales
  whose fraction is at least 0x7FFD01 and not 0x7FFE00.
- A pool that refuses a placement may have raised its cube-out flag (src/rocket_pool_rk3576.c:891);
  the planner lowers it, and the model allows it.

## Model

| member | source | states |
|---|---|---|
| `GraphLayers.OperandList` | graph/rocket_graph_rk3576.c:110-116 | the layer operands in slot order, unused slots dropped |
| `GraphLayers.OperandsOf` | graph/rocket_graph_rk3576.c:110-116 | exactly the slots that name a layer |
| `GraphLayers.ConsumersOf` | graph/rocket_graph_rk3576.c:342-357 | every reader of a layer in table order, or a count past the limit: never a subset of the readers |
| `GraphLayers.ReadersBelow` | graph/rocket_graph_rk3576.c:342-357 | a layer is listed exactly when it runs on the part after the producer and names it as an operand; indices rise |
| `GraphLayers.NextLayerOf` | graph/rocket_graph_rk3576.c:250-256 | the first layer after i that is not on the host |
| `GraphLayers.IsSkipSource` | graph/rocket_graph_rk3576.c:1161-1173 | true exactly when some reader on the part is not the very next layer |
| `GraphLayers.OnlyReader` | graph/rocket_graph_rk3576.c:1161-1173 | a layer that is no skip source has no reader but its successor |
| `GraphCubes.CutIsSlice` | src/rocket_conv2d_rk3576.c:3962-3990 | what the library cuts for a concatenation's operand is the slice the planner reasons with: its own offset, sized for what its program writes |
| `GraphCubes.CutIsView` | src/rocket_conv2d_rk3576.c:3992-4013 | narrowing and declaring the whole buffer gives the consumers' view, live to the concatenation's own channels |
| `GraphCubes.OffsetsRise` | graph/rocket_graph_rk3576.c:598-660 | an operand's live channels end at or before every later operand's offset |
| `GraphCubes.WriteEndsNeverFall` | graph/rocket_graph_rk3576.c:612-640 | with group-aligned offsets and positive counts no program stops writing past where a later one does, so the planner's own test of that never fires |
| `GraphCubes.WriteEndsFit` | graph/rocket_graph_rk3576.c:652-670 | every operand's program stops writing inside the concatenation's buffer |
| `GraphPlan.UnlinkedSound` | graph/rocket_graph_rk3576.c:1204-1230 | the plan nothing is linked in meets the invariant |
| `GraphPlan.LinkKeepsSound` | graph/rocket_graph_rk3576.c:860-921 | a wiring that is right about the layers it names keeps every other layer right: no bound reader's surface moves, no wired reader is unwired, nothing is starved |
| `GraphPlan.LinkedAt` | graph/rocket_graph_rk3576.c:860-921 | what each entry of the plan is after a wiring, named or not |
| `GraphRules.PreparedTakers` | graph/rocket_graph_rk3576.h:90-96 | a layer that takes cubes although the caller prepares its input, which the header promises there is none of, is a pool, an add or a concatenation |
| `GraphWiring.AddWiringSound` | graph/rocket_graph_rk3576.c:392-499 | wiring an add whose two producers, every other reader and the add itself agreed keeps the plan sound |
| `GraphWiring.ConcatWiringSound` | graph/rocket_graph_rk3576.c:574-712 | the same for a concatenation of any number of operands |
| `GraphWiring.TailWiringSound` | graph/rocket_graph_rk3576.c:738-804 | the same for a producer given a tail of its own |
| `GraphWiring.OwnSurfaceWiringSound` | graph/rocket_graph_rk3576.c:827-921 | the same for a skip source's shared surface and for an adjacent pair |
| `GraphWiring.AddBuiltIsLinked` | graph/rocket_graph_rk3576.c:392-499 | the add pass, step by step over its arrays and handles, builds exactly the wired plan |
| `GraphWiring.AddPairs` | graph/rocket_graph_rk3576.c:453-488 | an add's wiring counts exactly the relations of its two producers |
| `GraphWiring.UnwiredAdd` | graph/rocket_graph_rk3576.c:392-411 | an add not yet wired has producers no wiring of another layer has claimed with it |
| `GraphAccounting.TallyMeaning` | graph/rocket_graph_rk3576.c:264-280 | the four counters are the sizes and bytes of the adjacent and the other wired relations |
| `GraphAccounting.PairBytesCount` | graph/rocket_graph_rk3576.c:257-269 | a relation's bytes are the elements its producer writes: live channels by rows by columns |
| `GraphAccounting.TallyAdd` | graph/rocket_graph_rk3576.c:264-280 | counting one more relation does not depend on the order the others were counted in |
| `GraphAccounting.NearAndFar` | graph/rocket_graph_rk3576.c:264-280 | joins and far links together are the number of relations, none counted twice, and so are their bytes |
| `GraphAccounting.PairsBalance` | graph/rocket_graph_rk3576.c:860-921 | every adjacent pair is a join or refused, never both, and the bytes add up likewise |
| `GraphAccounting.NoMorePairs` | graph/rocket_graph_rk3576.c:866-870 | past the last layer with a successor no dataflow-adjacent pair is left |
| `GraphAccounting.PairsCounted` | graph/rocket_graph_rk3576.c:866-871 | counting pairs one producer at a time counts each adjacent pair once |
| `GraphRefusals.BookedAdd` | graph/rocket_graph_rk3576.c:282-295 | noting a pair keeps every bucket the size and bytes of the pairs refused for its reason |
| `GraphRefusals.BooksBalance` | graph/rocket_graph_rk3576.c:282-295 | the six buckets add up to the refused pairs and their bytes, none counted twice |
| `GraphBinding.ClearingUndoesBinding` | graph/rocket_graph_rk3576.c:437-452 | taking apart the readers bound so far leaves handles, flags and counted relations as before the attempt |
| `GraphBinding.ClearingUndoesBoth` | graph/rocket_graph_rk3576.c:437-481 | the same for the two reader lists of an add, wherever the refusal fell |
| `GraphBinding.ClearingUndoesTwice` | graph/rocket_graph_rk3576.c:467-481 | and for one list bound twice: the first walk takes both bindings apart and the second finds nothing |
| `GraphBinding.BindingsCommute` | graph/rocket_graph_rk3576.c:437-481 | binding one operand's readers and then the other's is order-free when no reader is in both lists |
| `GraphConcat.ConcatBuiltIsLinked` | graph/rocket_graph_rk3576.c:665-702 | the concatenation pass builds exactly the wired plan |
| `GraphConcat.ConcatPairs` | graph/rocket_graph_rk3576.c:692-702 | it counts exactly the relations of its operands and its own |
| `GraphConcat.UndoneIsOld` | graph/rocket_graph_rk3576.c:665-691 | unwinding an attempt in the order it was built restores every handle |
| `GraphConcat.ConcatTouchesOnly` | graph/rocket_graph_rk3576.c:574-712 | wiring one concatenation wires no other |
| `GraphSingle.SingleBuiltIsLinked` | graph/rocket_graph_rk3576.c:738-921 | the one-producer passes build exactly the wired plan |
| `GraphSingle.SinglePairs` | graph/rocket_graph_rk3576.c:738-921 | they count exactly that producer's relations |
| `GraphSingle.TailUndone` | graph/rocket_graph_rk3576.c:781-793 | an abandoned tail leaves every handle as it was |
| `GraphSingle.SoleReader` | graph/rocket_graph_rk3576.c:883-899 | a producer that is no skip source has its successor for its only reader, so a pair wiring feeds all of its readers |
| `GraphPlanner.Planner.ProdCubeOf` | src/rocket_conv2d_rk3576.c:3740-3788 | an output description is the producer's own surface or its slice, at its own plane and row pitch, with the tail it can state; a split output has none, and a pool needs whole groups |
| `GraphPlanner.Planner.ProdCubeOutAt` | src/rocket_conv2d_rk3576.c:4015-4108 | a placement is accepted only of a single surface, at the producer's own plane and stride, with no row pitch, inside the buffer and at the program's own depth; a refused one changes nothing but, for a pool, its cube-out flag |
| `GraphPlanner.Planner.ConsCubeIn` | src/rocket_conv2d_rk3576.c:3790-3905 | a binding is accepted only for a cube of the reader's own plane, as deep as it walks and, where the tail matters, declared at the reader's zero point; a convolution takes no row pitch and a packed-image one no cube; a refused one changes nothing |
| `GraphPlanner.Planner.CubeJoined` | graph/rocket_graph_rk3576.c:264-269 | one relation more is counted, adjacent or far, whether or not it was counted before |
| `GraphPlanner.Planner.CubeUnjoined` | graph/rocket_graph_rk3576.c:270-275 | exactly one relation less is counted |
| `GraphPlanner.Planner.BindAndCount` | graph/rocket_graph_rk3576.c:453-476 | readers are bound, marked and counted one by one up to the first refusal |
| `GraphPlanner.Planner.UnbindAndUncount` | graph/rocket_graph_rk3576.c:477-481 | exactly the marked readers are taken apart and uncounted |
| `GraphPlanner.Planner.PlaceAdd` | graph/rocket_graph_rk3576.c:412-452 | an add's buffer, slices and view are all in place or no trace is left |
| `GraphPlanner.Planner.TryAdd` | graph/rocket_graph_rk3576.c:412-488 | whichever call refuses, plan, bindings, flags and the set of relations are as before; so are the counters, but that of one layer's readers, listed twice, those the second walk had bound stay counted; otherwise all of it is built |
| `GraphPlanner.Planner.WireAdd` | graph/rocket_graph_rk3576.c:392-499 | an add is wired exactly when the pass's own questions and every party's contract say so, unless the library refuses for no reason; of two operands the plan is then the sound, counted, wired one, else exactly the old one; of one operand named twice it is unsound and its relations are counted twice |
| `GraphPlanner.Planner.CatLink` | graph/rocket_graph_rk3576.c:392-499 | every add of the table is decided as its own table entries, its readers and the knob say, one of a layer with itself among them if it is not attempted or some contract speaks against it; no concatenation is wired; the plans the pass goes through are ones its decisions allow |
| `GraphPlanner.Planner.ScreenOperands` | graph/rocket_graph_rk3576.c:598-651 | passes exactly when the operands rise in program order, fill the concatenation, start at whole groups, share its zero point, and each is free, resident, not forced apart and allowed its overlap |
| `GraphPlanner.Planner.SlicesFit` | graph/rocket_graph_rk3576.c:652-670 | the library can cut every slice an eligible concatenation needs from the buffer the pass allocates |
| `GraphPlanner.Planner.PlaceOperands` | graph/rocket_graph_rk3576.c:665-676 | each operand writes its own slice and is described there, up to the first refusal |
| `GraphPlanner.Planner.TryConcat` | graph/rocket_graph_rk3576.c:652-702 | all or nothing, whichever of any number of calls refuses |
| `GraphPlanner.Planner.WireConcat` | graph/rocket_graph_rk3576.c:574-712 | the plan stays sound and counted; it is the wired one or exactly the old one, and a concatenation becomes placement exactly when the pass's own questions and every party's contract say so, unless the library refuses for no reason |
| `GraphPlanner.Planner.ConcatLink` | graph/rocket_graph_rk3576.c:574-712 | each concatenation is made placement exactly when, in the plan the pass has then, all it asks and all it needs say yes, or the library refused for no reason |
| `GraphPlanner.Planner.TakeTail` | graph/rocket_graph_rk3576.c:769-793 | a tail buffer with its slice and every reader bound, or no trace |
| `GraphPlanner.Planner.WireTail` | graph/rocket_graph_rk3576.c:738-804 | the plan stays sound and counted; it is the wired one or exactly the old one, and a producer is given a tail exactly when the pass's own questions and every party's contract say so, unless the library refuses for no reason |
| `GraphPlanner.Planner.TailLink` | graph/rocket_graph_rk3576.c:738-804 | the same of each producer and a tail of its own |
| `GraphPlanner.Planner.WireShared` | graph/rocket_graph_rk3576.c:827-858 | the plan stays sound and counted; it is the wired one or exactly the old one, and a skip source's surface is shared exactly when the pass's own questions and every party's contract say so, unless the library refuses for no reason |
| `GraphPlanner.Planner.MultiLink` | graph/rocket_graph_rk3576.c:827-858 | the same of each skip source and its surface |
| `GraphPlanner.Planner.NojoinNote` | graph/rocket_graph_rk3576.c:282-295 | one more refused pair and its bytes under its own reason, and under no other |
| `GraphPlanner.Planner.ScreenPair` | graph/rocket_graph_rk3576.c:876-899 | a pair the caller's tables refuse is refused for the first rule it breaks; one that passes has a resident producer that is no skip source and a free consumer that can take a cube |
| `GraphPlanner.Planner.FallbackUnreachable` | graph/rocket_graph_rk3576.c:895-899 | a pair is never found linked on the consumer's side only, so the refusal kept for that never fires |
| `GraphPlanner.Planner.WirePair` | graph/rocket_graph_rk3576.c:876-918 | a pair is linked and counted once, or refused without a trace and, unless the library refuses for no reason, for the reason the pair itself gives |
| `GraphPlanner.Planner.PairWired` | graph/rocket_graph_rk3576.c:871-882 | a pair is counted exactly when its producer leaves a cube, and then its consumer takes it |
| `GraphPlanner.Planner.LinkPairs` | graph/rocket_graph_rk3576.c:860-921 | the refused pairs are exactly the dataflow-adjacent pairs not wired, each in one bucket; joins plus buckets are all the pairs, and the same of their bytes |
| `GraphPlanner.Planner.CubeLink` | graph/rocket_graph_rk3576.c:860-921 | after all five passes, in their order, the plan is sound and the counters balance |
| `GraphPlanner.PlanNew` | graph/rocket_graph_rk3576.c:1204-1230 | a plan, if there is memory and a layer, is sound and one the five passes' decisions end in, the only one if the library refuses nothing for no reason; joins and far links are the number of wired relations; NULL for an empty table |
| `GraphDecide.OnePlan` | graph/rocket_graph_rk3576.c:860-921 | a library that refuses only what its contracts let it leaves one plan for a table and knobs |
| `GraphDecide.EndsGrow` | graph/rocket_graph_rk3576.c:860-921 | no pass undoes what an earlier one linked |
| `GraphDecide.FirstIsWired` | graph/rocket_graph_rk3576.c:392-921 | the first layer a pass looks at is linked when the pass is done, if all it asks and needs say yes |
| `GraphDecide.PlannedPair` | graph/rocket_graph_rk3576.c:866-921 | an adjacent pair nothing speaks against is linked in the plan |
| `GraphHomes.SlotClash` | graph/rocket_graph_rk3576.c:598-672 | a program that runs later in the same buffer writes no live channel of an earlier output, and its padding only where the next operand belongs |
| `GraphHomes.AddSlotsApart` | graph/rocket_graph_rk3576.c:120-125 | an add's two programs write disjoint channels, padding included |
| `GraphHomes.PastTheEndIsPadding` | graph/rocket_graph_rk3576.c:598-672 | past a concatenation's own channels its operands write only its zero point |
| `GraphHomes.WritesStayInside` | src/rocket_conv2d_rk3576.c:4015-4108 | every program of a sound plan writes inside its surface or buffer |
| `GraphHomes.ReadsStayInside` | src/rocket_conv2d_rk3576.c:3790-3905 | every bound reader's DMA, padding groups included, stays inside what it reads |
| `GraphMeaning.RunKeepsInv` | graph/rocket_graph_rk3576.c:738-797 | over a whole inference, whatever the layers compute, every cube left stays readable and every declared tail stays true |
| `GraphMeaning.StepKeepsTail` | graph/rocket_graph_rk3576.c:738-797 | no program writes a declared tail with anything but the value declared |
| `GraphMeaning.PlacementConcatenates` | graph/rocket_graph_rk3576.c:598-672 | after its operands have run, a placed concatenation's buffer is their concatenation, overlapping round-32 writes notwithstanding |
| `GraphMeaning.StepAgrees` | graph/rocket_graph_rk3576.c:392-921 | a layer reading through the plan computes what it computes on row-major tensors |
| `GraphMeaning.SessionAgrees` | graph/rocket_graph_rk3576.c:738-797 | any number of inferences through the plan give every layer its row-major output |
| `GraphExact.FaithfulExactly` | graph/rocket_graph_rk3576.c:342-357 | a sound plan preserves meaning exactly when no host layer reads a producer that leaves a cube, no layer that takes cubes has an input the caller prepares, and no tail-dependent reader beside a placed concatenation runs after the next operand |
| `GraphExact.PreparedShows` | graph/rocket_graph_rk3576.h:90-96 | a bound layer whose input the caller prepares computes something else than it would on what was prepared |
| `GraphRules.RulesSuffice` | graph/rocket_graph_rk3576.c:1204-1230 | on a table that keeps three rules a caller can check, every sound plan preserves meaning, whatever was refused and whatever the knobs say |
| `GraphRules.TableExactly` | graph/rocket_graph_rk3576.c:392-921 | every sound plan of a table, reachable or not, preserves meaning exactly when each single wiring its rows agree to is harmless, which is decided without building a plan |
| `GraphRules.PreparedExactly` | graph/rocket_graph_rk3576.h:90-96 | no sound plan of a table binds a layer whose input is prepared exactly when no single wiring does |
| `GraphRules.HarmIsOffered` | graph/rocket_graph_rk3576.c:392-921 | a sound plan that loses meaning contains a wiring of its table that does |
| `GraphRules.ProducerOffered` | graph/rocket_graph_rk3576.c:392-921 | whatever plan makes a layer leave a cube, a wiring everyone agrees to on the bare table does |
| `GraphReach.StepSound` | graph/rocket_graph_rk3576.c:392-921 | whatever a pass may wire in a sound plan leaves it sound |
| `GraphReach.WirableFirst` | graph/rocket_graph_rk3576.c:392-921 | what a pass asks at any sound plan it would also ask, and be answered, with nothing linked |
| `GraphReach.PlannedReached` | graph/rocket_graph_rk3576.c:1204-1230 | every plan the five passes can reach, whatever the library refuses on the way, is sound, and every layer it links is linked by a wiring some pass may try first |
| `GraphReach.TriedIsPlanned` | graph/rocket_graph_rk3576.c:392-921 | any one wiring a pass may try first is a plan reached, the library refusing all others |
| `GraphReach.ReachableExactly` | graph/rocket_graph_rk3576.c:1204-1230 | under each setting of the knobs, every plan the passes can reach preserves meaning exactly when each single wiring one of them may try first is harmless |
| `GraphRows.AddWiredExactly` | graph/rocket_graph_rk3576.c:392-499 | in every plan reached an add is wired only if a rule on the rows' own fields holds, and if the library refuses nothing for no reason exactly if it does: one operand the layer before, both resident, unprepared and not named by the knob, each with at most four readers that take cubes, planes, depths and tails as each kind of layer has them |
| `GraphRows.SlotsAreAlike` | graph/rocket_graph_rk3576.c:378-391 | exchanging an add's two operands does not change whether it is wired |
| `GraphRows.FarAddIsNotWired` | graph/rocket_graph_rk3576.c:404-408 | an add no operand of which is the layer before it is never wired |
| `GraphRows.PlainAddIsWired` | graph/rocket_graph_rk3576.c:392-499 | a residual add of two plain convolutions only it reads, either of them just before it, is wired |
| `GraphRows.ConcatExactly` | graph/rocket_graph_rk3576.c:574-712 | the concatenation pass may wire a concatenation first exactly when the rows' fields meet its rule |
| `GraphRows.TailExactly` | graph/rocket_graph_rk3576.c:738-804 | the tail pass a producer: a pool on half a group of 32 over a packed plane, all of whose readers depend on their tails and would find its zero point there |
| `GraphRows.ShareExactly` | graph/rocket_graph_rk3576.c:827-858 | the shared-surface pass a skip source, every reader of which takes the surface it owns |
| `GraphRows.PairExactly` | graph/rocket_graph_rk3576.c:860-921 | the pair loop a producer whose only reader is the layer after it and takes that surface |
| `GraphRows.LeavesByRule` | graph/rocket_graph_rk3576.c:1204-1230 | in every plan the passes can reach, whatever was refused, a layer leaves a cube only by one of those five rules |
| `GraphRows.PairIsWired` | graph/rocket_graph_rk3576.c:860-921 | a library that refuses nothing for no reason leaves no pair unlinked whose rule holds |
| `GraphRows.FirstConcatIsWired` | graph/rocket_graph_rk3576.c:574-712 | nor the first concatenation of a table without adds, or any operand of it |
| `GraphRows.TakesSliceExactly` | src/rocket_conv2d_rk3576.c:3740-3905 | which readers take what a producer leaves in a slice, by kind, channels, plane, weight zero point and zero points |
| `GraphRows.TakesOwnExactly` | src/rocket_conv2d_rk3576.c:3740-3905 | and which take the surface it owns |
| `GraphRows.WritesSliceExactly` | src/rocket_conv2d_rk3576.c:4015-4108 | which producers write a slice of a given depth |
| `GraphRows.BuffersAreTight` | graph/rocket_graph_rk3576.c:412-418 | an add's buffer holds its two operands' whole groups and a tail's its producer's, and no more |
| `GraphRows.ConcatBufferIsTight` | graph/rocket_graph_rk3576.c:652-670 | a concatenation's is the least that holds the channels its readers walk and every program that writes into it |
| `GraphRows.ReasonsMean` | graph/rocket_graph_rk3576.c:886-911 | each of the six reasons is given for a pair exactly when its own condition holds and none before it |
| `GraphWitness.HostReaderIsStarved` | graph/rocket_graph_rk3576.c:1161-1173 | the plan of a three-layer table, whose host reader finds no tensor: host readers are not counted as readers |
| `GraphWitness.HostPlan` | graph/rocket_graph_rk3576.c:1204-1230 | the planner returns that plan, sound and not preserving meaning |
| `GraphWitness.SideReaderIsOvertaken` | graph/rocket_graph_rk3576.c:598-702 | the plan of a five-layer table with a late side reader keeps its meaning exactly when that reader's weight zero point is zero: otherwise it reads the next operand's data for its tail |
| `GraphWitness.SidePlan` | graph/rocket_graph_rk3576.c:1204-1230 | the planner returns that plan, at every weight zero point |
| `GraphWitness.PreparedPoolIsBound` | graph/rocket_graph_rk3576.c:133-149 | the plan of a two-layer table binds a pool, of either kind, whose input the caller prepares, and meaning is lost |
| `GraphWitness.PreparedAddIsBound` | graph/rocket_graph_rk3576.c:402-452 | the plan of a three-layer table does so to an add: the pass asks its producers and not the add |
| `GraphWitness.PreparedConcatIsPlaced` | graph/rocket_graph_rk3576.c:598-702 | and one of a five-layer table to a concatenation |
| `GraphWitness.CrowdIsUnreached` | graph/rocket_graph_rk3576.c:827-858 | a table one of whose sound plans starves a host layer and none of whose reachable plans does: no pass wires five readers |
| `GraphWitness.PreparedByKind` | graph/rocket_graph_rk3576.h:90-96 | the promise is kept in every sound plan of every table for exactly the kinds convolution, depthwise convolution and host |
| `GraphTwin.WiredAddExactly` | graph/rocket_graph_rk3576.c:402-488 | over every table well formed in other respects, the plan the add pass builds is sound exactly when the add's operands are two layers, and loses meaning when they are one |
| `GraphWitness.TwinIsWired` | graph/rocket_graph_rk3576.c:402-488 | the add pass wires a convolution added to itself, the plan loses meaning, and its one relation is counted twice |
| `GraphTwin.TwinIsUnfaithful` | graph/rocket_graph_rk3576.c:428-440 | an add of one layer with itself reads whatever its buffer's first channels held |
| `GraphPlanner.Planner.TwinMiscounts` | graph/rocket_graph_rk3576.c:453-488 | and its counters are not those of the relations wired |
| `GraphAdd.EitherOrder` | graph/rocket_graph_rk3576.c:387-391 | an add's two producers may run in either order |
| `GraphAdd.DiagonalsAdd` | src/rocket_conv2d_rk3576.c:3170-3240 | the two-diagonal convolution with its bias is the two-operand sum, whatever the channels between and past the operands hold |
| `GraphAdd.DiagonalsAreSemOk` | graph/rocket_graph_rk3576.c:120-125 | a network whose adds are that convolution meets all the meaning theorem asks of its arithmetic, if its other layers do |
| `GraphAdd.ResidualAddWeights` | src/rocket_conv2d_rk3576.c:3225-3232 | the weight matrix is two diagonals and zeros, the bias the difference of the zero points |
| `GraphTails.TailEnters` | src/rocket_conv2d_rk3576.c:3815-3835 | the channels past a direct layer's own enter its accumulator by their sum alone, times its weight zero point |
| `GraphTails.SensitiveExactly` | src/rocket_conv2d_rk3576.c:3815-3835 | so what they hold makes a difference exactly at a non-zero weight zero point, of either sign, and a channel count that is not a multiple of 32, at any weights, bias and data |
| `GraphTails.TailRuleExactly` | src/rocket_conv2d_rk3576.c:3829-3848 | a reader's rule for a cube's declared tail holds exactly when every tail the cube allows gives what the reader's own padding gives |
| `GraphTails.ConvsAreSemOk` | src/rocket_conv2d_rk3576.c:2425-2449 | a network whose convolutions accumulate so meets all the meaning theorem asks of its arithmetic, if its other layers do |
| `GraphTails.ConvShowsTail` | src/rocket_conv2d_rk3576.c:3815-3835 | and it asks no less than it must: the output of a tail-dependent one differs for some two tails |
| `ChainRuns.Grow` | src/rocket_conv2d_rk3576.c:4576-4600 | a run grows to a stream that nothing can be added to, within the program bound |
| `ChainRuns.Trim` | src/rocket_conv2d_rk3576.c:4601-4610 | a trailing pool or placement is given back, with its programs |
| `ChainRuns.FindRuns` | src/rocket_conv2d_rk3576.c:4566-4626 | every run found is legal, within the bound, and apart from the others; with room for all, every legal run lies inside a found one unless a stream that begins no later and ends inside it has more programs than the bound, and there is room if no way to lay runs apart has more |
| `ChainRuns.IsFed` | src/rocket_conv2d_rk3576.c:4420-4432 | a layer is fed exactly when an earlier layer of the run wrote the address it reads |
| `ChainRuns.PoolBetween` | src/rocket_conv2d_rk3576.c:4433-4475 | a convolution, a pool and a convolution are a run exactly when all are chainable, the pool cannot lag and reads what the first wrote, and the last reads either; it has one program more than the two |
| `ChainRuns.PlacementBetween` | src/rocket_conv2d_rk3576.c:4433-4475 | across a placement the last has to read what the first wrote, and nothing is asked or emitted of the placement |
| `ChainRuns.FewLayersFewRuns` | src/rocket_conv2d_rk3576.c:4566-4626 | a table of 2n + 1 layers has n runs at most |
| `GraphKicks.CutIsLegal` | graph/rocket_graph_rk3576.c:1077-1090 | a run cut short and trimmed back to a convolution is a legal run |
| `GraphKicks.NoHostWorkInside` | graph/rocket_graph_rk3576.c:1034-1068 | inside a kick every layer reads a cube an earlier one of the kick leaves, and every one but the last leaves a cube |
| `GraphKicks.OneKick` | graph/rocket_graph_rk3576.c:1075-1098 | no layer is in two kicks |
| `GraphKicks.KickExtends` | graph/rocket_graph_rk3576.c:1075-1098 | a legal run past every kick so far makes one more kick, and the kicks stay legal and apart |
| `GraphKickPlan.KickPlan.OfferOne` | graph/rocket_graph_rk3576.c:1034-1068 | what a layer is offered to the finder as, and the mark it is left when it cannot be |
| `GraphKickPlan.KickPlan.CutRun` | graph/rocket_graph_rk3576.c:1080-1090 | a run is cut to its longest legal prefix the knob allows |
| `GraphKickPlan.KickPlan.BuildOne` | graph/rocket_graph_rk3576.c:1080-1098 | a kick built is that prefix, and a library that builds all it is asked for leaves none of an admitted run out |
| `GraphKickPlan.KickPlan.BuildRuns` | graph/rocket_graph_rk3576.c:1070-1098 | the kicks are disjoint legal runs no longer than the knob, counted exactly; a library that builds all it is asked for has a kick for every run found that the localizer lets through, and no other |
| `GraphKickPlan.KickPlan.BucketsPartition` | graph/rocket_graph_rk3576.c:1105-1120 | the layers that cost a submit of their own are partitioned by the buckets |
| `GraphKickPlan.KickPlan.Build` | graph/rocket_graph_rk3576.c:1020-1120 | every layer with a program is in one kick or in the one bucket its reason names; with nothing refused, no localizer and room for the runs and programs there are, every legal run of the offered layers lies inside one kick |
| `GraphKickPlan.TwoInOneKick` | graph/rocket_graph_rk3576.c:1020-1098 | two linked convolutions go out as one kick of two layers |
| `GraphKicks.BuiltCovers` | graph/rocket_graph_rk3576.c:1075-1098 | kicks built of runs that cover every legal run cover every legal run |
| `GraphKicks.CoveredExactly` | graph/rocket_graph_rk3576.c:1099-1112 | a layer is then in a kick exactly when it is in some legal run |
| `GraphKicks.LinkedPairIsRun` | graph/rocket_graph_rk3576.c:1034-1072 | two resident, chainable convolutions with no host work about them, the second reading where the first leaves its cube, are a legal run |
| `GraphKicks.LocalizerCuts` | graph/rocket_graph_rk3576.c:1057-1060 | no run begins before the layer the localizer names |
| `GraphKicks.MembersCanChain` | src/rocket_conv2d_rk3576.c:4433-4475 | every member of a run but a placement is resident, unprepared and chainable; a pool among them cannot lag and is strictly inside, a convolution has programs |
| `GraphKicks.ReasonsMean` | graph/rocket_graph_rk3576.c:1034-1120 | each of the nine reasons holds of a layer with a program exactly when its own condition does and none before it |
| `WeightCube.CoordOfIndex` | src/npu_regcmd.c:2240-2283 | a weight's coordinates are read back from its index, padding channels included, for the fp16 and int8 cubes alike |
| `WeightCube.IndexOfCoord` | src/npu_regcmd.c:2240-2283 | every place of the cube is some weight's |
| `WeightCube.AlignedIsBijection` | src/npu_regcmd.c:2230-2283 | with whole groups, weights and places 0 to OC*IC*KH*KW correspond one to one |
| `WeightCube.NoTwoShare` | src/npu_regcmd.c:2240-2283 | no two weights share a place |
| `WeightCube.NeighboursAre` | src/npu_regcmd.c:2240-2283 | input channels of a group lie side by side, output channels 32 apart, kernel columns a tile apart and rows a row of tiles |
| `WeightCube.TilesAreEqual` | src/npu_regcmd.c:2240-2283 | the fp16 and the int8 tile are both 1024 bytes |
| `WeightCube.DwCoordOfIndex` | src/npu_regcmd.c:2256-2295 | the depthwise index is read back too |
| `WeightCube.DwIndexOfCoord` | src/npu_regcmd.c:2256-2295 | and reaches every place |
| `WeightCube.DwNeighboursAre` | src/npu_regcmd.c:2256-2295 | a group's channels lie side by side, kernel columns a group apart and rows a row of groups |
| `WeightCube.OneByOneIsMatmul` | src/npu_regcmd.c:2230-2304 | at a 1x1 kernel the cube is the matmul's exactly when the input channels fill their groups or the weight is in the first output group |
| `WeightCube.MatmulsAreOneByOne` | src/npu_regcmd.c:2230-2304 | with whole input groups the fp16 and int8 matmul indices are their 1x1 convolutions' |
| `WeightCube.Int4IsOneByOne` | src/npu_regcmd.c:2306-2320 | the int4 index is the 1x1 convolution of groups of 64 rows at every channel count |
| `WeightCube.Int4MeetsInt8` | src/npu_regcmd.c:2306-2320 | the int4 and int8 layouts coincide over one input group and part beyond it |
| `FeatureCube.ElementOfIndex` | src/npu_regcmd.c:2221-2228 | an element is read back from its index |
| `FeatureCube.IndexOfElement` | src/npu_regcmd.c:2221-2228 | every position holds an element |
| `FeatureCube.NeighboursAre` | src/npu_regcmd.c:2221-2228 | a group's channels lie side by side, then columns, rows, and the groups a plane apart |
| `FeatureCube.StepIsPlane` | src/npu_regcmd.c:97-125 | line stride and surface stride together are exactly the plane, at every height |
| `FeatureCube.StrideSurvives` | src/npu_regcmd.c:311-314 | the stride, negative below four rows, comes back from its 28-bit field exactly when the field holds it |
| `FeatureCube.ExtentsHold` | src/npu_regcmd.c:133-165 | the field holds the stride of every extent the geometry fields admit |
| `FeatureCube.WalkMeetsElements` | src/npu_regcmd.c:97-125 | the walk over surfaces, rows and columns meets each element where it was packed, of every plane whose stride the field holds |
| `FeatureCube.TruncatingRightOnlyAtFours` | src/npu_regcmd.c:628-632 | the truncating stride is right exactly at heights that are whole lines of four rows |
| `ConvCubes.ThroughCubes` | src/npu_regcmd.c:2230-2283 | the engine's nest over the two cubes is the row-major convolution, for every shape, stride, dilation and pad |
| `ConvCubes.PaddingIsBorder` | include/npu_matmul.h:139-146 | a padded convolution is the unpadded one of the tensor with its zero border written out |
| `ConvCubes.StrideSkips` | include/npu_matmul.h:139-144 | a strided one keeps one output in every stride of the one that steps by one |
| `ConvCubes.DilationSpreads` | include/npu_matmul.h:139-144 | a dilated one is the undilated one of the kernel with zeros between its taps |
| `ConvCubes.NestsAgree` | src/npu_regcmd.c:2230-2244 | the two loop orders give one sum when padding channels contribute nothing |
| `ConvCubes.CubesExist` | src/npu_regcmd.c:2221-2283 | every pair of tensors has its cubes: packing never asks one place for two values |
| `Cbuf.StreamBanks` | src/npu_regcmd.c:115-119 | at least two banks, and room for a whole 32-kernel atom |
| `Cbuf.StreamBanksFewest` | src/npu_regcmd.c:112-119 | and no fewer would do |
| `Cbuf.MatmulFp16` | src/npu_regcmd.c:577-608 | a shape is accepted exactly when a split serves it, and then gets that split; a refusal carries the code of its reason |
| `Cbuf.MatmulInt8` | src/npu_regcmd.c:1080-1131 | the same with one slack bank for the features and one more for a streamed cube |
| `Cbuf.NoWrap` | src/npu_regcmd.c:577-608 | once one kernel fits a bank no 32-bit product wraps |
| `Cbuf.AcceptedFits` | src/npu_regcmd.c:577-608 | an accepted feature cube lies in its banks, and weights that do not are streamed above the floor and never reused |
| `Cbuf.OnlySplit` | src/npu_regcmd.c:577-608 | a shape has one split at most |
| `CbufPlaces.FeaturesFill` | src/npu_regcmd.c:2221-2228 | the features of whole 16-byte atoms fill the first m*k places, one each |
| `CbufPlaces.WeightsFill` | src/npu_regcmd.c:2230-2304 | and whole tiles of weights the first n*k |
| `CbufPlaces.FeatureBytesCount` | src/npu_regcmd.c:577-579 | the byte count of the features is the size of their places |
| `CbufPlaces.WeightBytesCount` | src/npu_regcmd.c:572-575 | and that of the weights of theirs |
| `CbufPlaces.FewestDataBanks` | src/npu_regcmd.c:577-588 | an accepted shape's data banks, less the slack, are the fewest banks of 32768 bytes every feature ends within |
| `CbufPlaces.AcceptedServes` | src/npu_regcmd.c:577-608 | the split of an accepted shape holds every feature in its data banks and every weight in its weight banks, or streams the weights through room for 32 kernels and is not taken for resident |
| `CbufPlaces.AcceptedExactly` | src/npu_regcmd.c:577-608 | a shape of whole groups is accepted exactly when some split of the buffer does that |
| `CbufPlaces.CodeMeans` | src/npu_regcmd.c:582-608 | each refusal code, by what does not fit where |
| `Emitter.WordBack` | include/npu_hw.h:292 | a 64-bit word gives back its register and its value |
| `Emitter.ExtractPack` | src/npu_regcmd.c:239-300 | every field comes back from the word it is packed into, masked and nothing else |
| `Emitter.ProgramOnce` | src/npu_regcmd.c:224-504 | the program is 126 words whatever the descriptors, and writes no register twice |
| `Emitter.FieldBack` | src/npu_regcmd.c:224-504 | decoding the words, last write per register, gives back every field of the program, cut to its width |
| `Decoder.DescriptorsBack` | src/npu_regcmd.c:224-504 | decoding the words gives back all three descriptors, every field from its own register and cut to its width, on either path |
| `Decoder.RoundTrip` | src/npu_regcmd.c:224-504 | descriptors come back as they went in exactly when every field is below its width and what the path does not program is zero |
| `Decoder.WordsTell` | src/npu_regcmd.c:224-504 | two programs for one path are the same words only for descriptors that are the same as far as their fields go |
| `RegisterMap.ProgramIsMap` | src/npu_regcmd.c:224-504 | all 126 words, in order and on either path: the register each writes and the value, as sums of the descriptors' low bits at their weights, and nothing in any other bit |
| `RegisterMap.CopiesAgree` | src/npu_regcmd.c:368-454 | what is written twice agrees: the read unit's extents are the output's, both halves of the notch and channel words one number, and the field above the input channels is one less |
| `RegisterMap.LastWord` | src/npu_regcmd.c:496-502 | the last word, as it stands, enables the four blocks |
| `Decoder.ExtentsBack` | src/npu_regcmd.c:133-165 | the guards pass exactly when no guarded extent comes back wrapped from the program |
| `Emitter.GeometryFits` | src/npu_regcmd.c:142-165 | the check passes exactly when every extent fits its field |
| `Emitter.GenMatmulTask` | src/npu_regcmd.c:224-504 | the program's words and 126, or -1 exactly when an extent or the feature grains do not fit |
| `Requant.OutCvtPair` | include/npu_requant.h:48-62 | the pair of every word, renormalized on a carry and capped at a shift of zero |
| `Requant.MultiplierRange` | include/npu_requant.h:48-62 | the multiplier stays in 0x4000 to 0x7FFF, and is 0x4000 exactly after a carry |
| `Requant.RenormalizationIsExact` | include/npu_requant.h:53-57 | renormalizing a carry keeps the gain |
| `Requant.GainBound` | include/npu_requant.h:16-22 | scale <= gain <= scale * (1 + 2^-14), except exactly where a carry meets a shift of zero and drops fraction bits |
| `Requant.GainBoundEverywhere` | include/npu_requant.h:16-22 | over every positive finite word, subnormal ones and wrapped shifts included, the exact set at which the header's bound holds |
| `Requant.BoundFails` | include/npu_requant.h:16-22 | three words at which it fails: the smallest positive scale, the largest in the range of the shift, and the first past it |
| `Requant.TopIsNearest` | include/npu_requant.h:53-58 | there no other positive pair the register holds is closer |
| `Requant.GainRises` | include/npu_requant.h:48-62 | the gain never falls as the scale rises |
| `Requant.LargeScaleWraps` | include/npu_requant.h:50-51 | a scale of 2^15 or more gets a shift no register field holds |
| `Requant.WithinOneCount` | src/npu_regcmd.c:3036-3039 | at every accumulator and zero point an output is at most one from that of the exact scale |
| `Requant.RneIsNearest` | include/npu_dpu.h:160-166 | the rounding gives the one integer no further than a half, and even when exactly that far |
| `Requant.Sat8IsNearest` | src/npu_regcmd.c:3036-3039 | saturation gives the nearest of the 256 values |
| `Requant.ZeroLandsOnZeroPoint` | src/rocket_conv2d_rk3576.c:2440-2446 | a zero accumulator lands on the zero point at every scale, which is what makes a padding channel's value known |
| `Requant.UnitScaleKeeps` | include/npu_requant.h:16-22 | at a scale of one every accumulator is kept |
| `Extents.ForwardUndoesTransposed` | include/rocket_conv.h:539-542 | the forward extent of a transposed extent is the input extent exactly when the output padding is below the stride |
| `Extents.TrailWithinPad` | include/rocket_conv.h:137-143 | the trailing pad of a derived extent is at most the leading one exactly when what the division drops covers the gap between the two readings of a zero dilation or the window misses the padded plane by whole strides |
| `Extents.TrailIsZero` | include/rocket_conv.h:134-136 | a derived extent leaves no trailing pad exactly when what its division drops covers the leading pad and that gap or, past the padded plane, there is no leading pad and the window misses by whole strides |
| `Extents.SymmetricTrails` | include/rocket_conv.h:134-136 | a symmetric descriptor that trails by one |
| `Extents.ZeroDilationTrails` | include/rocket_conv.h:137-150 | a symmetric descriptor with no pad and a zeroed dilation trails by two |
| `Extents.TapsInside` | include/rocket_conv.h:137-150 | every tap lies in the padded plane, the trailing pad included |
| `Extents.TrailIsReached` | include/rocket_conv.h:137-150 | and a trailing pad is no larger than the last tap needs |
| `Extents.ExplicitStands` | include/rocket_conv.h:66-75 | a descriptor's own extent stands, and the trailing pad reaches to its last window |
| `Extents.ExtentCountsWindows` | include/rocket_conv.h:55-58 | a derived extent counts the windows that fit the padded plane |
| `Extents.OutgrownCounts` | include/rocket_conv.h:55-58 | and one that outgrows it by less than a stride |

## Left out

- GraphRows.ConcatExactly: which concatenations are wired after others, and which tails, shared
  surfaces and pairs after an earlier pass, is said by `GraphDecide` and not by a rule on the rows.
- Device access, memory mapping, caches, threads and logging: input and output.
- The environment knobs are parameters; how they are parsed is not modelled.
- The report the planner prints, with the list of refused pairs and the counters only it reads.
- The plan's arrays are sequence-valued fields and a handle is a value in one, so two rows that
  name one handle are not modelled.
- Channel sums are unbounded integers; a table whose sums wrap 32 bits is not modelled.
- The library's own refusals (geometry, memory, unpacked handles) are arbitrary; a restore that
  fails for want of memory while an attempt is undone is not modelled.
- The sentinel values a chain stamps into a surface before a submit, and the redo of a lagging pool.
- A surface's contents past the columns a packed-image handle's output keeps.
- GraphPlanner.Planner.TryAdd: of the relations of a twin a refused attempt leaves counted, the
  number is stated and not the bytes.
- GraphPlanner.PlanNew: a table with an add of one layer with itself that is wired, or attempted
  and refused for no reason, ends in a plan that is unsound or miscounted; `WireAdd` and `GraphTwin`
  say so of the add, and the passes after it are not modelled from there.
- GraphAdd.ResidualAddWeights: the two weights are parameters; the search for their ratio is over
  floating point.
- ChainRuns.FindRuns: that every legal run lies inside a found one, or is split at the program
  bound, is stated when all the runs found fit the array.
- Cbuf.MatmulFp16: the descriptor fields other than the bank split, and the row-major operand form.
- CbufPlaces.AcceptedExactly: the places of a shape whose inner dimension is no multiple of 32, or
  whose output columns fill no whole tile, which the callers refuse (include/rocket_matmul.h:34-44);
  of such a shape the bytes are counted as the generator counts them.
- Emitter.GenMatmulTask: the debug knobs are unset; a field no check covers comes back masked.
- The convolution generators, whose direct path bounds only the bytes of one kernel.
- The fp16 datapath's accumulation order, lookup tables, normalization, softmax, resize and
  transformer entries.
