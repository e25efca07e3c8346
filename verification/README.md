# Verified models of PyPTO's protocols, kernels, identities, builder and code generation

A Dafny 4.11 project that models the parts of PyPTO whose correctness is hard to see and
proves what they are for. `dafny verify dfyconfig.toml` checks all of it.

## What is modelled

**All-reduce over a ring, in two phases, and over a mesh** (`Ring*`, `TwoPhase`, `Mesh`,
`MeshExactly`, `AllReduceForms`, `ChunkSums`). `P >= 2` ranks run the kernels' actions (staging, notify,
wait, remote load, local load and add, store, copy out) one at a time in any order over
shared windows, signal cells and local registers. `RingProgram.RingStep` ties the machine's
program counter to the loops of the source; `RingMachine` and `TwoPhaseMachine` run the same
steps on arrays. `add` is uninterpreted where order matters and real addition where it does
not. The two loops of the ring number their rounds `s` and `(P - 1) + s`; with that numbering
one index formula covers both.

**Paged attention by online softmax** (`OnlineSoftmax`, `PagedAttention`, `PagedAttentionMain`,
`Paging`, `PagedOrchestration`). Kernels over in-place buffers, the paging arithmetic, and the
orchestration down to the output rows, over reals and for any positive `exp` that turns sums
into products. The reference is one softmax over all tokens, with nothing subtracted.

**SPMD paged attention** (`SpmdSchedule`, `SpmdKernels`, `SpmdMemory`, `SpmdAttention`,
`SpmdProgram`). `SpmdSchedule` is generic: any number of strided instances, their single loads
and stores interleaved at will, seen request by request. The five kernels are written as such
loads and stores; `SpmdMemory` runs them on the flat buffers, rows of all requests one after
another, and shows that this is the same. A running maximum
below the mask does no harm over reals: the accumulators are rescaled together, so the final
quotient needs no condition on the scores.

**Content identity** (`Elf*`, `Bytes`, `Text`, `Json`, `Records`, `RecordTheorems`, `RecordText`,
`SourceClosure`, `SourceDigest`). The ELF64 analysis over any byte sequence, following the
System V gABI layout of headers, section headers and program headers; typed records; the
include closure and its digest. `ElfSpec` says of the bytes what the analysis accepts and skips,
`RecordText` spells the records out. A hash is modelled by the byte stream fed to it, so
statements about identities are statements about that stream.

**The IR builder** (`BuilderState`, `Builder`, `BuilderReplay`, `BuilderContent`, `BuilderComments`,
`BuilderStuck`). `BuilderState` gives every call's refusal, outcome and new state; the class
`IRBuilder` does the same in place. A context has an address, which an allocator may reuse once the context is gone,
and a birth number, which the program does not know and the theorems use to say which context
is meant.

**Scalar expressions as C++ text** (`CppText`, `CppGrammar`, `ExprPrinter`, `ExprReading`,
`ExprParsing`, `ExprMeaning`). The printer, a C++ lexer with maximal munch, a parser with C++
precedence, and evaluation on both sides.

**Slice views** (`SliceView`, `SliceCode`). The code emitted for `tensor.slice`, run on the
runtime's tensor objects. `Arithmetic` holds what all parts need about products and quotients.

## Findings

- src/codegen/codegen_base.cpp:116-118 and 39-46: a negation printed directly in front of a
  negative constant, and the least 64-bit integer, give text that C++ does not read as the
  expression; exactly these do (`ExprParsing.ReadBack`).
- src/codegen/codegen_base.cpp:56-61: flooring division is printed as truncating division. The
  two agree exactly when the operands have the same sign or the division is exact
  (`ExprMeaning.DivisionExactly`), and so does the printed text (`ExprMeaning.TextExactly`); the
  text of -7 // 2 means -3 (`ExprMeaning.NegativeQuotient`).
- src/ir/builder.cpp:583-594: comments pushed in a builder context that ends before they are
  popped can land on a statement of a later context at the same address
  (`BuilderComments.AddressReuse`, and `BuilderComments.DisciplineExactly` for when).
- src/ir/builder.cpp:575-589: comments waiting when a bare statement sequence is emitted are
  lost with the refusal, and in no other way (`BuilderComments.NothingLostExactly`).
- src/ir/builder.cpp:391-457: `EndScope` makes the statement before it drops the context, so
  that, as the source says, a failing construction leaves the builder consistent. But what the
  construction refuses here no later call can repair. An Spmd scope without a core count, or with one
  of type void (include/pypto/ir/stmt.h:963-964), passes `BeginScope` and can never be ended, nor
  can anything around it (`BuilderStuck.SpmdStaysOpen`, `BuilderStuck.EndScopeRaisesExactly`). The
  first attempt also takes its attributes (`BuilderStuck.AttemptTakesAttrs`). An if whose condition
  is void (include/pypto/ir/stmt.h:384) and a function whose level or role contradicts its type, or
  with a void return type (include/pypto/ir/function.h:604-634), are stuck in the same way
  (`BuilderStuck.StuckStaysOpen`); register scopes aside, nothing else is
  (`BuilderStuck.CanEmptyExactly`).
- src/ir/builder.cpp:146-187 and 215-250: a for loop with a void bound
  (include/pypto/ir/stmt.h:562-564) is never built, and the end that raises leaves it open. It can
  only be given up, by making its counts differ (`BuilderStuck.ValuelessLoop`). A while loop with a
  void condition (include/pypto/ir/stmt.h:677) can also be given another one.
- src/ir/builder.cpp:152-160 and 221-227: on the mismatch path the counts in the message are
  read from the loop context after it has been popped and destroyed.
- examples/distributed/08_allreduce_mesh.py:105-113: each rank adds in an order of its own. Two
  ranks agree on commuting values, as reals do; from three ranks on they agree on all inputs
  only if `add` also associates, which rounded or saturating addition does not
  (`MeshExactly.AgreesIffAssocComm`, `MeshExactly.CappedDisagrees`). Ring and two-phase always
  agree.
- examples/models/09_paged_attention_spmd.py:487-490: unless `q_tile` divides `num_heads` the
  last tile reaches into the rows of the next request (`SpmdProgram.TilesStayExactly`) and
  overwrites them (`SpmdMemory.StoreSpills`).
- src/codegen/tensor_op_codegen.cpp:329-336: the contiguity flag of a reduced view is sound but
  can be false although the addresses are consecutive (`SliceCode.FlagExactly` for exactly
  when, `SliceCode.FlagCanMiss`).

## Model

| member | source | states |
|---|---|---|
| `RingTheorems.RaceFreedom` | examples/distributed/10_allreduce_ring.py:104-176 | In every reachable state of every interleaving, a store a rank is about to make never overwrites a value its right neighbour still has to load; any load of that chunk still to come belongs to a later round. Nothing but the wait chain round the ring guards it. |
| `RingInvariant.Chain` | examples/distributed/10_allreduce_ring.py:112-140 | The chain of waits: `j` hops to the left a rank is at most `j` stores behind, for every `j` up to `P`. |
| `RingInvariant.LeftLead` | examples/distributed/10_allreduce_ring.py:149-176 | All the way round: the left neighbour is at most `P - 1` stores ahead. |
| `RingInvariant.StepKeepsInv` | examples/distributed/10_allreduce_ring.py:85-183 | Every single load, store, notify and passed wait of any rank keeps the whole invariant: signals, windows, registers, output, and pace. |
| `RingTheorems.LoadsAreFresh` | examples/distributed/10_allreduce_ring.py:121-127 | Every remote load of every run returns exactly the value the schedule calls for, however far the ranks have drifted apart. |
| `RingTheorems.ReduceScatterHolds` | examples/distributed/10_allreduce_ring.py:104-130 | After reduce-scatter round `k` the chunk just stored holds exactly the contributions of the `k + 2` ranks `r, r-1, .., r-k-1`, with rounds counted from 0. |
| `RingTheorems.SignalDiscipline` | examples/distributed/10_allreduce_ring.py:80-84 | Every signal cell is 0 or 1, is raised by one writer only, and is raised exactly when that writer has passed the matching notify. |
| `RingTheorems.Agreement` | examples/distributed/10_allreduce_ring.py:121-164 | With an uninterpreted `add`, every finished run leaves the same nested sum of each chunk on every rank. |
| `RingTheorems.Confluence` | examples/distributed/10_allreduce_ring.py:67-183 | Any two finished runs end with the same windows, signals and outputs, whatever the interleaving. |
| `RingTheorems.TotalIsRankSum` | examples/distributed/10_allreduce_ring.py:214-217 | For an associative, commutative `add` the ring's own nesting equals the sum in rank order. |
| `RingTheorems.RingComputesAllReduce` | examples/distributed/10_allreduce_ring.py:214-217 | Over reals every finished run leaves in every element of every chunk, on every rank, the sum of that element over all inputs; laid flat, the sum of the flat inputs. For every rank count and chunk size. |
| `ChunkSums.FlatAt` | examples/distributed/10_allreduce_ring.py:91-102 | Chunks of one size lie in the flat row one after another: element `i` of chunk `c` at `c * chunk + i`. |
| `RingTheorems.Progress` | examples/distributed/10_allreduce_ring.py:112-119 | No deadlock: in every unfinished reachable state some rank can move. |
| `RingTheorems.RunsTerminate` | examples/distributed/10_allreduce_ring.py:85-183 | Every run is finite: at most `12 * P * P` steps. |
| `Ring.RecvIdx` | examples/distributed/10_allreduce_ring.py:106-147 | The two index formulas for the chunk a rank stores are one rotation when rounds are numbered through both loops. |
| `Ring.SendIdx` | examples/distributed/10_allreduce_ring.py:106-147 | The chunk read out of the left neighbour in a round is the chunk stored locally in it. |
| `RingProgram.RingStep` | examples/distributed/10_allreduce_ring.py:85-183 | The four phases with their loops perform exactly the list of actions the state machine steps through. |
| `RingProgram.RingMachine.AllReduce` | examples/distributed/10_allreduce_ring.py:185-209 | On shared arrays updated in place, under any schedule, all ranks finish with the finished chunks. |
| `RingProgram.Stage` | examples/distributed/10_allreduce_ring.py:91-102 | The staging loop and its notify, as actions. |
| `RingProgram.ReduceScatter` | examples/distributed/10_allreduce_ring.py:104-140 | The reduce-scatter loop lists exactly the machine's actions for its rounds, indices included. |
| `RingProgram.AllGather` | examples/distributed/10_allreduce_ring.py:142-176 | The all-gather loop likewise, with no notify after the last round. |
| `RingProgram.CopyOut` | examples/distributed/10_allreduce_ring.py:178-181 | The copy-out loop likewise. |
| `RingProgram.RingMachine.Act` | examples/distributed/10_allreduce_ring.py:112-140 | One action on the shared arrays is one step of the machine and changes nothing else. |
| `TwoPhase.BarriersProtect` | examples/distributed/09_allreduce_two_phase.py:84-134 | In every interleaving, past barrier A every input is staged and past barrier B every reduced chunk is. |
| `TwoPhase.NoLateStore` | examples/distributed/09_allreduce_two_phase.py:80-114 | Once a rank reads behind a barrier, no rank has a store left to make to what the barrier protects. |
| `TwoPhase.Agreement` | examples/distributed/09_allreduce_two_phase.py:103-144 | Every finished run gives every rank the same chunks, however `add` associates. |
| `TwoPhase.Confluence` | examples/distributed/09_allreduce_two_phase.py:80-146 | Any two finished runs end in the same state: windows, signals, registers and outputs. The chunks of a result window that its rank does not own keep what they held. |
| `TwoPhase.TwoPhaseComputesAllReduce` | examples/distributed/09_allreduce_two_phase.py:180-183 | Over reals the output of every rank is, element by element, the sum of all inputs. |
| `TwoPhase.Progress` | examples/distributed/09_allreduce_two_phase.py:85-134 | No deadlock at either barrier. |
| `TwoPhase.TwoPhaseMachine.AllReduce` | examples/distributed/09_allreduce_two_phase.py:160-175 | On shared arrays, under any schedule, the run ends with the reduced chunks on every rank. |
| `Mesh.MeshResult` | examples/distributed/08_allreduce_mesh.py:105-113 | Every finished run leaves on rank `r` the fold of its own slice and then its peers' slices in order. |
| `Mesh.Progress` | examples/distributed/08_allreduce_mesh.py:91-113 | No deadlock at the barrier. |
| `Mesh.RunToEnd` | examples/distributed/08_allreduce_mesh.py:83-113 | Every run, however far it has come, can be continued to the end; so finished runs exist for every configuration. |
| `MeshExactly.TwoRanksAgreeIffCommute` | examples/distributed/08_allreduce_mesh.py:105-113 | Agreement is not for free: two ranks agree exactly when `add` commutes on their slices. |
| `MeshExactly.ThreeRanksAgreeIffNested` | examples/distributed/08_allreduce_mesh.py:105-113 | Three ranks and a commutative `add`: ranks 0 and 1 always agree, rank 2 agrees with them exactly when two nestings of the three slices do. |
| `MeshExactly.ThreeRanksAgreeIffAssociative` | examples/distributed/08_allreduce_mesh.py:105-113 | Three ranks agree on all inputs exactly when a commutative `add` is associative. |
| `MeshExactly.AgreesIffAssocComm` | examples/distributed/08_allreduce_mesh.py:105-113 | For every number of ranks from three on and an `add` with a unit: the ranks agree in every finished run on every input exactly when `add` is associative and commutative. |
| `MeshExactly.AgreesIffNeighboursDo` | examples/distributed/08_allreduce_mesh.py:105-113 | For any `add`: the ranks always agree exactly when the sums of ranks next to each other coincide. |
| `MeshExactly.UnitIsNeeded` | examples/distributed/08_allreduce_mesh.py:105-113 | From four ranks on a commutative `add` without a unit can fail to associate although all ranks always agree. |
| `MeshExactly.CappedDisagrees` | examples/distributed/08_allreduce_mesh.py:105-113 | A commutative `add` and a finished run of three ranks whose outputs differ. |
| `Mesh.MeshAgreement` | examples/distributed/08_allreduce_mesh.py:105-113 | With an associative, commutative `add` all ranks agree on the sum in rank order. |
| `Mesh.Accumulate` | examples/distributed/08_allreduce_mesh.py:106-110 | The accumulation loop computes that fold. |
| `AllReduceForms.FormsAgree` | examples/distributed/09_allreduce_two_phase.py:66-146 | For every associative, commutative `add`, finished runs of the ring, the two-phase form and the mesh leave the same row of chunks on every rank. |
| `AllReduceForms.FormsAgreeFlat` | examples/distributed/09_allreduce_two_phase.py:180-183 | Over reals and flat rows that is one and the same row. |
| `TwoPhase.TwoPhaseMachine.Act` | examples/distributed/09_allreduce_two_phase.py:80-146 | One action on the shared arrays is one step of the machine and changes nothing else. |
| `OnlineSoftmax.MergeWeights` | examples/models/07_paged_attention_multi_config.py:250-264 | Rescaling two neighbouring partial sums to the larger maximum and adding them gives the sum over both spans. |
| `OnlineSoftmax.NormalisedIsSoftmax` | examples/models/07_paged_attention_multi_config.py:273-275 | Whatever maximum was subtracted, the final quotient is the softmax average with nothing subtracted. |
| `PagedAttention.RowMaxPass` | examples/models/07_paged_attention_multi_config.py:115-150 | Pass 1 leaves in every row the maximum over exactly the tokens of the group, the padding never winning. |
| `PagedAttention.WeightPass` | examples/models/07_paged_attention_multi_config.py:152-194 | Pass 2 leaves the weights of exactly the tokens of the group, nothing in the padding, and the sums of those weights. |
| `PagedAttention.QkMatmul` | examples/models/07_paged_attention_multi_config.py:332-355 | The score buffer holds, tile by tile, the products of the query rows with the pages named by the table slice. |
| `PagedAttention.PvMatmul` | examples/models/07_paged_attention_multi_config.py:398-444 | The accumulated matmuls give the weighted value sums over exactly the group's tokens. |
| `PagedAttention.DotIsSum` | examples/models/07_paged_attention_multi_config.py:332-355 | The product of two vectors is the sum of the products of their components. |
| `PagedAttentionMain.UpdateAccumulates` | examples/models/07_paged_attention_multi_config.py:250-272 | Maximum, sum and weighted sum of the tokens before a group and of the group merge into those of both. |
| `PagedAttentionMain.OnlineUpdate` | examples/models/07_paged_attention_multi_config.py:226-280 | The accumulators are updated in place to cover the group; on the last group the output rows are the softmax average, and no other row changes. |
| `Paging.GroupSpan` | examples/models/07_paged_attention_multi_config.py:545-555 | A group covers the tokens from where the previous stopped to the next boundary or to the end; only the last block of the sequence is partial. |
| `Paging.GroupLookup` | src/codegen/tensor_op_codegen.cpp:273-292 | Every table entry a group reads lies inside the clamped slice and the request's table row, and is the page of its tokens. |
| `Paging.TokenHasPlace` | examples/models/07_paged_attention_multi_config.py:545-555 | Every position of the sequence has a group, a block and a column. |
| `Paging.PlaceIsUnique` | examples/models/07_paged_attention_multi_config.py:545-555 | And only one. |
| `PagedOrchestration.PagedAttentionRun` | examples/models/07_paged_attention_multi_config.py:517-615 | The sizes derived from the tensors are the ones the host shaped them with, and for every block size, query tile and unroll width every output row of a request with tokens ends as the softmax average over all its tokens, read through the host's table rows; so the result does not depend on the unroll width. |
| `PagedAttention.FoldSum` | examples/models/07_paged_attention_multi_config.py:179-194 | Storing the first tile's row sums and adding later ones keeps the sums of all tokens so far. |
| `PagedOrchestration.GroupKernels` | examples/models/07_paged_attention_multi_config.py:557-589 | Score, softmax and value kernels of a group together give maximum, sum and weighted sum over exactly its tokens. |
| `PagedOrchestration.ProcessGroup` | examples/models/07_paged_attention_multi_config.py:545-613 | One group extends the accumulators to its end and, if it is the last, finishes the tile's output rows. |
| `PagedOrchestration.ProcessTile` | examples/models/07_paged_attention_multi_config.py:531-613 | The group loop covers all blocks of the request and finishes its rows, leaving all others. |
| `PagedOrchestration.ProcessBatch` | examples/models/07_paged_attention_multi_config.py:528-613 | Every head of every request is finished, no request undoing another's rows. |
| `SpmdSchedule.AnyScheduleIsSequential` | examples/models/09_paged_attention_spmd.py:131-161 | Request by request: whatever the number of instances and the interleaving of their single loads and stores, a dispatch leaves what the sequential loop over the batch leaves. |
| `SpmdMemory.StoreKeepsOthers` | examples/models/09_paged_attention_spmd.py:430-441 | A store at rows `b * width + offset` that stays within the rows of request `b` changes those rows as a store into them alone, and the rows of no other request. |
| `SpmdMemory.AccessIsOwn` | examples/models/09_paged_attention_spmd.py:319-441 | On the flat buffers, with row offsets `b * q_tile` and `b * num_heads + q_offset`: each load and store of each kernel does to the rows of its request what the kernel's step does, and leaves all other rows alone. |
| `SpmdMemory.AnyOrderInMemory` | examples/models/09_paged_attention_spmd.py:131-161 | So any finished interleaving on the flat buffers leaves, request by request, what the sequential loop leaves. |
| `SpmdMemory.AccessesDoNotOverlap` | examples/models/09_paged_attention_spmd.py:319-441 | In every reachable state the rows that two instances are about to touch do not overlap, in the tile buffers or in the output. |
| `SpmdProgram.TilesStayExactly` | examples/models/09_paged_attention_spmd.py:487-490 | Every tile of the loop stays inside the heads of its request exactly when `q_tile` divides `num_heads`. |
| `SpmdMemory.StoreSpills` | examples/models/09_paged_attention_spmd.py:430-441 | A store that reaches past the rows of a request lands in the rows of the next one, whatever they held. |
| `SpmdSchedule.StridesPartition` | examples/models/09_paged_attention_spmd.py:131-133 | The strided loops partition the batch: each request is reached by exactly one instance, after exactly one number of strides. |
| `SpmdSchedule.RunsEnd` | examples/models/09_paged_attention_spmd.py:131-161 | Every interleaving ends within the number of steps there are to make. |
| `SpmdKernels.UpdateIterates` | examples/models/09_paged_attention_spmd.py:319-406 | The six loads and three in-place stores of an update add up to one merge of the request's accumulators. |
| `SpmdAttention.EmptyBlock` | examples/models/09_paged_attention_spmd.py:198-217 | A block without tokens of the request yields the mask, zero weights and sums over nothing. |
| `SpmdAttention.EmptyBlockKeeps` | examples/models/09_paged_attention_spmd.py:345-406 | All four kernels of a block without tokens leave all three accumulators of a request unchanged exactly when no row's running maximum is below the mask -1e30. |
| `SpmdAttention.MaximaAccumulate` | examples/models/09_paged_attention_spmd.py:497-565 | After every block, full, partial or empty, the running maximum of a row is the largest of its scores so far, as long as these are not below the mask. |
| `SpmdAttention.BlockAccumulates` | examples/models/09_paged_attention_spmd.py:497-565 | One more block, full, partial or empty, extends the accumulators of a request by exactly its tokens in that block, with no condition on the scores. |
| `SpmdProgram.Batch.Instance` | examples/models/09_paged_attention_spmd.py:131-161 | One instance's strided loop updates exactly the requests it owns. |
| `SpmdProgram.Batch.Dispatch` | examples/models/09_paged_attention_spmd.py:505-520 | All instances in any order: every request has had its iteration, once. |
| `SpmdProgram.AllSeen` | examples/models/09_paged_attention_spmd.py:474-486 | All tokens of a request are covered exactly when the blocks run reach its end. |
| `SpmdProgram.PagedAttentionSpmd` | examples/models/09_paged_attention_spmd.py:466-578 | For any number of instances, in the flat output tensor, every head of every request ends as the softmax average over its tokens in the active blocks, which is all of them exactly when the active blocks suffice. |
| `SpmdKernels.PrepareIterates` | examples/models/09_paged_attention_spmd.py:190-242 | One load and three stores add up to the softmax preparation of one request. |
| `SpmdKernels.PvIterates` | examples/models/09_paged_attention_spmd.py:264-292 | A load and a store add up to the value product of one request. |
| `SpmdProgram.Batch.BlockStages` | examples/models/09_paged_attention_spmd.py:499-565 | The four dispatches of a block leave every request's rows as its own four iterations do. |
| `SpmdProgram.Batch.TileLoop` | examples/models/09_paged_attention_spmd.py:489-576 | The block loop and the normalisation finish the tile's heads of every request and leave its other heads. |
| `SpmdProgram.MaxBlocks` | examples/models/09_paged_attention_spmd.py:473-486 | The loop finds the least number of blocks that is enough for every request, limited to the active blocks. |
| `SpmdAttention.NormalizeIsFinal` | examples/models/09_paged_attention_spmd.py:423-441 | The normalisation writes the softmax average into the tile's heads of the request and nothing else. |
| `ElfFiltering.OverlapCheckDecides` | python/pypto/_identity.py:211-213 | Checking neighbours of the sorted list decides whether any two of the collected non-empty ranges overlap: it passes if and only if none do. |
| `ElfFiltering.SkippedIsInert` | python/pypto/_identity.py:183-218 | Every skipped range lies in the file, apart from the other ranges, the header, the section table, the name table and the program headers, and no segment contents touch it. |
| `ElfFiltering.DebugBytesDoNotMatter` | python/pypto/_identity.py:132-218 | If a file is accepted and another of equal length differs only inside its skipped ranges, the analysis accepts it with the same ranges. |
| `ElfDigest.OneCandidate` | python/pypto/_identity.py:239-243 | Only the first range ending after a segment starts can touch the segment. |
| `ElfDigest.SegmentsAvoidRanges` | python/pypto/_identity.py:221-244 | The one-candidate search per segment decides what comparing every segment with every range would. |
| `ElfSpec.DebugRangesExactly` | python/pypto/_identity.py:132-244 | Said of the bytes at the gABI offsets: a file has ranges skipped exactly when its header, tables, section names, sections and segments pass the tests, and a range is skipped exactly when it is that of a section called .debug, .zdebug, .comment, .gnu_debuglink, .debug_* or .zdebug_*, of type PROGBITS, without flags or only compressed, not empty, and not the name table. |
| `ElfDigest.ElfDebugRanges` | python/pypto/_identity.py:132-218 | The loops compute the analysis that the theorems are about, on every byte sequence. |
| `ElfDigest.ExecutableDigest` | python/pypto/_identity.py:247-280 | The hash is fed the framed kept spans and none of the error branches is taken on a file that does not change. |
| `ElfSpec.StreamHolds` | python/pypto/_identity.py:262-277 | What is hashed, number by number: where each kept span starts and how long it is, big-endian in eight bytes each, then its bytes. |
| `ElfDigest.KeptAndSkipped` | python/pypto/_identity.py:258-280 | The bytes counted as covered and the bytes skipped add up to the file. |
| `ElfDigest.StreamDecodes` | python/pypto/_identity.py:259-278 | The offset and size frames can be read back in one way only. |
| `ElfDigest.FilteredIdentity` | python/pypto/_identity.py:247-280 | Two accepted files feed the hash the same bytes if and only if they have equal length, equal skipped ranges, and equal bytes everywhere outside them. |
| `ElfDigest.DebugEditsKeepIdentity` | python/pypto/_identity.py:247-254 | Editing skipped bytes of an accepted file leaves ranges and hash input as they are. |
| `ElfDigest.BisectRight` | python/pypto/_identity.py:241 | The bisection finds how many range ends are at most the segment's start. |
| `ElfDigest.ScanLoop` | python/pypto/_identity.py:183-210 | The section loop fills both lists as the analysis says, or gives up exactly where it does. |
| `ElfDigest.HashSpans` | python/pypto/_identity.py:258-278 | The hashing loop counts and streams exactly the bytes outside the skipped ranges. |
| `Text.Utf8Inverse` | python/pypto/_identity.py:46-49 | Every Python string survives the lax UTF-8 encoding, lone surrogates and non-BMP characters included. |
| `Json.ReadWrite` | python/pypto/_identity.py:75-80 | The compact JSON text of a typed record reads back uniquely. |
| `Records.SortDetermined` | python/pypto/_identity.py:61-64 | Sorting by key gives one list for one set of entries, whatever the insertion order. |
| `RecordText.BelowExactly` | python/pypto/_identity.py:61-64 | Keys are sorted as Python sorts strings: by the code point at the first difference, a prefix first. |
| `RecordText.RecordSpelled` | python/pypto/_identity.py:36-80 | The text of a record, spelled out for every type of value, with the keys of dictionaries in ascending order. |
| `RecordText.HexSpelled` | python/pypto/_identity.py:45-51 | Bytes are spelled by two lower-case hexadecimal digits, the high one first. |
| `RecordText.DecimalSpelled` | python/pypto/_identity.py:40-41 | Integers are spelled in decimal, the digits of the quotient by ten before the last, with no leading zero. |
| `Text.Utf8Spelled` | python/pypto/_identity.py:46-49 | Strings are spelled in UTF-8 (section 3 of RFC 3629), surrogates like other code points. |
| `RecordTheorems.DecodeEncode` | python/pypto/_identity.py:36-80 | A decoder inverts the encoder on every value that can be encoded, up to dictionary order. |
| `RecordTheorems.RecordIdentity` | python/pypto/_identity.py:68-80 | Two values encode alike if and only if they are the same record: same types, same bits, dictionaries equal as maps. |
| `RecordTheorems.RaisesExactly` | python/pypto/_identity.py:52-65 | The encoder raises exactly when something unsupported sits somewhere inside. |
| `SourceClosure.Collector.Visit` | python/pypto/_external_source.py:62-75 | A visit extends the order by the depth-first order from its path, and fails exactly on a path that is no file. |
| `SourceClosure.Collect` | python/pypto/_external_source.py:49-80 | The collector ends on every include graph, and raises exactly when some source, never an include, is missing. |
| `SourceClosure.DepsExactly` | python/pypto/_external_source.py:68-75 | A file includes exactly: for each quoted directive the file beside it, if there is one, and otherwise, as for each other directive, the file in the first search directory that has one. |
| `SourceClosure.DependenciesInOrder` | python/pypto/_external_source.py:68-75 | In the order of the directives, each bringing in one file or none. |
| `SourceClosure.FileComesFirst` | python/pypto/_external_source.py:66-67 | A file is listed before everything that it includes. |
| `SourceClosure.CollectsExactlyReachable` | python/pypto/_external_source.py:57-80 | The files returned are, each exactly once, those reachable from the sources by what the directives bring in, on cyclic graphs too. |
| `SourceDigest.ExternalSourceStream` | python/pypto/_external_source.py:83-106 | The loops feed the hash the metadata and then name and content of each collected file. |
| `SourceDigest.StreamDecodes` | python/pypto/_external_source.py:92-95 | The label, length and payload stream has one reading. |
| `SourceDigest.StreamHolds` | python/pypto/_external_source.py:92-106 | What is hashed of one item: the label metadata, name or content in ASCII, the length of the payload little-endian in eight bytes, the payload. |
| `SourceDigest.FilesInOrder` | python/pypto/_external_source.py:98-105 | Name, then content, of every file in the order collected. |
| `SourceDigest.StreamIdentifies` | python/pypto/_external_source.py:90-106 | Equal streams mean exactly equal metadata and equal names and contents in the same order. |
| `SourceDigest.DepsMove` | python/pypto/_external_source.py:62-75 | If files keep name, content and include directives, and the candidates of each directive correspond one by one in being files and in what they resolve to, then a moved file includes exactly the moved files, in the same order. |
| `SourceDigest.OrderMoves` | python/pypto/_external_source.py:62-80 | The order of visits then moves with the files, on cyclic graphs too. |
| `SourceDigest.DigestIsRelocatable` | python/pypto/_external_source.py:98-106 | A source tree moved to other paths in that sense gives the same stream. |
| `SourceClosure.Collector.VisitIncludes` | python/pypto/_external_source.py:72-75 | The include loop extends the order by the depth-first order over the file's dependencies. |
| `SourceClosure.Collector.FirstExisting` | python/pypto/_external_source.py:69-71 | The first candidate that is a file, if any is. |
| `SourceDigest.FilesStream` | python/pypto/_external_source.py:98-105 | The loop over the files streams name and content of each, and no path. |
| `Builder.IRBuilder.Emit` | src/ir/builder.cpp:575-581 | Emits in place as the state machine says, refused exactly outside any context or for a bare sequence with comments waiting. |
| `Builder.IRBuilder.ApplyPendingLeadingComments` | src/ir/builder.cpp:583-589 | The statement gets the comments waiting for the current context, and their entry is emptied. |
| `Builder.IRBuilder.EndForLoop` | src/ir/builder.cpp:146-187 | Ends a loop as the state machine says. A mismatch of counts gives up its context; when only a bound lacks a value, the call raises and the loop stays open as it was. |
| `Builder.IRBuilder.EndIf` | src/ir/builder.cpp:279-317 | Builds both branches normalised, an empty else branch left out, and hands the statement to the parent; a condition without a value raises and leaves the context open. |
| `Builder.IRBuilder.EndScope` | src/ir/builder.cpp:402-502 | Builds the scope and hands it to the parent; a core count that is missing or no value raises and leaves the scope open without its attributes. |
| `BuilderContent.EndBuilds` | src/ir/builder.cpp:146-502 | An accepted end makes the statement with the parts given to its context, one body statement standing for itself and none or several forming one sequence, an else branch present exactly when it holds statements; with the comments due to the enclosing context on it, it becomes the last statement there. |
| `BuilderContent.EmitJoins` | src/ir/builder.cpp:575-589 | An accepted emit adds the statement with exactly the comments that were due to the current context, if any were. |
| `BuilderContent.FunctionHolds` | src/ir/builder.cpp:92-118 | A function handed out after any calls holds, in order, exactly the plain statements emitted since it was begun, but for those of loops given up. |
| `BuilderContent.NothingLostInOrder` | src/ir/builder.cpp:43-118 | While a function is open and no call is refused, the open contexts hold exactly the statements emitted, in their order. |
| `BuilderStuck.BeginRaisesExactly` | src/ir/builder.cpp:45-400 | When each begin raises, condition by condition. |
| `BuilderStuck.AdditionsExactly` | src/ir/builder.cpp:62-380 | In a context of its kind a call that adds an argument, variable, condition, else branch or return type does just that; anywhere else it raises. |
| `BuilderReplay.Replay` | src/ir/builder.cpp:120-317 | The calls for any statement tree whose parts the statements accept append exactly that tree, normalised, to the current context, use up or leave the comments waiting there, and change no other context or entry. |
| `BuilderReplay.FunctionReplay` | src/ir/builder.cpp:43-118 | A whole function: it is handed out, with its return types and normalised body, and the builder is as it began, exactly when its level and role fit, every return type has values and the register scopes pass; otherwise the call raises and the function stays open as it was. |
| `BuilderReplay.RejectedLoop` | src/ir/builder.cpp:151-161 | A loop rejected for mismatched iteration arguments, its bounds values or not, leaves every stack as it was, whatever was built inside it. |
| `BuilderReplay.CommentsComeBack` | src/ir/builder.cpp:591-602 | Popping after the calls for some statements returns the comments no statement took: all or none. |
| `BuilderStuck.EndScopeRaisesExactly` | src/ir/builder.cpp:402-457 | After any calls, ending the current scope raises exactly when it is an Spmd scope whose core count is missing or no value. |
| `BuilderStuck.EndRaisesExactly` | src/ir/builder.cpp:92-502 | After any calls, ending the current context raises exactly when: a loop's counts differ or one of its operands is no value; an if has a condition without a value; a function does not fit its level, role or return types; an Spmd scope has no valued core count. But for differing counts the context stays. |
| `BuilderStuck.StuckStaysOpen` | src/ir/builder.cpp:92-457 | Every such if, function or Spmd scope can be begun wherever a sound one can; whatever calls follow, it is still open, and every context it was begun in is as it was. |
| `BuilderStuck.SpmdStaysOpen` | src/ir/builder.cpp:383-457 | For an Spmd scope: the scope that stays is the one begun, less its attributes at most. |
| `BuilderStuck.FunctionNeverBuilt` | src/ir/builder.cpp:92-118 | The function that is stuck, or in which something is, is then never handed out, nor is any other. |
| `BuilderStuck.CanEmptyExactly` | src/ir/builder.cpp:92-502 | After any calls, and if register scopes pass, some further calls end every open context if and only if no open context is one of these. |
| `BuilderStuck.ValuelessLoop` | src/ir/builder.cpp:146-161 | A for loop with a bound that is no value is not among them: its end raises and changes nothing while the counts agree, but one more return variable makes the counts differ, and then the end gives the loop up. |
| `BuilderComments.RunConserves` | src/ir/builder.cpp:583-602 | Over any run each comment list that was held or pushed is afterwards held, booked as attached, returned or dropped, exactly one of these. |
| `BuilderContent.RunFound` | src/ir/builder.cpp:583-589 | Over any run the lists booked as attached are found on statements: of open contexts, of functions handed out, of loops given up, or replaced there by another. |
| `BuilderContent.CommentsConserved` | src/ir/builder.cpp:575-602 | Over any run every list held, pushed or brought along on an emitted statement is afterwards held, on a statement of an open context or of a function handed out, given up with a loop, replaced, returned, or dropped, exactly one of these. |
| `BuilderComments.NothingLostExactly` | src/ir/builder.cpp:575-589 | A run loses no comments if and only if it never emits a bare sequence where some wait; then every list is held, attached or returned. |
| `BuilderComments.DisciplineExactly` | src/ir/builder.cpp:583-594 | A run ends no context that comments wait for, if and only if at no point of it a continuation that does not either can put comments on a statement of another context. |
| `BuilderComments.OwnContextAlways` | src/ir/builder.cpp:591-594 | If no context ends while comments wait for it, comments only ever go to statements of their own context. |
| `BuilderComments.AddressReuse` | src/ir/builder.cpp:583-589 | Without that discipline they need not: a concrete run on any non-empty stack. |
| `ExprReading.LexPrint` | src/codegen/codegen_base.cpp:39-134 | Split into C++ tokens by maximal munch, a printed expression gives exactly its tokens, whatever separator follows. |
| `ExprParsing.TokensParse` | src/codegen/codegen_base.cpp:39-134 | Under C++ precedence the tokens form exactly the expression's tree, as one operand. |
| `ExprParsing.Precedence` | src/codegen/codegen_base.cpp:47-63 | Of two binary operators in a row the one that binds tighter takes the operand between them, the left one when both bind alike; which bind tighter is the order of the C++ standard (`ExprParsing.LevelsAre`). |
| `ExprParsing.ReadBack` | src/codegen/codegen_base.cpp:39-134 | Reading printed text as C++ succeeds if and only if no constant is the least 64-bit integer and no negation sits on a negative literal, and then gives exactly the expected expression. |
| `ExprMeaning.DivisionExactly` | src/codegen/codegen_base.cpp:56-61 | Truncating and flooring division, and their remainders, agree exactly when the signs agree or the division is exact. |
| `ExprMeaning.QuotientsAre` | src/codegen/codegen_base.cpp:56-61 | The remainder of the flooring quotient has the sign of the divisor, that of the truncating one the sign of the dividend; both are less than the divisor. |
| `ExprMeaning.OperatorExactly` | src/codegen/codegen_base.cpp:47-96 | A single operator means the same in C++ and in the IR exactly then. |
| `ExprMeaning.PrintKeepsMeaning` | src/codegen/codegen_base.cpp:39-134 | The text, read as C++, evaluates to the IR value in every environment in which divisions agree and operands of extrema fit their type. |
| `ExprMeaning.TextExactly` | src/codegen/codegen_base.cpp:47-96 | The text of one operator on operands that keep their meaning evaluates, read as C++, to the IR value exactly when it is no division or the division agrees. |
| `ExprMeaning.NegativeQuotient` | src/codegen/codegen_base.cpp:56-61 | The printed text of -7 // 2 evaluates to -3; the IR value is -4. |
| `ExprMeaning.PlainIsFaithful` | src/codegen/codegen_base.cpp:56-61 | Operands that are not negative with a positive divisor are such a case. |
| `CppGrammar.Convert` | src/codegen/codegen_base.cpp:122-128 | Conversion gives a value in the type's range, and the value itself when it already fits. |
| `CppGrammar.ConvertExactly` | src/codegen/codegen_base.cpp:122-128 | For each integer type: the converted value is the only one in its range that is congruent modulo the number of its values. |
| `SliceView.ClampExactly` | src/codegen/tensor_op_codegen.cpp:273-292 | The clamped view has exactly the requested elements that the parent has. |
| `SliceView.InBoundsUnchanged` | src/codegen/tensor_op_codegen.cpp:273-292 | A non-empty request is served unchanged exactly when it is in bounds. |
| `SliceView.SliceReadsParent` | src/codegen/tensor_op_codegen.cpp:266-310 | Every address of the view, in row-major order, is the address of the parent's element at the shifted index. |
| `SliceView.ReducedAddresses` | src/codegen/tensor_op_codegen.cpp:310-328 | Dropping unit axes keeps element count, emptiness and the addresses in the same order. |
| `SliceView.ConsecutiveExactly` | src/codegen/tensor_op_codegen.cpp:329-336 | The addresses of a non-empty tensor are consecutive exactly when every stride that some element uses is packed. |
| `SliceCode.ClampedShapes` | src/codegen/tensor_op_codegen.cpp:273-292 | The emitted shape array is the clamp of every axis. |
| `SliceCode.Compact` | src/codegen/tensor_op_codegen.cpp:318-324 | The in-place assignments leave the retained axes, in order, at the front. |
| `SliceCode.Contiguous` | src/codegen/tensor_op_codegen.cpp:329-335 | The loop over the expected stride decides packedness in 64-bit arithmetic. |
| `SliceCode.Slice` | src/codegen/tensor_op_codegen.cpp:266-338 | The emitted code produces the clamped view, reduced, and flagged. |
| `SliceCode.FlagMeansConsecutive` | src/codegen/tensor_op_codegen.cpp:325-336 | A true flag on a non-empty result means its addresses are consecutive. |
| `SliceCode.FlagExactly` | src/codegen/tensor_op_codegen.cpp:325-336 | On a non-empty reduced view the flag is right about the addresses being consecutive exactly when it is not the case that only unit axes are unpacked; then they are consecutive and the flag is false. |
| `SliceCode.FlagCanMiss` | src/codegen/tensor_op_codegen.cpp:310-336 | That case is reached: one element of a packed matrix, its column axis dropped. |

## Left out

- Floating point: rounding, BF16 casts and hardware tile layouts; values are reals, and a BF16
  cast is the identity.
- Weak memory below `notify` and `wait`; each action of a rank is one atomic step. In the
  two-phase form and the mesh a remote load and the addition of what it loaded are one step.
- `Mesh` steps through states as values; only its accumulation loop is a method.
- Chunk payloads are values of any type: the flat offset `c * chunk` into a window is the chunk
  index, and only `ChunkSums.Flat` lays chunks out.
- Tile buffers of the paged kernels are stacks of tiles; the row offset `i * q_tile` into a
  flat buffer is the tile index.
- PagedOrchestration.PagedAttentionRun: the scale is the 1.0 that the orchestration passes; rows
  of a request without tokens keep what they held.
- SpmdProgram.PagedAttentionSpmd: requests have at least one token, the query tile divides the
  number of heads, the scale is positive, and the stages of a block follow one another, as their
  data dependencies demand; new tensors are zero, as examples/models/06_paged_attention_dynamic.py
  says. With no active block the kernel divides zero by zero, of which nothing is said.
- `golden_multi_config` and `golden`, the torch references; the reference here is the softmax itself.
- SHA-256: identities are compared by what is hashed. File-system races, `fstat` and symlink
  checks, cache locks, and `InstallationIdentityCache`.
- SourceClosure.Collect: include directives are given with each file, in order; the regular
  expression that finds them and the text decoding are not modelled. Paths are strings with
  functions for joining and resolving.
- RecordTheorems.DecodeEncode: a cycle is an unsupported value; the identity test that detects
  one is not modelled.
- RecordTheorems.RaisesExactly: cycles, dictionary keys that are no strings, and values of other
  types are one kind of unsupported value. Integers of any length are encoded; CPython's limit on
  the digits of an integer turned into a string, which can raise, is not modelled.
- SourceDigest.ExternalSourceStream: file names are text that UTF-8 can encode; that the encoding
  of other names raises is not modelled.
- Builder.IRBuilder.EndFunction: which bodies pass the check of register scopes is not modelled;
  that it passes is a parameter of the call.
- Builder.IRBuilder.EndForLoop: that the message of a mismatch is made from the destroyed context
  is not modelled, for `EndWhileLoop` and `BuilderReplay.RejectedLoop` likewise; the call is taken
  to raise.
- Spans of builder statements; types and expressions are names that say whether they stand for a
  value. `EmitReg`, programs, parameters (`FuncArg`), `AddFunctionAttrs`, null pointers, and
  values outside an enumeration are not modelled.
- ExprMeaning.PrintKeepsMeaning: integers are unbounded and untyped on both sides, so overflow of
  an intermediate result, integer promotion, and comparison or negation of unsigned operands are
  not covered. It goes one way: operators that disagree inside can still cancel. Float literals,
  tuple items and calls are left out.
- CppText: three-character tokens, character and floating literals, and comments, none of which
  a printed expression contains.
- SliceCode.FlagExactly: the parent has fewer than 2^64 elements, so that the 64-bit
  expected stride does not wrap; offsets and extents are unsigned values already converted.
- The other distributed examples, the compiler passes, the op registry and the runtime: they
  would add easier members, or their code is not part of this model.
