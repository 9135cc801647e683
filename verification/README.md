# Verified models of the Electrosense sensor

The sensor is a pipeline of threads joined by lock-free queues. This project models its
core in Dafny and proves what the rest of the program relies on.

| files | component |
|---|---|
| `Blocks`, `SpscSteps`, `SpscProducer`, `SpscConsumer`, `SpscTheorems` | the single-producer/single-consumer queue as a step system: every load and store of a shared variable is one step, both program counters are explicit |
| `SpscSolo`, `RwQueue` | the same queue as the source writes it, with blocks and arrays on the heap, proved against the step system run by one side alone |
| `Semaphore`, `BlockingQueue` | the semaphore with its timeout-and-restore loop, and the blocking queue that puts it in front of the lock-free queue |
| `CIC`, `FIR`, `RatePlan`, `Downsampler`, `IQStream` | the decimating resampler and the I/Q path over two of them |
| `Pack754` | the portable floating-point codec |
| `Sampling`, `FFT`, `Averaging`, `PsdPipeline` | segmentation, batching and grouping in the PSD pipeline |
| `Shutdown`, `Joins` | stopping and joining the driver, of either kind, and the stages: what gets through, and when it comes to an end |
| `Framing` | packets and the loop that writes them |
| `Bits` | bitwise arithmetic on natural numbers, and the rounding to powers of two |

`dafny verify dfyconfig.toml` checks everything.

## How to read the models

A queue step takes one action, chosen by a scheduler: who moves, what an idle side calls,
whether an allocation succeeds. A run is any list of actions, so a statement about all runs
is a statement about all interleavings. The state carries a history that no step looks at:
what went in and out so far, the circle of blocks in order, and whether the queue was empty
or full at some moment of the call in progress. The heap class `ReaderWriterQueue` carries
the state it is in as a ghost field and keeps the two equal.

The filters carry the whole input so far as a ghost field. Their contracts say that what a
call writes continues one sequence that depends on that input alone. So no cut of the input
into calls makes a difference.

Where a property fails, a lemma says exactly when it holds:

- `signal(0)`, which the source admits, can let a wait succeed that no permit was meant for:
  some run after it does so if and only if the count was negative
  (`Semaphore.SignalIsSafeExactlyWhen`).
- The filter constructor adds as many zero taps as the remainder, which reaches a multiple
  of the interpolation rate only if the remainder is zero or at least half of the rate;
  otherwise the last taps have no effect (`FIR.AllTapsCountExactlyWhen`).
- The decimator's divisor overflows to zero when the rates are 128 or more apart, as with
  the rates used when no decoder is selected (`RatePlan.GrowthVanishesExactlyWhen`,
  `RatePlan.GrowthVanishesForTheDefaults`).
- Packing +2^-bias gives the pattern that unpacks to zero, as do the values so near above it
  that nothing is left of them (`Pack754.UnpackUndoesPackExactlyWhen`,
  `Pack754.PacksToZeroExactlyWhen`), and values just below a power of two lose half of
  their size if the carry out of the significand meets an odd exponent field
  (`Pack754.ComesBackNearExactlyWhen`). In the 32- and 64-bit formats the added 0.5 is
  rounded away in float arithmetic, which hides the second case there.
- A waiter that has timed out goes round the loop that restores the count once more if and
  only if it tries the kernel semaphore between a signaller's count and its post
  (`Semaphore.WaitProgress`).
- After one group of mixed frequencies the averaging stage never completes another one, as
  its group keeps growing past the size it compares with (`Averaging.Wedged`).
- A stage whose loop ends as soon as it is told to stop, as in FFT and Averaging, loses what
  is in its queue, and Transmission loses what it fails to write: no run loses anything if
  and only if every stage drains its queue and none fails (`Shutdown.DeliversExactlyWhen`).
- A stop that comes too early is lost. It reaches a stage, and the driver of the PSD mode, if
  and only if the thread had begun, as the thread sets its flag again otherwise; it reaches
  the driver of the IQ and DEC modes, which does not read its flag, if and only if the
  asynchronous read was under way or over. The call of stop can return if and only if it
  reaches the thread or the thread may still end by itself
  (`Joins.StopReturnsExactlyWhen`): a driver whose read fails or is limited to a monitor
  time, or whose start time may still turn out to be past
  (`Joins.DriverStopReturnsExactlyWhen`), a stage that may fail to write and has something
  left to write. Otherwise main waits for ever (`Joins.WaitsForEver`), a run leads there for
  every thread but the driver whose read may fail or is limited
  (`Joins.LostStopReachedExactlyWhen`), and nothing else keeps finish_ok from returning
  (`Joins.FinishReturnsExactlyWhen`).
- There is a packet buffer to write to if and only if the first data sent is not empty
  (`Framing.BufferExistsExactlyWhen`, `Framing.NoBufferAtFirst`).

## Model

| member | source | states |
|---|---|---|
| `SpscTheorems.EnoughBlocks` | misc/readerwriterqueue.h:95-124 | the blocks reserved at construction leave room for maxSize elements in all but any one of them, with one block and with several |
| `SpscTheorems.ConstructedInv` | misc/readerwriterqueue.h:87-140 | a new queue satisfies the invariant: a circle of distinct blocks, none outside the front-to-tail arc in use, capacity for maxSize |
| `SpscTheorems.StepKeeps` | misc/readerwriterqueue.h:209-531 | every single load or store of either side, in any order, keeps the invariant: blocks inside the arc full, outside empty but for the one about to be published, shadows never past the true indices, slots alive exactly between front and tail, nothing lost |
| `SpscProducer.PStoreTailKeeps` | misc/readerwriterqueue.h:456-463 | storing the tail index linearises an enqueue into the tail block: the invariant holds with the element at the end |
| `SpscProducer.PPublishKeeps` | misc/readerwriterqueue.h:490-491 | storing tailBlock linearises an enqueue into the next block, filled beforehand |
| `SpscProducer.PLinkTailKeeps` | misc/readerwriterqueue.h:508-518 | linking a new block into the circle between two steps of a consumer keeps the invariant, although the consumer may see the link before tailBlock moves |
| `SpscConsumer.CAdvanceKeeps` | misc/readerwriterqueue.h:263-280 | moving frontBlock on keeps the invariant: the block left behind is empty and may be filled by the producer |
| `SpscConsumer.CStoreFrontKeeps` | misc/readerwriterqueue.h:245-248 | storing the front index linearises a take of the oldest element |
| `SpscTheorems.NoAssertFails` | misc/readerwriterqueue.h:275-276 | neither assertion fails in a reachable state: a next block the consumer moves on to holds something, and a spare block the producer moves on to (line 482) is empty |
| `SpscTheorems.EveryInterleavingIsFifo` | misc/readerwriterqueue.h:208-531 | in every interleaving from construction the elements taken followed by those queued are the elements put in, in order, and no assertion fails |
| `SpscTheorems.StepEffect` | misc/readerwriterqueue.h:208-531 | each step changes the abstract queue not at all, or appends the producer's element as it completes its call, or takes off the head as the consumer completes its call with it |
| `SpscTheorems.SlotsAreExclusive` | misc/readerwriterqueue.h:241-243 | elements are constructed in vacant slots only and read or destroyed in occupied slots only, so no slot is written while it is read |
| `SpscTheorems.TakesRefuseOnlyWhenEmpty` | misc/readerwriterqueue.h:222-261 | a take that reports empty names a moment of its own call at which the queue was empty, thanks to rereading the front block after tailBlock |
| `SpscTheorems.PutsRefuseOnlyWhenFull` | misc/readerwriterqueue.h:450-523 | a try_enqueue that refuses names a moment of its own call at which at least maxSize elements were queued |
| `SpscTheorems.EnqueueFailsOnlyWithMalloc` | misc/readerwriterqueue.h:493-500 | enqueue fails only in the step in which allocation fails |
| `SpscTheorems.StepsProgress` | misc/readerwriterqueue.h:208-531 | calls are wait-free: a side's own steps bring its call nearer its end, at most 11 for an enqueue and 13 for a take, whatever the other side does |
| `SpscSolo.EnqueueEffect` | misc/readerwriterqueue.h:436-531 | with the consumer at rest a whole enqueue appends its element or fails, without allocation only when at least maxSize are queued |
| `SpscSolo.TakeEffect` | misc/readerwriterqueue.h:208-413 | with the producer at rest a whole take returns the oldest element, and fails exactly when there is none; peek leaves it |
| `Bits.CeilToPow2` | misc/readerwriterqueue.h:542-554 | the bit-smearing loop on 64-bit words computes the least power of two that is large enough, and 0 where none fits |
| `Bits.CeilPow2Least` | misc/readerwriterqueue.h:542-554 | what it computes is a power of two and no smaller one is large enough |
| `Bits.MaskIsMod` | misc/readerwriterqueue.h:454 | masking with a power of two less one is the remainder |
| `RwQueue.MaskedDist` | misc/readerwriterqueue.h:426 | the masked, wrapping difference of tail and front is the number of elements between them |
| `RwQueue.ReaderWriterQueue.constructor` | misc/readerwriterqueue.h:87-140 | the blocks on the heap form the circle of the model, in a state that satisfies its invariant, and hold nothing |
| `RwQueue.ReaderWriterQueue.MakeCircle` | misc/readerwriterqueue.h:105-122 | the linking loop makes distinct empty blocks, each pointing to the next and the last to the first |
| `RwQueue.ReaderWriterQueue.InnerEnqueue` | misc/readerwriterqueue.h:437-531 | the heap code does exactly what the step system does with the producer alone, for both allocation modes |
| `RwQueue.ReaderWriterQueue.TryEnqueue` | misc/readerwriterqueue.h:171-185 | appends the element or refuses, and refuses only with maxSize or more queued |
| `RwQueue.ReaderWriterQueue.Enqueue` | misc/readerwriterqueue.h:188-202 | appends the element unless allocation fails |
| `RwQueue.ReaderWriterQueue.TryDequeue` | misc/readerwriterqueue.h:208-300 | returns and removes the oldest element, or reports that there is none |
| `RwQueue.ReaderWriterQueue.Pop` | misc/readerwriterqueue.h:350-413 | removes the oldest element, if any |
| `RwQueue.ReaderWriterQueue.Peek` | misc/readerwriterqueue.h:308-345 | returns the oldest element and leaves the contents as they are |
| `RwQueue.ReaderWriterQueue.SizeApprox` | misc/readerwriterqueue.h:417-430 | with both sides at rest the loop over the circle yields the exact number of queued elements |
| `Semaphore.StepKeeps` | misc/atomicops.h:569-648 | every step of waiter and signallers, the timeout-restore loop included, keeps: permits conserved, count at least -1, and a kernel post there or on its way exactly when a waiter in debt has its permit |
| `Semaphore.SignalKeepsExactlyWhen` | misc/atomicops.h:639-648 | signal(n) keeps the invariant if and only if n is positive or the count is not negative |
| `Semaphore.SignalIsSafeExactlyWhen` | misc/atomicops.h:639-648 | no run after signal(n) makes more waits succeed than permits were handed out if and only if n is positive or the count is not negative |
| `Semaphore.EveryInterleaving` | misc/atomicops.h:569-648 | successful waits never exceed signals, the assertion in signal holds, at most one kernel post is outstanding |
| `Semaphore.BetweenCalls` | misc/atomicops.h:600-609 | between calls the count is exactly the permits left and no post is left over, so a wait that timed out changed nothing |
| `Semaphore.RetrySeesAPermit` | misc/atomicops.h:606-608 | the count that the retry replaces is always positive |
| `Semaphore.SleeperHasNoPermit` | misc/atomicops.h:590-594 | a waiter asleep with nothing posted or about to be has no permit to take: no wake-up is lost |
| `Semaphore.SignalZeroGivesAwayAPermit` | misc/atomicops.h:639-648 | a concrete run in which signal(0) makes a wait succeed that nobody signalled |
| `Semaphore.WaitProgress` | misc/atomicops.h:569-609 | every step of the waiter brings its call nearer its end, but while the kernel keeps it asleep, with no permit left or a post on its way, and when it tries the kernel semaphore ahead of a post on its way; signallers leave it where it is |
| `Semaphore.PromisedExactlyWhen` | misc/atomicops.h:639-648 | with no post on its way, the permit is where the waiter will find it if and only if one is left |
| `Semaphore.WaitSucceedsWithin` | misc/atomicops.h:569-609 | in every run a call for which a permit is left, with no post on its way, succeeds within a bounded number of its own steps, asleep, timed out or spinning as it may be |
| `Semaphore.WaitEndsWithin` | misc/atomicops.h:600-609 | in every run in which it does not try ahead of a post, a call ends within a bounded number of steps out of sleep, the timeout-restore loop in its first round |
| `Semaphore.CallKeepsMode` | misc/atomicops.h:569-636 | in every run a poll neither spins nor sleeps, wait() does not fail, and only a wait with a timeout restores the count |
| `Semaphore.PollIsQuick` | misc/atomicops.h:618-626 | a poll is over after two steps of its own, whatever the signallers do |
| `Semaphore.TimedMayFail` | misc/atomicops.h:600-605 | a run in which a wait with a timeout fails and leaves everything as it was |
| `BlockingQueue.StepKeeps` | misc/readerwriterqueue.h:661-794 | in the composition every queued element is accounted for by a permit, a claimed permit, a debt, or a signal still to come |
| `BlockingQueue.PermitsAreHonoured` | misc/readerwriterqueue.h:711-754 | once the semaphore grants a permit the inner take succeeds, in every interleaving, and order is kept |
| `BlockingQueue.PermitsAreQueued` | misc/readerwriterqueue.h:798-801 | available permits never exceed the queued elements, and equal them when no call is under way |
| `BlockingQueue.SleeperHasNothingToTake` | misc/readerwriterqueue.h:727-734 | a consumer that stays asleep while the producer is between calls has an empty queue |
| `BlockingQueue.StepsProgress` | misc/readerwriterqueue.h:661-794 | each side's own steps bring its call nearer its end, at most 14 for a put, whatever the other side does, but for a take that is asleep with nothing signalled to take, or ahead of a post on its way |
| `BlockingQueue.TakeSucceedsWithin` | misc/readerwriterqueue.h:711-754 | in every run a waiting take for which an element is queued and signalled, with no post on its way, returns an element within a bounded number of its own steps |
| `BlockingQueue.TakeKeepsMode` | misc/readerwriterqueue.h:711-794 | in every run a taking call stays where its mode of waiting allows; wait_dequeue comes back with an element |
| `BlockingQueue.PollEndsWithin` | misc/readerwriterqueue.h:711-721 | in every run try_dequeue and pop are over after 17 steps of their own, never asleep |
| `CIC.CombTrades` | MiscBlocks/Filter/CIC/IntComb.h:12-32 | a comb, one decimation period apart, trades one running total for one moving sum, at any depth of the cascade |
| `CIC.LosslessExactlyWhen` | MiscBlocks/Filter/CIC/CIC.h:20-31 | of samples within 0..top the outputs are exactly the moving sums, for all inputs and outputs, if and only if top times the growth fits the 32-bit register |
| `CIC.OutputIsResidue` | MiscBlocks/Filter/CIC/CIC.h:46-71 | every output is a whole number that fits the register and differs from the moving sum by a multiple of the register's range |
| `CIC.SteadyOutput` | MiscBlocks/Filter/CIC/CIC.h:46-71 | a steady input comes out of the filter as its level times the growth, once the filter has filled, if that fits the register |
| `CIC.FirstOrderIsSum` | MiscBlocks/Filter/CIC/CIC.h:46-71 | at order 1 the moving sums are the sums of one period of samples after the other |
| `CIC.SmoothBound` | MiscBlocks/Filter/CIC/CIC.h:23-31 | every true output is between 0 and top times the growth |
| `CIC.SmoothSteady` | MiscBlocks/Filter/CIC/CIC.h:23-31 | a steady input comes out amplified by exactly the growth once the filter has filled |
| `CIC.CIC.constructor` | MiscBlocks/Filter/CIC/CIC.h:20-27 | the registers start in the state that an empty input leaves, and the gain loop computes the growth to the width of the register |
| `CIC.CIC.RunIntegrators` | MiscBlocks/Filter/CIC/CIC.h:49-55 | the wrapping integrators hold the running totals of the whole input modulo 2^32 |
| `CIC.CIC.RunCombs` | MiscBlocks/Filter/CIC/CIC.h:61-64 | the wrapping combs turn them into the cascade of moving sums modulo 2^32 |
| `CIC.CIC.Filter` | MiscBlocks/Filter/CIC/CIC.h:46-71 | what a call writes continues the decimated moving sums of the whole input so far, one for every full period, and nothing else is written |
| `FIR.BranchIsConvolution` | MiscBlocks/Filter/FIR/RationalFIRFilter.h:60-75 | one branch of the taps over the latest samples is the convolution of the zero-stuffed input with all of them |
| `FIR.AllTapsCountExactlyWhen` | MiscBlocks/Filter/FIR/RationalFIRFilter.h:26-30 | every output is the convolution with all taps given, for all taps and inputs, if and only if the remainder of the size is zero or at least half of the interpolation rate |
| `FIR.ImpulseResponse` | MiscBlocks/Filter/FIR/RationalFIRFilter.h:60-75 | a single 1 makes the taps come out one after the other, in order, from the time of its sample on, and nothing else |
| `FIR.Superposition` | MiscBlocks/Filter/FIR/RationalFIRFilter.h:60-75 | outputs are linear in the inputs, which with the row above settles them for all inputs |
| `FIR.ImpulseStream` | MiscBlocks/Filter/FIR/RationalFIRFilter.h:33-57 | of an impulse every D-th of its taps comes out, in order |
| `FIR.CeilDivCounts` | MiscBlocks/Filter/FIR/RationalFIRFilter.h:33-57 | the number of outputs is the number of multiples of D below n*L |
| `FIR.RationalFIR.constructor` | MiscBlocks/Filter/FIR/RationalFIRFilter.h:21-31 | an empty delay line over the taps that the branches reach |
| `FIR.RationalFIR.CalcPolyphase` | MiscBlocks/Filter/FIR/RationalFIRFilter.h:60-75 | going round the circular delay line computes the convolution at the current output time, indices in range |
| `FIR.RationalFIR.RunBranches` | MiscBlocks/Filter/FIR/RationalFIRFilter.h:39-47 | the inner loop writes exactly the outputs that fall to the latest sample, and the output phase does not overflow |
| `FIR.RationalFIR.Filter` | MiscBlocks/Filter/FIR/RationalFIRFilter.h:33-57 | what a call writes continues zero-stuffing, convolution and keeping every D-th sample of the whole input; after n samples ceil(n*L/D) have come out |
| `RatePlan.Gcd` | MiscBlocks/Filter/Resampler/Downsampler.cpp:13-20 | the result divides both and every common divisor divides it |
| `RatePlan.PlanDecimation` | MiscBlocks/Filter/Resampler/Downsampler.h:41-45 | the loop ends with the decimation rate that is the least power of two to bring the input rate below the oversampled output rate |
| `RatePlan.LeastPowerIsLeast` | MiscBlocks/Filter/Resampler/Downsampler.h:42-45 | a power of two brings the rate below the target if and only if it is no less than the one planned |
| `RatePlan.PlanRates` | MiscBlocks/Filter/Resampler/Downsampler.h:41-79 | interpolation and decimation are the whole rates in lowest terms, the actual rate follows, and the plan is refused exactly when the interpolation is too large |
| `RatePlan.EndToEndRate` | MiscBlocks/Filter/Resampler/Downsampler.h:41-79 | the two stages together: the reported rate times both decimations is the input rate times the interpolation, the fraction is made for the whole part of the decimated rate, and what it is off is bounded by the parts after the point |
| `RatePlan.NeverInterpolatesUp` | MiscBlocks/Filter/Resampler/Downsampler.h:41-79 | the second stage gets at least twice the output rate if the decimator is used, and the fraction is at most one |
| `RatePlan.WholeRatesAreMet` | MiscBlocks/Filter/Resampler/Downsampler.h:58-79 | whole rates are met exactly |
| `RatePlan.BytesLosslessExactlyWhen` | MiscBlocks/Filter/Resampler/Resampler.h:16-18 | with order 6 and oversampling 4, bytes come out of the planned decimator without loss if and only if the rates are less than 64 apart |
| `RatePlan.GrowthVanishesExactlyWhen` | MiscBlocks/Filter/Resampler/Downsampler.h:118-125 | the divisor after the decimator is zero if and only if the rates are at least 128 apart |
| `RatePlan.GrowthVanishesForTheDefaults` | MiscBlocks/IQStream.cpp:145-152 | it is zero for 2.4 MHz and 6 kHz, the rates used when no decoder is selected |
| `Downsampler.CountOf` | MiscBlocks/Filter/Resampler/Downsampler.h:115-138 | how much has come out depends on how much went in only: ceil(floor(n/R)*L/D) |
| `Downsampler.NoMoreThanIn` | MiscBlocks/Filter/Resampler/Downsampler.h:115-138 | with a fraction of at most one no call returns more than it was given |
| `Downsampler.FirInputWithin` | MiscBlocks/Filter/Resampler/Downsampler.h:119-125 | after the division by the growth the samples are back within the range of the input |
| `Downsampler.FirInputIsAverage` | MiscBlocks/Filter/Resampler/Downsampler.h:119-125 | without loss in the decimator the second stage gets the moving averages of the input |
| `Downsampler.SteadyLevelPasses` | MiscBlocks/Filter/Resampler/Downsampler.h:119-125 | a steady level reaches the second stage unchanged, once the decimator has filled |
| `Downsampler.StreamPassesThrough` | MiscBlocks/Filter/Resampler/Downsampler.h:115-138 | with rates of 1 and a single tap of 1 everything comes out as it went in |
| `Downsampler.Downsampler.RunCic` | MiscBlocks/Filter/Resampler/Downsampler.h:118-131 | the working buffer gets what the second stage should see next, with the decimator in use and without |
| `Downsampler.Downsampler.Filter` | MiscBlocks/Filter/Resampler/Downsampler.h:115-138 | what a call writes continues one sequence that depends on the whole input only, so any cut into calls yields the same |
| `Downsampler.Downsampler.StateIsOfHistory` | MiscBlocks/Filter/Resampler/Downsampler.h:115-138 | equally configured resamplers that were given the same samples are in the same state, registers, delay line and indices, however the samples were cut into calls |
| `IQStream.IQStream.Lockstep` | MiscBlocks/IQStream.cpp:154-155 | equally configured resamplers that were given equally much have returned equally much |
| `IQStream.IQStream.Split` | MiscBlocks/IQStream.cpp:233-236 | the loop separates the even and the odd bytes |
| `IQStream.IQStream.Weave` | MiscBlocks/IQStream.cpp:242-245 | the loop alternates the two outputs |
| `IQStream.WovenAgain` | MiscBlocks/IQStream.cpp:233-245 | weaving undoes splitting, for all bytes |
| `IQStream.IQStream.PassesThrough` | MiscBlocks/IQStream.cpp:230-245 | with resamplers that pass samples on as they are, all that is sent is what was received, with I and Q in their places |
| `IQStream.IQStream.Process` | MiscBlocks/IQStream.cpp:230-245 | for any sequence of even buffers, all that was sent is the two resampled streams woven sample by sample: none mixed up or dropped |
| `Pack754.NormalizeIs` | misc/TCP.cpp:50-52 | a value has one normal form, which is what the two loops find |
| `Pack754.Pack754` | misc/TCP.cpp:40-60 | the loops end and the or-ed fields are sign, biased exponent and scaled fraction of the normal form |
| `Pack754.Unpack754` | misc/TCP.cpp:62-80 | the loops end and the result is the value of the fields of the word |
| `Pack754.PackUndoesUnpack` | misc/TCP.cpp:40-80 | packing what a word unpacks to gives the word back, for every word, up to bits above the format |
| `Pack754.UnpackUndoesPackExactlyWhen` | misc/TCP.cpp:40-80 | a value of the format survives packing and unpacking if and only if it is not +2^-bias |
| `Pack754.PacksToZeroExactlyWhen` | misc/TCP.cpp:54-59 | a value other than zero packs to zero if and only if it lies between 2^-bias and 2^-bias * (1 + 1/(2^s + 0.5)), s being the bits of the significand |
| `Pack754.ComesBackNearExactlyWhen` | misc/TCP.cpp:54-59 | any value in range comes back within one unit in the last place if and only if it is not in that interval and its fraction does not carry into an odd exponent field |
| `Pack754.CarryIsLost` | misc/TCP.cpp:55-59 | 1.9999 in the 16-bit format comes back as 1 |
| `Pack754.WordOfValue` | misc/TCP.cpp:55-59 | the word of any value of the format, in numbers: sign, exponent counted from the least one on, fraction |
| `Pack754.WordOfPowerOfTwo` | misc/TCP.cpp:55-59 | so for all powers of two in range |
| `Pack754.WordOfOne` | misc/TCP.cpp:55-59 | and 1 packs to 0x3F800000 in the 32-bit format |
| `Framing.DecodeCut` | MiscBlocks/Transmission.cpp:118-144 | from any number of bytes of the packet stream a reader gets a prefix of the buffers, in the PSD pipeline each with the number of bins, and exactly all of them from all bytes |
| `Framing.ReaderGets` | MiscBlocks/Transmission.cpp:146-157 | when the sender fails after k packets the reader has got the first k buffers, or one more |
| `Framing.NetworkOrder` | MiscBlocks/Transmission.cpp:134-144 | words are sent most significant byte first: they compare as their bytes do |
| `Framing.PacketIsPadded` | MiscBlocks/Transmission.cpp:118-132 | packets are as short as a multiple of 4 allows and end in zeros |
| `Framing.TcpWrite` | misc/TCP.cpp:209-226 | whatever the kernel takes of each chunk, nothing included as long as it goes on some time, success means all bytes were sent in order and failure that a prefix was; no request exceeds 512 bytes |
| `Framing.BufferExistsExactlyWhen` | MiscBlocks/Transmission.cpp:85-138 | there is a buffer at every write if and only if the first size is not 0 |
| `Framing.NoBufferAtFirst` | MiscBlocks/Transmission.cpp:85-138 | there is none for a first size of 0 |
| `Framing.Transmission.Build` | MiscBlocks/Transmission.cpp:118-144 | if there is one, the reused buffer holds exactly the packet of the current data, header in network order and zeros up to a multiple of 4, also when the size is that of the packet before |
| `Framing.Transmission.Send` | MiscBlocks/Transmission.cpp:102-164 | all packets are sent in order, or those of the first k buffers and part of the next; a missing packet buffer is the cause exactly for an empty first buffer |
| `Sampling.TransferSizeIsLeast` | drivers/rtlsdr/rtlsdrDriver.cpp:627-635 | the transfer length is the least multiple of 512 that covers the segments |
| `Sampling.SetSoverlap` | context/ElectrosenseContext.cpp:283-289 | the accepted overlap is less than the segment size, and the one asked for if that is |
| `Sampling.Reach` | drivers/rtlsdr/rtlsdrDriver.cpp:658-672 | every sample of every segment lies within the covered part of the block |
| `Sampling.EverySampleIsCut` | drivers/rtlsdr/rtlsdrDriver.cpp:658-672 | every covered position is in some segment |
| `Sampling.NeighboursOverlap` | drivers/rtlsdr/rtlsdrDriver.cpp:665-672 | consecutive segments share exactly s samples |
| `Sampling.SegmentsAreTheBlock` | drivers/rtlsdr/rtlsdrDriver.cpp:658-672 | the first segment and the new parts of the others, in order, are the covered block from its first byte on, I and Q in turn |
| `Sampling.InvertedMirrors` | drivers/rtlsdr/rtlsdrDriver.cpp:650-654 | the inversion mirrors the I bytes, keeps the Q bytes, and undoes itself |
| `Sampling.Sampler.Resize` | drivers/rtlsdr/rtlsdrDriver.cpp:620-638 | the buffer has the transfer length for the current segment size, with no 32-bit overflow |
| `Sampling.Sampler.Read` | drivers/rtlsdr/rtlsdrDriver.cpp:644-654 | the bytes read are stored, the I bytes inverted when asked for, and a short read stops the driver |
| `Sampling.Sampler.Pass` | drivers/rtlsdr/rtlsdrDriver.cpp:620-680 | one pass enqueues A segments of one frequency, each the right samples of the block, reads in bounds |
| `FFT.FFT.Process` | ProcessingBlocks/FFT.cpp:43-62 | all that was received has been sent on transformed and in order, but for less than a batch |
| `PsdPipeline.GroupsArePasses` | ProcessingBlocks/FFT.cpp:43-62 | any prefix of the transformed passes, whatever the batch length, falls into groups that are exactly passes |
| `PsdPipeline.AveragesAreOfPasses` | ProcessingBlocks/Averaging.cpp:47-99 | whatever the driver, the FFT stage and the averaging stage have done so far, with anything left in the queues between them: what averaging has sent on are the mean powers of exactly the first passes of the driver, so the branch for mixed frequencies is not taken, and no segment arrives twice |
| `PsdPipeline.OnlyABatchIsBehind` | ProcessingBlocks/FFT.cpp:43-62 | with the queues between them empty, less than a batch and a pass together has not been averaged |
| `PsdPipeline.Drain` | ProcessingBlocks/Averaging.cpp:47-99 | for whatever the driver has enqueued, running the loops of both stages over it sends on the mean powers of the first passes, less than a batch and a pass behind; so the conditions of the two rows above can always be met |
| `Averaging.NothingLost` | ProcessingBlocks/Averaging.cpp:51-93 | completed groups and held segments are the whole stream in order |
| `Averaging.GroupsAreWhole` | ProcessingBlocks/Averaging.cpp:53-68 | a completed group has A segments of one frequency |
| `Averaging.EverySegmentOnce` | ProcessingBlocks/Averaging.cpp:85-93 | of the completed groups each segment is either sent on or released, once |
| `Averaging.AllDoneExactlyWhen` | ProcessingBlocks/Averaging.cpp:53-68 | all whole groups are completed if and only if none is mixed |
| `Averaging.Wedged` | ProcessingBlocks/Averaging.cpp:53-68 | after a mixed group everything is held back for ever |
| `Averaging.OnlyPassesAreDone` | ProcessingBlocks/Averaging.cpp:47-99 | of any prefix of passes only passes are completed, in order, and less than one is held |
| `Averaging.PowerIsMagnitudeSquared` | ProcessingBlocks/Averaging.cpp:76-78 | the power of a bin vanishes for 0 only, does not depend on the phase, is the square for real values and multiplies under products |
| `Averaging.MeanIsBetween` | ProcessingBlocks/Averaging.cpp:70-83 | what is converted to decibels lies between the least and the greatest power of the group at that bin |
| `Averaging.EqualSpectra` | ProcessingBlocks/Averaging.cpp:70-83 | a group of equal spectra averages to the power of each of them |
| `Averaging.OrderDoesNotMatter` | ProcessingBlocks/Averaging.cpp:70-83 | the order of the segments in a group does not matter to its average |
| `Averaging.Averaging.WrongFrequency` | ProcessingBlocks/Averaging.cpp:60-63 | comparing neighbours finds out whether all frequencies are equal |
| `Averaging.Averaging.Average` | ProcessingBlocks/Averaging.cpp:70-83 | the loops compute the mean power of every bin over the group |
| `Averaging.Averaging.Process` | ProcessingBlocks/Averaging.cpp:49-95 | after each segment the averages of exactly the completed groups have been sent in their first segments, the others released, the rest held |
| `Shutdown.OneStepKeeps` | drivers/rtlsdr/rtlsdrDriver.cpp:439-507 | every step of main, of a driver of either kind and of any stage, failures of device and socket included, keeps: a stage looks at its queue only when told to stop and leaves only then or when it fails, upstream of it has left by then, what it sent is what it took, only a read under way is cancelled |
| `Shutdown.EverythingIsWritten` | main.cpp:282-288 | in every run of stages that drain and do not fail, behind either driver, once finish_ok returns all that the driver enqueued has come out at the end in order |
| `Shutdown.OnlyAPrefixIsWritten` | MiscBlocks/Transmission.cpp:98-157 | in every run of any stages what has come out is at any moment a beginning of what the driver enqueued, in order and with no gap, a failing write included |
| `Shutdown.DeliversExactlyWhen` | ProcessingBlocks/RemoveDCRTL.cpp:48-69 | no run loses anything if and only if every stage drains its queue before it leaves and none fails |
| `Shutdown.LosingRun` | ProcessingBlocks/FFT.cpp:43-62 | for the first stage that does not drain, or that fails, a run that loses an element there |
| `Joins.LeavesSoon` | MiscBlocks/IQSink.cpp:52-93 | a thread that main waits for and that was told in time, a stage or a driver of either kind, gets closer to its end with each of its own steps, and no other step takes it further away |
| `Joins.EndsWithin` | MiscBlocks/IQSink.cpp:52-93 | in every run such a thread has ended once it has taken as many steps as it was away from its end, a number given by what is in its queue or by the transfers under way |
| `Joins.JoinReturnsExactlyWhen` | drivers/Component.h:38-48 | the join of any thread can return if and only if the thread was told in time or may still end by itself |
| `Joins.StopReturnsExactlyWhen` | ProcessingBlocks/RemoveDCRTL.cpp:74-80 | a call of stop can return if and only if the thread has begun, or reads if it is a streaming driver, or may still end by itself |
| `Joins.DriverStopReturnsExactlyWhen` | drivers/rtlsdr/rtlsdrDriver.cpp:686-701 | the stop of the driver can always return if a read may fail; else exactly when the polling driver has begun, or the streaming one reads, is over, has a monitor time, or has yet to compare its start time |
| `Joins.WaitsForEver` | drivers/rtlsdr/rtlsdrDriver.cpp:297-335 | a thread that was told too early and will not end by itself stays so in every run, and main waits for it |
| `Joins.LostStopReachedExactlyWhen` | drivers/rtlsdr/rtlsdrDriver.cpp:439-507 | a run from the start leads there for every stage, and for the driver if and only if its reads do not fail and are not limited to a monitor time |
| `Joins.FinishReturnsExactlyWhen` | main.cpp:282-288 | from any state that a run can lead to, finish_ok can return if and only if main does not wait for such a thread |
| `Joins.FinishCanAlwaysReturn` | main.cpp:282-288 | once all threads have begun, and a streaming driver reads, finish_ok can return from wherever any run leads |

## Left out

- Memory ordering: sequential consistency is assumed and fences are no steps. Cache-line padding and alignment of blocks are not modelled.
- SpscTheorems.StepKeeps: accesses that only one side makes are merged with its neighbouring shared access, and the two loads compared at misc/readerwriterqueue.h:466 happen from left to right.
- RwQueue.ReaderWriterQueue.constructor: allocation is taken to succeed, as the source aborts otherwise, and sizes are below 2^63.
- RwQueue.ReaderWriterQueue.SizeApprox: says nothing about a size read while the other side is inside a call.
- Destructor, moves, the reentrancy guards and the copying of elements in the queue.
- Semaphore.EveryInterleaving: every signal hands out at least one permit (Semaphore.SignalIsSafeExactlyWhen says what happens otherwise); the count is unbounded, and spurious failures of the kernel semaphore are not modelled.
- CIC.CIC.Filter: the register is the unsigned 32-bit one in use; the decimation rate is at least 1 and the conversion of outputs to float is exact.
- FIR.RationalFIR.Filter: samples and taps are exact reals; the delay line must not be empty, as it is in the default-constructed placeholder and after too few taps.
- Downsampler.Downsampler.Filter: the rational mode only, with a growth that does not vanish in the register; the conversion of outputs to bytes is any function.
- RatePlan.PlanRates: rates are exact reals and the conversions to unsigned int are within range.
- IQStream.IQStream.Process: buffers of even length, as the driver makes them; the socket is not modelled.
- Filter design, the fractional filter and the gain of the decimator at a frequency, which are transcendental.
- Pack754.Pack754: exact real arithmetic, and exponents that fit their field; others shift negative numbers in the source.
- Framing.TcpWrite: a kernel that takes nothing for ever is left out, as the source then repeats the write for ever.
- Framing.Transmission.Build: packet sizes below 2^32.
- Framing.Transmission.Send: packets of at most 2^31 - 1 bytes, the length that tcp_write takes. TLS is not modelled.
- Averaging.Averaging.Process: the conversion to decibels is any function, and a segment that comes in is not one that came before (PsdPipeline.AveragesAreOfPasses shows that none does).
- FFT.FFT.Process: the transform is any function of a segment; the in-place change of the segment is modelled as a new value.
- Sampling.Sampler.Pass: overlap and averaging factor do not change while the driver runs; the tuner and the converter are not modelled.
- Shutdown.OneStepKeeps: librtlsdr is not part of this model; a cancelled read is taken to hand over no more than the transfers under way and to return, and a cancel to have no effect without a read. The second queue of the DEC mode, its IQStream, whose stop joins only while its flag is up, the restart of decoders and the exceptions of the tuner code are not modelled.
- Joins.StopReturnsExactlyWhen: all threads have been started. A signal that arrives while main is still in its loop of start calls (main.cpp:456-459) makes stop join a thread that was never started, which throws at drivers/Component.h:48.
- Joins.EndsWithin: working on an element is one step, which leaves out Transmission waiting for a server that never accepts (MiscBlocks/Transmission.cpp:66-77).
- RemoveDC, RemoveDCRTL and Windowing transform single segments and would only add easy members, as would argument parsing, context getters and FileSink.
