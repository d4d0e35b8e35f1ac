# SplitterMNS merger and retention sampler, modelled in Dafny

SplitterMNS manipulates list-mode PET acquisitions stored as PETSIRD
streams. An acquisition is a header followed by a stream of *time blocks*.
Each block has a slot identifier, a list of prompt events and an optional
list of delayed events. This project models two of its scripts.

- **`python/merger.py`, fusion mode.** Several acquisitions become one.
  - Each input is given on the command line as `file` or `file,start`, with the start in seconds.
  - Every input must use the same time-block duration (the *quantum*).
  - Each input is shifted by its start, and the blocks that fall in the same slot are fused into one block.
  - The fused block has the slot as its id. It holds the prompts of the fused blocks, optionally shuffled, and their delayed events concatenated. It holds no delayed list at all when none was found.
  - A stream is dropped when it runs out, and the loop ends when every stream has run out.
- **`python/rnd_sampler.py`, retention loop.** A thinned copy of one acquisition.
  - `timeBlock` method: each block is kept or dropped as a whole.
  - `event` method: each event of each block is kept or dropped.
  - When nothing was kept, a placeholder block is written.

The project has five modules.

| module | contents |
|---|---|
| `Blocks` (`blocks.dfy`) | The time block, `Option`/`Result`, and the subsequence relation. |
| `FusionSpec` (`fusion_spec.dfy`) | The merge loop as a pure function `Fusion` (one call per loop iteration), and the proofs about it: events conserved, slots ascending, delayed lists never empty, termination, single-input identity. |
| `FusionLoop` (`fusion_loop.dfy`) | The loop of lines 228-280 itself, over the four parallel lists the script keeps (`fileIO`, `mFileNextTimeBlock`, `timeBlockBuffer`, `startTime`), with the reverse-order pops. It is proved equal to `Fusion`. |
| `Merger` (`merger.dfy`) | `parseAcqArguments`, `extractMergeInfo`, the quantum check and the whole run, as a function `Outcome` and a method `RunMerger` proved equal to it. |
| `Sampler` (`sampler.dfy`) | The retention loop with its six counters, proved against the function `Sampled`. |

In several places the code does something other than one might expect. The model follows the code:

- **Start offset.** The comment at line 220 says the start is converted from milliseconds to time-block slots, which suggests a division. Line 221 *multiplies* the start (a number of milliseconds) by the time-block duration instead. The offset a stream receives is therefore `start * quantum` slots.
- **Shuffling.** With `--shuffleEvents` and more than one block fused, the prompts are shuffled once at line 258. When delayed events were found, the prompts are shuffled *again* at line 263. Delayed events are never shuffled. The shuffle oracle is indexed by how many shuffles came before, so two shuffles in one iteration use two oracle calls.
- **Empty input.** An input without any time block makes `next()` raise at line 231. The run then stops with `EmptyStream` rather than skipping that input.
- **Append mode.** It is rejected at line 198, before the arguments are parsed.
- **Sampler delayed events.** In `event` mode, the sampler builds each block's delayed list by sampling that block's *prompt* events a second time (lines 108-113). It always writes a delayed list, possibly empty. The input block's delayed events are dropped.
- **Placeholder.** The placeholder block `TimeBlock(id=0, prompt_events=[])` exists only in the sampler. The merger never writes one. Line 131 passes no delayed events. The model takes the PETSIRD constructor's default for that field to be an absent list.

Several things the script receives from outside are parameters of the model:

- `files(path)`: the time-block duration and blocks read from `path`.
- `toMs(text)`: `int(float(text) * 1000)`, or `None` where `float` raises or where `int` raises on an infinity or a NaN.
- `shuffle(n, s)`: the `n`-th `random.shuffle` of the run applied to `s`.
- `draw(n)`: whether the `n`-th `random.random()` of the run is below the retention fraction.

## Model

| member | source | states |
|---|---|---|
| Blocks.SubseqCounts | python/rnd_sampler.py:102-113 | A retained list is never longer than its source and holds no event more often than the source does. |
| FusionSpec.Fusion | python/merger.py:239-280 | Defines the merge loop: one block per iteration, composed from the streams due at the minimum slot, then the run on the advanced streams. Its properties are stated by the lemmas below. |
| FusionSpec.Due | python/merger.py:245-249 | Defines the prompts or delays gathered in one iteration, stream after stream. `FusionSpec.IterationConserves` states what they are. |
| FusionSpec.DueCount | python/merger.py:245-250 | Defines `nbMerged`, the number of streams due. `FusionSpec.DueAtMinimum` and `FusionSpec.AdvanceRemaining` state what it counts. |
| FusionSpec.Min | python/merger.py:235 | `min` returns an element of the list that no element is below. |
| FusionSpec.Advance | python/merger.py:244-256 | After an iteration, every stream is still buffered, and no stream is added. |
| FusionSpec.ComposeBlock | python/merger.py:257-266 | The fused block has the current slot as id, and its delayed events are those gathered. It has no delayed list when none were gathered, never an empty one. Without shuffling (or with one block fused), the prompts are those gathered and no shuffle is drawn. A shuffle that reorders leaves the prompt multiset unchanged. |
| FusionSpec.PrefixStep | python/merger.py:244-256 | Visiting stream `i` adds exactly that stream's due events, its merge count and its advanced cursor to what the first `i` streams gave. |
| FusionSpec.AdvanceRemaining | python/merger.py:244-256 | Each block merged in an iteration is one block fewer left to read, summed over all streams. |
| FusionSpec.DueCountPositive | python/merger.py:245-250 | A stream whose slot is at or below the current time is merged. |
| FusionSpec.DueAtMinimum | python/merger.py:235-250 | At the minimum slot every stream's slot is at or above the current time, and at least one block is merged. |
| FusionSpec.AdvanceConsumes | python/merger.py:239-280 | Every iteration consumes at least one block, so the `while True` loop ends. |
| FusionSpec.StepConserves | python/merger.py:245-256 | Per stream, the events merged now plus those still to come equal those that were to come. |
| FusionSpec.IterationConserves | python/merger.py:244-256 | Per iteration, the events merged plus those still pending equal the events pending before, as multisets and for each kind. |
| FusionSpec.FusionConserves | python/merger.py:239-280 | The whole loop writes every pending delayed event exactly once. It does the same for prompts when shuffling is off or every shuffle only reorders. |
| FusionSpec.PendingInitial | python/merger.py:228-233 | Before the loop, the pending events are exactly the events of the inputs, in input order. |
| FusionSpec.AdvanceKeepsOrder | python/merger.py:252-256 | Advancing sorted streams keeps them sorted and never moves a slot below the current time. |
| FusionSpec.SortedCons | python/merger.py:265-268 | A block whose id is at most every later id keeps the written stream sorted. |
| FusionSpec.MinIsFloor | python/merger.py:235 | No stream's slot is below the minimum. |
| FusionSpec.MinAbove | python/merger.py:280 | When every slot is at least `t`, so is the next current time. |
| FusionSpec.FusionStep | python/merger.py:239-280 | One iteration writes the block composed from the due events at the minimum slot, then continues on the advanced streams with fewer blocks left. |
| FusionSpec.FusionLength | python/merger.py:239-280 | The run writes no more blocks than the inputs hold, and writes nothing exactly when no stream is live. |
| FusionSpec.FusionHead | python/merger.py:235-266 | The first block written carries the minimum slot of the live streams. |
| FusionSpec.FusionFirstSlot | python/merger.py:228-266 | Over the opened inputs, the first block written sits at the earliest slot, where input `i` starts at its first block's id plus its offset. |
| FusionSpec.FusionOrdered | python/merger.py:239-280 | With every input sorted by id, the output is non-empty, starts at the minimum slot, never goes below it, and its ids never decrease. |
| FusionSpec.FusionNormalised | python/merger.py:259-266 | No written block carries an empty delayed list. |
| FusionSpec.SingleStreamStep | python/merger.py:239-280 | With one input, the first block written is the first input block shifted by the offset, and the rest is the fusion of the remaining blocks. |
| FusionSpec.RebasedAll | python/merger.py:254 | Replaying a lone stream gives each block its id shifted by the offset, its prompts unchanged and its delayed events unchanged, an empty delayed list becoming absent; the length is kept. |
| FusionSpec.FusionSingleStream | python/merger.py:228-280 | Fusing one input writes that input back block by block: each id shifted by the offset, prompts and delayed events unchanged, and an empty delayed list written as absent. |
| FusionSpec.FusionOfInputs | python/merger.py:228-280 | From the opened inputs, the fusion writes every delayed event of the inputs exactly once, and every prompt when shuffling is off or only reorders. It sorts its output when the inputs are sorted, and writes no empty delayed list. |
| FusionLoop.RemoveAt | python/merger.py:273-276 | `pop(p)` shortens a list by one and shifts the later elements down. |
| FusionLoop.PruneLast | python/merger.py:270-276 | Popping the recorded ascending positions from the last one back removes exactly those positions. |
| FusionLoop.LiveRemoveAt | python/merger.py:272-276 | Popping the same position from the four lists removes that stream's cursor and nothing else. |
| FusionLoop.SlotsOfLive | python/merger.py:232-254 | `mFileNextTimeBlock` is kept equal to the slot of each stream's buffered block. |
| FusionLoop.OpenCursors | python/merger.py:228-233 | Taking the first block of every input gives the initial live streams. |
| FusionLoop.GatherOne | python/merger.py:245-256 | Visiting stream `i` extends prompts, delays and `nbMerged` by its due block, and refills the buffer or records the stream as finished. It changes no later stream. |
| FusionLoop.GatherDue | python/merger.py:240-256 | The inner `for` gathers exactly the due prompts and delays and the merge count of the iteration. Once the recorded streams are removed, the buffers are the advanced cursors. |
| FusionLoop.Retire | python/merger.py:270-276 | The reverse-order pops leave exactly the streams not recorded in `removeFile`. |
| FusionLoop.MergeSlot | python/merger.py:240-276 | One iteration writes the block that `Fusion` writes first, leaves the state from which `Fusion` writes the rest, and consumes at least one block. |
| FusionLoop.FuseStreams | python/merger.py:228-280 | The loop writes exactly `Fusion` of the opened inputs. Its conservation and ordering properties are those of `FusionSpec.FusionOfInputs`. |
| Merger.Find | python/merger.py:86 | `str.find` gives -1 exactly when the character is absent, and otherwise its first position. |
| Merger.Split | python/merger.py:90 | `str.split(",")` gives one more part than there are commas, no part holds a comma, and the parts joined by commas give back the entry. |
| Merger.ParseEntry | python/merger.py:85-96 | An entry without a comma is its own path with start 0. One with two or more commas fails to unpack. One with exactly one comma gives its path and converted start, or fails on a non-numeric start. |
| Merger.ParseEntryFormatted | python/merger.py:86-94 | `path,start` parses back to `path` and the converted start, or fails as a bad start time when the text is not a number. |
| Merger.MergeInfo | python/merger.py:81-98 | On success the paths and starts have one entry per input entry. A failure is a malformed entry or a bad start. |
| Merger.MergeInfoSucceeds | python/merger.py:81-98 | `extractMergeInfo` succeeds exactly when every entry parses, and then each index holds that entry's path and start. |
| Merger.MergeInfoFirstFailure | python/merger.py:85-96 | A failure is the error of an entry all of whose predecessors parse, so the first bad entry decides it. |
| Merger.MergeInfoFailureStays | python/merger.py:85-96 | Once an entry fails, later entries change nothing. |
| Merger.ExtractMergeInfo | python/merger.py:81-98 | The loop over entries computes `MergeInfo`. |
| Merger.AcqArguments | python/merger.py:53-78 | Neither mode set is an error, and so is both set. With exactly one mode set, fewer than two entries is an error. A success has one path and one start per entry of that mode. |
| Merger.AcqArgumentsAsWritten | python/merger.py:69-72 | In `--app` mode alone, the length test on `--merge` evaluates `len(None)` and raises. |
| Merger.AcqArgumentsAgree | python/merger.py:53-78 | Whenever `--app` is absent or `--merge` is present, the code as written and the corrected one agree. |
| Merger.AppModeFails | python/merger.py:69-72 | Two well-formed `--app` entries make the code as written fail, where the corrected code reads both. |
| Merger.ParseAcqArguments | python/merger.py:53-78 | The branching of `parseAcqArguments`, with the length test of line 71 corrected to measure the `--app` entries, computes `AcqArguments`. |
| Merger.QuantaAgreeMeans | python/merger.py:215-219 | `len(set(q)) == 1` holds exactly when `q` is non-empty and all its durations are equal. |
| Merger.SlotOffsets | python/merger.py:221 | Defines the conversion of each start into slots: the start multiplied by the common duration. `Merger.OutcomeFirstSlot` states it in the output. |
| Merger.QuantaAgree | python/merger.py:215 | Defines Python's `len(set(q)) == 1`. `Merger.QuantaAgreeMeans` states what it means. |
| Merger.Outcome | python/merger.py:195-280 | `--app` stops the script. Argument errors come next. A success means the arguments parsed, the durations agree, and no input is empty. |
| Merger.OutcomeProperties | python/merger.py:195-280 | A successful run writes every delayed event of the inputs exactly once. It does the same for prompts when shuffling is off or only reorders. Its ids never decrease when the inputs are sorted. No delayed list is empty. |
| Merger.OutcomeFirstSlot | python/merger.py:221-235 | In a successful run, the first block written sits at the earliest slot. Input `i` starts at its first block's id plus its start *multiplied* by the common duration. |
| Merger.ReadInputs | python/merger.py:206-214 | The reading loop collects `Acquired`. |
| Merger.RunMerger | python/merger.py:195-280 | The script's main flow computes `Outcome`. |
| Sampler.Keep | python/rnd_sampler.py:102-107 | What one draw per element keeps is a subsequence of the elements. |
| Sampler.KeepExtremes | python/rnd_sampler.py:102-107 | Draws that all succeed keep everything, and draws that all fail keep nothing. |
| Sampler.SampleBlock | python/rnd_sampler.py:102-117 | A sampled block keeps its id. Its prompts are a subsequence of its prompts, and its delayed list is present and is also a subsequence of its *prompts*. |
| Sampler.EventSampled | python/rnd_sampler.py:94-117 | The `event` method writes one block per input block. |
| Sampler.EventSampledShape | python/rnd_sampler.py:94-117 | Block `i` of the `event` output keeps the id of input block `i`. Its prompts, and its always-present delayed list, are subsequences of that input block's prompts. |
| Sampler.EventSampledCounts | python/rnd_sampler.py:102-113 | No more prompts, and no more delayed events, are kept than there are prompts in the input. |
| Sampler.KeepStep | python/rnd_sampler.py:94-100 | Visiting block `i` in `timeBlock` mode keeps it exactly when draw `i` succeeds. |
| Sampler.EventStep | python/rnd_sampler.py:94-117 | Visiting block `i` in `event` mode appends its sampled block and uses twice its prompt count of draws. |
| Sampler.Sampled | python/rnd_sampler.py:94-132 | The output is never empty. In `timeBlock` mode it is the kept blocks in order, or the placeholder alone when none was kept. In `event` mode it has one block per input, plus the placeholder when no prompt survived. |
| Sampler.Placeholder | python/rnd_sampler.py:131 | Defines the block written when nothing was kept: id 0, no prompts, no delayed list. |
| Sampler.NothingKept | python/rnd_sampler.py:129 | Defines the test of line 129. With each method only one of the two counters can be non-zero, so each method tests its own. |
| Sampler.SampledEventBlocks | python/rnd_sampler.py:94-132 | In `event` mode, the first blocks written are the sampled input blocks in order. Each keeps its id, and its prompts and always-present delayed list are subsequences of its prompts. The output is one block longer exactly when no prompt survived, and that extra block is the placeholder, written last. |
| Sampler.RetainEvents | python/rnd_sampler.py:102-113 | The per-event loop keeps what `Keep` keeps, counting every event seen and every event kept. |
| Sampler.SampleOne | python/rnd_sampler.py:95-117 | One block's turn satisfies `Turn`. `timeBlock` writes the block when its single draw succeeds, uses one draw and moves only the block counters. `event` writes the sampled block and uses twice its prompt count of draws. It counts every prompt as seen both as a prompt and as a delayed event, and adds the kept prompts and delays to the kept counters. |
| Sampler.TallyStep | python/rnd_sampler.py:94-117 | One turn extends what was written and counted for the first `i` blocks to the first `i + 1`, in both modes. |
| Sampler.Sample | python/rnd_sampler.py:88-132 | The loop writes `Sampled` and counts every block. In `timeBlock` mode it counts the kept blocks and no events. In `event` mode it counts every prompt twice and the kept prompts and delays of the output. |

## Findings

| source | as written | input that shows it | evidently intended | confidence | as-written member | corrected member |
|---|---|---|---|---|---|---|
| python/merger.py:69-72 | In `--app` mode the two-file check measures `len(_args.merge)`, and `merge` is `None` in that mode. | `--app a b` without `--merge`: `len(None)` raises `TypeError`. | Measure `len(_args.app)`. | not executed. The main flow rejects `--app` at line 198 first, so the fault is latent there. | Merger.AcqArgumentsAsWritten, Merger.AppModeFails | Merger.AcqArguments, Merger.ParseAcqArguments |

## Left out

- **Reading and writing.** Reading PETSIRD files is the `files` parameter, and so is the header. The writer, the output stream and `--headerProvider` are not modelled: the header is written unchanged and carries no event.
- **Reader failures.** `files` is total, so a missing or unreadable path, which makes the reader raise, is not modelled.
- **Number parsing.** Python's `float` and `int` conversion of a start time is the `toMs` parameter.
- **Randomness.** `random.shuffle` and `random.random` are the `shuffle` and `draw` parameters, and the `--seed` option is not modelled. Nothing is assumed about `shuffle` except, for prompt conservation, that it only reorders.
- **Reporting.** The verbose printing and the sampler's percentage report are left out. So is the division by zero in that report: in verbose mode it happens with the `event` method on an input without prompts (lines 125-127) and with the `timeBlock` method on an input without blocks (line 121).
- **Sampler messages.** `rnd_sampler.py` prints at lines 99 and 130 whatever the verbosity. Without `--outputFile` the blocks go to standard output too (line 77), so these messages end up inside the written stream. The model keeps the written blocks only.
- **Append mode.** Its argument branch is modelled. The mode itself stops the script at line 198 and has no behaviour to model.
- **Other scripts.** `rnd_gating_amplitude.py`, `append_physio.py` and `split_to_respiratory_gates.py` are not part of this model.
- **Integer behaviour.** Python integers are unbounded, and so are the model's. `int(cStartTime * allTimeInterval[0])` is modelled as an integer product, because the start is already an `int` at that point.
- FusionLoop.FuseStreams: requires every input to hold a block, because the script crashes otherwise. `Merger.RunMerger` checks this before calling it.
