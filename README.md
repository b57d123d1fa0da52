# Signer pipeline and directory tree, modelled in Dafny

This project models three deterministic pieces of a Go course repository. Goroutines and the operating system are taken out.

- **The signer stages** (`2/signer/signer.go`):
  - `SingleHash` turns every int it receives into `crc32(s) + "~" + crc32(md5(s))` of the int's decimal text `s`.
  - `MultiHash` turns every string it receives into the concatenation of six slot hashes `crc32(itoa(i) + item)`, slot 0 first.
  - `CombineResults` collects all strings, sorts them byte-wise, and writes them joined with `"_"`.
  - A payload of the wrong type makes a stage panic.
  - The hash functions `DataSignerCrc32` and `DataSignerMd5` are not part of this model. They are arbitrary functions from strings to strings, passed in as a `DataSigners` value.
- **The pipeline** (`2/signer/pipeline.go`):
  - `createChannels` lays out an unbuffered first channel, buffered interior channels of capacity `maxInputs`, and an unbuffered last channel.
  - `ExecutePipeline` binds job `idx` to channels `idx` and `idx + 1`. It closes each job's output once the job has returned, and waits on a WaitGroup counter.
  - The run is modelled sequentially, in data-flow order. A job is a function from the complete stream on its input channel to what it writes on its output channel, or to a panic. The model records:
    - what was sent on each channel;
    - how often each channel was closed;
    - the trace of launch, return, close and done events;
    - the counter.
- **The directory-tree printer** (`1/tree/main.go`):
  - The file system is replaced by a tree value `Entry = Dir(name, children) | File(name, size)`.
  - `getDirEntries` drops the files (via `filterOutFiles`) unless they are printed, then sorts by name.
  - `dirTreeRecursive` writes one line per listed entry: level prefix, branch mark (`buildCurrentPrefix`), name, and for a file its size label. It then recurses into subdirectories with the prefix extended by `buildNextLevelPrefix`.

Modules:

| module | content |
|---|---|
| `Decimal` | `strconv.Itoa` and `strconv.FormatInt(·, 10)` as a decimal conversion, and a parser that inverts it |
| `ByteOrder` | Go's `<=` on strings (`LessEq`), and sorting as an insertion sort that yields the sorted permutation |
| `Text` | what a `strings.Builder` ends up holding: `Concat` (pieces one after another) and `Join` (pieces with a separator), with `Split` as the inverse of `Join` |
| `Pipeline` | `createChannels` and `ExecutePipeline` |
| `Signer` | the three stages, their per-item results, and the signer pipeline as a whole |
| `Tree` | the tree printer |

Go compares strings byte by byte on their UTF-8 encoding. The model compares characters by code point, which gives the same order.

## Model

| member | source | states |
|---|---|---|
| Decimal.Itoa | 2/signer/signer.go:20 | the decimal text of an int starts with '-' exactly when the int is negative, and the rest is a non-empty digit string without leading zeros |
| Decimal.ItoaRoundTrip | 1/tree/main.go:61 | parsing the decimal text of n gives back n |
| Decimal.ItoaInjective | 2/signer/signer.go:20 | different ints have different decimal texts, so SingleHash hashes different texts for different ints |
| Decimal.ItoaDigit | 2/signer/signer.go:121 | the text of a slot number 0..9 is that single digit |
| ByteOrder.LessEq | 2/signer/signer.go:54 | Go's `<=` on strings, compared character by character, a proper prefix being smaller; its properties are the four lemmas below |
| ByteOrder.LessEqMeansLexicographic | 2/signer/signer.go:54 | the string order is lexicographic: a <= b iff a is a prefix of b or a is smaller at the first position where they differ |
| ByteOrder.LessEqTotal | 2/signer/signer.go:54 | any two strings are comparable |
| ByteOrder.LessEqAntisymmetric | 2/signer/signer.go:54 | strings that are each <= the other are equal |
| ByteOrder.LessEqTransitive | 2/signer/signer.go:54 | the order is transitive |
| ByteOrder.SortBy | 1/tree/main.go:84-86 | the result is a permutation of the input, ascending by the key |
| ByteOrder.SortStrings | 2/signer/signer.go:54 | the result is a permutation of the input, in ascending order |
| ByteOrder.SortedUnique | 2/signer/signer.go:54 | two ascending sequences holding the same strings are equal, so the sorted result is unique |
| ByteOrder.SortStringsOrderIndependent | 2/signer/signer.go:54 | sorting two arrangements of the same strings gives the same sequence |
| Text.Concat | 2/signer/signer.go:131-134 | what a Builder holds after each piece is written in turn; ConcatLength and ConcatPiece state its length and layout |
| Text.Join | 2/signer/signer.go:57-62 | what a Builder holds after each piece is written with the separator between consecutive pieces; the Join lemmas below state its length, ends and inverse |
| Text.ConcatLength | 2/signer/signer.go:131-134 | the concatenation's length is the sum of the pieces' lengths |
| Text.ConcatPiece | 2/signer/signer.go:131-134 | piece k sits between the concatenation of the pieces before it and of those after it |
| Text.JoinLength | 2/signer/signer.go:57-62 | n pieces joined have the pieces' total length plus n - 1 separators |
| Text.JoinStartsWithFirst | 2/signer/signer.go:57-62 | the join starts with the first piece (no leading separator) |
| Text.JoinEndsWithLast | 2/signer/signer.go:57-62 | the join ends with the last piece (no trailing separator) |
| Text.SplitJoin | 2/signer/signer.go:57-62 | splitting a join of separator-free pieces at the separator gives back the pieces |
| Text.JoinSplit | 2/signer/signer.go:57-62 | joining the pieces of a split gives back the string |
| Pipeline.CreateChannels | 2/signer/pipeline.go:5-15 | numJobs + 1 channels for numJobs >= 1 and two for none; the first and last are unbuffered, every interior one has capacity maxInputs, all are empty and open |
| Pipeline.Stream | 2/signer/pipeline.go:23-29 | channel 0 carries nothing and channel k carries what job k - 1 writes given the whole stream of channel k - 1; a panic ends the run |
| Pipeline.PanicPersists | 2/signer/pipeline.go:25-26 | once a job panics, no later channel receives a stream |
| Pipeline.Schedule | 2/signer/pipeline.go:23-30 | every job is launched with the counter raised, then in data-flow order each job returns, its output is closed and it is marked done |
| Pipeline.LaunchEventsAt | 2/signer/pipeline.go:23-24 | the launch phase launches job j at step j, for every job |
| Pipeline.CompletionEventsAt | 2/signer/pipeline.go:26-28 | job j returns, then channel j + 1 is closed, then job j is marked done, in that order |
| Pipeline.CompletionCloseAt | 2/signer/pipeline.go:26-27 | in the completion phase every close comes right after the return of the channel's writer |
| Pipeline.ScheduleBalanced | 2/signer/pipeline.go:21-32 | the counter is n after the n launches and back at 0 once every job is done |
| Pipeline.ScheduleClosesOnce | 2/signer/pipeline.go:25-29 | channel c is closed exactly once for 1 <= c <= n and never otherwise; channel 0 is never closed |
| Pipeline.CloseFollowsReturn | 2/signer/pipeline.go:26-27 | every close comes right after the return of the job that writes the closed channel |
| Pipeline.RunJob | 2/signer/pipeline.go:25-29 | the job runs on its input stream; on return its output is recorded, its output channel closed once more, and the counter lowered by one |
| Pipeline.LaunchJobs | 2/signer/pipeline.go:23-30 | job i is bound to channels i and i + 1, and the counter is raised once per job |
| Pipeline.ReachedStep | 2/signer/pipeline.go:25-29 | running job idx extends what was sent, closed and traced to jobs 0..idx |
| Pipeline.StartReached | 2/signer/pipeline.go:19-24 | before any job runs, nothing has been sent or closed and every job is launched |
| Pipeline.PanicStops | 2/signer/pipeline.go:25-26 | a job panicking on its input ends the run with a panic |
| Pipeline.AwaitJobs | 2/signer/pipeline.go:23-32 | the run panics iff some job panics on its input, and otherwise every channel holds its stream and every written channel is closed once |
| Pipeline.SettleLayout | 2/signer/pipeline.go:19 | the channels keep the capacities createChannels gave them |
| Pipeline.SettleDelivers | 2/signer/pipeline.go:25-29 | the settled channels carry the streams of the run and their close counts |
| Pipeline.AllFinished | 2/signer/pipeline.go:32 | after the wait, the layout, streams, close counts, wiring, trace and zero counter hold together |
| Pipeline.ExecutePipeline | 2/signer/pipeline.go:17-33 | aborts iff some job panics on the complete output of the one before it; otherwise the channels hold the capacity layout, channel k holds the output of job k - 1, each written channel is closed exactly once, job i's output channel is job i + 1's input, and the counter ends at zero |
| Signer.SingleHashItem | 2/signer/signer.go:67-84 | the result is crc32(item), then '~', then crc32(md5(item)), with the length of the three together |
| Signer.SingleHashOfInt | 2/signer/signer.go:20-23 | the item hashed for an int is its decimal text, as strconv.Itoa writes it |
| Signer.SingleHashItemParts | 2/signer/signer.go:82 | when the hashes contain no '~', splitting the item result at '~' gives crc32(item) and crc32(md5(item)) |
| Signer.Ints | 2/signer/signer.go:14-18 | the type check succeeds iff every payload is an int, and then yields those ints in order |
| Signer.SingleHashStage | 2/signer/signer.go:10-26 | done iff every payload is an int, else a panic with "encountered non-int data"; one output per input, the single hash of the int's decimal text |
| Signer.SingleHash | 2/signer/signer.go:14-25 | the loop computes SingleHashStage: it panics at the first non-int and otherwise emits one hash per int |
| Signer.Strings | 2/signer/signer.go:31-35 | the type check succeeds iff every payload is a string, and then yields those strings in order |
| Signer.SlotHash | 2/signer/signer.go:121 | slot i hashes the decimal text of i followed by the item |
| Signer.SlotHashes | 2/signer/signer.go:115-127 | six slot hashes, slot i holding crc32(itoa(i) + item) |
| Signer.MultiHashOfDigits | 2/signer/signer.go:113-134 | the multi-hash of an item is crc32("0"+item) + ... + crc32("5"+item) |
| Signer.FillSlots | 2/signer/signer.go:115-129 | whatever order the slot goroutines complete in, every slot ends up holding its own hash |
| Signer.FilledAll | 2/signer/signer.go:115-129 | once every slot of a completion order has been written, the array holds the six slot hashes |
| Signer.MultiHashOf | 2/signer/signer.go:131-136 | the six slot hashes concatenated in index order; MultiHashOfDigits spells it out |
| Signer.MultiHashItem | 2/signer/signer.go:104-137 | the result is the slot hashes concatenated in index order, for any completion order of the slots |
| Signer.MultiHashStage | 2/signer/signer.go:28-41 | done iff every payload is a string, else a panic with "encountered non-string data"; one output per input, its multi-hash |
| Signer.MultiHash | 2/signer/signer.go:31-40 | the loop computes MultiHashStage |
| Signer.Combined | 2/signer/signer.go:54-62 | the strings sorted ascending and joined with '_'; the Combined lemmas below state what that text is |
| Signer.CombineStage | 2/signer/signer.go:43-65 | done iff every payload is a string, else a panic with "encountered non-string data"; when done, exactly one output string |
| Signer.CollectStrings | 2/signer/signer.go:44-52 | collects every string in arrival order, or fails at the first non-string |
| Signer.WriteJoined | 2/signer/signer.go:56-62 | the builder loop writes the join of its inputs with '_' |
| Signer.CombineResults | 2/signer/signer.go:43-65 | a panic at a non-string, otherwise exactly one output: the strings sorted and joined with '_' |
| Signer.CombinedSmall | 2/signer/signer.go:56-62 | no input gives "" and one input gives that string unchanged |
| Signer.CombinedLength | 2/signer/signer.go:57-62 | for n >= 1 inputs the output is their total length plus n - 1 separators |
| Signer.CombinedIsSortedJoin | 2/signer/signer.go:54-64 | the output is the join of any ascending arrangement of the inputs |
| Signer.CombinedOrderIndependent | 2/signer/signer.go:44-54 | the output depends only on the multiset of strings received |
| Signer.CombinedSplits | 2/signer/signer.go:57-62 | with no '_' in any input, splitting the output at '_' gives the sorted inputs: no leading, trailing or doubled separator |
| Signer.CombineStageOrderIndependent | 2/signer/signer.go:43-65 | the stage gives the same result (or the same panic) for any arrival order of the payloads |
| Signer.SingleHashStageIsMap | 2/signer/signer.go:14-23 | on ints, SingleHash hashes each payload where it stands |
| Signer.MultiHashStageIsMap | 2/signer/signer.go:31-38 | on strings, MultiHash hashes each payload where it stands |
| Signer.SingleHashStagePermutation | 2/signer/signer.go:22-23 | inputs in another order give the same hashes in another order |
| Signer.MultiHashStagePermutation | 2/signer/signer.go:37-38 | inputs in another order give the same hashes in another order |
| Signer.ArrivalOrderIrrelevant | 2/signer/signer.go:10-65 | whatever order the hashing goroutines deliver their outputs in, CombineResults writes the same text |
| Signer.SignerChainOfInts | 2/signer/signer.go:10-65 | on ints, the three stages produce the signatures multiHash(singleHash(x)), sorted and joined with '_' |
| Signer.SignerStream | 2/signer/pipeline.go:23-30 | the pipeline feeds each stage the whole output of the one before |
| Signer.SignerPipelineResult | 2/signer/pipeline.go:17-33 | run through the pipeline with a reader as fifth job, CombineResults writes one string on channel 4: the sorted, '_'-joined signatures of the data; no job panics, so the run completes |
| Signer.SignerOrderIndependent | 2/signer/signer.go:43-65 | the signer pipeline's result does not depend on the order the data is written in |
| Tree.DirsOnly | 1/tree/main.go:91-101 | the result is no longer than the input and holds only directories |
| Tree.DirsOnlyMembers | 1/tree/main.go:94-98 | an entry is kept iff it is an entry of the input and a directory |
| Tree.DirsOnlyAppend | 1/tree/main.go:94-98 | filtering distributes over concatenation, so directories keep their relative order |
| Tree.DirsOnlyKeepsDirs | 1/tree/main.go:91-101 | a list of directories only is returned unchanged |
| Tree.FilterOutFiles | 1/tree/main.go:91-101 | the loop computes DirsOnly |
| Tree.Visible | 1/tree/main.go:80-82 | every entry when files are printed, otherwise only the directories |
| Tree.DirEntries | 1/tree/main.go:74-89 | the visible entries sorted by name; DirEntriesSorted and DirEntriesMembers state what they are |
| Tree.DirEntriesSorted | 1/tree/main.go:84-86 | the listed entries are in ascending name order and are a permutation of the visible entries |
| Tree.DirEntriesMembers | 1/tree/main.go:80-82 | every listed entry belongs to the directory, and without printFiles only directories are listed |
| Tree.GetDirEntries | 1/tree/main.go:74-89 | the listing is the visible entries sorted by name |
| Tree.CurrentPrefix | 1/tree/main.go:117-123 | "└───" iff idx == size - 1, otherwise "├───" |
| Tree.NextLevelPrefix | 1/tree/main.go:125-131 | "\t" iff idx == size - 1, otherwise "│\t" |
| Tree.PrefixesAgree | 1/tree/main.go:117-131 | the lines below an entry carry a bar exactly when the entry's branch mark continues downwards |
| Tree.EntryLine | 1/tree/main.go:36-64 | a directory's line is level prefix, branch mark and name; a file's line adds " (", its size label and ")" |
| Tree.SizeLabel | 1/tree/main.go:56-62 | "empty" iff the size is 0; otherwise the decimal size, digits without a leading zero, followed by "b", which parses back to the size |
| Tree.Render | 1/tree/main.go:28-72 | the lines of one dirTreeRecursive call: the blocks of the listed entries, in listing order |
| Tree.RenderFrom | 1/tree/main.go:34-69 | the blocks of the entries from position idx on, one after another |
| Tree.EntryBlock | 1/tree/main.go:35-68 | one entry's line, followed for a directory by the lines of the recursive call with the next-level prefix |
| Tree.DirTreeRecursive | 1/tree/main.go:28-72 | appends to the output exactly the rendering of the directory: each listed entry's line followed by its subtree |
| Tree.WriteEntry | 1/tree/main.go:35-68 | one loop pass writes the entry's line and, for a directory, the recursive listing with the next-level prefix |
| Tree.DirTree | 1/tree/main.go:24-26 | a directory root is rendered with an empty level prefix; a root that is not a directory cannot be listed |
| Tree.DirsOnlyWeight | 1/tree/main.go:80-82 | dropping files does not change the line count when files are not printed |
| Tree.RenderCount | 1/tree/main.go:34-69 | the number of lines written is the number of visible entries in the subtree, each file counting 1 with printFiles and 0 without |
| Tree.RenderFromCount | 1/tree/main.go:34-69 | the lines for the remaining entries are the sum of their weights |
| Tree.RenderPrefixed | 1/tree/main.go:36-64 | every line written for a directory starts with that call's level prefix |
| Tree.RenderFromPrefixed | 1/tree/main.go:34-69 | every line written for the remaining entries starts with the level prefix |
| Tree.EntryBlockPrefixed | 1/tree/main.go:38-64 | every line of one entry's block starts with the level prefix |
| Tree.EntryBlockShape | 1/tree/main.go:38-49 | an entry's own line comes first; a file has no other line; every line below a directory starts with the level prefix plus the next-level prefix |

## Left out

- Goroutines, WaitGroups, the mutex and channel blocking inside `SingleHash`, `MultiHash` and `multiHashItem` (2/signer/signer.go:12, 22-25, 29, 37-40, 111-129). Each stage is a function of its complete input. The order in which hashing goroutines finish is covered by the permutation lemmas, and inside `multiHashItem` by the `order` parameter of `MultiHashItem`.
- The md5 permit gate and the deferred hash channels (2/signer/signer.go:11, 75-80, 86-102) only limit and overlap concurrency. The model applies the hash functions directly.
- `DataSignerCrc32` and `DataSignerMd5` are not part of this model. They are parameters of arbitrary behaviour.
- Channel capacities are recorded but not enforced. Buffering, back-pressure and the deadlock of a writer that nobody reads are not modelled.
- Channel 0 is never written or closed by the pipeline. A job that ranged over it would block forever; the model hands that job the empty stream instead.
- Pipeline.ExecutePipeline: a panic ends the whole run with the panicking job and message. Outputs sent before the panic, and goroutines still running at that moment, are not modelled, because in Go the panic ends the process.
- Pipeline.ExecutePipeline: goroutines run one after another in data-flow order. Other interleavings of the jobs are not modelled beyond what the permutation lemmas say about arrival order.
- Decimal.Itoa: Go's `int` is 32 or 64 bits wide and `int64` is 64 bits; the model's unbounded `int` holds every such value, and decimal conversion never overflows.
- Tree.SizeLabel: sizes are `nat`, not `int64`. A file size is never negative.
- ByteOrder.SortBy is a stable insertion sort, not `sort.Slice`, which may reorder entries with equal names. Names within one directory of a file system are distinct, so the listings agree. `Entry` does not enforce distinct names: for a tree value with equal names in one directory, the order among those entries is outside this claim. Sorting in place is not modelled.
- Strings are sequences of Unicode characters. Go strings are byte strings, so file names and hash outputs that are not valid UTF-8 cannot be represented.
- The file system: `os.ReadDir`, `getFileInfo` and their error messages (1/tree/main.go:29-32, 51-54, 75-78, 103-115), and the entry paths built from them (1/tree/main.go:35). Every directory of the tree value can be listed.
- Tree.DirTree: a root that is not a directory gives `ListFailed(name)` rather than the wrapped `os.ReadDir` error text.
- Output: `fmt.Fprintln` and `fmt.Fprintf` to an `io.Writer`, and the panic on a write error (1/tree/main.go:39-42, 64-67). Lines are collected as a sequence of strings without their trailing newline.
- `main` and its argument handling (1/tree/main.go:11-22).
