# Verified models of hatrack and n00b core algorithms

This project models five pieces of the repository in Dafny and proves what they promise. Each
piece is a group of modules.

**The lohat table and its epochs** (`LohatModel` to `LohatDict`, `OrderedDict`). The lock-free
table of `src/hatrack/hash/lohat.c` on the reclamation scheme of `src/hatrack/support/mmm.c`, as a
transition system: any number of threads, any number of buckets, one shared-memory access per
step, any interleaving. `Basic` holds in every run. Two conditions on a successful CAS decide the
rest: the candidate is linked to the head it replaces (`LinksHead`), and that head already has its
write epoch (`OverCommitted`). With the first, no thread ever holds a freed record. With both, a
view at epoch L finds in every bucket the record with the greatest write epoch not above L, and
the view sorted by create epoch is an insertion-ordered dictionary.

`include/hatrack/lohat.h` promises both conditions for every write, and the code does not keep
them for every write. `put` does. `remove` and `add` help the head only after their CAS
(lohat.c:897-917, lohat.c:990-1018), and `replace` sets its candidate's link once, before its retry
loop (lohat.c:782-814). Each failure has its exact condition, said of any state that has been good
so far in which a CAS is about to succeed:

- a view taken right afterwards, step by step by a thread of its own, is right about every bucket if
  and only if the CAS meets both conditions (`LohatAlone.ViewRightIff`);
- with every other thread outside an operation, in get or view, or past its CAS, some view can come
  to read a freed record if and only if the CAS fails the first (`LohatDangling.ReadsFreedIff`);
- write epochs can come to fall from bottom to top of a bucket if and only if it fails the second
  (`LohatFalling.FallsIff`).

`LohatTraces` reaches each failure, for every bucket of every table, in a whole run from the empty
table. `LohatRuns.PutRunsQualify` shows that puts, adds, gets and views alone meet both conditions.
`LohatSettled.RunSettled` holds in every run: no record is lost on its way from the bucket to being
freed.

**Exceptions** (`Exceptions`, `ExceptionRefinement`, `ExceptionProperties`). The TRY, EXCEPT,
FINALLY and TRY_END macros of `include/core/exception.h` and the functions of
`src/core/exceptions.nc`, as a machine with a heap of frames, their free list, the C stack of
activations and one jump buffer per activation. The machine refines an ordinary meaning of the
same code and restores the exception stack. It comes to a null pointer in one place only, the report
about an exception that escapes after it has left a TRY. FINALLY runs exactly once, inner before
outer, exactly when no TRY on the executed path is left by JUMP_TO_TRY_END or has no FINALLY; code
that follows the header's rules never does that. The `previous` links of new exceptions list the
superseded ones in order exactly when no exception arrives in an EXCEPT or FINALLY block with a
`previous` of its own and none is raised in FINALLY after EXCEPT has handled one: the macros
overwrite the field, and keep the handled exception as the current one.

**XXH3** (`Xxh3Words` to `Xxh3Vector`, `Xxh3Portable`, `ByteBuffers`, `XxhGenerate`). The hash of
`include/hatrack/xxhash.h`. On keys of at most 16 bytes the 128-bit hash can be undone, so equal
hashes mean equal keys of one length, for every secret and seed. For all lengths, the streaming
state gives the one-shot hash, however the input is cut, with the default secret, any other or a
seed, on a state that was used before, and whether the loops over lanes are the scalar or the SSE2
ones, whose registers and intrinsics `Xxh3Vector` models. The indices in the models are those of
the source, so that every read of input and secret lies in bounds.

**XXH32, XXH64, products and canonical forms** (`Xxh32`, `Xxh64`, `XxhProduct`, `XxhCanonical`).
Streaming equals one pass; the two finalizers of XXH32 agree; the portable 128-bit product is exact;
canonical forms round trip and order hashes as XXH128_cmp() does.

**GC bitmaps** (`GcBitmap`). Filling words against setting single bits.

## Where the code and its documentation differ

The models follow the code.

- `mmm.h:197-247` describes a recheck of the epoch after a reservation;
  `mmm_start_linearized_op()` (mmm.c:422-434) loads the epoch a second time and returns that value
  without comparing. The proofs need no more.
- `lohat.h:183-200` says that get does not help; lohat.c:571-575 does.
- `lohat_common.h:105-115` says that a record's retire epoch is the commit epoch of the record above
  it; `mmm_retire()` stores the current epoch, which is not smaller.
- `hatrack_quicksort_cmp()` returns the difference of two 64-bit epochs as an int. It orders them
  correctly exactly when `LohatDict.ComparesRightIff` says, and sorts a view correctly exactly when
  `LohatDict.ViewSortedIff` says.
- The header of exception.h restricts where JUMP_TO_TRY_END may stand; `src/runtime/vm.nc` uses it
  inside a TRY block. The machine allows it there, and `FinallyOnceIff` says what it does.
- `n00b_mark_raw_to_addr()` shifts by 64 when the distance is 63 modulo 64; C gives that no meaning.
- When an exception leaves the outermost TRY, TRY_END empties the exception stack and then calls
  `n00b_exception_uncaught()`, whose report (src/core/exceptions.nc:137-176) reads the exception of
  the frame on top: a null pointer. The model ends with `NullTop` there, and `NullTopIff` says which
  programs come to it. An exception raised outside every TRY goes to the handler instead.

## Model

| member | source | states |
|---|---|---|
| LohatSteps.StepBasic | src/hatrack/hash/lohat.c:530-1025 | Every step of every operation, by any thread, keeps the table's basic invariant and changes shared records only in the allowed ways |
| LohatRuns.RunBasic | src/hatrack/hash/lohat.c:530-1025 | The basic invariant holds in every state of every run |
| LohatRuns.WriteEpochsOnce | src/hatrack/support/mmm.c:498-542 | A write epoch is set at most once however many threads help, and no two records ever share one |
| LohatRuns.RetiredOnce | src/hatrack/support/mmm.c:237-280 | When a thread retires a record, nobody has retired or freed it, it is on no retire list, and it is no longer a head |
| LohatRuns.FreedOnce | src/hatrack/support/mmm.c:292-383 | A scan frees exactly the cells of its own list that were retired below the lowest reservation read; none was freed before, none is on another list |
| LohatModel.CutAt | src/hatrack/support/mmm.c:330-364 | The cut on the retire list: everything before it is not below the lowest reservation, the first cell after it is |
| LohatMemorySteps.StepMemory | src/hatrack/support/mmm.c:414-443 | Every step that links to the head it replaces keeps reservations, retired records and pointers in the relation that protects readers |
| LohatRuns.NoUseAfterFree | include/hatrack/lohat.h:209-234 | In every run whose installs link to the head they replace, no thread holds a pointer to a freed record |
| LohatViewSteps.OrderedKept | include/hatrack/lohat.h:183-200 | Every step over a committed head keeps write epochs rising in each bucket and only the newest record uncommitted |
| LohatRuns.StacksRise | include/hatrack/lohat.h:194-200 | In such runs write epochs strictly increase from the bottom to the top of each bucket |
| LohatViewSteps.ViewsKept | src/hatrack/hash/lohat.c:376-436 | Every step keeps what each running view has seen |
| LohatViews.SeenIsSnapshot | src/hatrack/hash/lohat.c:396-427 | What a view has seen of a bucket is the record with the greatest write epoch not above the view's epoch |
| LohatViews.SnapshotUnique | include/hatrack/mmm.h:386-393 | A bucket has one state at one epoch |
| LohatRuns.ViewIsSnapshot | src/hatrack/hash/lohat.c:360-436 | For every bucket a view has passed, its record is the bucket's state at the view's epoch, then and in every later state of the run |
| LohatRuns.ViewsAgree | include/hatrack/mmm.h:373-405 | Two views of one epoch agree on every bucket, however far apart they run |
| LohatRuns.ViewCovers | src/hatrack/hash/lohat.c:376-436 | A finished view has an entry for every bucket |
| LohatRuns.ConditionsByOperation | src/hatrack/hash/lohat.c:530-1025 | put keeps both conditions; replace always finds a committed head; add and remove always link to the head |
| LohatRuns.PutRunsQualify | src/hatrack/hash/lohat.c:625-690 | Every run of puts, adds, gets and views alone meets both conditions |
| LohatFaults.InstallRightIff | include/hatrack/lohat.h:194-234 | After an install in a run good so far, what a lone view finds, as a function of the table, is right for every bucket if and only if the install met both conditions |
| LohatAlone.ViewAlone | src/hatrack/hash/lohat.c:360-436 | A newly registered thread that takes a view and alone proceeds comes to its end, from any state; what it has found in each bucket is what that function says, and is the bucket's state at its epoch exactly when the function is right |
| LohatAlone.ViewRightIff | include/hatrack/lohat.h:194-234 | So, after an install in a run good so far, a view that a new thread takes step by step is right for every bucket if and only if the install met both conditions |
| LohatFaults.UncommittedSeen | src/hatrack/hash/lohat.c:985-1018 | Over an uncommitted head a lone view takes that head, whose epoch is still 0, for an old record |
| LohatFaults.StaleSkips | src/hatrack/hash/lohat.c:782-814 | With a stale link a lone view skips the record that is current |
| LohatTraces.RemoveFault | src/hatrack/hash/lohat.c:985-1018 | In every table and for every bucket, a run from the empty table, good up to a remove that covers a stalled put, that ends with a finished view that is wrong |
| LohatTraces.ReplaceFault | src/hatrack/hash/lohat.c:782-814 | And a run, good up to a replace that lost a CAS and wins with a stale link, that ends with a finished view that is wrong |
| LohatSettled.RunSettled | src/hatrack/support/mmm.c:237-383 | In every run a covered record has been retired or its coverer has yet to retire it, and a retired record is freed or waits on the coverer's list; a replace's candidate always has a link |
| LohatEnding.DrivesAll | src/hatrack/hash/lohat.c:360-1025 | Threads outside an operation, in get or view, or past their CAS, left to run one after the other, come to their ends without a CAS on a head and give up their reservations; on the way the logs, the other threads and the reclamation invariant stay |
| LohatDangling.ReadsFreedIff | include/hatrack/lohat.h:209-234 | In a good state with every other thread outside an operation, in get or view, or past its CAS: after a successful CAS some continuation, in which every further CAS links to the head it replaces, comes to a view about to read a freed record if and only if the candidate was not linked to the head it replaced |
| LohatFalling.OrderedInstallIff | include/hatrack/lohat.h:183-200 | An install keeps the order of write epochs if and only if it covers a committed head |
| LohatFalling.FallsIff | include/hatrack/lohat.h:194-200 | In an ordered state, whatever the others do: after a successful CAS some continuation, in which every further CAS covers a committed head, comes to a record with a greater write epoch than one above it if and only if the head that was covered had no write epoch |
| LohatTraces.EpochsFall | src/hatrack/hash/lohat.c:985-1018 | A run from the empty table, good up to a remove that covers a stalled put, in which the put's record comes to have the greater write epoch |
| LohatTraces.UseAfterFree | src/hatrack/hash/lohat.c:782-828 | In every table and for every bucket, a run from the empty table, good up to a replace that wins with a stale link, that ends with a view about to read a record that has been freed |
| LohatOrder.CreatedKept | src/hatrack/hash/lohat.c:636-650 | Every step keeps create epochs: a record over a live one continues it, any other starts anew |
| LohatOrder.RunCreated | include/hatrack/mmm.h:516-540 | So it is in every state of every run |
| LohatDict.ReplayIsTable | include/hatrack/hatrack_common.h:133-143 | Replaying the committed records one by one into an insertion-ordered dictionary gives exactly the live records of each bucket at epoch L, in rising create epoch |
| LohatDict.ComparesRightIff | src/hatrack/support/hatrack_common.c:39-49 | The comparison of two epochs has the right sign if and only if their distance modulo 2^32 is a positive int, or 2^31 in favour of the smaller |
| LohatDict.ComparesWrong | src/hatrack/support/hatrack_common.c:39-49 | It is wrong for epochs 2^31 apart and calls epochs 2^32 apart equal |
| LohatDict.ComparesAllIff | src/hatrack/support/hatrack_common.c:39-49 | It orders every two entries of a view, passed either way, by create epoch if and only if for every two the larger epoch minus the smaller, modulo 2^32, is a positive int |
| LohatDict.ViewSorted | src/hatrack/hash/lohat.c:429-456 | Under that condition a finished view, however the sort arranges it, is the insertion-ordered dictionary at its epoch |
| LohatDict.ViewSortedIff | src/hatrack/hash/lohat.c:429-456 | And only under it: the comparison is one that qsort() accepts and the dictionary's order is the only one it can arrange if and only if the entries meet the condition |
| OrderedDict.RankedUnique | include/hatrack/hatrack_common.h:133-143 | There is only one strictly rising arrangement of the same entries |
| ExceptionRefinement.PushSound | src/core/exceptions.nc:101-121 | Pushing a frame, new or from the free list, keeps the chain of live frames and the free list apart and well linked |
| ExceptionRefinement.PopSound | src/core/exceptions.nc:123-135 | Freeing the innermost frame does too, and the frame around it is on top |
| ExceptionRefinement.RaiseLands | src/core/exceptions.nc:178-199 | A raise finds a live, armed buffer of the innermost TRY, or ends the run as uncaught |
| ExceptionRefinement.Superseded | include/core/exception.h:88-109 | An exception out of EXCEPT or FINALLY is linked to the current one, becomes current and waits |
| ExceptionRefinement.TryEnds | include/core/exception.h:110-124 | TRY_END returns the frame; a waiting exception reaches the nearest enclosing TRY |
| ExceptionRefinement.Refines | include/core/exception.h:69-124 | Inside any stack of TRYs the machine does what the code means, with the same links and trace, and leaves the activations as they were |
| ExceptionRefinement.StackRestored | include/core/exception.h:110-124 | With the same activations the exception stack is the same: top, buffers and next pointers |
| ExceptionRefinement.ProgramRefines | include/core/exception.h:69-124 | A whole program stops as its meaning says and at one end only: an exception that escapes ends in the handler for uncaught exceptions when no TRY was around it, and in a report that reads the empty stack's top when it has left one |
| ExceptionRefinement.NullTopIff | src/core/exceptions.nc:137-176 | A program comes to read the exception of the null top if and only if an exception escapes it that has left a TRY; it comes to no other null or dangling frame, buffer or exception |
| ExceptionRefinement.NullTopReached | include/core/exception.h:110-118 | A TRY whose EXCEPT raises a new exception comes there |
| ExceptionProperties.FinallyExactlyOnce | include/core/exception.h:95-110 | Under the header's rules every TRY that starts has its FINALLY started exactly once, properly nested, whatever is raised |
| ExceptionProperties.FinallyOnceIff | include/core/exception.h:95-127 | For any code: starts of TRY and of FINALLY are balanced brackets if and only if no TRY on the executed path is left by JUMP_TO_TRY_END or has no FINALLY |
| ExceptionProperties.MachineFinally | include/core/exception.h:95-124 | The same of the machine for every allowed program, also when it stops at an uncaught exception; always so for a program under the header's rules |
| ExceptionProperties.PreviousInOrderIff | include/core/exception.h:84-109 | When every raise is of a new exception: the previous links from an escaping exception list what it has superseded, in order, if and only if nothing was lost on the way |
| ExceptionProperties.LinkLost | include/core/exception.h:88-94 | A nested EXCEPT in which a link is overwritten |
| ExceptionProperties.HandledLinked | include/core/exception.h:102-109 | A FINALLY whose exception points to one already handled |
| ExceptionProperties.RaisedAgain | include/core/exception.h:88-94 | Raising the current exception again makes it its own previous |
| Xxh3Words.Avalanche64Back | include/hatrack/xxhash.h:2609-2618 | XXH64_avalanche() can be undone |
| Xxh3Words.Avalanche3Back | include/hatrack/xxhash.h:3819-3826 | XXH3_avalanche() can be undone |
| Xxh3Short.SpreadBranches | include/hatrack/xxhash.h:5781-5821 | The 32-bit and the 64-bit branch add the same to the upper half |
| Xxh3Short.Len1to3Back | include/hatrack/xxhash.h:5681-5714 | The bytes of a key of 1 to 3 bytes come back from the hash |
| Xxh3Short.Len4to8Back | include/hatrack/xxhash.h:5716-5747 | And of 4 to 8 bytes |
| Xxh3Short.Len9to16Back | include/hatrack/xxhash.h:5749-5834 | And of 9 to 16 bytes |
| Xxh3Short.UnhashHash | include/hatrack/xxhash.h:5839-5862 | Every key of at most 16 bytes comes back from its hash, length, secret and seed |
| Xxh3Short.HashIdentity | include/hatrack/hatrack_common.h:27-35 | Keys of one length up to 16 have equal hashes if and only if they are equal |
| Xxh3Short.ShortIdentity | include/hatrack/xxhash.h:5681-5714 | Keys of 1 to 3 bytes do not collide even across lengths |
| Xxh3Short.HashWordIdentity | include/hatrack/hash.h:53-81 | hash_int, hash_double and hash_pointer collide only on equal bit patterns |
| Xxh3Short.OneZeroHash | include/hatrack/hash.h:53-81 | At most one word has the all-zero hash |
| Xxh3Secret.InitCustomSecret | include/hatrack/xxhash.h:4768-4833 | The custom secret is the built-in one with the seed added and subtracted word by word |
| Xxh3Lanes.Accumulate512 | include/hatrack/xxhash.h:4730-4747 | The in-place loop with swapped neighbours computes the eight new lanes |
| Xxh3Lanes.ScrambleAcc | include/hatrack/xxhash.h:4750-4766 | The scramble loop computes the eight scrambled lanes |
| Xxh3Vector.AccumulateRoundAgrees | include/hatrack/xxhash.h:4441-4481 | One round of the SSE2 loop, with its shuffles, 32-bit multiplications and 64-bit additions on 128-bit registers, makes the two lanes that the scalar loop makes |
| Xxh3Vector.AccumulateSse2 | include/hatrack/xxhash.h:4441-4481 | The SSE2 loop over registers computes the same eight lanes as the scalar loop |
| Xxh3Vector.ScrambleRoundAgrees | include/hatrack/xxhash.h:4483-4513 | One round of the SSE2 scramble, with its two half products, scrambles two lanes as the scalar loop does |
| Xxh3Vector.ScrambleSse2 | include/hatrack/xxhash.h:4483-4513 | The SSE2 scramble computes the same eight lanes |
| Xxh3Vector.SecretRoundAgrees | include/hatrack/xxhash.h:4515-4552 | Adding the register of the seed and its negation makes the same 16 bytes of the custom secret |
| Xxh3Vector.InitCustomSecretSse2 | include/hatrack/xxhash.h:4515-4552 | The SSE2 loop writes the same custom secret |
| Xxh3Mid.HashLen129to240 | include/hatrack/xxhash.h:4063-4124 | The two loops compute the sum written recursively; what they add to it is that every read of input and secret is in bounds, for every length from 129 to 240 and every secret |
| Xxh3Mid.HashLen129to240Wide | include/hatrack/xxhash.h:5933-5986 | The same for the 128-bit loops: the bounds of every read |
| Xxh3Long.MergeAccs | include/hatrack/xxhash.h:4970-4997 | The converging loop computes the sum written recursively; what it adds is that it reads the secret in bounds wherever it starts |
| Xxh3Long.HashLongLoop | include/hatrack/xxhash.h:4910-4960 | The loop over blocks leaves the accumulators that the stripes up to the last byte and the last stripe make |
| Xxh3Long.ConsumeStripes | include/hatrack/xxhash.h:5392-5433 | From any k absorbed stripes, n more become k + n, with the scramble at the block's end and the phase kept |
| Xxh3OneShot.OneShot64 | include/hatrack/xxhash.h:5144-5219 | The dispatch on length and the loops of the long path compute the 64-bit hash the streaming digest is compared with, for every length, secret and seed and with either vector choice, with every read in bounds |
| Xxh3OneShot.OneShot128 | include/hatrack/xxhash.h:6118-6200 | The same for the 128-bit hash |
| Xxh3OneShot.ZeroSeed | include/hatrack/xxhash.h:5090-5116 | A zero seed is the built-in secret |
| Xxh3Stream.State.ResetWithSecret | include/hatrack/xxhash.h:5318-5370 | Succeeds exactly for a secret of at least 136 bytes, and then starts an empty input under it |
| Xxh3Stream.State.ResetWithSeed | include/hatrack/xxhash.h:5374-5385 | Starts an empty input under the seed, whether or not the custom secret had to be made again |
| Xxh3Stream.State.Update | include/hatrack/xxhash.h:5438-5524 | Any input, of any size, is appended to what was fed; a null input is an error that changes nothing |
| Xxh3Stream.State.DigestLong | include/hatrack/xxhash.h:5537-5579 | The accumulators of a digest are those of one pass over everything fed, also when the last stripe starts in bytes already consumed |
| Xxh3Stream.State.Digest64 | include/hatrack/xxhash.h:5582-5604 | The 64-bit digest is the one-shot hash of everything fed |
| Xxh3Stream.State.Digest128 | include/hatrack/xxhash.h:6260-6294 | The 128-bit digest is the one-shot hash of everything fed |
| Xxh3Stream.HashInChunks | include/hatrack/xxhash.h:5438-5604 | For every cutting and every key, on any initialised state and with either vector choice, both digests are the one-shot hashes of the concatenation |
| XxhGenerate.FillSeeds | include/hatrack/xxhash.h:5636-5645 | The doubling loop ends with byte i equal to the seed's byte i modulo its length |
| XxhGenerate.GenerateSecret | include/hatrack/xxhash.h:5609-5662 | All 192 bytes are written, segment by segment, and nothing beyond |
| Xxh32.FinalizeLoop | include/hatrack/xxhash.h:2082-2092 | The rerolled finalizer processes words, then bytes |
| Xxh32.FinalizeSwitch | include/hatrack/xxhash.h:2095-2153 | The switch with its fall-throughs does the same for every tail |
| Xxh32.OneShot32 | include/hatrack/xxhash.h:2171-2216 | The one-pass loop over 16-byte stripes absorbs exactly the whole stripes and leaves the tail to the finalizer, for any length |
| Xxh32.State.Update | include/hatrack/xxhash.h:2284-2357 | Any input is appended to what was fed; large_len stays right when the 32-bit total wraps; a null input is an error that changes nothing |
| Xxh32.State.Digest | include/hatrack/xxhash.h:2361-2380 | The digest is the one-shot hash of everything fed, of any total length |
| Xxh32.HashInChunks | include/hatrack/xxhash.h:2284-2380 | So for every cutting |
| Xxh64.Finalize | include/hatrack/xxhash.h:2622-2646 | The finalizer depends on the length modulo 32 only |
| Xxh64.OneShot64 | include/hatrack/xxhash.h:2657-2706 | The one-pass loop over 32-byte stripes absorbs exactly the whole stripes and leaves the tail to the finalizer |
| Xxh64.State.Update | include/hatrack/xxhash.h:2774-2839 | Any input is appended to what was fed; a null input is an error that changes nothing |
| Xxh64.State.Digest | include/hatrack/xxhash.h:2843-2871 | The digest is the one-shot hash of everything fed, below 2^64 bytes |
| Xxh64.HashInChunks | include/hatrack/xxhash.h:2774-2871 | So for every cutting |
| Xxh3Portable.LowerIsProduct | include/hatrack/xxhash.h:3771-3785 | On 64-bit words the portable branch, with its low word put together from two halves, gives the words of the ARM64 branch: the wrapped product and the upper word |
| Xxh3Portable.FoldsAgree | include/hatrack/xxhash.h:3788-3806 | So the folded product is that of the portable branch |
| Xxh3Portable.ShortAgree | include/hatrack/xxhash.h:5716-5834 | And so are the hashes of 4 to 8 and of 9 to 16 bytes |
| XxhProduct.NoOverflow | include/hatrack/xxhash.h:3771-3783 | cross and upper never reach 2^64 |
| XxhProduct.ExactProduct | include/hatrack/xxhash.h:3771-3785 | low64 + 2^64 * high64 is the product |
| XxhProduct.NativeProduct | include/hatrack/xxhash.h:3665-3787 | The portable branch agrees with the wide-integer ones |
| XxhCanonical.ReadersAgree32 | include/hatrack/xxhash.h:1890-1934 | The 32-bit readers agree on either processor |
| XxhCanonical.ReadersAgree64 | include/hatrack/xxhash.h:2506-2543 | The 64-bit readers agree on either processor |
| XxhCanonical.SameBytes | include/hatrack/xxhash.h:6328-6338 | The canonical form is the same bytes on either processor |
| XxhCanonical.RoundTrip32 | include/hatrack/xxhash.h:2398-2411 | 32-bit round trip |
| XxhCanonical.RoundTrip64 | include/hatrack/xxhash.h:2876-2890 | 64-bit round trip |
| XxhCanonical.RoundTrip128 | include/hatrack/xxhash.h:6328-6348 | 128-bit round trip, also between processors of different kinds |
| XxhCanonical.CompareIsLexicographic | include/hatrack/xxhash.h:6314-6325 | XXH128_cmp() is the lexicographic order of the canonical bytes, zero on equal hashes only, and antisymmetric |
| XxhCanonical.CompareIsTransitive | include/hatrack/xxhash.h:6314-6325 | And transitive: a total order |
| GcBitmap.SetBit | include/core/object.h:91-98 | The bit is set and every other bit stays |
| GcBitmap.MarkOneByOne | include/core/object.h:91-104 | Setting bits 0 to diff on a zeroed field marks exactly those |
| GcBitmap.MarkRawToAddr | include/core/heap.h:413-423 | Full words, then the last word, and nothing beyond |
| GcBitmap.RawMarksIff | include/core/heap.h:413-423 | On a zeroed field the word loop makes the same bitmap as the single bits if and only if the distance is not 63 modulo 64, or the machine shifts by 64 to zero |
| GcBitmap.ShiftCountWraps | include/core/heap.h:413-423 | Where shift counts wrap, the last word then comes out empty |

## Left out

- Migration of a lohat store to a larger one (lohat.c:1029-1247), and the flags in head pointers that announce it: the table of the model has a fixed number of buckets.
- Probing for a bucket and acquiring it: an operation of the model works on one bucket from its start. Item and bucket counters are not part of the state.
- Thread identifiers given back and reused, and the limit on their number: a thread registers once.
- Memory orders weaker than sequential consistency: hatomic.h uses sequentially consistent operations.
- Addresses: records are named by allocation. `NoUseAfterFree` is what makes a reused address harmless for the operations that keep the first condition.
- A remove that loses its CAS to a live record drops its candidate without freeing it (lohat.c:1003-1007): modelled as it is; that memory is never freed.
- N00B_RERAISE: it names a variable that N00B_TRY does not declare, so it does not compile. Raising the current exception by n00b_exception_raise() is in the model.
- Raising the current exception in FINALLY: it may be null there; the model allows it in EXCEPT only.
- PreviousInOrderIff: is about code in which every raise is of a new exception; `RaisedAgain` says what raising the current one again does.
- ReadsFreedIff: supposes no other thread before its CAS in put, replace, add or remove. A replace that has lost its CAS to a live record keeps its reservation, and with it everything retired since, until it wins by a CAS that breaks the condition itself or finds the item removed.
- Jumps to labels of an outer TRY, and return out of a block: the header forbids them.
- Loops and calls in code that uses the macros: a called function stands in the place of its call.
- The exception machine is a state machine on values: setjmp() and longjmp() have no counterpart in a method. Frames, the free list and the activations are explicit.
- Reports about uncaught exceptions: the run ends where they start, or at the null pointer they read.
- Update: a length is a mathematical length, so that the sum of bufferedSize and len does not wrap; inputs of 2^64 bytes do not exist.
- AVX512, AVX2, NEON and VSX forms, prefetching and alignment of allocations: they repeat the lane algebra of the SSE2 form or have no meaning in a model.
- Hash quality, and collisions of keys longer than 16 bytes.
- The distance in n00b_mark_raw_to_addr() when `end` lies below `base`.
