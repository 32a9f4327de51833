# pyuring, modelled and verified in Dafny

pyuring drives io_uring from C and Python. Operations go in, completions come back in any order and
possibly short. This project models the user-space state machines that have to keep bytes, slots,
buffers and waiters in order under that freedom, and proves what they keep.

`dafny verify dfyconfig.toml` checks everything.

## How it is built

* `IoUring` is the environment shared by all models. A `World` is a value: the requests outstanding
  (queued, with the kernel, or finished with a result), the program's memory buffers, the files, and a
  `Trace` of what was issued, reaped and reported. The class `Ring` offers the liburing calls. Wherever the
  kernel may act it finishes any submitted requests, in any order, with any result that POSIX.1-2017
  `pread`/`pwrite` allow: negative, or up to the bytes there are. A read then puts bytes into memory, a
  write puts them into a file, at the moment the kernel acts, so two writes in flight really race.
* `Slots` and `ByteFlow` hold the two arguments the pipelines share: who owns which slot, and where the
  bytes are; `FileSet` has the latter for many files. `ChunkSize` and `Pipeline` hold what the C pipelines share: buffer sizing, the chunk plan,
  exits, progress reports.
* `CopyPath`, `WriteNewFile`, `RoundRobin` and `ShortRuns` with `WriteManyFiles`, and `BatchRead` follow
  `csrc/uring_wrap.c`; `Lcg` follows `gen_offsets` in `csrc/bench_direct.c`.
* `UringCtx`, `UringAsync` and `AsyncFile` follow the Python classes and stand on top of each other, down to
  the same `Ring`; `Leftovers` is about requests that a cancelled call leaves behind. `Gather` and `Reassembly` follow two of the example loaders on top of these.
* `Arithmetic` and `Sequences` are small libraries.

The ring also lists its faults: the negative results of its calls and of the completions consumed. The top-level
contracts tie the outcome to that list in both directions: an error is returned if and only if there was a fault,
and it is that fault, cancelled tasks aside. So no error is swallowed and none is made up.

A size or progress callback is a function of its call number and its arguments, so a callback that keeps
state of its own is covered. The methods leave the kernel's choices open, and an awaiting task
can be cancelled before its reader callback, before a callback that still runs ahead of the wake-up, and after it.

## What turned out to hold only under a condition

* The size callback's answer is documented as clamped (`pyuring/native/c_api.py:52`). The code falls back to
  `block_size` instead, and the 64 MiB limit is applied to the buffers but not to that fallback. A chunk always
  fits its buffer if and only if the default block is at most 64 MiB (`FitsIffDefaultUnderCap`).
* A copy that ends well has read all of the source unless every slot met an empty read, which a source that shrinks
  gives; a short transfer alone never stops it (`DrainedIsFinal`).
* With the adaptive callback no fallback happens on any file if and only if eight blocks are at most 64 MiB
  (`AdaptiveRampIff`, among blocks of at most 64 MiB).
* The counter of `uring_write_manyfiles` is 32 bits wide. Chunks are dealt exactly in turn if and only if there
  are at most 2^32 of them or the number of files divides 2^32 (`InTurnIffAligned`); three files of 4096 MiB in
  blocks of one byte are out of turn (`ThreeBigFilesGetOutOfTurn`). Whatever the shape, what is queued is what the
  searches of the scheduler deal out.
* `uring_write_manyfiles` can leave chunks unqueued and still report success. Let q and r be quotient and remainder of
  2^32 by the number of files n, and m the number of blocks of a file. A search for the next file can come back
  empty while a file is unfinished if and only if n <= 2 r and k q < m < k (q + 1) for some k (`EndsShort`,
  `EndsShortIff`, `StallsIffEndsShort`). Some sequence of completions then makes the run end short if and only if the
  queue depth is at most 256, the size of the array of completions (`SomeRunGivesUpIff`); a queue depth of 1 always ends
  short then (`SingleSlotGivesUpIff`), and no other shape or depth ever does (`WriteManyFiles`). Six files of
  1431655765 MiB in blocks of one MiB are such a shape (`SixFilesEndShort`). This is for fewer than 2^64 bytes in all:
  the number of bytes wraps there, and nothing at all is written for a multiple of 2^64.
* `read_batch` equals a sequential read if and only if the result is shorter than 2^31 bytes: the total is an int.
  `read_offsets` joins full reads without a hole if and only if every offset followed by one inside the file has a
  whole block in the file (`FullIsDense`); otherwise bytes are missing at the end and zeros are left inside (`Answers`,
  for files without zero bytes).
* `read_async` and `write_async` submit before they pin, and return the tag as a signed 64-bit number. Right after a
  call the pin table is still exact if and only if the call used a raw pointer, or submitted with a tag below 2^63
  (`CallExactIff`); a run is exact throughout if and only if all its calls are such (`EveryRunExactIff`).
* The completion that `AsyncFile` awaits is its own only on a quiet ring. Behind a request left over by a cancelled
  call, a later call that succeeds still has its own bytes and a call that gets the older completion fails with a tag
  mismatch; its own completion then waits for the call after it, so the instance stays one behind (`Transfer`).
* `AsyncFile.read` advances its position slice by slice. If a later slice fails, the position has moved past slices
  whose bytes are not returned. Results of the slices that make this happen exist if and only if more than a slice is
  asked for and at least one is left in the file (`CanLoseIff`), and the kernel can give them (`SecondSliceCanFail`).

## Model

| member | source | states |
|---|---|---|
| IoUring.PackRoundTrip | csrc/uring_wrap.c:666-670 | op and slot come back out of a packed tag |
| IoUring.UnpackRoundTrip | csrc/uring_wrap.c:666-670 | every 64-bit tag is the packing of its two halves |
| IoUring.RunKeepsValid | csrc/uring_wrap.c:823-834 | whatever the kernel does, it adds and drops no request and keeps every request inside its buffer |
| IoUring.RunKeepsDone | csrc/uring_wrap.c:1086-1121 | a finished request stays finished with the same result, so a completion seen once can be waited for again |
| IoUring.PushKeepsBalance | csrc/uring_wrap.c:1053-1063 | after queueing, the requests issued are still those reaped plus those open |
| IoUring.ReapKeepsBalance | csrc/uring_wrap.c:1092-1120 | consuming a completion moves exactly one request from open to reaped |
| IoUring.Ring.PeekBatch | csrc/uring_wrap.c:1087 | a peeked batch has distinct finished requests, at most as many as asked for and as are outstanding, and is empty only if nothing is finished |
| IoUring.Ring.WaitCqe | csrc/uring_wrap.c:824-828 | a wait that succeeds returns a finished request's tag and result, in whatever order the kernel chose |
| IoUring.BatchTail | csrc/uring_wrap.c:1092-1117 | consuming the head of a batch leaves the rest of the batch finished and distinct |
| Slots.PushKeepsOwners | csrc/uring_wrap.c:803-815 | giving an idle slot a request tagged with it keeps slots and requests one to one |
| Slots.ReapKeepsOwners | csrc/uring_wrap.c:830-840 | a completion's tag names the slot that owns it, and only that slot becomes free |
| Slots.BusyBound | csrc/uring_wrap.c:785-815 | the number of requests is at most the number of slots, with equality exactly when all are busy |
| ByteFlow.RunKeepsFlow | csrc/uring_wrap.c:823-912 | in every order of kernel steps each outstanding request carries the right bytes and each byte issued is spanned by a request or already right in the file |
| ByteFlow.FullReadBecomesWrite | csrc/uring_wrap.c:847-865 | a read that was not short hands its whole range over to the write that follows it |
| ByteFlow.FullWriteLands | csrc/uring_wrap.c:866-868 | a write that was not short leaves its whole range right in the file |
| ByteFlow.PushKeepsFlow | csrc/uring_wrap.c:803-815 | a chunk issued next to the last one becomes spanned, and disturbs no other request |
| ByteFlow.AllLanded | csrc/uring_wrap.c:823-917 | with nothing outstanding the file is exactly the bytes issued |
| ByteFlow.RunLands | csrc/uring_wrap.c:823-912 | whatever the kernel does, short or not: what consumed writes reported stays right in the file, and every other byte is right or zero |
| ByteFlow.ReapLands | csrc/uring_wrap.c:866-868 | a consumed write's reported range is right in the file |
| FileSet.RunWrites | csrc/uring_wrap.c:1343-1364 | the same for several files written from buffers of letters, in every order of kernel steps |
| FileSet.PushWrites | csrc/uring_wrap.c:1320-1335 | the next write of a file adds the letters of its buffer to what the file should hold |
| FileSet.WholeFile | csrc/uring_wrap.c:1277-1386 | with everything consumed and nothing lost, a file is exactly what its writes carried |
| ChunkSize.ProbeBuffers | csrc/uring_wrap.c:735-750 | the callback is asked at 0, bs, 2 bs and so on up to the end of the file or the first answer above 64 MiB; the buffer size is the largest of the default block and all answers, cut to 64 MiB if it was asked at all |
| ChunkSize.SizingFits | csrc/uring_wrap.c:735-750 | buffers hold the default block if it is at most 64 MiB or there is no callback |
| ChunkSize.FitsIffDefaultUnderCap | csrc/uring_wrap.c:735-802 | for all callbacks, files and offsets a chunk fits its buffer, if and only if the default block is at most 64 MiB |
| ChunkSize.PlanStep | csrc/uring_wrap.c:1037-1063 | queueing the next chunk moves it from what is planned to what is queued; the two together stay the whole plan |
| ChunkSize.SizingIs | csrc/uring_wrap.c:735-750 | the specified buffer size and number of calls are those, told without the loop |
| ChunkSize.EveryAnswerHonoured | csrc/uring_wrap.c:790-802 | for every callback: chunk i takes the answer given for its offset right after the probe and the chunks before it, if that is from 1 to the buffer size, and the default block otherwise; the last takes what is left |
| ChunkSize.FixedIsPlain | pyuring/_easy.py:87-91 | a callback that always answers the default block plans the same chunks as no callback |
| ChunkSize.ProbeSees | csrc/uring_wrap.c:738-749 | at every probed offset the buffers are at least as large as an answer given there |
| ChunkSize.AdaptiveHonoured | pyuring/_easy.py:26-37 | at a probed offset the adaptive answer is never replaced by the fallback |
| ChunkSize.ProbedAfter | pyuring/_easy.py:26-37 | after a chunk of adaptive size the next offset is again one that was probed |
| ChunkSize.AdaptivePlan | pyuring/_easy.py:26-37 | with eight blocks within the limit every chunk has the adaptive size and sizes do not shrink before the last |
| ChunkSize.LateChunkFallsBack | csrc/uring_wrap.c:790-802 | beyond the limit a file of sixteen blocks has a chunk that falls back |
| ChunkSize.AdaptiveRampIff | csrc/uring_wrap.c:790-802 | the adaptive callback is honoured on every file if and only if eight blocks are at most 64 MiB |
| ChunkSize.RoundingChangesNothing | pyuring/_easy.py:30-37 | for files of less than 2^52 bytes the rounding of the progress fraction changes no answer |
| Pipeline.FillPatterns | csrc/uring_wrap.c:1002-1020 | after the fill, byte k of every buffer i is the number first + ((i + k) mod 2^32) mod 26, for all sizes |
| Pipeline.ReportsAreRunningSums | csrc/uring_wrap.c:868-874 | reports never decrease, never exceed what is written, and the last one equals it once no write is unreported |
| Pipeline.CancelIsLast | csrc/uring_wrap.c:869-873 | nothing is issued, reaped or reported after a nonzero answer |
| Pipeline.CanceledIff | csrc/uring_wrap.c:868-874 | a run is cancelled exactly when the callback, asked after each completed write with the bytes so far, answers nonzero |
| Pipeline.CodeTells | csrc/uring_wrap.c:919-938 | the return value is negative exactly if the run did not end well; -125 says cancelled |
| CopyPath.CopyPathDynamic | csrc/uring_wrap.c:702-938 | every run: no bad slot, no missing SQE, an error if and only if a call or completion failed; the count is the bytes written, at most the source size, equal to it exactly when nothing was short; then the destination is the source; with short transfers the destination is right wherever a write reported so and right or zero elsewhere, up to a cut to the count, and all of the source is read unless every slot met an empty read; chunks follow the plan and tile a prefix; at most two completions a chunk; report k carries the running sum and the callback's k-th answer; cancelled exactly when the callback, asked after each write with the bytes so far, says so |
| CopyPath.Pump | csrc/uring_wrap.c:823-912 | the main loop keeps the invariant, ends after a bounded number of completions, and leaves nothing in flight on a good exit |
| CopyPath.Prime | csrc/uring_wrap.c:788-816 | afterwards every slot has a read in flight, or all of the file has been issued |
| CopyPath.Handle | csrc/uring_wrap.c:830-911 | any completion leads back to the invariant with the measure of remaining completions decreased, or to an exit that matches the trace |
| CopyPath.OnRead | csrc/uring_wrap.c:847-865 | a read result becomes a write of exactly as many bytes at the slot's offset from the same slot, or retires the slot at end of file |
| CopyPath.OnWrite | csrc/uring_wrap.c:866-911 | a written slot is reported with the callback's answer, then reused for the next chunk or retired, and its bytes are counted |
| CopyPath.TurnGoes | csrc/uring_wrap.c:847-865 | turning a read into a write keeps the whole invariant and takes one step off the measure |
| CopyPath.WriteGoes | csrc/uring_wrap.c:866-868 | a finished write keeps the whole invariant and moves its bytes from owed to written or lost |
| CopyPath.StartGoes | csrc/uring_wrap.c:876-902 | starting the next chunk in an idle slot keeps the whole invariant and the plan |
| CopyPath.KernelGoes | csrc/uring_wrap.c:823-828 | no kernel step disturbs the copy's invariant |
| CopyPath.DrainedIsFinal | csrc/uring_wrap.c:823-917 | nothing in flight means all bytes issued are written or lost, a run without loss has issued everything, and one that has not met an empty read in every slot |
| WriteNewFile.WriteNewFileDynamic | csrc/uring_wrap.c:953-1142 | every run: an error if and only if a call or completion failed; at most qd writes outstanding at any moment, queued along the plan; no bad slot; on success every queued write was reaped exactly once, bytes written plus lost are the larger of the megabytes asked for and one block; the contents planned are given letter by letter, as numbers, for every callback and for none; without short writes they are the contents, whatever the order of completions, and otherwise every byte is right or zero, and right wherever a write reported so; aborted exactly when the callback, asked after each write with the bytes so far, says so |
| WriteNewFile.QueueWrites | csrc/uring_wrap.c:1031-1064 | queues the next chunks of the plan until qd are outstanding or the file is covered |
| WriteNewFile.HandleBatch | csrc/uring_wrap.c:1092-1120 | a batch is counted entry by entry, each is reported with the callback's answer, and the batch takes exactly its length off the requests in flight |
| WriteNewFile.ReapReady | csrc/uring_wrap.c:1086-1121 | after a successful wait at least one completion is reaped, and the counter never goes below zero |
| WriteNewFile.QueueGoes | csrc/uring_wrap.c:1032-1064 | queueing keeps the invariant even when the slot's buffer is used by a write in flight |
| WriteNewFile.ReapGoes | csrc/uring_wrap.c:1092-1108 | reaping keeps the invariant and counts the bytes |
| WriteNewFile.KernelGoes | csrc/uring_wrap.c:1080-1090 | no order of completions changes which contents the file ends up with |
| WriteNewFile.FinalFacts | csrc/uring_wrap.c:1030-1142 | leaving the loop with nothing open gives the whole plan, the contents and the last report |
| WriteNewFile.FillAt | csrc/uring_wrap.c:1035-1057 | byte k of chunk i of the contents is byte k of the pattern of the slot that the chunk's offset selects |
| WriteNewFile.PlanContiguous | csrc/uring_wrap.c:1032-1063 | the chunks of every plan follow each other from the start to the total, whatever the callback answers |
| WriteNewFile.PlanContents | csrc/uring_wrap.c:1032-1063 | for every callback, byte k of each chunk of the plan is the number 65 + (((off / bs) mod qd + k) mod 2^32) mod 26, and the contents are as long as the file |
| WriteNewFile.PlainContents | csrc/uring_wrap.c:1012-1064 | without a callback byte p of the file is the number 65 + (((p / bs) mod qd + p mod bs) mod 2^32) mod 26 |
| RoundRobin.ServeExact | csrc/uring_wrap.c:1289-1314 | serving the file whose turn it is leads from exactly t chunks dealt in turn to exactly t + 1 |
| RoundRobin.RoomLeft | csrc/uring_wrap.c:1295-1308 | before the last chunk, the file whose turn it is has room |
| RoundRobin.PointsInTurn | csrc/uring_wrap.c:1290 | the wrapped counter points at file t mod n as long as it is aligned |
| RoundRobin.AlignedExact | csrc/uring_wrap.c:1284-1318 | with an aligned counter every file has exactly its share after every number of picks |
| RoundRobin.InTurnIffAligned | csrc/uring_wrap.c:1284-1318 | no pick skips a file and pick t goes to file t mod n, if and only if the counter does not wrap within the run or wraps between rounds |
| RoundRobin.ThreeBigFilesGetOutOfTurn | csrc/uring_wrap.c:1284-1318 | three files of 4096 MiB in blocks of one byte are not dealt in turn |
| RoundRobin.DealtBytes | csrc/uring_wrap.c:1284-1318 | for every shape, what the first p searches deal out is what the files hold |
| RoundRobin.EmptyIff | csrc/uring_wrap.c:1289-1318 | a search comes back empty if and only if all files that so many successive counter values name are done |
| RoundRobin.EmptyCrossesTheWrap | csrc/uring_wrap.c:1289-1318 | a search that misses an unfinished file crosses the wrap of the counter |
| ShortRuns.TickKeeps | csrc/uring_wrap.c:1289-1318 | each try moves the counter by one, and the offsets stay those that the number of tries alone gives |
| ShortRuns.AfterTicked | csrc/uring_wrap.c:1284-1318 | after any number of searches, empty ones included, every file holds its size or a block for each time a try named it |
| ShortRuns.EndsWithTick | csrc/uring_wrap.c:1289-1314 | a try that names an unfinished file ends its search |
| ShortRuns.MissesAtTail | csrc/uring_wrap.c:1289-1318 | a search that misses an unfinished file starts behind the last whole round of the counter before its wrap |
| ShortRuns.MissesBetween | csrc/uring_wrap.c:1289-1318 | it takes a remainder of at least half the number of files, and a number of blocks between k q and k (q + 1) |
| ShortRuns.EndsShortStalls | csrc/uring_wrap.c:1289-1318 | for every such shape some search misses an unfinished file |
| ShortRuns.StallsIffEndsShort | csrc/uring_wrap.c:1284-1318 | a search can come back empty before all files are done if and only if the shape is such |
| ShortRuns.EndsShortIff | csrc/uring_wrap.c:1284-1318 | the condition tried for one k, as a caller can compute it, is the same as for some k |
| ShortRuns.AlignedNeverShort | csrc/uring_wrap.c:1284-1318 | an aligned counter never meets it |
| ShortRuns.EmptyOnce | csrc/uring_wrap.c:1284-1318 | two empty searches in a row do not miss an unfinished file |
| ShortRuns.SomeRunGivesUpIff | csrc/uring_wrap.c:1277-1386 | some sequence of batches of completions makes the run leave chunks unqueued if and only if the shape is such and the queue depth at most 256 |
| ShortRuns.SingleSlotGivesUpIff | csrc/uring_wrap.c:1277-1386 | with one slot every complete run leaves chunks unqueued if and only if the shape is such |
| ShortRuns.SixFilesEndShort | csrc/uring_wrap.c:1284-1318 | six files of 1431655765 MiB in blocks of one MiB are such a shape |
| WriteManyFiles.PopKeepsFreeList | csrc/uring_wrap.c:1320-1323 | popping hands out an idle slot and keeps the stack the set of idle slots without repeats |
| WriteManyFiles.PushKeepsFreeList | csrc/uring_wrap.c:1383 | pushing a reaped slot never overflows the stack and keeps it the set of idle slots |
| WriteManyFiles.SlotsPartition | csrc/uring_wrap.c:1268-1335 | a slot is on the stack exactly when no request names it, and free slots plus requests are qd |
| WriteManyFiles.PickFile | csrc/uring_wrap.c:1284-1318 | the search returns what the specification picks; no detour if the file pointed at has room |
| WriteManyFiles.QueueChunk | csrc/uring_wrap.c:1320-1335 | the picked chunk always gets an SQE, so none is dropped after its offset has advanced |
| WriteManyFiles.QueueChunks | csrc/uring_wrap.c:1280-1336 | it queues as the specified loop does, up to the same search; with an aligned counter until the slots or the files run out, without a detour |
| WriteManyFiles.HandleBatch | csrc/uring_wrap.c:1365-1385 | every entry frees exactly its slot and is counted |
| WriteManyFiles.Round | csrc/uring_wrap.c:1277-1386 | each round queues as specified and then reaps between one and 256 completions, or leaves because nothing is in flight |
| WriteManyFiles.WriteManyFiles | csrc/uring_wrap.c:1148-1416 | every run: no bad slot, an error if and only if a call or completion failed; never more than qd outstanding, each file filled from its start and never past its end; what is queued is what the scheduler's searches deal out; with an aligned counter chunk t goes to file t mod n at (t div n) blocks, no skip or empty search happens, and any two files are within one block of each other at every moment; on success everything queued was reaped once and bytes are written or lost, each write carries the letters of the buffer its tag names, and files hold them all if nothing was short, and otherwise right or zero bytes, right wherever a write reported so; for fewer than 2^64 bytes the batches reaped are those of a complete run, chunks are left unqueued only if the shape ends short and at most 256 slots are used, with one slot if and only if the shape does; a multiple of 2^64 bytes is not written at all |
| WriteManyFiles.FinalAsShaped | csrc/uring_wrap.c:1277-1386 | of the trace of any good run: whether everything was queued follows from the shape and the number of slots, as above |
| WriteManyFiles.FilesFacts | csrc/uring_wrap.c:1277-1386 | with nothing in flight every file is as its writes say, in full if nothing was lost |
| WriteManyFiles.ShareOfFile | csrc/uring_wrap.c:1284-1318 | after k chunks dealt in turn a file has its number of turns times the block, up to its size |
| WriteManyFiles.InTurnIsEven | csrc/uring_wrap.c:1284-1318 | at every moment of a run dealt in turn any two files are within one block of each other |
| BatchRead.ReadBatchSync | csrc/uring_wrap.c:521-588 | rejects bad arguments exactly; otherwise never runs out of SQEs, and on success every read was reaped, the buffer holds what each reported, and the total is the int of their sum |
| BatchRead.ReadOffsetsSync | csrc/uring_wrap.c:594-657 | the same for given offsets |
| BatchRead.ReapAll | csrc/uring_wrap.c:550-585 | reaping in any order and in batches of any size ends with every read taken once |
| BatchRead.KernelGoes | csrc/uring_wrap.c:534-545 | whatever the kernel does, every block holds the bytes read for it so far and zeros after them |
| BatchRead.ConsecutiveBytes | pyuring/native/uring_ctx.py:1458-1464 | consecutive blocks read in full make up the file slice, clipped at the end of the file |
| BatchRead.DenseJoins | pyuring/native/uring_ctx.py:1466-1485 | if only the last nonempty block is short, the first total bytes of the buffer are the blocks one after the other |
| BatchRead.GapShows | pyuring/native/uring_ctx.py:1466-1485 | if not, and the file has no zero byte, they are not |
| BatchRead.AnsweredBuffer | pyuring/native/uring_ctx.py:1466-1485 | whatever the reads reported, byte p of the answer is byte p mod bs of what the read of block p / bs brought, or a zero behind it |
| BatchRead.FullIsDense | pyuring/native/uring_ctx.py:1466-1485 | for full reads only the last nonempty block is short if and only if every offset followed by one inside the file has a whole block in the file |
| BatchRead.ReadBatch | pyuring/native/uring_ctx.py:1458-1464 | raises exactly the failure that occurred; once all reads succeed it answers as many bytes of the buffer as they add up to in a C int, each the byte its read brought or a zero, or raises that int if negative; for full reads that is the sequential read of the range if and only if it is shorter than 2^31 |
| BatchRead.ReadOffsets | pyuring/native/uring_ctx.py:1466-1485 | answers as many bytes of the buffer as the reads add up to, each the byte its read brought or a zero: the blocks in order, for full reads and a file free of zeros if and only if the offsets allow it as above and the total is below 2^31; on consecutive offsets it answers as read_batch |
| UringCtx.CallKeepsPins | pyuring/native/uring_ctx.py:1491-1537 | a call with a fresh tag keeps every earlier pin and pins its own buffer exactly when it returns normally with its own tag |
| UringCtx.ReapKeepsPins | pyuring/native/uring_ctx.py:1500-1501 | a completion drops the pin of its tag and no other |
| UringCtx.CallExactIff | pyuring/native/uring_ctx.py:1503-1537 | from an exact table, after a call with a fresh tag the keys are the tags of the unreaped non-pointer operations, each with its buffer, if and only if the call uses a raw pointer, or submits with a tag below 2^63 |
| UringCtx.EveryRunExactIff | pyuring/native/uring_ctx.py:1503-1652 | a run of calls with fresh tags of any size, submitted or refused, of kernel steps and completions is exact at every moment if and only if every call is such a one |
| UringCtx.Ctx.Async | pyuring/native/uring_ctx.py:1503-1610 | what is queued is the transfer asked for: this direction, file, buffer, offset and tag, with a pointer's own length or all of an object; of a submitted call with a 64-bit tag: it returns the tag, and its buffer is pinned, if and only if the tag is below 2^63; a call that raises after queueing leaves its request unpinned |
| UringCtx.Ctx.WaitCompletion | pyuring/native/uring_ctx.py:1612-1630 | takes one finished request and removes the key of its tag from the table, and no other; on an error nothing is consumed |
| UringCtx.Ctx.PeekCompletion | pyuring/native/uring_ctx.py:1632-1652 | takes one finished request and removes the key of its tag, or reports that none is ready |
| UringAsync.StepKeeps | pyuring/aio.py:76-173 | waits, cancellations, wake-ups, reader callbacks and close all keep fairness, completeness and the reader rule |
| UringAsync.DeliveryIsFair | pyuring/aio.py:92-128 | in every run the k-th completion taken belongs to the k-th waiter popped and to no other, waiters are served in order of arrival, one is dropped only if its waiter was already cancelled, and every result was taken for its future |
| UringAsync.NeverStuck | pyuring/aio.py:76-173 | in every run the reader is armed exactly when someone waits, every pending future is queued, and after close there is neither reader nor waiter nor pending future |
| UringAsync.DroppedOnlyAsleep | pyuring/aio.py:118-155 | in every run a completion is dropped only for a waiter whose task has been cancelled and has not yet woken, and a task that has woken is no longer queued |
| UringAsync.ReadableServes | pyuring/aio.py:107-128 | what a reader callback does to waiters, futures and deliveries, told without its steps |
| UringAsync.DeliveredKeeps | pyuring/aio.py:118-120 | popping the first waiter and resolving it keeps the order and loses nobody |
| UringAsync.AwokenKeeps | pyuring/aio.py:147-155 | the cancellation handler takes its own waiter out of the queue, keeps the others in order, and touches no future, also when its result was already set |
| UringAsync.UringAsync.OnReadable | pyuring/aio.py:107-128 | on return nobody waits or nothing is ready; the first waiters have got the completions taken, one each in their order, unless already done; or all pending futures have failed because the wait failed or something is closed |
| UringAsync.UringAsync.DeliverPeekChain | pyuring/aio.py:92-99 | takes a completion only while someone waits, until nothing is ready |
| UringAsync.UringAsync.WaitCompletion | pyuring/aio.py:130-146 | queues a new pending future behind all others and binds the loop, and is refused exactly when closed or on a second loop |
| UringAsync.UringAsync.OnCancelled | pyuring/aio.py:147-155 | the waiter leaves the queue, the others stay in their order, futures and deliveries are untouched, and the reader stays armed exactly when someone still waits |
| UringAsync.UringAsync.Close | pyuring/aio.py:164-173 | no waiter and no reader remain, every pending future is cancelled, and no other future changes |
| UringAsync.Callback | pyuring/aio.py:107-128 | a lone waiter is gone after the callback: the one completion taken resolves its future, is dropped if that was cancelled, or the wait failed |
| UringAsync.Await | pyuring/aio.py:145-155 | a task resumes with the completion taken for it, with the failure of the wait, or cancelled; the cancellation may come before the callback, before a callback that still runs ahead of the wake-up, or after it, and at most one completion has been consumed |
| AsyncFile.RunAlone | pyuring/async_file.py:250-271 | while a request is alone in flight, its effect is exactly what its result says |
| AsyncFile.TookAlone | pyuring/async_file.py:256-257 | the completion awaited is the request's own, so the tags match |
| Leftovers.RunMine | pyuring/async_file.py:250-258 | among other requests in flight, whatever the kernel does, a request is finished on the data of its own buffer, which then keeps what that left |
| Leftovers.TookSome | pyuring/async_file.py:256-258 | a completion taken under the awaited tag is the request's own, and under another tag that of a request left over |
| Leftovers.InterruptedLeft | pyuring/async_file.py:256-258 | an interrupted wait leaves as many requests in flight as there were before the call, or one more |
| AsyncFile.EndsBehind | pyuring/async_file.py:250-271 | behind requests left over a call ends with its own result, or with a mismatch exactly if the completion taken is that of one of them; either way as many stay in flight as before |
| AsyncFile.AsyncFile.Transfer | pyuring/async_file.py:250-271 | one request is submitted and awaited; on a quiet ring it fails exactly for what went wrong, never with a tag mismatch as long as tags fit 64 bits, and if interrupted leaves at most that one request in flight; behind requests left over it ends as above, ready for the next call |
| AsyncFile.AsyncFile.ReadOnce | pyuring/async_file.py:250-271 | returns consecutive bytes from the position and moves it by their number; an I/O error moves nothing; behind requests left over the bytes are those of the file at some moment of the call |
| AsyncFile.AsyncFile.ReadSlice | pyuring/async_file.py:239-247 | one slice extends the run: its result is added, its bytes follow, and a slice that is not whole has reached the end of the file unless it was short |
| AsyncFile.AsyncFile.ReadUpTo | pyuring/async_file.py:233-248 | without a short read the slices join to exactly n bytes, or all up to the end of the file; outcome and position are those of the run over the results consumed |
| AsyncFile.AsyncFile.ReadUntilEof | pyuring/async_file.py:222-231 | without a short read it returns everything to the end of the file; outcome and position are those of the run over the results consumed |
| AsyncFile.AsyncFile.Read | pyuring/async_file.py:206-220 | bytes follow those of the call before, slicing is invisible without short reads, a call fails exactly for what went wrong; a failed call has moved the position by whole slices inside the file, less than it asked for, and not at all if it asked for at most a slice or less than one was left |
| AsyncFile.MovedBySlices | pyuring/async_file.py:222-248 | for all results of its slices: a read that has not ended well has moved by whole slices, all inside the file and less than asked for |
| AsyncFile.CanLoseIff | pyuring/async_file.py:222-248 | some results make a read fail after the position has moved if and only if it asks for more than a slice and a slice is left |
| AsyncFile.SecondSliceCanFail | pyuring/async_file.py:239-271 | on any quiet ring the kernel can complete the first slice in full and fail the second |
| AsyncFile.EveryResultHappens | pyuring/async_file.py:250-271 | any result up to what the file has can come back for a lone request, with just its effect |
| AsyncFile.AsyncFile.Write | pyuring/async_file.py:273-304 | the file is the old one with the first bytes of the data at the position, which moves by their number; behind requests left over it was written so at some moment of the call |
| AsyncFile.SliceJoins | pyuring/async_file.py:206-248 | reading a and then b bytes gives what reading a + b gives |
| AsyncFile.PWriteJoins | pyuring/async_file.py:273-304 | writing a and then b behind it gives what writing a + b gives |
| Gather.KernelGoes | examples/pytorch/after/load_shards.py:48-60 | with several reads in flight into buffers of their own, every buffer holds what its read has brought, in every order |
| Gather.IssueGoes | examples/pytorch/after/load_shards.py:48-54 | a new buffer and its read disturb none of the others |
| Gather.TakeGoes | examples/pytorch/after/load_shards.py:56-60 | a completion names a read not taken before, and its buffer holds what it reports |
| Gather.ReapHeard | examples/pytorch/after/load_shards.py:56-60 | what is noted for each read is what the trace says its completion reported |
| Reassembly.LoadBatch | examples/pytorch/after/load_shards.py:45-62 | fills exactly the places of its batch, with all there is if no read was short |
| Reassembly.LoadBatched | examples/pytorch/after/load_shards.py:34-66 | fails if and only if something failed; one piece per path in path order, for every batch size and completion order: as many bytes from the start of its file as its read reported, all there is if no read was short |
| Reassembly.BlocksJoin | examples/asyncio/after/read_file.py:45-46 | full blocks in order join to the file |
| Reassembly.PartsReported | examples/asyncio/after/read_file.py:45-46 | each part is as many bytes of its block as the read of that block reported |
| Reassembly.ReadFileViaUring | examples/asyncio/after/read_file.py:22-48 | fails only if something failed or the task was cancelled, which consumes at most one more completion; the result is the join of what the read of each block reported, block by block, whatever the order of the completions; without a short read that is the file |
| Lcg.GenOffsets | csrc/bench_direct.c:44-58 | each state is 6364136223846793005 times the one before plus 1, modulo 2^64, and gives an offset: a whole block inside the file; a file without a whole block gives zeros and keeps the state |
| Lcg.GeoTwos | csrc/bench_direct.c:54 | for a multiplier of 1 mod 4 the geometric sum has as many factors 2 as its length |
| Lcg.StateClosed | csrc/bench_direct.c:54 | the n-th state in closed form modulo 2^64 |
| Lcg.ReturnsIff | csrc/bench_direct.c:54 | after d steps the state is back if and only if 2^64 divides d |
| Lcg.StatesDistinct | csrc/bench_direct.c:54 | within 2^64 steps no state occurs twice |
| Lcg.FullPeriod | csrc/bench_direct.c:54 | from any seed every 64-bit state is reached, and then the seed again |
| Lcg.EveryBlockDrawn | csrc/bench_direct.c:54-56 | within a period every block of the file is drawn |

## Left out

- The one-operation `*_sync` wrappers and their ctypes methods: one call each, nothing beyond it to prove.
- Opening, closing, allocation and queue setup with their failures, and durability: foreign calls; of fsync only its failure is kept.
- Clean-up after an error or a cancel, and what the destination holds then: no claim is made about contents after a run that did not finish.
- Repair of short transfers: the pipelines never resubmit a missing tail, so full contents are claimed only for runs in which nothing was short; otherwise bytes lost are counted and what has arrived is right.
- CQ overflow, SQPOLL, memory barriers, multishot and zero-copy: the abstract ring stands in for liburing and the kernel.
- Calls on a ring with requests left over from earlier calls: `uring_read_batch_sync` and its sibling are modelled on a quiet ring, and `AsyncFile` makes no claim after a call that could not submit; after a cancelled one its single requests are covered, but not the joining of slices.
- A tag used again while it is in flight: fresh tags are a precondition of `Ctx.Async`.
- `UringCtx.close`, the buffer pool, `BufferRing`, thread ownership: plain resource handling.
- `UringCtx.peek_completion` raising an error: assumed not to happen, as `_deliver_peek_chain` does not handle it.
- Modes, append semantics of the kernel, the executor fallback and the lock of `AsyncFile`: the ring path is modelled one operation at a time, with the position at the end in append mode.
- Negative file offsets and lengths beyond what the C types hold.
- `sendfile_splice` and `iter_multishot_accept`: loops around calls that are not modelled.
- The timing loops of `csrc/bench_direct.c` and the other example loaders.
- WriteManyFiles.WriteManyFiles: tells file contents by the slots that the writes name, not which slot the stack hands out; for 2^64 bytes or more that are no multiple of it, it does not tell whether everything is queued.
- ChunkSize.AdaptiveRampIff: takes the progress fraction as an exact rational where the source rounds to a float; that makes a difference at most from 2^52 bytes on (`RoundingChangesNothing`).
- IoUring.Ring.Seen: stands for one entry's share of `io_uring_cq_advance`; entries of a batch behind one that ends the run count as not consumed.
- IoUring.Ring.SubmitAndWait: promises one completion, also where the source waits for more, so the results hold even if the kernel returns early.
