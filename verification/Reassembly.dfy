/**
 Two loaders that read many pieces at once and put them together in order: the batched shard
 loader, and the block-wise reader of one file.
 */
module Reassembly {
  import opened IoUring
  import opened UringCtx
  import opened UringAsync
  import opened Sequences
  import opened Arithmetic
  import Gather

  /** The first n bytes that a read asks for. */
  function Piece(files: seq<seq<Byte>>, q: Sqe, n: nat): seq<Byte> {
    if q.fd < |files| then Slice(files[q.fd], q.off, n) else []
  }

  /** Allocates a buffer and submits the read into it, tagged with the next number. */
  method Issue(ctx: Ctx, fd: nat, len: nat, off: nat, tag: nat, ghost st0: Gather.State)
      returns (ok: bool, buf: nat, ghost st: Gather.State)
    requires ctx.Valid() && ctx.open && st0.w == ctx.ring.w && Gather.Inv(st0) && fd < |st0.files|
    requires ctx.ring.w.sqLen == 0 && 0 < ctx.ring.entries && tag == |st0.plan| < INT64
    modifies ctx, ctx.ring
    ensures ok ==> ctx.ring.faults == old(ctx.ring.faults)
    ensures !ok ==> exists e :: ctx.ring.faults == old(ctx.ring.faults) + [e]
    ensures ctx.Valid() && ctx.open && Pairs(ctx.ring.w.trace) == old(Pairs(ctx.ring.w.trace))
    ensures ok ==> && st.w == ctx.ring.w && Gather.Inv(st) && st.got == st0.got && st.files == st0.files
                   && st.plan == st0.plan + [Sqe(Dir.Read, fd, buf, 0, len, off, tag)]
                   && st.w.sqLen == 0 && |st.w.reqs| == |st0.w.reqs| + 1
                   && ShortReads(st.w.trace, st.files) == ShortReads(st0.w.trace, st.files)
                   && SameResults(st.w.trace, st0.w.trace) && buf == |st0.w.mem| && |st.w.mem| == buf + 1
  {
    hide *;
    st := st0;
    var contents := Zeros(len);
    buf := ctx.NewBuffer(contents);
    ghost var u, q := ctx.ring.w, Sqe(Dir.Read, fd, buf, 0, len, off, tag);
    Issuable(st0, u, q, contents);
    var reply, queued, submitted := ctx.Async(Dir.Read, fd, Object(buf), off, tag);
    ok := reply.Returned?;
    if ok {
      st := Gather.State(Flush(Push(u, q)), st0.plan + [q], st0.got, st0.files);
    }
  }

  lemma Issuable(st: Gather.State, u: World, q: Sqe, contents: seq<Byte>)
    requires Gather.Inv(st) && u == st.w.(mem := st.w.mem + [contents])
    requires q == Sqe(Dir.Read, q.fd, |st.w.mem|, 0, |contents|, q.off, |st.plan|) && q.fd < |st.files|
    ensures u.Fits(q) && FreshTag(u, q.ud) && (q.ud < INT64 ==> Tag(q.ud) == q.ud < U64)
    ensures var v := Flush(Push(u, q));
            && Gather.Inv(Gather.State(v, st.plan + [q], st.got, st.files)) && v.sqLen == 0
            && |v.reqs| == |st.w.reqs| + 1 && ShortReads(v.trace, st.files) == ShortReads(st.w.trace, st.files)
            && Pairs(v.trace) == Pairs(st.w.trace) && SameResults(v.trace, st.w.trace) && |v.mem| == |st.w.mem| + 1
  {
    hide Gather.Inv, Push, Flush, Tag, ShortReads, Pairs;
    FilesHeld(st);
    TagOfSmall(q.ud);
    IssuedTrace(u, q, st.files);
    Gather.IssueGoes(st, u, q, contents);
  }

  lemma FilesHeld(st: Gather.State)
    requires Gather.Inv(st)
    ensures st.w.files == st.files
  {
  }

  lemma TagOfSmall(tag: nat)
    ensures tag < INT64 ==> Tag(tag) == tag < U64
  {
  }

  lemma IssuedTrace(u: World, q: Sqe, files: seq<seq<Byte>>)
    ensures var v := Flush(Push(u, q));
            && v.sqLen == 0 && ShortReads(v.trace, files) == ShortReads(u.trace, files)
            && Pairs(v.trace) == Pairs(u.trace) && SameResults(v.trace, u.trace) && v.mem == u.mem
  {
  }

  lemma SomethingToWaitFor(w: World)
    requires w.Valid() && w.sqLen == 0 && |w.reqs| > 0
    ensures w.Waitable()
  {
    assert w.reqs.Keys != {};
    var id :| id in w.reqs;
  }

  // ---------- the shard loader ----------

  /** The read of path k, which goes into the k-th buffer. */
  function ShardRead(paths: seq<nat>, k: nat, size: nat, batch: nat): Sqe
    requires k < |paths| && 0 < batch
  {
    Sqe(Dir.Read, paths[k], k, 0, size, 0, k % batch)
  }

  /** Slots from..to of the result hold what their reads reported: so many bytes from the start of their files;
      all there is up to size, if exact. */
  ghost predicate Filled(out: seq<Option<seq<Byte>>>, files: seq<seq<Byte>>, paths: seq<nat>, from: nat, to: nat,
                         size: nat, batch: nat, t: Trace, exact: bool)
  {
    && from <= to <= |out| == |paths| && 0 < batch
    && forall k | from <= k < to ::
         && out[k].Some? && paths[k] < |files| && |out[k].value| <= Min(size, |files[paths[k]]|)
         && |out[k].value| == ResultOf(t, ShardRead(paths, k, size, batch))
         && out[k].value == files[paths[k]][..|out[k].value|]
         && (exact ==> |out[k].value| == Min(size, |files[paths[k]]|))
  }

  /** The reads of a batch that starts at path i. */
  ghost predicate BatchPlan(plan: seq<Sqe>, bufs: seq<nat>, paths: seq<nat>, i: nat, size: nat) {
    && |plan| == |bufs| && i + |plan| <= |paths|
    && forall k | 0 <= k < |plan| :: bufs[k] == i + k && plan[k] == Sqe(Dir.Read, paths[i + k], i + k, 0, size, 0, k)
  }

  lemma PlanIsShards(plan: seq<Sqe>, bufs: seq<nat>, paths: seq<nat>, i: nat, size: nat, batch: nat)
    requires BatchPlan(plan, bufs, paths, i, size) && 0 < batch && i % batch == 0 && |plan| <= batch
    ensures forall k | i <= k < i + |plan| :: plan[k - i] == ShardRead(paths, k, size, batch)
    ensures forall k | 0 <= k < |paths| && !(i <= k < i + |plan|) :: ShardRead(paths, k, size, batch) !in plan
  {
    forall k | i <= k < i + |plan| ensures plan[k - i] == ShardRead(paths, k, size, batch) {
      var q := i / batch;
      assert i == q * batch;
      DivModUnique(k, q, k - i, batch);
    }
  }

  /** What has been taken is in its place of the result, and nothing else has changed there. */
  ghost predicate Stored(out: seq<Option<seq<Byte>>>, before: seq<Option<seq<Byte>>>, st: Gather.State, i: nat) {
    && |out| == |before| && i + |st.plan| <= |out|
    && (forall k | k in st.got :: k < |st.plan| && out[i + k] == Some(Piece(st.files, st.plan[k], st.got[k])))
    && (forall k | 0 <= k < i || i + |st.plan| <= k < |out| :: out[k] == before[k])
  }

  /** Between two batches. */
  ghost predicate Rest(ctx: Ctx, files: seq<seq<Byte>>, bufs: nat)
    reads ctx, ctx.ring
  {
    && |ctx.ring.w.mem| == bufs && ctx.Valid() && ctx.open && 0 < ctx.ring.entries && ctx.ring.w.files == files
    && ctx.ring.w.reqs == map[] && ctx.ring.w.sqLen == 0
  }

  lemma StartOfBatch(w: World)
    requires w.Valid() && w.reqs == map[]
    ensures Gather.Inv(Gather.State(w, [], map[], w.files))
  {
  }

  /** What one read brought, when the reads taken so far are as expected. */
  lemma StoreKeeps(out: seq<Option<seq<Byte>>>, before: seq<Option<seq<Byte>>>, st: Gather.State, st1: Gather.State,
                   i: nat, ud: nat, n: nat)
    requires st1 == Gather.State(st1.w, st.plan, st.got[ud := n], st.files)
    requires Stored(out, before, st, i) && ud < |st.plan|
    ensures i + ud < |out|
    ensures Stored(out[i + ud := Some(Piece(st.files, st.plan[ud], n))], before, st1, i)
  {
  }

  /** The buffer holds the piece. */
  lemma BufferIsPiece(st: Gather.State, ud: nat)
    requires Gather.Inv(st) && ud in st.got
    ensures ud < |st.plan| && st.plan[ud].buf < |st.w.mem| && st.got[ud] <= |st.w.mem[st.plan[ud].buf]|
    ensures st.w.mem[st.plan[ud].buf][..st.got[ud]] == Piece(st.files, st.plan[ud], st.got[ud])
  {
    assert Gather.Holds(st.w, st.files, st.plan[ud], st.got[ud]);
  }

  /** With nothing in flight every read of the plan has been taken. */
  lemma AllTaken(st: Gather.State)
    requires Gather.Inv(st) && |st.w.reqs| == 0
    ensures forall k | 0 <= k < |st.plan| :: k in st.got && st.plan[k].fd < |st.files|
              && st.got[k] <= Available(st.files[st.plan[k].fd], st.plan[k].off, st.plan[k].len)
    ensures st.w.reqs == map[] && st.w.files == st.files
  {
    assert st.w.reqs == map[];
    forall k | 0 <= k < |st.plan| ensures k in st.got && Gather.Holds(st.w, st.files, st.plan[k], st.got[k]) {}
  }

  lemma BatchFilled(out: seq<Option<seq<Byte>>>, before: seq<Option<seq<Byte>>>, st: Gather.State, bufs: seq<nat>,
                    paths: seq<nat>, i: nat, size: nat, batch: nat, t0: Trace)
    requires Gather.Inv(st) && |st.w.reqs| == 0 && Stored(out, before, st, i) && |out| == |paths|
    requires BatchPlan(st.plan, bufs, paths, i, size) && 0 < batch && i % batch == 0 && |st.plan| <= batch
    requires Gather.Full(st.w.trace, st.plan, st.got, st.files, t0) && Gather.Heard(st.w.trace, st.plan, st.got, t0)
    ensures Filled(out, st.files, paths, i, i + |st.plan|, size, batch, st.w.trace,
                   ShortReads(st.w.trace, st.files) == ShortReads(t0, st.files))
    ensures forall k | 0 <= k < i ::
              ResultOf(st.w.trace, ShardRead(paths, k, size, batch)) == ResultOf(t0, ShardRead(paths, k, size, batch))
  {
    AllTaken(st);
    PlanIsShards(st.plan, bufs, paths, i, size, batch);
    hide Gather.Inv, ShortReads;
    var exact := ShortReads(st.w.trace, st.files) == ShortReads(t0, st.files);
    forall k | i <= k < i + |st.plan|
      ensures out[k].Some? && paths[k] < |st.files| && |out[k].value| <= Min(size, |st.files[paths[k]]|)
      ensures |out[k].value| == ResultOf(st.w.trace, ShardRead(paths, k, size, batch))
      ensures out[k].value == st.files[paths[k]][..|out[k].value|]
      ensures exact ==> |out[k].value| == Min(size, |st.files[paths[k]]|)
    {
      assert k - i in st.got && st.plan[k - i].fd == paths[k];
    }
  }

  lemma PlanGrows(plan: seq<Sqe>, bufs: seq<nat>, paths: seq<nat>, i: nat, size: nat, buf: nat)
    requires BatchPlan(plan, bufs, paths, i, size) && i + |plan| < |paths| && buf == i + |plan|
    ensures BatchPlan(plan + [Sqe(Dir.Read, paths[i + |plan|], buf, 0, size, 0, |plan|)], bufs + [buf], paths, i, size)
  {
  }

  lemma EmptyPlan(paths: seq<nat>, i: nat, size: nat)
    requires i <= |paths|
    ensures BatchPlan([], [], paths, i, size)
  {
  }

  /** Issues a read for each path of a batch. */
  method IssueBatch(ctx: Ctx, paths: seq<nat>, i: nat, m: nat, fileSize: nat, ghost files: seq<seq<Byte>>)
      returns (ok: bool, bufs: seq<nat>, ghost st: Gather.State)
    requires ctx.Valid() && ctx.open && 0 < ctx.ring.entries && ctx.ring.w.files == files
    requires ctx.ring.w.reqs == map[] && ctx.ring.w.sqLen == 0 && ctx.ring.w.Valid()
    requires i + m <= |paths| && m < INT64 && forall k | 0 <= k < |paths| :: paths[k] < |files|
    requires |ctx.ring.w.mem| == i
    modifies ctx, ctx.ring
    ensures ok ==> ctx.ring.faults == old(ctx.ring.faults)
    ensures !ok ==> exists e :: ctx.ring.faults == old(ctx.ring.faults) + [e]
    ensures ok ==> && ctx.Valid() && ctx.open && st.w == ctx.ring.w && st.files == files && st.got == map[]
                   && |st.plan| == m && Gather.Inv(st) && st.w.sqLen == 0 && |st.w.reqs| == m
                   && BatchPlan(st.plan, bufs, paths, i, fileSize) && |st.w.mem| == i + m
                   && ShortReads(st.w.trace, files) == old(ShortReads(ctx.ring.w.trace, files))
                   && SameResults(st.w.trace, old(ctx.ring.w.trace))
  {
    hide *;
    StartOfBatch(ctx.ring.w);
    SameResultsStart(ctx.ring.w.trace);
    st := Gather.State(ctx.ring.w, [], map[], files);
    bufs := [];
    EmptyPlan(paths, i, fileSize);
    ok := true;
    var j := 0;
    while j < m
      invariant j <= m && ctx.Valid() && ctx.open && ok
      invariant st.w == ctx.ring.w && st.files == files && st.got == map[] && |st.plan| == j
      invariant Gather.Inv(st) && st.w.sqLen == 0 && |st.w.reqs| == j
      invariant BatchPlan(st.plan, bufs, paths, i, fileSize) && |st.w.mem| == i + j
      invariant ShortReads(st.w.trace, files) == old(ShortReads(ctx.ring.w.trace, files))
      invariant SameResults(st.w.trace, old(ctx.ring.w.trace))
      invariant ctx.ring.faults == old(ctx.ring.faults)
    {
      var buf;
      PlanGrows(st.plan, bufs, paths, i, fileSize, i + j);
      ghost var plan, t := st.plan, st.w.trace;
      ok, buf, st := Issue(ctx, paths[i + j], fileSize, 0, j, st);
      if !ok {
        return;
      }
      PlanGrows(plan, bufs, paths, i, fileSize, buf);
      SameResultsJoin(st.w.trace, t, old(ctx.ring.w.trace));
      bufs, j := bufs + [buf], j + 1;
    }
  }

  lemma SameResultsStart(t: Trace)
    ensures SameResults(t, t)
  {
  }

  lemma SameResultsJoin(t2: Trace, t1: Trace, t0: Trace)
    requires SameResults(t2, t1) && SameResults(t1, t0)
    ensures SameResults(t2, t0)
  {
    forall q ensures ResultOf(t2, q) == ResultOf(t0, q) {
      assert ResultOf(t2, q) == ResultOf(t1, q);
    }
  }

  lemma Taking(st: Gather.State, v: World, pair: Pair, t0: Trace) returns (st1: Gather.State)
    requires Gather.Inv(st) && Gather.Full(st.w.trace, st.plan, st.got, st.files, t0) && TookOne(st.w, v, pair)
    requires Gather.Heard(st.w.trace, st.plan, st.got, t0)
    ensures |v.reqs| == |st.w.reqs| - 1 && v.sqLen == st.w.sqLen
    ensures pair.res >= 0 ==>
              && pair.ud < |st.plan| && st1 == Gather.State(v, st.plan, st.got[pair.ud := pair.res], st.files)
              && Gather.Inv(st1) && Gather.Full(v.trace, st1.plan, st1.got, st1.files, t0)
              && Gather.Heard(v.trace, st1.plan, st1.got, t0) && |v.mem| == |st.w.mem|
              && st.plan[pair.ud].buf < |v.mem| && pair.res <= |v.mem[st.plan[pair.ud].buf]|
              && v.mem[st.plan[pair.ud].buf][..pair.res] == Piece(st.files, st.plan[pair.ud], pair.res)
  {
    TookKeepsMemory(st, v, pair);
    hide Gather.Inv, Gather.Full, Gather.Heard, TookOne;
    Gather.TakeGoes(st, v, pair, t0);
    st1 := st;
    if pair.res >= 0 {
      st1 := Gather.Taken(st, v, pair);
      BufferIsPiece(st1, pair.ud);
    }
  }

  lemma TookKeepsMemory(st: Gather.State, v: World, pair: Pair)
    requires Gather.Inv(st) && TookOne(st.w, v, pair)
    ensures |v.mem| == |st.w.mem|
  {
    var sched, id :| Run(st.w, sched).IsDone(id) && v == Reap(Run(st.w, sched), id)
                     && pair == Pair(Run(st.w, sched).reqs[id].sqe.ud, Run(st.w, sched).reqs[id].stage.res);
    RunKeepsValid(st.w, sched);
  }

  /** Takes as many completions, in any order, and stores each piece in its place. */
  method TakeBatch(ctx: Ctx, out: array<Option<seq<Byte>>>, bufs: seq<nat>, i: nat, m: nat, ghost t0: Trace,
                   ghost st0: Gather.State) returns (ok: bool, ghost st: Gather.State)
    requires ctx.Valid() && ctx.open && st0.w == ctx.ring.w && st0.w.sqLen == 0 && |st0.w.reqs| == m
    requires Gather.Inv(st0) && Gather.Full(st0.w.trace, st0.plan, st0.got, st0.files, t0) && |bufs| == |st0.plan|
    requires Gather.Heard(st0.w.trace, st0.plan, st0.got, t0)
    requires forall k | 0 <= k < |bufs| :: bufs[k] == st0.plan[k].buf
    requires Stored(out[..], out[..], st0, i) && i + |st0.plan| <= out.Length
    modifies ctx, ctx.ring, out
    ensures ok ==> ctx.ring.faults == old(ctx.ring.faults)
    ensures !ok ==> exists e :: ctx.ring.faults == old(ctx.ring.faults) + [e]
    ensures ok ==> && ctx.Valid() && ctx.open && st.w == ctx.ring.w && st.w.sqLen == 0 && |st.w.reqs| == 0
                   && st.plan == st0.plan && st.files == st0.files && Gather.Inv(st)
                   && Gather.Full(st.w.trace, st.plan, st.got, st.files, t0) && Stored(out[..], old(out[..]), st, i)
                   && Gather.Heard(st.w.trace, st.plan, st.got, t0) && |st.w.mem| == |st0.w.mem|
  {
    hide *;
    st, ok := st0, true;
    ghost var before := out[..];
    var left := m;
    while left > 0
      invariant ctx.Valid() && ctx.open && st.w == ctx.ring.w && st.w.sqLen == 0 && |st.w.reqs| == left && ok
      invariant st.plan == st0.plan && st.files == st0.files && Gather.Inv(st)
      invariant Gather.Full(st.w.trace, st.plan, st.got, st.files, t0) && Stored(out[..], before, st, i)
      invariant Gather.Heard(st.w.trace, st.plan, st.got, t0) && |st.w.mem| == |st0.w.mem|
      invariant ctx.ring.faults == old(ctx.ring.faults)
    {
      InFlight(st);
      var reply, sched, id := ctx.WaitCompletion();
      if !reply.Returned? {
        return false, st;
      }
      var pair := reply.value;
      ghost var st1 := Taking(st, ctx.ring.w, pair, t0);
      if pair.res < 0 {
        return false, st;
      }
      StoreKeeps(out[..], before, st, st1, i, pair.ud, pair.res);
      ghost var now := out[..];
      out[i + pair.ud] := Some(ctx.ring.w.mem[bufs[pair.ud]][..pair.res]);
      assert out[..] == now[i + pair.ud := Some(Piece(st.files, st.plan[pair.ud], pair.res))];
      st := st1;
      left := left - 1;
    }
  }

  lemma InFlight(st: Gather.State)
    requires Gather.Inv(st) && st.w.sqLen == 0 && |st.w.reqs| > 0
    ensures st.w.Waitable()
  {
    SomethingToWaitFor(st.w);
  }

  lemma NothingTaken(st: Gather.State, t0: Trace, out: seq<Option<seq<Byte>>>, i: nat)
    requires st.got == map[] && ShortReads(st.w.trace, st.files) == ShortReads(t0, st.files) && i + |st.plan| <= |out|
    requires SameResults(st.w.trace, t0)
    ensures Gather.Heard(st.w.trace, st.plan, st.got, t0)
    ensures Gather.Full(st.w.trace, st.plan, st.got, st.files, t0) && Stored(out, out, st, i)
  {
  }

  /** One batch of the loader. */
  method LoadBatch(ctx: Ctx, out: array<Option<seq<Byte>>>, paths: seq<nat>, i: nat, m: nat, fileSize: nat,
                   ghost batch: nat, ghost files: seq<seq<Byte>>) returns (ok: bool)
    requires 0 < batch && m <= batch && i % batch == 0
    requires Rest(ctx, files, i) && i + m <= |paths| == out.Length && m < INT64
    requires forall k | 0 <= k < |paths| :: paths[k] < |files|
    modifies ctx, ctx.ring, out
    ensures ok ==> ctx.ring.faults == old(ctx.ring.faults)
    ensures !ok ==> exists e :: ctx.ring.faults == old(ctx.ring.faults) + [e]
    ensures ok ==>
              && Rest(ctx, files, i + m)
              && Filled(out[..], files, paths, i, i + m, fileSize, batch, ctx.ring.w.trace,
                        ShortReads(ctx.ring.w.trace, files) == old(ShortReads(ctx.ring.w.trace, files)))
              && ShortReads(ctx.ring.w.trace, files) >= old(ShortReads(ctx.ring.w.trace, files))
              && (forall k | 0 <= k < i || i + m <= k < out.Length :: out[k] == old(out[k]))
              && forall k | 0 <= k < i ::
                   ResultOf(ctx.ring.w.trace, ShardRead(paths, k, fileSize, batch)) ==
                   old(ResultOf(ctx.ring.w.trace, ShardRead(paths, k, fileSize, batch)))
  {
    hide Gather.Inv, ShortReads, World.Valid, World.Waitable, Filled, Pins;
    ghost var t0 := ctx.ring.w.trace;
    ghost var st;
    var bufs, ret;
    ok, bufs, st := IssueBatch(ctx, paths, i, m, fileSize, files);
    if !ok {
      return;
    }
    ret := ctx.SubmitNothing();
    if ret < 0 {
      return false;
    }
    NothingTaken(st, t0, out[..], i);
    ok, st := TakeBatch(ctx, out, bufs, i, m, t0, st);
    if ok {
      AllTaken(st);
      BatchFilled(out[..], old(out[..]), st, bufs, paths, i, fileSize, batch, t0);
    }
  }

  /** A piece for each path: as many bytes from the start of its file as its read, tagged with its place in its
      batch, reported; without a short read all there is, up to the size of the first file. */
  ghost predicate Loaded(pieces: seq<seq<Byte>>, files: seq<seq<Byte>>, paths: seq<nat>, batch: nat, t: Trace)
    requires 0 < batch && forall k | 0 <= k < |paths| :: paths[k] < |files|
  {
    && |pieces| == |paths|
    && forall k | 0 <= k < |paths| ::
         var file, size := files[paths[k]], |files[paths[0]]|;
         && |pieces[k]| <= Min(size, |file|) && pieces[k] == file[..|pieces[k]|]
         && |pieces[k]| == ResultOf(t, Sqe(Dir.Read, paths[k], k, 0, size, 0, k % batch))
         && (ShortReads(t, files) == 0 ==> pieces[k] == file[..Min(size, |file|)])
  }

  lemma NothingLoaded(files: seq<seq<Byte>>, paths: seq<nat>, batch: nat)
    requires 0 < batch && paths == []
    ensures Loaded([], files, paths, batch, Start)
  {
  }

  lemma NothingFilled(out: seq<Option<seq<Byte>>>, files: seq<seq<Byte>>, paths: seq<nat>, size: nat, batch: nat)
    requires 0 < batch && |out| == |paths|
    ensures Filled(out, files, paths, 0, 0, size, batch, Start, true) && ShortReads(Start, files) == 0
  {
  }

  lemma AllLoaded(out: seq<Option<seq<Byte>>>, files: seq<seq<Byte>>, paths: seq<nat>, size: nat, batch: nat, t: Trace)
    requires 0 < batch && (forall k | 0 <= k < |paths| :: paths[k] < |files|) && paths != []
    requires size == |files[paths[0]]|
    requires Filled(out, files, paths, 0, |paths|, size, batch, t, ShortReads(t, files) == 0)
    ensures Loaded(Present(out), files, paths, batch, t)
  {
    hide ShortReads, ResultOf;
    AllPresent(out);
  }

  /** load_pyuring_batched on a context of its own; paths name files by number. */
  method LoadBatched(files: seq<seq<Byte>>, paths: seq<nat>, batchSize: nat)
      returns (result: Option<seq<seq<Byte>>>, trace: Trace, faults: seq<int>)
    requires 0 < batchSize < U64 && |paths| < INT64 && forall k | 0 <= k < |paths| :: paths[k] < |files|
    // it fails if and only if a call or a completion failed
    ensures result.None? <==> faults != []
    // the pieces come back in the order of the paths, each from the start of its file
    ensures result.Some? ==> Loaded(result.value, files, paths, batchSize, trace)
  {
    hide Pins, Ctx.Valid, World.Valid, Filled, ShortReads, ResultOf, Loaded;
    if |paths| == 0 {
      NothingLoaded(files, paths, batchSize);
      return Some([]), Start, [];
    }
    var fileSize := |files[paths[0]]|;
    var out := new Option<seq<Byte>>[|paths|](_ => None);
    var spare: nat :| true;
    var ring := new Ring(Max(batchSize, 64) + spare, [], files);
    var ctx := new Ctx(ring);
    var i := 0;
    NothingFilled(out[..], files, paths, fileSize, batchSize);
    while i < |paths|
      invariant i % batchSize == 0
      invariant Rest(ctx, files, Min(i, |paths|)) && fresh(ctx) && fresh(ctx.ring) && ctx.ring.faults == []
      invariant Filled(out[..], files, paths, 0, Min(i, |paths|), fileSize, batchSize, ctx.ring.w.trace,
                       ShortReads(ctx.ring.w.trace, files) == 0)
    {
      var m := Min(batchSize, |paths| - i);
      ghost var done, t := out[..], ctx.ring.w.trace;
      ghost var shorts := ShortReads(t, files);
      var ok := LoadBatch(ctx, out, paths, i, m, fileSize, batchSize, files);
      if !ok {
        return None, ctx.ring.w.trace, ctx.ring.faults;
      }
      FilledJoins(done, out[..], files, paths, i, i + m, fileSize, batchSize, t, ctx.ring.w.trace, shorts,
                  ShortReads(ctx.ring.w.trace, files));
      ModAdd(i, 1, batchSize);
      i := i + batchSize;
    }
    AllLoaded(out[..], files, paths, fileSize, batchSize, ctx.ring.w.trace);
    return Some(Present(out[..])), ctx.ring.w.trace, ctx.ring.faults;
  }

  /** The list without its Nones. */
  function Present<T>(out: seq<Option<T>>): seq<T> {
    if out == [] then []
    else if out[0].Some? then [out[0].value] + Present(out[1..])
    else Present(out[1..])
  }

  lemma {:induction false} AllPresent<T>(out: seq<Option<T>>)
    requires forall k | 0 <= k < |out| :: out[k].Some?
    ensures |Present(out)| == |out| && forall k | 0 <= k < |out| :: Present(out)[k] == out[k].value
  {
    if out != [] {
      AllPresent(out[1..]);
    }
  }

  lemma FilledJoins(before: seq<Option<seq<Byte>>>, out: seq<Option<seq<Byte>>>, files: seq<seq<Byte>>, paths: seq<nat>,
                    i: nat, to: nat, size: nat, batch: nat, t: Trace, t1: Trace, was: nat, now: nat)
    requires Filled(before, files, paths, 0, i, size, batch, t, was == 0) && was <= now
    requires Filled(out, files, paths, i, to, size, batch, t1, now == was)
    requires forall k | 0 <= k < i ::
               ResultOf(t1, ShardRead(paths, k, size, batch)) == ResultOf(t, ShardRead(paths, k, size, batch))
    requires forall k | 0 <= k < i :: out[k] == before[k]
    ensures Filled(out, files, paths, 0, to, size, batch, t1, now == 0)
  {
  }

  // ---------- the block-wise reader ----------

  const BLOCK: nat := 64 * 1024

  /** The reads of the blocks of one file, into buffers numbered from base on. */
  ghost predicate BlockPlan(plan: seq<Sqe>, bufs: seq<nat>, base: nat, fd: nat, block: nat, size: nat) {
    && |plan| == |bufs|
    && forall k | 0 <= k < |plan| :: k * block < size && bufs[k] == base + k
         && plan[k] == Sqe(Dir.Read, fd, base + k, 0, Min(block, size - k * block), k * block, k)
  }

  lemma BlockPlanGrows(plan: seq<Sqe>, bufs: seq<nat>, base: nat, fd: nat, block: nat, size: nat, ln: nat, buf: nat)
    requires BlockPlan(plan, bufs, base, fd, block, size) && |plan| * block < size && buf == base + |plan|
    requires ln == if block < size - |plan| * block then block else size - |plan| * block
    ensures var k := |plan|;
            BlockPlan(plan + [Sqe(Dir.Read, fd, buf, 0, ln, k * block, k)], bufs + [buf], base, fd, block, size)
  {
  }

  /** Blocks in all. */
  function BlockCount(size: nat, block: nat): nat
    requires 0 < block
  {
    (size + block - 1) / block
  }

  lemma BlockStarts(size: nat, block: nat, k: nat)
    requires 0 < block && k < BlockCount(size, block)
    ensures k * block < size
  {
    var n := BlockCount(size, block);
    assert n * block <= size + block - 1;
    Times(k, n, block);
  }

  lemma BlocksCover(size: nat, block: nat)
    requires 0 < block
    ensures BlockCount(size, block) * block >= size
  {
  }

  lemma OneMoreBlock(file: seq<Byte>, at: nat, block: nat)
    requires at < |file|
    ensures file[..Min(at, |file|)] + file[at..at + Min(block, |file| - at)] == file[..Min(at + block, |file|)]
  {
  }

  /** Full blocks in order make up the file. */
  lemma {:induction false} BlocksJoin(file: seq<Byte>, block: nat, parts: seq<seq<Byte>>)
    requires 0 < block
    requires forall k | 0 <= k < |parts| :: k * block < |file|
               && parts[k] == file[k * block..k * block + Min(block, |file| - k * block)]
    ensures Join(parts) == file[..Min(|parts| * block, |file|)]
  {
    hide Join;
    JoinNone<Byte>();
    if parts != [] {
      var n := |parts| - 1;
      BlocksJoin(file, block, parts[..n]);
      JoinSnoc(parts[..n], parts[n]);
      assert parts == parts[..n] + [parts[n]];
      assert |parts| * block == n * block + block;
      OneMoreBlock(file, n * block, block);
    }
  }

  /** Issues the reads of the blocks. */
  method IssueBlocks(ctx: Ctx, fd: nat, block: nat, size: nat, n: nat, ghost files: seq<seq<Byte>>)
      returns (ok: bool, bufs: seq<nat>, ghost st: Gather.State)
    requires ctx.Valid() && ctx.open && 0 < ctx.ring.entries && ctx.ring.w.files == files && fd < |files|
    requires ctx.ring.w.reqs == map[] && ctx.ring.w.sqLen == 0 && ctx.ring.w.Valid()
    requires 0 < block && n == BlockCount(size, block) && size < INT64
    modifies ctx, ctx.ring
    ensures ok ==> ctx.ring.faults == old(ctx.ring.faults)
    ensures !ok ==> exists e :: ctx.ring.faults == old(ctx.ring.faults) + [e]
    ensures ctx.Valid() && ctx.open && Pairs(ctx.ring.w.trace) == old(Pairs(ctx.ring.w.trace))
    ensures ok ==> && st.w == ctx.ring.w && st.files == files && st.got == map[]
                   && |st.plan| == n && Gather.Inv(st) && st.w.sqLen == 0 && |st.w.reqs| == n
                   && BlockPlan(st.plan, bufs, |old(ctx.ring.w.mem)|, fd, block, size)
                   && ShortReads(st.w.trace, files) == old(ShortReads(ctx.ring.w.trace, files))
                   && SameResults(st.w.trace, old(ctx.ring.w.trace))
  {
    hide *;
    StartOfBatch(ctx.ring.w);
    st := Gather.State(ctx.ring.w, [], map[], files);
    bufs, ok := [], true;
    ghost var base := |ctx.ring.w.mem|;
    SameResultsStart(ctx.ring.w.trace);
    NoBlocks(base, fd, block, size);
    var i := 0;
    while i < n
      invariant i <= n && ctx.Valid() && ctx.open && ok
      invariant Pairs(ctx.ring.w.trace) == old(Pairs(ctx.ring.w.trace))
      invariant st.w == ctx.ring.w && st.files == files && st.got == map[] && |st.plan| == i
      invariant Gather.Inv(st) && st.w.sqLen == 0 && |st.w.reqs| == i
      invariant BlockPlan(st.plan, bufs, base, fd, block, size) && |st.w.mem| == base + i
      invariant SameResults(st.w.trace, old(ctx.ring.w.trace))
      invariant ShortReads(st.w.trace, files) == old(ShortReads(ctx.ring.w.trace, files))
      invariant ctx.ring.faults == old(ctx.ring.faults)
    {
      BlockStarts(size, block, i);
      var off := i * block;
      var ln := if block < size - off then block else size - off;
      var buf;
      ghost var plan, t := st.plan, st.w.trace;
      ok, buf, st := Issue(ctx, fd, ln, off, i, st);
      if !ok {
        return;
      }
      BlockPlanGrows(plan, bufs, base, fd, block, size, ln, buf);
      SameResultsJoin(st.w.trace, t, old(ctx.ring.w.trace));
      bufs, i := bufs + [buf], i + 1;
    }
  }

  lemma NoBlocks(base: nat, fd: nat, block: nat, size: nat)
    ensures BlockPlan([], [], base, fd, block, size)
  {
  }

  /** The loop over wait_completion: got[tag] = n for every completion, in any order. */
  method WaitForBlocks(ua: UringAsync, n: nat, loop: nat, ghost t0: Trace, ghost st0: Gather.State)
      returns (got: Option<map<nat, nat>>, cancelled: bool, ghost st: Gather.State)
    requires ua.Valid() && ua.ctx.open && !ua.closed && ua.waiters == [] && (ua.loop == None || ua.loop == Some(loop))
    requires st0.w == ua.ctx.ring.w && st0.w.sqLen == 0 && |st0.w.reqs| == n && st0.got == map[]
    requires Gather.Inv(st0) && Gather.Full(st0.w.trace, st0.plan, st0.got, st0.files, t0)
    requires Gather.Heard(st0.w.trace, st0.plan, st0.got, t0)
    modifies ua, ua.ctx, ua.ctx.ring
    ensures cancelled ==> got.None?
    ensures got.Some? ==> ua.ctx.ring.faults == old(ua.ctx.ring.faults)
    ensures got.None? && !cancelled ==> exists e :: ua.ctx.ring.faults == old(ua.ctx.ring.faults) + [e]
    ensures cancelled ==> || ua.ctx.ring.faults == old(ua.ctx.ring.faults)
                          || exists e :: ua.ctx.ring.faults == old(ua.ctx.ring.faults) + [e]
    ensures got.Some? ==> && st.w == ua.ctx.ring.w && |st.w.reqs| == 0 && st.plan == st0.plan && st.files == st0.files
                          && Gather.Inv(st) && Gather.Full(st.w.trace, st.plan, st.got, st.files, t0)
                          && Gather.Heard(st.w.trace, st.plan, st.got, t0) && got.value == st.got
  {
    hide Gather.Inv, Gather.Full, Gather.Heard, Inv, Pairs, LogPairs, Ctx.Valid, World.Valid, World.Waitable, TookOne,
         WaitFailedOnce, WaitTook, WaitedAtMostOnce;
    st, cancelled := st0, false;
    var taken: map<nat, nat> := map[];
    var left := n;
    while left > 0
      invariant ua.Valid() && ua.ctx.open && !ua.closed && ua.waiters == []
      invariant (ua.loop == None || ua.loop == Some(loop))
      invariant st.w == ua.ctx.ring.w && st.w.sqLen == 0 && |st.w.reqs| == left && taken == st.got
      invariant st.plan == st0.plan && st.files == st0.files && Gather.Inv(st)
      invariant Gather.Full(st.w.trace, st.plan, st.got, st.files, t0)
      invariant Gather.Heard(st.w.trace, st.plan, st.got, t0)
      invariant ua.ctx.ring.faults == old(ua.ctx.ring.faults)
    {
      InFlight(st);
      var fut := ua.WaitCompletion(loop);
      var woke := Await(ua, fut.value);
      if !woke.Got? {
        WaitFaults(st.w, ua.ctx.ring.w, old(ua.ctx.ring.faults), ua.ctx.ring.faults);
        return None, woke.TaskCancelled?, st;
      }
      var pair := woke.pair;
      WaitResult(st.w, ua.ctx.ring.w, old(ua.ctx.ring.faults), ua.ctx.ring.faults, pair);
      ghost var st1 := Taking(st, ua.ctx.ring.w, pair, t0);
      if pair.res < 0 {
        return None, false, st;
      }
      taken := taken[pair.ud := pair.res];
      st := st1;
      left := left - 1;
    }
    return Some(taken), false, st;
  }

  /** read_file_via_uring: read in blocks, wait for all of them, and join. */
  method ReadFileViaUring(ua: UringAsync, fd: nat, loop: nat)
      returns (r: Option<seq<Byte>>, cancelled: bool, ghost parts: seq<seq<Byte>>)
    requires ua.Valid() && ua.ctx.open && !ua.closed && ua.waiters == [] && (ua.loop == None || ua.loop == Some(loop))
    requires ua.ctx.ring.w.reqs == map[] && ua.ctx.ring.w.sqLen == 0 && 0 < ua.ctx.ring.entries
    requires fd < |ua.ctx.ring.w.files| && |ua.ctx.ring.w.files[fd]| < INT64
    modifies ua, ua.ctx, ua.ctx.ring
    // it fails if and only if a call or a completion failed, or the task was cancelled; a cancelled task may
    // have consumed one more completion
    ensures cancelled ==> r.None?
    ensures r.Some? ==> ua.ctx.ring.faults == old(ua.ctx.ring.faults)
    ensures r.None? && !cancelled ==> exists e :: ua.ctx.ring.faults == old(ua.ctx.ring.faults) + [e]
    ensures cancelled ==> || ua.ctx.ring.faults == old(ua.ctx.ring.faults)
                          || exists e :: ua.ctx.ring.faults == old(ua.ctx.ring.faults) + [e]
    // the result is what the reads of the blocks reported, block by block
    ensures r.Some? ==>
              && r.value == Join(parts)
              && PartsOf(parts, ua.ctx.ring.w.trace, old(ua.ctx.ring.w.files[fd]), fd, |old(ua.ctx.ring.w.mem)|)
    // without a short read that is the file
    ensures var files := old(ua.ctx.ring.w.files);
            r.Some? && ShortReads(ua.ctx.ring.w.trace, files) == old(ShortReads(ua.ctx.ring.w.trace, files)) ==>
              r.value == files[fd]
    ensures old(ua.ctx.ring.w.files[fd]) == [] ==> r == Some([])
  {
    hide Gather.Inv, Gather.Full, Gather.Heard, Inv, Pairs, LogPairs, Pins, World.Valid, TookOne, ShortReads, BlockPlan,
         BlockCount, SameResults, PartsOf;
    parts := [];
    ghost var files, t0, base := ua.ctx.ring.w.files, ua.ctx.ring.w.trace, |ua.ctx.ring.w.mem|;
    var size := |ua.ctx.ring.w.files[fd]|;
    if size == 0 {
      NoParts(t0, files[fd], fd, base);
      return Some([]), false, [];
    }
    var block := Min(size, BLOCK);
    var nblocks := BlockCount(size, block);
    var ok, bufs;
    ghost var st;
    ok, bufs, st := IssueBlocks(ua.ctx, fd, block, size, nblocks, files);
    if !ok {
      return None, false, [];
    }
    var ret := ua.ctx.SubmitNothing();
    if ret < 0 {
      return None, false, [];
    }
    FullAtStart(st, t0);
    var got;
    got, cancelled, st := WaitForBlocks(ua, nblocks, loop, t0, st);
    if got.None? {
      return None, cancelled, [];
    }
    AllTaken(st);
    var pieces: seq<seq<Byte>> := [];
    var i := 0;
    while i < nblocks
      invariant i == |pieces| <= nblocks && ua.ctx.ring.w == st.w && ua.ctx.ring.faults == old(ua.ctx.ring.faults)
      invariant forall k | 0 <= k < i :: k in st.got && pieces[k] == Piece(files, st.plan[k], st.got[k])
    {
      BufferIsPiece(st, i);
      BlockAt(st.plan, bufs, base, fd, block, size, i);
      pieces := pieces + [ua.ctx.ring.w.mem[bufs[i]][..got.value[i]]];
      i := i + 1;
    }
    PartsReported(st, bufs, base, fd, pieces, t0);
    PartsJoin(st, bufs, base, fd, block, size, pieces, t0);
    return Some(Join(pieces)), false, pieces;
  }

  /** What the read of the block at off brought: as many bytes as it reported. */
  ghost predicate PartOf(part: seq<Byte>, t: Trace, file: seq<Byte>, fd: nat, buf: nat, off: nat, len: nat, tag: nat) {
    var n := ResultOf(t, Sqe(Dir.Read, fd, buf, 0, len, off, tag));
    0 <= n <= len && off + n <= |file| && part == file[off..off + n]
  }

  /** One part for each block of at most 64 KiB. */
  ghost predicate PartsOf(parts: seq<seq<Byte>>, t: Trace, file: seq<Byte>, fd: nat, base: nat) {
    var size, block := |file|, Min(|file|, 65536);
    && |parts| == (if size == 0 then 0 else (size + block - 1) / block)
    && forall k | 0 <= k < |parts| ::
         k * block < size
         && PartOf(parts[k], t, file, fd, base + k, k * block, Min(block, size - k * block), k)
  }

  lemma NoParts(t: Trace, file: seq<Byte>, fd: nat, base: nat)
    requires file == []
    ensures PartsOf([], t, file, fd, base) && Join<Byte>([]) == []
  {
  }

  lemma PartReported(files: seq<seq<Byte>>, q: Sqe, part: seq<Byte>, t: Trace, n: nat)
    requires q.fd < |files| && part == Piece(files, q, n) && ResultOf(t, q) == n && q.off < |files[q.fd]|
    requires q == Sqe(Dir.Read, q.fd, q.buf, 0, q.len, q.off, q.ud)
    requires n <= Available(files[q.fd], q.off, q.len)
    ensures PartOf(part, t, files[q.fd], q.fd, q.buf, q.off, q.len, q.ud)
  {
  }

  lemma PartsReported(st: Gather.State, bufs: seq<nat>, base: nat, fd: nat, parts: seq<seq<Byte>>, t0: Trace)
    requires fd < |st.files| && st.files[fd] != []
    requires var (size, block) := (|st.files[fd]|, Min(|st.files[fd]|, BLOCK));
             BlockPlan(st.plan, bufs, base, fd, block, size) && |parts| == |st.plan| == BlockCount(size, block)
    requires forall k | 0 <= k < |parts| :: k in st.got && parts[k] == Piece(st.files, st.plan[k], st.got[k])
               && st.got[k] <= Available(st.files[st.plan[k].fd], st.plan[k].off, st.plan[k].len)
    requires Gather.Heard(st.w.trace, st.plan, st.got, t0)
    ensures PartsOf(parts, st.w.trace, st.files[fd], fd, base)
  {
    hide PartOf, Piece, Available;
    var size, block := |st.files[fd]|, Min(|st.files[fd]|, BLOCK);
    forall k | 0 <= k < |parts|
      ensures k * block < size
      ensures PartOf(parts[k], st.w.trace, st.files[fd], fd, base + k, k * block, Min(block, size - k * block), k)
    {
      PartReported(st.files, st.plan[k], parts[k], st.w.trace, st.got[k]);
    }
  }

  lemma FullAtStart(st: Gather.State, t0: Trace)
    requires st.got == map[] && ShortReads(st.w.trace, st.files) == ShortReads(t0, st.files)
    requires SameResults(st.w.trace, t0)
    ensures Gather.Full(st.w.trace, st.plan, st.got, st.files, t0) && Gather.Heard(st.w.trace, st.plan, st.got, t0)
  {
  }

  lemma BlockAt(plan: seq<Sqe>, bufs: seq<nat>, base: nat, fd: nat, block: nat, size: nat, i: nat)
    requires BlockPlan(plan, bufs, base, fd, block, size) && i < |plan|
    ensures i < |bufs| && plan[i].buf == bufs[i]
  {
  }

  /** All that a read asks for, when the file has it. */
  lemma WholePiece(files: seq<seq<Byte>>, q: Sqe)
    requires q.fd < |files| && q.off + q.len <= |files[q.fd]|
    ensures Piece(files, q, Available(files[q.fd], q.off, q.len)) == files[q.fd][q.off..q.off + q.len]
  {
  }

  lemma PartsJoin(st: Gather.State, bufs: seq<nat>, base: nat, fd: nat, block: nat, size: nat, parts: seq<seq<Byte>>,
                  t0: Trace)
    requires BlockPlan(st.plan, bufs, base, fd, block, size)
    requires 0 < block && |parts| == |st.plan| == BlockCount(size, block)
    requires fd < |st.files| && |st.files[fd]| == size
    requires forall k | 0 <= k < |parts| :: k in st.got && parts[k] == Piece(st.files, st.plan[k], st.got[k])
    requires Gather.Full(st.w.trace, st.plan, st.got, st.files, t0)
    ensures ShortReads(st.w.trace, st.files) == ShortReads(t0, st.files) ==> Join(parts) == st.files[fd]
  {
    hide ShortReads, BlockCount, Piece, Slice, Available;
    var file := st.files[fd];
    if ShortReads(st.w.trace, st.files) == ShortReads(t0, st.files) {
      forall k | 0 <= k < |parts|
        ensures k * block < |file| && parts[k] == file[k * block..k * block + Min(block, |file| - k * block)]
      {
        assert st.got[k] == Available(st.files[st.plan[k].fd], st.plan[k].off, st.plan[k].len);
        WholePiece(st.files, st.plan[k]);
      }
      BlocksJoin(file, block, parts);
      BlocksCover(size, block);
      assert file[..|file|] == file;
    }
  }
}
