/**
 uring_write_newfile_dynamic: keeps up to qd writes of pattern data in flight, queues and
 reaps them in batches, and reuses slot numbers while their writes are still outstanding.
 */
module WriteNewFile {
  import opened IoUring
  import opened ByteFlow
  import opened ChunkSize
  import opened Pipeline
  import opened Arithmetic

  const DST: nat := 0

  /** Byte k of slot i's pattern buffer: capital letters, going round. */
  function Pattern(i: nat, k: nat): Byte {
    Letter(65, i, k)
  }

  function SlotAt(off: nat, bs: nat, qd: nat): (slot: nat)
    requires 0 < bs && 0 < qd
    ensures slot < qd
  {
    (off / bs) % qd
  }

  /** What a chunk puts into the file: the start of its slot's pattern. */
  function Bytes(c: Chunk, bs: nat, qd: nat): seq<Byte>
    requires 0 < bs && 0 < qd
  {
    seq(c.len, k requires 0 <= k < c.len => Pattern(SlotAt(c.off, bs, qd), k))
  }

  /** What a list of chunks puts into the file, one after the other. */
  function Fill(chunks: seq<Chunk>, bs: nat, qd: nat): seq<Byte>
    requires 0 < bs && 0 < qd
  {
    if chunks == [] then []
    else Fill(chunks[..|chunks| - 1], bs, qd) + Bytes(chunks[|chunks| - 1], bs, qd)
  }

  datatype Config = Config(sizeCb: Option<SizeCb>, total: nat, bs: nat, qd: nat, progressCb: Option<ProgressCb>)
  {
    ghost predicate Ok() {
      && 0 < bs <= total && 0 < qd < U32 && total < U64 / 2 && (sizeCb.Some? ==> bs <= CAP)
    }

    function MaxBuf(): nat
      requires 0 < bs
    {
      Sizing(sizeCb, total, bs).0
    }
  }

  datatype State = State(w: World, nextOff: nat, calls: nat)

  ghost predicate Patterned(mem: seq<seq<Byte>>, qd: nat, maxBuf: nat) {
    && Buffers(mem, qd, maxBuf)
    && forall i, k | 0 <= i < qd && 0 <= k < maxBuf :: mem[i][k] == Pattern(i, k)
  }

  /** Only writes, tagged as writes with a slot number in range. */
  ghost predicate AllWrites(reqs: map<nat, Req>, qd: nat) {
    forall id | id in reqs :: reqs[id].sqe.dir.Write? && UdOp(reqs[id].sqe.ud) == 1 && UdSlot(reqs[id].sqe.ud) < qd
  }

  /** The contents that the chunks issued so far give the file. */
  ghost function Expected(t: Trace, c: Config): seq<Byte>
    requires 0 < c.bs && 0 < c.qd
  {
    Fill(ChunksOf(t, Write), c.bs, c.qd)
  }

  /** Every byte issued is in flight, written or lost; never more than qd requests. */
  ghost predicate Accounts(w: World, nextOff: nat, qd: nat) {
    && Balanced(w) && |w.reqs| <= qd && Bounded(w.trace, qd)
    && IssuedBytes(w.trace, Write) == nextOff && Tiles(w.trace, Write)
    && Moved(w.trace, Write) + Lost(w.trace) + OpenBytes(w.reqs, w.nextId) == nextOff
  }

  ghost predicate Content(w: World, nextOff: nat, c: Config)
    requires 0 < c.bs && 0 < c.qd
  {
    && Patterned(w.mem, c.qd, c.MaxBuf()) && AllWrites(w.reqs, c.qd)
    && |w.files| == 1 && |Expected(w.trace, c)| == nextOff
    && Flow(w, DST, Expected(w.trace, c), nextOff)
    && (Lost(w.trace) == 0 ==> InPlace(w, DST, Expected(w.trace, c), nextOff))
    && Landed(w.trace, DST, w.files[DST], Expected(w.trace, c))
  }

  ghost predicate OnTrack(t: Trace, nextOff: nat, calls: nat, c: Config) {
    && OnPlan(t, Write, c.sizeCb, calls, nextOff, c.total, c.bs)
    && Reports(t, c.total, c.progressCb) && !Canceled(t)
  }

  /** The invariant; a completed write may still be waiting for its report. */
  ghost predicate Going(st: State, c: Config) {
    && c.Ok() && st.w.Valid() && st.nextOff <= c.total
    && Content(st.w, st.nextOff, c)
    && Accounts(st.w, st.nextOff, c.qd)
    && OnTrack(st.w.trace, st.nextOff, st.calls, c)
  }

  ghost predicate Running(st: State, c: Config) {
    Going(st, c) && AllReported(st.w.trace, c.progressCb)
  }

  // ---------- the kernel, submission, reports ----------

  lemma SameRequestsKeepAccounts(w: World, v: World, nextOff: nat, qd: nat)
    requires SameRequests(w, v) && Accounts(w, nextOff, qd)
    ensures Accounts(v, nextOff, qd)
  {
    SameRequestsKeepBalance(w, v);
    assert |v.reqs.Keys| == |w.reqs.Keys|;
  }

  lemma KernelKeepsContent(w: World, nextOff: nat, c: Config, sched: Schedule)
    requires 0 < c.bs && 0 < c.qd && w.Valid() && Content(w, nextOff, c)
    ensures Content(Run(w, sched), nextOff, c)
  {
    var exp := Expected(w.trace, c);
    RunKeepsValid(w, sched);
    hide Flow, InPlace, Expected, Patterned, Run, Landed, Lost, World.Valid;
    RunKeepsFlow(w, DST, exp, nextOff, sched);
    RunKeepsMem(w, DST, exp, nextOff, sched);
    RunLands(w, w.trace, DST, exp, nextOff, sched);
  }

  lemma KernelGoes(st: State, c: Config, sched: Schedule)
    requires Going(st, c)
    ensures Going(st.(w := Run(st.w, sched)), c)
    ensures Run(st.w, sched).trace == st.w.trace && |Run(st.w, sched).reqs| == |st.w.reqs|
    ensures Run(st.w, sched).sqLen == st.w.sqLen
  {
    hide Content, Accounts, OnTrack;
    KernelKeepsContent(st.w, st.nextOff, c, sched);
    RunKeepsValid(st.w, sched);
    SameRequestsKeepAccounts(st.w, Run(st.w, sched), st.nextOff, c.qd);
  }

  lemma SubmitGoes(st: State, c: Config)
    requires Going(st, c)
    ensures Going(st.(w := Flush(st.w)), c)
    ensures Flush(st.w).trace == st.w.trace && |Flush(st.w).reqs| == |st.w.reqs| && Flush(st.w).sqLen == 0
  {
    FlushKeepsValid(st.w);
    assert Content(Flush(st.w), st.nextOff, c) by {
      FlushKeepsFlow(st.w, DST, Expected(st.w.trace, c), st.nextOff);
      hide Flow, InPlace, Expected, Patterned;
    }
    hide Content, Accounts, OnTrack;
    SameRequestsKeepAccounts(st.w, Flush(st.w), st.nextOff, c.qd);
  }

  // ---------- queueing a write ----------

  function NextChunk(st: State, c: Config): Chunk
    requires 0 < c.bs && st.nextOff < c.total
  {
    Chunk(st.nextOff, Want(c.sizeCb, st.calls, st.nextOff, c.total, c.bs, c.MaxBuf()))
  }

  function WriteOf(slot: nat, chunk: Chunk): Sqe
    requires slot < U32
  {
    Sqe(Write, DST, slot, 0, chunk.len, chunk.off, PackUd(1, slot))
  }

  function NextWrite(st: State, c: Config): Sqe
    requires 0 < c.bs && 0 < c.qd < U32 && st.nextOff < c.total
  {
    WriteOf(SlotAt(st.nextOff, c.bs, c.qd), NextChunk(st, c))
  }

  ghost predicate CanQueue(st: State, c: Config) {
    Running(st, c) && st.nextOff < c.total && |st.w.reqs| < c.qd
  }

  ghost function Queued(st: State, c: Config): State
    requires 0 < c.bs && 0 < c.qd < U32 && st.nextOff < c.total
  {
    var q := NextWrite(st, c);
    State(Push(st.w, q), st.nextOff + q.len, st.calls + 1)
  }

  lemma NextWriteFits(st: State, c: Config)
    requires CanQueue(st, c)
    ensures var q := NextWrite(st, c);
            && st.w.Fits(q) && 0 < q.len <= c.total - st.nextOff && q.len <= c.MaxBuf()
            && UdOp(q.ud) == 1 && UdSlot(q.ud) == q.buf < c.qd
  {
    SizingFits(c.sizeCb, c.total, c.bs);
    PackRoundTrip(1, SlotAt(st.nextOff, c.bs, c.qd));
    hide Flow, InPlace, Expected, Accounts, OnTrack, Sizing;
  }

  /** Queueing a write makes exactly its pattern bytes expected. */
  lemma ExpectedGrows(st: State, c: Config)
    requires CanQueue(st, c)
    ensures Expected(Queued(st, c).w.trace, c) == Expected(st.w.trace, c) + Bytes(NextChunk(st, c), c.bs, c.qd)
  {
    var chunks := ChunksOf(st.w.trace, Write);
    assert ChunksOf(Queued(st, c).w.trace, Write) == chunks + [NextChunk(st, c)];
    assert (chunks + [NextChunk(st, c)])[..|chunks|] == chunks;
  }

  lemma NextWriteOk(st: State, c: Config)
    requires CanQueue(st, c)
    ensures var q := NextWrite(st, c);
            var exp := Expected(st.w.trace, c) + Bytes(NextChunk(st, c), c.bs, c.qd);
            ReqOk(st.w, DST, exp, st.nextOff + q.len, Req(q, Stage.Queued))
  {
    hide Flow, InPlace, Expected, Accounts, OnTrack, Sizing, World.Valid, Want, PackUd, Config.MaxBuf;
    NextWriteFits(st, c);
  }

  lemma QueueFlow(st: State, c: Config)
    requires CanQueue(st, c)
    ensures var (v, exp) := (Queued(st, c), Expected(Queued(st, c).w.trace, c));
            && Flow(v.w, DST, exp, v.nextOff) && |exp| == v.nextOff
            && (InPlace(st.w, DST, Expected(st.w.trace, c), st.nextOff) ==> InPlace(v.w, DST, exp, v.nextOff))
            && Landed(v.w.trace, DST, v.w.files[DST], exp)
  {
    hide Landed, Flow, InPlace, Expected, Accounts, OnTrack, Sizing, ReqOk, Bytes, World.Valid, SlotAt, Want, Patterned,
         Lost;
    var q, exp, more := NextWrite(st, c), Expected(st.w.trace, c), Bytes(NextChunk(st, c), c.bs, c.qd);
    NextWriteFits(st, c);
    ExpectedGrows(st, c);
    BytesLength(NextChunk(st, c), c);
    ExtendKeepsFlow(st.w, DST, exp, st.nextOff, more);
    NextWriteOk(st, c);
    PushKeepsFlow(st.w, DST, exp + more, st.nextOff, q);
    ExtendLands(st.w.trace, DST, st.w.files[DST], exp, more);
    IssueLands(st.w.trace, st.w.files[DST], exp + more, q);
  }

  lemma IssueLands(t: Trace, file: seq<Byte>, exp: seq<Byte>, q: Sqe)
    requires Landed(t, DST, file, exp)
    ensures Landed(Then(t, Issued(q)), DST, file, exp)
  {
  }

  lemma BytesLength(chunk: Chunk, c: Config)
    requires 0 < c.bs && 0 < c.qd
    ensures |Bytes(chunk, c.bs, c.qd)| == chunk.len
  {
  }

  lemma QueueContent(st: State, c: Config)
    requires CanQueue(st, c)
    ensures Content(Queued(st, c).w, Queued(st, c).nextOff, c)
  {
    hide Flow, InPlace, Expected, Accounts, OnTrack, Sizing, World.Valid, SlotAt, Want, Patterned, World.Fits, Landed;
    NextWriteFits(st, c);
    QueueFlow(st, c);
  }

  lemma QueueAccounts(st: State, c: Config)
    requires CanQueue(st, c)
    ensures Accounts(Queued(st, c).w, Queued(st, c).nextOff, c.qd)
    ensures Queued(st, c).w.Valid() && |Queued(st, c).w.reqs| == |st.w.reqs| + 1
  {
    var q := NextWrite(st, c);
    NextWriteFits(st, c);
    hide Content, OnTrack, Sizing, Want;
    PushKeepsValid(st.w, q);
    PushKeepsBalance(st.w, q);
    assert |IssuedOps(Queued(st, c).w.trace)| == |ReapedOps(Queued(st, c).w.trace)| + |Queued(st, c).w.reqs|;
  }

  lemma QueueGoes(st: State, c: Config)
    requires CanQueue(st, c)
    ensures Running(Queued(st, c), c) && st.w.Fits(NextWrite(st, c)) && st.nextOff < Queued(st, c).nextOff <= c.total
    ensures |Queued(st, c).w.reqs| == |st.w.reqs| + 1
    ensures Moved(Queued(st, c).w.trace, Write) == Moved(st.w.trace, Write)
  {
    hide Content, Accounts, OnTrack, World.Valid;
    NextWriteFits(st, c);
    QueueTrack(st, c);
    hide Queued, WriteReaped;
    QueueContent(st, c);
    QueueAccounts(st, c);
  }

  lemma QueueTrack(st: State, c: Config)
    requires CanQueue(st, c)
    ensures OnTrack(Queued(st, c).w.trace, Queued(st, c).nextOff, Queued(st, c).calls, c)
    ensures st.nextOff < Queued(st, c).nextOff <= c.total && !WriteReaped(Queued(st, c).w.trace)
    ensures Moved(Queued(st, c).w.trace, Write) == Moved(st.w.trace, Write)
  {
    hide Content, Accounts, World.Valid, Plan, WholePlan, Want, Sizing;
    NextWriteFits(st, c);
    PlanStep(st.w.trace, NextWrite(st, c), c.sizeCb, st.calls, st.nextOff, c.total, c.bs);
  }

  // ---------- reaping a completion ----------

  ghost function Consumed(st: State, id: nat): State
    requires st.w.IsDone(id)
  {
    st.(w := Reap(st.w, id))
  }

  lemma DoneFacts(st: State, c: Config, id: nat)
    requires Going(st, c) && st.w.IsDone(id)
    ensures var q := st.w.reqs[id].sqe;
            q.dir.Write? && UdOp(q.ud) == 1 && UdSlot(q.ud) < c.qd && st.w.reqs[id].stage.res <= q.len
  {
    assert ReqOk(st.w, DST, Expected(st.w.trace, c), st.nextOff, st.w.reqs[id]);
  }

  lemma ReapContent(st: State, c: Config, id: nat)
    requires Going(st, c) && st.w.IsDone(id) && st.w.reqs[id].stage.res >= 0
    ensures Content(Reap(st.w, id), st.nextOff, c)
  {
    var exp, v := Expected(st.w.trace, c), Reap(st.w, id);
    DoneFacts(st, c, id);
    assert Expected(v.trace, c) == exp;
    assert Lost(v.trace) == Lost(st.w.trace) + st.w.reqs[id].sqe.len - st.w.reqs[id].stage.res;
    hide Flow, InPlace, Expected, Accounts, OnTrack, Sizing, Lost;
    hide Landed;
    ReapKeepsFlow(st.w, DST, exp, st.nextOff, id);
    ReapLands(st.w, DST, exp, st.nextOff, id);
    if Lost(v.trace) == 0 {
      FullWriteLands(st.w, DST, exp, st.nextOff, id);
    }
  }

  lemma ReapAccounts(st: State, c: Config, id: nat)
    requires Going(st, c) && st.w.IsDone(id) && st.w.reqs[id].stage.res >= 0
    ensures Accounts(Reap(st.w, id), st.nextOff, c.qd)
    ensures Reap(st.w, id).Valid() && |Reap(st.w, id).reqs| == |st.w.reqs| - 1
  {
    hide Content, OnTrack, Sizing, Want, Balanced, OpenBytes, World.Valid;
    DoneFacts(st, c, id);
    ReapKeepsValid(st.w, id);
    ReapKeepsBalance(st.w, id);
  }

  lemma ReapGoes(st: State, c: Config, id: nat)
    requires Running(st, c) && st.w.IsDone(id) && st.w.reqs[id].stage.res >= 0
    ensures Going(Consumed(st, id), c) && WriteReaped(Reap(st.w, id).trace)
    ensures Moved(Reap(st.w, id).trace, Write) == Moved(st.w.trace, Write) + st.w.reqs[id].stage.res
    ensures |Reap(st.w, id).reqs| == |st.w.reqs| - 1
  {
    hide Content, Accounts, World.Valid, Plan, WholePlan, Sizing;
    DoneFacts(st, c, id);
    assert OnTrack(Reap(st.w, id).trace, st.nextOff, st.calls, c);
    hide OnTrack;
    ReapContent(st, c, id);
    ReapAccounts(st, c, id);
  }

  // ---------- reports and exits ----------

  ghost function Noted(st: State, answer: int): State {
    st.(w := st.w.(trace := Then(st.w.trace, Progress(Moved(st.w.trace, Write), answer))))
  }

  /** What a caller can tell from the trace at any exit. */
  ghost predicate Observed(t: Trace, c: Config) {
    && 0 < c.bs
    && Tiles(t, Write) && IssuedBytes(t, Write) <= c.total && Bounded(t, c.qd)
    && Reports(t, c.total, c.progressCb) && AllReported(t, c.progressCb)
    && ChunksOf(t, Write) <= WholePlan(c.sizeCb, c.total, c.bs)
  }

  lemma RunningObserved(st: State, c: Config)
    requires Running(st, c)
    ensures Observed(st.w.trace, c) && !Canceled(st.w.trace)
  {
    hide Content;
  }

  lemma NoteContent(st: State, c: Config, answer: int)
    requires Going(st, c)
    ensures Content(Noted(st, answer).w, st.nextOff, c)
  {
    hide Accounts, OnTrack, Flow, InPlace, Patterned, World.Valid, Fill;
    var v := Noted(st, answer).w;
    assert Expected(v.trace, c) == Expected(st.w.trace, c);
    hide Expected;
    TraceKeepsFlow(st.w, v.trace, DST, Expected(st.w.trace, c), st.nextOff);
  }

  lemma NoteGoes(st: State, c: Config, answer: int)
    requires Going(st, c) && c.progressCb.Some? && WriteReaped(st.w.trace)
    requires answer == c.progressCb.value(ReportCount(st.w.trace), Moved(st.w.trace, Write), c.total)
    ensures Observed(Noted(st, answer).w.trace, c)
    ensures answer == 0 ==> Running(Noted(st, answer), c)
    ensures Moved(Noted(st, answer).w.trace, Write) == Moved(st.w.trace, Write)
  {
    hide Content, OpenBytes, OpenOps, Plan, WholePlan, Sizing, World.Valid;
    NoteContent(st, c, answer);
    TraceKeepsValid(st.w, Noted(st, answer).w.trace);
  }

  /** A completion that reports an error. */
  lemma ErrorObserved(st: State, c: Config, id: nat)
    requires Running(st, c) && st.w.IsDone(id) && st.w.reqs[id].stage.res < 0
    ensures Observed(Reap(st.w, id).trace, c) && !Canceled(Reap(st.w, id).trace)
  {
    hide Content, OpenBytes, OpenOps, World.Valid;
    RunningObserved(st, c);
    ReapKeepsBalance(st.w, id);
  }

  /** How the world looks after a run that ended well. */
  ghost predicate Final(w: World, c: Config, bytes: nat) {
    && 0 < c.bs && 0 < c.qd && |w.files| == 1
    && bytes == Moved(w.trace, Write) && bytes + Lost(w.trace) == c.total
    // every write queued was reaped exactly once, and all planned chunks were queued
    && IssuedOps(w.trace) == ReapedOps(w.trace)
    && ChunksOf(w.trace, Write) == WholePlan(c.sizeCb, c.total, c.bs)
    // the contents are those of the plan
    && (Lost(w.trace) == 0 ==> w.files[DST] == Fill(WholePlan(c.sizeCb, c.total, c.bs), c.bs, c.qd))
    && Landed(w.trace, DST, w.files[DST], Fill(WholePlan(c.sizeCb, c.total, c.bs), c.bs, c.qd))
    && (c.progressCb.Some? ==> LastReport(w.trace) == bytes) && !Canceled(w.trace)
  }

  lemma FinalFacts(st: State, c: Config)
    requires Running(st, c) && st.nextOff == c.total && st.w.reqs == map[]
    ensures Final(st.w, c, Moved(st.w.trace, Write))
  {
    NothingOpen(st.w.nextId);
    assert ChunksOf(st.w.trace, Write) + [] == ChunksOf(st.w.trace, Write);
    if Lost(st.w.trace) == 0 {
      AllLanded(st.w, DST, Expected(st.w.trace, c), st.nextOff);
    }
    hide Flow, InPlace, Patterned, Landed;
    if c.progressCb.Some? {
      ReportsAreRunningSums(st.w.trace, c.total, c.progressCb);
    }
  }

  // ---------- the method ----------

  /** Queues as many writes as fit under qd requests in all. */
  method QueueWrites(ring: Ring, slots: array<CopySlot>, nextOff0: nat, calls0: nat, maxBuf: nat, inflight: nat,
                     c: Config, ghost st0: State)
      returns (nextOff: nat, calls: nat, pending: nat, ghost st: State)
    requires ring.Valid() && ring.w.sqLen == 0 && c.qd <= ring.entries && slots.Length == c.qd
    requires st0 == State(ring.w, nextOff0, calls0) && Running(st0, c) && inflight == |ring.w.reqs|
    requires c.Ok() && maxBuf == c.MaxBuf()
    modifies ring`w, slots
    ensures ring.Valid() && st == State(ring.w, nextOff, calls) && Running(st, c)
    ensures pending == ring.w.sqLen && inflight + pending == |ring.w.reqs|
    ensures nextOff0 <= nextOff <= c.total && Observed(ring.w.trace, c) && !Canceled(ring.w.trace)
    ensures pending > 0 ==> nextOff > nextOff0
    ensures (nextOff0 < c.total ==> inflight + pending >= c.qd || nextOff == c.total)
    ensures Moved(ring.w.trace, Write) == Moved(st0.w.trace, Write)
  {
    hide Going, Running, Moved, World.Valid, Observed, Canceled, Want, Sizing, Config.MaxBuf, Bytes, Expected, SlotAt,
         PackUd, World.Fits, Push;
    nextOff, calls, pending, st := nextOff0, calls0, 0, st0;
    var total, bs, qd := c.total, c.bs, c.qd;
    RunningBounds(st, c);
    while nextOff < total && inflight + pending < qd
      invariant ring.Valid() && st == State(ring.w, nextOff, calls) && Running(st, c)
      invariant pending == ring.w.sqLen && inflight + pending == |ring.w.reqs| <= qd
      invariant nextOff0 <= nextOff <= total && (pending > 0 ==> nextOff > nextOff0)
                && Moved(ring.w.trace, Write) == Moved(st0.w.trace, Write)
      decreases total - nextOff
    {
      var slot := SlotAt(nextOff, bs, qd);
      var want := Want(c.sizeCb, calls, nextOff, total, bs, maxBuf);
      slots[slot] := slots[slot].(off := nextOff, len := want);
      QueueStep(st, c);
      var ok := ring.GetSqe(WriteOf(slot, Chunk(nextOff, want)));
      if !ok {
        break;
      }
      st := Queued(st, c);
      pending, calls := pending + 1, calls + 1;
      nextOff := nextOff + want;
    }
    RunningObserved(st, c);
  }

  lemma RunningBounds(st: State, c: Config)
    requires Running(st, c)
    ensures st.nextOff <= c.total && |st.w.reqs| <= c.qd
  {
  }

  lemma QueueStep(st: State, c: Config)
    requires c.Ok() && Running(st, c) && st.nextOff < c.total && |st.w.reqs| < c.qd
    ensures Running(Queued(st, c), c) && st.w.Fits(NextWrite(st, c)) && st.nextOff < Queued(st, c).nextOff <= c.total
    ensures |Queued(st, c).w.reqs| == |st.w.reqs| + 1 && Queued(st, c).w.sqLen == st.w.sqLen + 1
    ensures Moved(Queued(st, c).w.trace, Write) == Moved(st.w.trace, Write)
  {
    hide Going;
    QueueGoes(st, c);
  }

  /** What consuming a completion leads to, and a report on it. */
  lemma HandleStep(st: State, c: Config, id: nat)
    requires Running(st, c) && st.w.IsDone(id)
    ensures UdOp(st.w.reqs[id].sqe.ud) == 1 && UdSlot(st.w.reqs[id].sqe.ud) < c.qd
    ensures var v, res := Reap(st.w, id), st.w.reqs[id].stage.res;
            && v.reqs == st.w.reqs - {id} && |v.reqs| == |st.w.reqs| - 1 && v.sqLen == st.w.sqLen
            && (res < 0 ==> Observed(v.trace, c) && !Canceled(v.trace))
            && (res >= 0 ==>
                  && Moved(v.trace, Write) == Moved(st.w.trace, Write) + res
                  && if c.progressCb.Some? then Going(st.(w := v), c) && WriteReaped(v.trace)
                     else Running(st.(w := v), c))
  {
    DoneFacts(st, c, id);
    ReapKeepsValid(st.w, id);
    if st.w.reqs[id].stage.res >= 0 {
      ReapGoes(st, c, id);
    } else {
      ErrorObserved(st, c, id);
    }
    hide Going, Moved, World.Valid, Observed, Canceled;
  }

  lemma NoteStep(st: State, c: Config, written: nat, answer: int)
    requires Going(st, c) && c.progressCb.Some? && WriteReaped(st.w.trace) && written == Moved(st.w.trace, Write)
    requires answer == c.progressCb.value(ReportCount(st.w.trace), written, c.total)
    ensures var v := st.w.(trace := Then(st.w.trace, Progress(written, answer)));
            && Observed(v.trace, c) && Moved(v.trace, Write) == written
            && (if answer == 0 then Running(st.(w := v), c) && !Canceled(v.trace) else Canceled(v.trace))
  {
    NoteGoes(st, c, answer);
    hide Going, Observed;
  }

  /** One entry of a batch: check it, count it, report it. */
  method HandleOne(ring: Ring, cqe: Cqe, written0: nat, c: Config, ghost st0: State)
      returns (stop: Option<Outcome>, written: nat, ghost st: State)
    requires ring.Valid() && st0.w == ring.w && Running(st0, c) && ring.w.IsDone(cqe.id)
    requires cqe == Cqe(cqe.id, ring.w.reqs[cqe.id].sqe.ud, ring.w.reqs[cqe.id].stage.res)
    requires written0 == Moved(ring.w.trace, Write)
    modifies ring
    ensures ring.Valid() && st == st0.(w := ring.w) && Observed(ring.w.trace, c)
    ensures ring.w.reqs == old(ring.w.reqs) - {cqe.id} && ring.w.sqLen == old(ring.w.sqLen)
    ensures |ring.w.reqs| == |old(ring.w.reqs)| - 1
    ensures stop.Some? ==> || (stop.value.KernelError? && !Canceled(ring.w.trace))
                           || (stop.value.Aborted? && Canceled(ring.w.trace))
    ensures ring.faults == if stop.Some? && stop.value.KernelError? then old(ring.faults) + [stop.value.errno]
                           else old(ring.faults)
    ensures stop.None? ==> Running(st, c) && written == Moved(ring.w.trace, Write)
  {
    hide *;
    stop, written := None, written0;
    var op, slot, res := UdOp(cqe.ud), UdSlot(cqe.ud), cqe.res;
    HandleStep(st0, c, cqe.id);
    ring.Seen(cqe);
    st := st0.(w := ring.w);
    if op != 1 || slot >= c.qd {
      stop := Some(BadSlot);
      return;
    }
    if res < 0 {
      stop := Some(KernelError(res));
      return;
    }
    written := written + res;
    if c.progressCb.Some? {
      var answer := c.progressCb.value(ReportCount(ring.w.trace), written, c.total);
      NoteStep(st, c, written, answer);
      ring.Note(written, answer);
      st := st.(w := ring.w);
      if answer != 0 {
        stop := Some(Aborted);
        return;
      }
    }
    RunningObserved(st, c);
  }

  /** The entries of a batch, in order. */
  method HandleBatch(ring: Ring, batch: seq<Cqe>, written0: nat, c: Config, ghost st0: State)
      returns (stop: Option<Outcome>, written: nat, ghost st: State)
    requires ring.Valid() && st0.w == ring.w && Running(st0, c) && Batch(ring.w, batch)
    requires written0 == Moved(ring.w.trace, Write) && |batch| <= |ring.w.reqs|
    modifies ring
    ensures ring.Valid() && st == st0.(w := ring.w) && Observed(ring.w.trace, c) && ring.w.sqLen == old(ring.w.sqLen)
    ensures stop.Some? ==> || (stop.value.KernelError? && !Canceled(ring.w.trace))
                           || (stop.value.Aborted? && Canceled(ring.w.trace))
    ensures ring.faults == if stop.Some? && stop.value.KernelError? then old(ring.faults) + [stop.value.errno]
                           else old(ring.faults)
    ensures stop.None? ==> Running(st, c) && written == Moved(ring.w.trace, Write)
                           && |ring.w.reqs| == |old(ring.w.reqs)| - |batch|
  {
    stop, written, st := None, written0, st0;
    RunningObserved(st, c);
    hide Going, Moved, World.Valid, Observed, Canceled, Batch;
    var i := 0;
    while i < |batch|
      invariant i <= |batch| && ring.Valid() && st == st0.(w := ring.w) && stop == None
      invariant Running(st, c) && Observed(ring.w.trace, c)
      invariant written == Moved(ring.w.trace, Write) && ring.w.sqLen == old(ring.w.sqLen)
      invariant |ring.w.reqs| == |old(ring.w.reqs)| - i
      invariant Batch(ring.w, batch[i..]) && ring.faults == old(ring.faults)
    {
      ghost var before := ring.w;
      assert batch[i..][0] == batch[i];
      BatchHead(ring.w, batch[i..]);
      stop, written, st := HandleOne(ring, batch[i], written, c, st);
      if stop.Some? {
        return;
      }
      BatchTail(before, ring.w, batch[i..]);
      assert batch[i..][1..] == batch[i + 1..];
      i := i + 1;
    }
  }

  /** Reaps batches of at most 256 until none is ready or nothing is in flight. At least one
      completion must be ready. */
  method ReapReady(ring: Ring, inflight0: nat, written0: nat, c: Config, ghost st0: State)
      returns (stop: Option<Outcome>, inflight: nat, written: nat, ghost st: State)
    requires ring.Valid() && st0.w == ring.w && Running(st0, c) && ring.w.sqLen == 0
    requires inflight0 == |ring.w.reqs| > 0 && exists id :: ring.w.IsDone(id)
    requires written0 == Moved(ring.w.trace, Write)
    modifies ring
    ensures ring.Valid() && st == st0.(w := ring.w) && Observed(ring.w.trace, c) && ring.w.sqLen == 0
    ensures stop.Some? ==> || (stop.value.KernelError? && !Canceled(ring.w.trace))
                           || (stop.value.Aborted? && Canceled(ring.w.trace))
    ensures ring.faults == if stop.Some? && stop.value.KernelError? then old(ring.faults) + [stop.value.errno]
                           else old(ring.faults)
    ensures stop.None? ==> Running(st, c) && written == Moved(ring.w.trace, Write)
                           && inflight == |ring.w.reqs| < inflight0
  {
    hide Going, Running, Moved, Observed, Canceled, Batch, World.Valid;
    stop, inflight, written, st := None, inflight0, written0, st0;
    RunningObserved(st, c);
    while inflight > 0
      invariant ring.Valid() && st == st0.(w := ring.w) && stop == None && ring.w.sqLen == 0
      invariant Running(st, c) && Observed(ring.w.trace, c)
      invariant written == Moved(ring.w.trace, Write) && inflight == |ring.w.reqs| <= inflight0
      invariant inflight == inflight0 ==> exists id :: ring.w.IsDone(id)
      invariant ring.faults == old(ring.faults)
      decreases inflight
    {
      ghost var before := ring.w;
      var batch, sched := ring.PeekBatch(256);
      KernelRuns(st, c, sched);
      st := st.(w := ring.w);
      if batch == [] {
        if inflight == inflight0 {
          StillDone(before, sched);
        }
        break;
      }
      var got := |batch|;
      stop, written, st := HandleBatch(ring, batch, written, c, st);
      if stop.Some? {
        return;
      }
      inflight := inflight - got;
    }
  }

  lemma KernelRuns(st: State, c: Config, sched: Schedule)
    requires Running(st, c)
    ensures Running(st.(w := Run(st.w, sched)), c) && |Run(st.w, sched).reqs| == |st.w.reqs|
    ensures Run(st.w, sched).trace == st.w.trace && Run(st.w, sched).sqLen == st.w.sqLen
  {
    hide Going;
    KernelGoes(st, c, sched);
  }

  lemma StillDone(w: World, sched: Schedule)
    requires w.Valid() && exists id :: w.IsDone(id)
    ensures exists id :: Run(w, sched).IsDone(id)
  {
    var id :| w.IsDone(id);
    RunKeepsDone(w, sched, id);
  }

  /** Waits for one completion, then reaps what is ready. */
  method WaitAndReap(ring: Ring, inflight0: nat, written0: nat, c: Config, ghost st0: State)
      returns (stop: Option<Outcome>, inflight: nat, written: nat, ghost st: State)
    requires ring.Valid() && st0.w == ring.w && Running(st0, c) && ring.w.sqLen == 0 && inflight0 == |ring.w.reqs| > 0
    requires written0 == Moved(ring.w.trace, Write)
    modifies ring
    ensures ring.Valid() && st == st0.(w := ring.w) && Observed(ring.w.trace, c)
    ensures stop.Some? ==> || (stop.value.KernelError? && !Canceled(ring.w.trace))
                           || (stop.value.Aborted? && Canceled(ring.w.trace))
    ensures ring.faults == if stop.Some? && stop.value.KernelError? then old(ring.faults) + [stop.value.errno]
                           else old(ring.faults)
    ensures stop.None? ==> Running(st, c) && written == Moved(ring.w.trace, Write) && ring.w.sqLen == 0
                           && inflight == |ring.w.reqs| < inflight0
  {
    inflight, written := inflight0, written0;
    RunningObserved(st0, c);
    SubmitGoes(st0, c);
    hide Going, Moved, Observed, Canceled, World.Valid;
    var ret, sched := ring.SubmitAndWait();
    st := st0.(w := ring.w);
    if ret < 0 {
      stop := Some(KernelError(ret));
      return;
    }
    KernelGoes(st0.(w := Flush(st0.w)), c, sched);
    stop, inflight, written, st := ReapReady(ring, inflight, written, c, st);
  }

  /** The main loop: queue, submit, wait for one completion, reap what is ready. */
  method Pump(ring: Ring, slots: array<CopySlot>, maxBuf: nat, calls0: nat, c: Config, ghost st0: State)
      returns (out: Outcome)
    requires ring.Valid() && ring.w.sqLen == 0 && ring.w.reqs == map[] && c.qd <= ring.entries && slots.Length == c.qd
    requires st0 == State(ring.w, 0, calls0) && Running(st0, c) && c.Ok() && maxBuf == c.MaxBuf()
    requires Moved(ring.w.trace, Write) == 0
    modifies ring, slots
    ensures !out.BadSlot? && !out.NoSqe? && !out.Invalid? && (out.Aborted? <==> Canceled(ring.w.trace))
    ensures ring.Valid() && Observed(ring.w.trace, c)
    ensures ring.faults == if out.KernelError? then old(ring.faults) + [out.errno] else old(ring.faults)
    ensures out.Finished? ==> Final(ring.w, c, out.bytes)
  {
    hide Going, Moved, Observed, Canceled, Final, World.Valid, Flush, Config.MaxBuf;
    var nextOff, calls, inflight, pending, written := 0, calls0, 0, 0, 0;
    ghost var st := st0;
    while nextOff < c.total || inflight > 0 || pending > 0
      invariant ring.Valid() && st == State(ring.w, nextOff, calls) && Running(st, c) && nextOff <= c.total
      invariant pending == ring.w.sqLen == 0 && inflight == |ring.w.reqs|
      invariant written == Moved(ring.w.trace, Write) && ring.faults == old(ring.faults)
      decreases c.total - nextOff, inflight
    {
      nextOff, calls, pending, st := QueueWrites(ring, slots, nextOff, calls, maxBuf, inflight, c, st);
      if pending > 0 {
        SubmitGoes(st, c);
        var ret := ring.Submit();
        if ret < 0 {
          out := KernelError(ret);
          return;
        }
        st := st.(w := ring.w);
        inflight := inflight + pending;
        pending := 0;
      }
      if inflight == 0 {
        continue;
      }
      var stop;
      stop, inflight, written, st := WaitAndReap(ring, inflight, written, c, st);
      if stop.Some? {
        out := stop.value;
        return;
      }
    }
    RunningObserved(st, c);
    FinalFacts(st, c);
    out := Finished(written);
  }

  /** Sizes and fills the buffers, runs the main loop, and syncs. */
  method WriteTotal(c: Config, doFsync: bool)
      returns (out: Outcome, file: seq<Byte>, trace: Trace, faults: seq<int>)
    requires c.Ok() && c.bs < U32
    ensures !out.BadSlot? && !out.NoSqe? && !out.Invalid? && (out.Aborted? <==> Canceled(trace))
    ensures faults == (if out.KernelError? then [out.errno] else []) && (out.KernelError? ==> out.errno < 0)
    ensures Observed(trace, c)
    ensures out.Finished? ==>
              && out.bytes == Moved(trace, Write) && out.bytes + Lost(trace) == c.total
              && IssuedOps(trace) == ReapedOps(trace) && ChunksOf(trace, Write) == WholePlan(c.sizeCb, c.total, c.bs)
              && (Lost(trace) == 0 ==> file == Fill(WholePlan(c.sizeCb, c.total, c.bs), c.bs, c.qd))
              && Landed(trace, DST, file, Fill(WholePlan(c.sizeCb, c.total, c.bs), c.bs, c.qd))
              && (c.progressCb.Some? ==> LastReport(trace) == out.bytes)
  {
    hide Going, Running, Observed, Canceled, World.Valid, Patterned, Fill, Plan, WholePlan, Sizing, Moved, Lost,
         LastReport, ChunksOf, IssuedOps, ReapedOps, Config.MaxBuf, Landed;
    NothingYet();
    var maxBuf, calls := ProbeBuffers(c.sizeCb, c.total, c.bs);
    var mem := FillPatterns(65, c.qd, maxBuf);
    var spare: nat :| true;
    var ring := new Ring(c.qd + spare, mem, [[]]);
    var slots := new CopySlot[c.qd](_ => CopySlot(0, 0, true));
    PatternsFilled(mem, c, maxBuf);
    InitialRuns(ring.w, c, calls);
    out := Pump(ring, slots, maxBuf, calls, c, State(ring.w, 0, calls));
    if out.Finished? && doFsync {
      var ret := ring.Fsync();
      if ret < 0 {
        out := KernelError(ret);
      }
    }
    file, trace, faults := FileOf(ring.w), ring.w.trace, ring.faults;
    assert out.KernelError? ==> faults[0] == out.errno;
  }

  /** uring_write_newfile_dynamic on a fresh file. The outcome, the contents, and the trace. */
  method WriteNewFileDynamic(totalMb: nat, bs: nat, qd: nat, doFsync: bool, sizeCb: Option<SizeCb>,
                             progressCb: Option<ProgressCb>)
      returns (out: Outcome, file: seq<Byte>, trace: Trace, faults: seq<int>, ghost whole: seq<Byte>)
    requires totalMb < U32 && bs < U32 && qd < U32
    requires sizeCb.Some? ==> bs <= CAP
    ensures out.Invalid? <==> totalMb == 0 || bs == 0 || qd == 0
    // a completion never carries a foreign tag
    ensures !out.BadSlot? && !out.NoSqe?
    // an error is returned if and only if some call or completion failed; it is the first failure, and the last
    ensures faults == (if out.KernelError? then [out.errno] else []) && (out.KernelError? ==> out.errno < 0)
    // at most qd writes outstanding at any moment, queued along the plan; reports are running sums
    ensures !out.Invalid? ==> Observed(trace, Config(sizeCb, Total(totalMb, bs), bs, qd, progressCb))
    // every queued write was reaped exactly once, and every byte is written or lost
    ensures out.Finished? ==> IssuedOps(trace) == ReapedOps(trace)
    ensures out.Finished? ==> ChunksOf(trace, Write) == WholePlan(sizeCb, Total(totalMb, bs), bs)
    ensures out.Finished? ==>
              out.bytes == Moved(trace, Write) && out.bytes + Lost(trace) == Max(totalMb * 1024 * 1024, bs)
    // the contents planned: byte k of a chunk is letter k from its slot's letter on; without a callback that is
    // byte p mod bs of the block p is in
    ensures out.Finished? ==>
              && |whole| == Max(totalMb * 1024 * 1024, bs)
              && Lettered(whole, WholePlan(sizeCb, Total(totalMb, bs), bs), bs, qd)
              && (sizeCb.None? ==>
                    forall p | 0 <= p < |whole| :: IsPlainLetter(whole[p], p, bs, qd))
    // without short writes they are the contents, whatever the order of completions; short writes leave
    // every byte right or zero, and right wherever a write reported so
    ensures out.Finished? ==> Landed(trace, DST, file, whole) && (Lost(trace) == 0 ==> file == whole)
    // the run is aborted exactly when the callback, asked after every write with the bytes so far, says so
    ensures out.Aborted? <==> Canceled(trace)
    ensures out.Aborted? <==> WantsStop(trace, Total(totalMb, bs), progressCb)
    ensures out.Finished? && progressCb.Some? ==> LastReport(trace) == out.bytes
  {
    hide Observed, Canceled, Fill, Plan, WholePlan, Moved, Lost, LastReport, ChunksOf, IssuedOps, ReapedOps, WantsStop,
         Lettered, Landed;
    NothingYet();
    NoWishYet(Total(totalMb, bs), progressCb);
    out, file, trace, faults, whole := Invalid, [], Start, [], [];
    if totalMb == 0 || bs == 0 || qd == 0 {
      return;
    }
    var total := totalMb * 1024 * 1024;
    if total < bs {
      total := bs;
    }
    var c := Config(sizeCb, total, bs, qd, progressCb);
    whole := Fill(WholePlan(sizeCb, total, bs), bs, qd);
    out, file, trace, faults := WriteTotal(c, doFsync);
    StopsAsWanted(trace, c);
    FilledWithLetters(c);
  }

  lemma StopsAsWanted(t: Trace, c: Config)
    requires Observed(t, c)
    ensures Canceled(t) <==> WantsStop(t, c.total, c.progressCb)
  {
    CanceledIff(t, c.total, c.progressCb);
  }

  /** The contents of a whole plan, byte by byte. */
  lemma FilledWithLetters(c: Config)
    requires c.Ok()
    ensures var plan := WholePlan(c.sizeCb, c.total, c.bs);
            var file := Fill(plan, c.bs, c.qd);
            && |file| == c.total && Lettered(file, plan, c.bs, c.qd)
            && (c.sizeCb.None? ==>
                  forall p | 0 <= p < |file| :: IsPlainLetter(file[p], p, c.bs, c.qd))
  {
    hide IsPlainLetter, IsLetter;
    var plan := WholePlan(c.sizeCb, c.total, c.bs);
    var file := Fill(plan, c.bs, c.qd);
    var (maxBuf, calls) := Sizing(c.sizeCb, c.total, c.bs);
    PlanContiguous(c.sizeCb, calls, 0, c.total, c.bs, maxBuf);
    FillLength(plan, c.bs, c.qd);
    hide Plan, Fill, Sizing;
    forall i, k | 0 <= i < |plan| && 0 <= k < plan[i].len ensures IsLetter(file, plan[i], k, c.bs, c.qd) {
      PlanContents(c.sizeCb, c.total, c.bs, c.qd, i, k);
    }
    if c.sizeCb.None? {
      forall p | 0 <= p < |file| ensures IsPlainLetter(file[p], p, c.bs, c.qd) {
        PlainContents(c.total, c.bs, c.qd, p);
      }
    }
  }

  lemma NoWishYet(total: nat, cb: Option<ProgressCb>)
    ensures !WantsStop(Start, total, cb)
  {
  }

  lemma NothingYet()
    ensures !Canceled(Start) && Moved(Start, Write) == 0
  {
  }

  /** total_bytes: whole megabytes, but at least one block. */
  function Total(totalMb: nat, bs: nat): nat {
    Max(totalMb * 1024 * 1024, bs)
  }

  function FileOf(w: World): seq<Byte> { if DST < |w.files| then w.files[DST] else [] }

  lemma PatternsFilled(mem: seq<seq<Byte>>, c: Config, maxBuf: nat)
    requires 0 < c.bs && Buffers(mem, c.qd, maxBuf) && maxBuf == Sizing(c.sizeCb, c.total, c.bs).0
    requires forall i, k | 0 <= i < c.qd && 0 <= k < maxBuf :: mem[i][k] as int == 65 + (i + k) % U32 % 26
    ensures Patterned(mem, c.qd, c.MaxBuf()) && maxBuf == c.MaxBuf()
  {
  }

  lemma InitialRuns(w: World, c: Config, calls: nat)
    requires c.Ok() && Patterned(w.mem, c.qd, c.MaxBuf()) && w == Empty(w.mem, [[]])
    requires calls == Sizing(c.sizeCb, c.total, c.bs).1
    ensures Running(State(w, 0, calls), c)
  {
    assert [] + WholePlan(c.sizeCb, c.total, c.bs) == WholePlan(c.sizeCb, c.total, c.bs);
  }

  // ---------- which byte goes where ----------

  /** Byte k of chunk c is the letter k places after that of the chunk's slot, beginning with A. */
  ghost predicate IsLetter(file: seq<Byte>, c: Chunk, k: nat, bs: nat, qd: nat)
    requires 0 < bs && 0 < qd
  {
    c.off + k < |file| && file[c.off + k] as int == 65 + ((c.off / bs) % qd + k) % U32 % 26
  }

  /** Byte p of a file written in plain blocks. */
  ghost predicate IsPlainLetter(b: Byte, p: nat, bs: nat, qd: nat)
    requires 0 < bs && 0 < qd
  {
    b as int == 65 + ((p / bs) % qd + p % bs) % U32 % 26
  }

  ghost predicate Lettered(file: seq<Byte>, plan: seq<Chunk>, bs: nat, qd: nat)
    requires 0 < bs && 0 < qd
  {
    forall i, k | 0 <= i < |plan| && 0 <= k < plan[i].len :: IsLetter(file, plan[i], k, bs, qd)
  }

  /** Chunks that follow each other from the start of the file. */
  ghost predicate Contiguous(chunks: seq<Chunk>) {
    && (chunks != [] ==> chunks[0].off == 0)
    && forall i | 0 < i < |chunks| :: chunks[i].off == chunks[i - 1].off + chunks[i - 1].len
  }

  function End(chunks: seq<Chunk>): nat {
    if chunks == [] then 0 else chunks[|chunks| - 1].off + chunks[|chunks| - 1].len
  }

  lemma {:induction false} FillLength(chunks: seq<Chunk>, bs: nat, qd: nat)
    requires Contiguous(chunks) && 0 < bs && 0 < qd
    ensures |Fill(chunks, bs, qd)| == End(chunks)
  {
    if chunks != [] {
      FillLength(chunks[..|chunks| - 1], bs, qd);
    }
  }

  /** Byte k of chunk i is byte k of the pattern of the chunk's slot. */
  lemma {:induction false} FillAt(chunks: seq<Chunk>, bs: nat, qd: nat, i: nat, k: nat)
    requires Contiguous(chunks) && 0 < bs && 0 < qd && i < |chunks| && k < chunks[i].len
    ensures chunks[i].off + k < |Fill(chunks, bs, qd)|
    ensures Fill(chunks, bs, qd)[chunks[i].off + k] == Pattern(SlotAt(chunks[i].off, bs, qd), k)
  {
    hide Pattern, SlotAt;
    var rest := chunks[..|chunks| - 1];
    FillLength(rest, bs, qd);
    if i < |rest| {
      FillAt(rest, bs, qd, i, k);
    }
  }

  /** Without a callback, chunk i starts at i blocks. */
  lemma {:induction false} PlainPlan(call: nat, off: nat, total: nat, bs: nat, i: nat, blocks: nat)
    requires 0 < bs && blocks == i * bs && off + blocks < total
    ensures i < |Plan(None, call, off, total, bs, bs)|
    ensures Plan(None, call, off, total, bs, bs)[i] == Chunk(off + blocks, Min(bs, total - off - blocks))
    decreases i
  {
    if i > 0 {
      Times(0, i, bs);
      assert (i - 1) * bs == blocks - bs;
      PlainPlan(call + 1, off + bs, total, bs, i - 1, blocks - bs);
    }
  }

  /** Every plan is contiguous, whatever the callback answers. */
  lemma {:induction false} PlanContiguous(cb: Option<SizeCb>, call: nat, off: nat, total: nat, bs: nat, maxBuf: nat)
    requires 0 < bs && off <= total
    ensures var plan := Plan(cb, call, off, total, bs, maxBuf);
            && (plan != [] ==> plan[0].off == off)
            && (forall i | 0 < i < |plan| :: plan[i].off == plan[i - 1].off + plan[i - 1].len)
            && (if off < total then plan != [] && End(plan) == total else plan == [])
    decreases total - off
  {
    hide Want;
    if off < total {
      var want := Want(cb, call, off, total, bs, maxBuf);
      var rest := Plan(cb, call + 1, off + want, total, bs, maxBuf);
      PlanContiguous(cb, call + 1, off + want, total, bs, maxBuf);
      var plan := Plan(cb, call, off, total, bs, maxBuf);
      assert plan == [Chunk(off, want)] + rest;
      assert forall i | 0 < i < |plan| :: plan[i] == rest[i - 1];
    }
  }

  /** Byte k of chunk i of any run's plan is byte k of the pattern of the chunk's slot, and the
      contents are total bytes long. */
  lemma PlanContents(cb: Option<SizeCb>, total: nat, bs: nat, qd: nat, i: nat, k: nat)
    requires 0 < bs && 0 < qd && i < |WholePlan(cb, total, bs)| && k < WholePlan(cb, total, bs)[i].len
    ensures var (plan, file) := (WholePlan(cb, total, bs), Fill(WholePlan(cb, total, bs), bs, qd));
            && |file| == total && plan[i].off + k < total
            && IsLetter(file, plan[i], k, bs, qd)
  {
    hide Plan, Fill;
    var (maxBuf, calls) := Sizing(cb, total, bs);
    PlanContiguous(cb, calls, 0, total, bs, maxBuf);
    FillLength(WholePlan(cb, total, bs), bs, qd);
    FillAt(WholePlan(cb, total, bs), bs, qd, i, k);
  }

  /** Without a callback, byte p of the file is letter ((p / bs) mod qd) + p mod bs of the pattern. */
  lemma PlainContents(total: nat, bs: nat, qd: nat, p: nat)
    requires 0 < bs && 0 < qd && p < total
    ensures p < |Fill(WholePlan(None, total, bs), bs, qd)|
    ensures IsPlainLetter(Fill(WholePlan(None, total, bs), bs, qd)[p], p, bs, qd)
  {
    var i, k, plan := p / bs, p % bs, WholePlan(None, total, bs);
    assert p == i * bs + k;
    PlainPlan(0, 0, total, bs, i, i * bs);
    PlanContiguous(None, 0, 0, total, bs, bs);
    FillAt(plan, bs, qd, i, k);
    DivModUnique(i * bs, i, 0, bs);
  }
}
