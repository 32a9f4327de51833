/**
 uring_copy_path_dynamic: each slot reads a chunk of the source, writes what it got, and
 takes the next chunk. Completions come in any order and may be short.
 */
module CopyPath {
  import opened IoUring
  import opened Slots
  import opened ByteFlow
  import opened ChunkSize
  import opened Pipeline

  const SRC: nat := 0
  const DST: nat := 1

  function ReadOf(s: nat, slot: CopySlot): Sqe
    requires s < U32
  {
    Sqe(Read, SRC, s, 0, slot.len, slot.off, PackUd(0, s))
  }

  function WriteOf(s: nat, slot: CopySlot, n: nat): Sqe
    requires s < U32
  {
    Sqe(Write, DST, s, 0, n, slot.off, PackUd(1, s))
  }

  /** An active slot's one request: the read of its chunk, or the write of what was read. */
  ghost predicate SlotReq(s: nat, slot: CopySlot, q: Sqe)
    requires s < U32
  {
    0 < q.len <= slot.len && (q == ReadOf(s, slot) || q == WriteOf(s, slot, q.len))
  }

  /** The slot table agrees with who is busy with what. Slots marked inactive here are
      between requests. */
  ghost predicate Table(slots: seq<CopySlot>, own: seq<Owner>) {
    && |slots| == |own| < U32
    && (forall s | 0 <= s < |own| :: slots[s].active <==> own[s].Busy?)
    && (forall s | 0 <= s < |own| && own[s].Busy? :: SlotReq(s, slots[s], own[s].sqe))
  }

  /** A state of the copy: the ring, the slots array, who is busy with what, next_off, and how
      often the size callback has been asked. */
  datatype State = State(w: World, slots: seq<CopySlot>, own: seq<Owner>, src: seq<Byte>, nextOff: nat,
                         maxBuf: nat, calls: nat)

  /** The state machine's invariant. */
  ghost predicate Inv(st: State) {
    match st case State(w, slots, own, src, nextOff, maxBuf, _) =>
    && w.Valid() && Buffers(w.mem, |own|, maxBuf)
    && |w.files| == 2 && w.files[SRC] == src && nextOff <= |src|
    // each active slot owns exactly one request, and there are no others
    && Table(slots, own) && Owns(w, own)
    // every byte issued is in a request, in place, or lost
    && Flow(w, DST, src, nextOff)
    && (Lost(w.trace) == 0 ==> InPlace(w, DST, src, nextOff))
    && Accounts(w.trace, own, nextOff)
  }

  /** Bytes and steps add up. */
  ghost predicate Accounts(t: Trace, own: seq<Owner>, nextOff: nat) {
    && IssuedBytes(t, Read) == nextOff && Tiles(t, Read)
    && Moved(t, Write) + Lost(t) + Owed(own) == nextOff
    && ReapedCount(t) + StepsLeft(own) <= 2 * IssuedCount(t, Read)
  }

  lemma AccountsIssueRead(t: Trace, own: seq<Owner>, nextOff: nat, s: nat, id: nat, q: Sqe)
    requires Accounts(t, own, nextOff) && s < |own| && own[s].Idle?
    requires q.dir.Read? && q.off == nextOff && q.len > 0
    ensures Accounts(Then(t, Issued(q)), own[s := Busy(id, q)], nextOff + q.len)
    ensures Lost(Then(t, Issued(q))) == Lost(t)
  {
    UpdateSums(own, s, Busy(id, q));
  }

  /** A consumed completion frees its slot: a write moved its bytes, a read that hit end of file lost them. */
  lemma AccountsFree(t: Trace, own: seq<Owner>, nextOff: nat, s: nat, q: Sqe, res: nat)
    requires Accounts(t, own, nextOff) && s < |own| && own[s].Busy? && own[s].sqe == q
    requires res <= q.len && (q.dir.Read? ==> res == 0)
    ensures Accounts(Then(t, Reaped(q, res)), own[s := Idle], nextOff)
    ensures Lost(Then(t, Reaped(q, res))) == Lost(t) + q.len - res
  {
    UpdateSums(own, s, Idle);
  }

  /** A read hands the bytes it got to a write; the rest is lost. */
  lemma AccountsTurn(t: Trace, own: seq<Owner>, nextOff: nat, s: nat, q: Sqe, id: nat, q': Sqe)
    requires Accounts(t, own, nextOff) && s < |own| && own[s].Busy? && own[s].sqe == q
    requires q.dir.Read? && q'.dir.Write? && 0 < q'.len <= q.len
    ensures Accounts(Then(Then(t, Reaped(q, q'.len)), Issued(q')), own[s := Busy(id, q')], nextOff)
    ensures Lost(Then(Then(t, Reaped(q, q'.len)), Issued(q'))) == Lost(t) + q.len - q'.len
  {
    UpdateSums(own, s, Busy(id, q'));
  }

  /** The state after a slot's completion is consumed and the slot is between requests. */
  ghost function Freed(st: State, id: nat): State
    requires st.w.IsDone(id) && UdSlot(st.w.reqs[id].sqe.ud) < |st.own| == |st.slots|
  {
    var s := UdSlot(st.w.reqs[id].sqe.ud);
    st.(w := Reap(st.w, id), slots := st.slots[s := st.slots[s].(active := false)], own := st.own[s := Idle])
  }

  lemma RequestOwner(st: State, id: nat)
      returns (s: nat)
    requires Inv(st) && id in st.w.reqs
    ensures s == UdSlot(st.w.reqs[id].sqe.ud) < |st.own| && st.own[s] == Busy(id, st.w.reqs[id].sqe)
    ensures SlotReq(s, st.slots[s], st.w.reqs[id].sqe) && st.slots[s].active
    ensures UdOp(st.w.reqs[id].sqe.ud) == if st.w.reqs[id].sqe.dir.Read? then 0 else 1
    ensures st.w.IsDone(id) ==> st.w.reqs[id].stage.res <= st.w.reqs[id].sqe.len
  {
    s := UdSlot(st.w.reqs[id].sqe.ud);
    hide Owns, InPlace, Accounts, World.Valid, Flow;
    assert SlotReq(s, st.slots[s], st.own[s].sqe);
    OwnRequestOk(st, id);
  }

  lemma KernelKeeps(st: State, sched: Schedule)
    requires Inv(st)
    ensures Inv(st.(w := Run(st.w, sched)))
  {
    hide Lost, Flow, InPlace, Owns, Accounts, World.Valid, Run;
    RunKeepsValid(st.w, sched);
    RunKeepsFlow(st.w, DST, st.src, st.nextOff, sched);
    SameRequestsKeepOwners(st.w, Run(st.w, sched), st.own);
  }

  lemma SubmitKeeps(st: State)
    requires Inv(st)
    ensures Inv(st.(w := Flush(st.w)))
  {
    hide Lost, Flow, InPlace, Owns, Accounts, World.Valid, UdSlot, UdOp, PackUd, Table, Buffers, SlotReq;
    FlushKeepsValid(st.w);
    FlushKeepsFlow(st.w, DST, st.src, st.nextOff);
    SameRequestsKeepOwners(st.w, Flush(st.w), st.own);
  }

  /** The read of the next chunk, for slot s. */
  function NextRead(st: State, s: nat, want: nat): Sqe
    requires s < U32
  {
    ReadOf(s, CopySlot(st.nextOff, want, true))
  }

  /** The state after idle slot s has queued the read of the next chunk. */
  ghost function Started(st: State, s: nat, want: nat): State
    requires s < |st.own| && s < |st.slots| && s < U32
  {
    var q := NextRead(st, s, want);
    State(Push(st.w, q), st.slots[s := CopySlot(st.nextOff, want, true)], st.own[s := Busy(st.w.nextId, q)],
          st.src, st.nextOff + want, st.maxBuf, st.calls + 1)
  }

  ghost predicate CanStart(st: State, s: nat, want: nat) {
    && Inv(st) && s < |st.own| == |st.slots| < U32 && st.own[s].Idle?
    && 0 < want <= st.maxBuf && st.nextOff + want <= |st.src|
  }

  lemma StartReadTable(st: State, s: nat, want: nat)
    requires CanStart(st, s, want)
    ensures var q := NextRead(st, s, want); st.w.Fits(q) && UdSlot(q.ud) == s
    ensures Table(Started(st, s, want).slots, Started(st, s, want).own)
  {
    hide Flow, InPlace, Owns, Accounts, World.Valid;
    PackRoundTrip(0, s);
  }

  lemma StartReadOwners(st: State, s: nat, want: nat)
    requires CanStart(st, s, want)
    ensures Started(st, s, want).w.Valid() && Owns(Started(st, s, want).w, Started(st, s, want).own)
  {
    var q := NextRead(st, s, want);
    StartReadTable(st, s, want);
    hide World.Valid, Owns, Flow, InPlace, Accounts;
    PushKeepsValid(st.w, q);
    PushKeepsOwners(st.w, st.own, s, q);
  }

  lemma StartReadFlow(st: State, s: nat, want: nat)
    requires CanStart(st, s, want)
    ensures var v := Started(st, s, want);
            Flow(v.w, DST, v.src, v.nextOff)
            && (InPlace(st.w, DST, st.src, st.nextOff) ==> InPlace(v.w, DST, v.src, v.nextOff))
  {
    hide Flow, InPlace, Accounts, World.Valid, UdSlot, UdOp, PackUd;
    forall i | i in st.w.reqs ensures st.w.reqs[i].sqe.buf != s {
      var _ := RequestOwner(st, i);
    }
    hide Owns;
    PushKeepsFlow(st.w, DST, st.src, st.nextOff, NextRead(st, s, want));
  }

  lemma StartReadAccounts(st: State, s: nat, want: nat)
    requires CanStart(st, s, want)
    ensures var v := Started(st, s, want);
            Accounts(v.w.trace, v.own, v.nextOff) && Lost(v.w.trace) == Lost(st.w.trace)
            && Buffers(v.w.mem, |v.own|, v.maxBuf) && v.w.files == st.w.files
  {
    hide Flow, InPlace, Owns, World.Valid, Table;
    AccountsIssueRead(st.w.trace, st.own, st.nextOff, s, st.w.nextId, NextRead(st, s, want));
  }

  /** An idle slot takes the next chunk. */
  lemma StartRead(st: State, s: nat, want: nat)
    requires CanStart(st, s, want)
    ensures st.w.Fits(NextRead(st, s, want)) && Inv(Started(st, s, want))
  {
    var v := Started(st, s, want);
    assert v.src == st.src && v.nextOff == st.nextOff + want && v.maxBuf == st.maxBuf;
    hide Lost, Flow, InPlace, Owns, Accounts, World.Valid, Buffers, Table, Started;
    StartReadTable(st, s, want);
    StartReadFlow(st, s, want);
    StartReadOwners(st, s, want);
    StartReadAccounts(st, s, want);
  }

  /** Freeing a slot, once the completion it is busy with has been accounted for. */
  lemma FreeSlot(st: State, id: nat)
    requires Inv(st) && st.w.IsDone(id)
    requires UdSlot(st.w.reqs[id].sqe.ud) < |st.own|
    requires Accounts(Reap(st.w, id).trace, st.own[UdSlot(st.w.reqs[id].sqe.ud) := Idle], st.nextOff)
    requires Lost(Reap(st.w, id).trace) == 0 ==> InPlace(Reap(st.w, id), DST, st.src, st.nextOff)
    ensures Inv(Freed(st, id))
  {
    hide Lost, Flow, InPlace, Owns, Accounts, World.Valid, UdSlot, UdOp, PackUd, SlotReq;
    ReapKeepsValid(st.w, id);
    ReapKeepsOwners(st.w, st.own, id);
    ReapKeepsFlow(st.w, DST, st.src, st.nextOff, id);
  }

  /** End of file for a slot: its whole chunk is lost and the slot retires. */
  lemma ReadEof(st: State, id: nat)
    requires Inv(st) && st.w.IsDone(id)
    requires st.w.reqs[id].sqe.dir.Read? && st.w.reqs[id].stage.res == 0
    ensures UdSlot(st.w.reqs[id].sqe.ud) < |st.own| == |st.slots| && Inv(Freed(st, id))
    ensures Lost(Reap(st.w, id).trace) > 0
  {
    var s := RequestOwner(st, id);
    hide Lost, Flow, InPlace, Owns, Accounts, World.Valid, UdSlot, UdOp, PackUd, Table, Buffers;
    AccountsFree(st.w.trace, st.own, st.nextOff, s, st.w.reqs[id].sqe, 0);
    FreeSlot(st, id);
  }

  /** A completed write counts its bytes and leaves the slot free. */
  lemma WriteDone(st: State, id: nat)
    requires Inv(st) && st.w.IsDone(id)
    requires st.w.reqs[id].sqe.dir.Write? && st.w.reqs[id].stage.res >= 0
    ensures UdSlot(st.w.reqs[id].sqe.ud) < |st.own| == |st.slots| && Inv(Freed(st, id))
  {
    var s := RequestOwner(st, id);
    hide Lost, Flow, InPlace, Owns, Accounts, World.Valid, UdSlot, UdOp, PackUd, Table, Buffers;
    AccountsFree(st.w.trace, st.own, st.nextOff, s, st.w.reqs[id].sqe, st.w.reqs[id].stage.res);
    if Lost(Reap(st.w, id).trace) == 0 {
      FullWriteLands(st.w, DST, st.src, st.nextOff, id);
    }
    FreeSlot(st, id);
  }

  /** The state after slot s, whose read id got something, has queued the write of it. */
  ghost function Turned(st: State, id: nat, s: nat): State
    requires st.w.IsDone(id) && st.w.reqs[id].stage.res > 0 && s < |st.own| && s < |st.slots| && s < U32
  {
    var q := WriteOf(s, st.slots[s], st.w.reqs[id].stage.res);
    st.(w := Push(Reap(st.w, id), q), own := st.own[s := Busy(st.w.nextId, q)])
  }

  lemma TurnOwners(st: State, id: nat, s: nat)
    requires Inv(st) && st.w.IsDone(id) && st.w.reqs[id].stage.res > 0
    requires s == UdSlot(st.w.reqs[id].sqe.ud) < |st.own| == |st.slots| < U32
    requires Reap(st.w, id).Fits(WriteOf(s, st.slots[s], st.w.reqs[id].stage.res))
    ensures Turned(st, id, s).w.Valid() && Owns(Turned(st, id, s).w, Turned(st, id, s).own)
  {
    hide World.Valid, Owns, Flow, InPlace, Accounts, Table, Buffers;
    var q := WriteOf(s, st.slots[s], st.w.reqs[id].stage.res);
    PackRoundTrip(1, s);
    ReapKeepsValid(st.w, id);
    ReapKeepsOwners(st.w, st.own, id);
    PushKeepsValid(Reap(st.w, id), q);
    PushKeepsOwners(Reap(st.w, id), st.own[s := Idle], s, q);
    assert st.own[s := Idle][s := Busy(st.w.nextId, q)] == Turned(st, id, s).own;
  }

  lemma OwnRequestOk(st: State, id: nat)
    requires Inv(st) && id in st.w.reqs
    ensures ReqOk(st.w, DST, st.src, st.nextOff, st.w.reqs[id])
  {
  }

  lemma TurnTable(st: State, id: nat, s: nat)
    requires Inv(st) && st.w.IsDone(id) && 0 < st.w.reqs[id].stage.res <= st.w.reqs[id].sqe.len
    requires s < |st.own| && st.own[s] == Busy(id, st.w.reqs[id].sqe)
    ensures Table(st.slots, Turned(st, id, s).own)
    ensures Reap(st.w, id).Fits(WriteOf(s, st.slots[s], st.w.reqs[id].stage.res))
  {
    assert SlotReq(s, st.slots[s], st.own[s].sqe);
    assert ReqOk(st.w, DST, st.src, st.nextOff, st.w.reqs[id]);
  }

  /** A read that got something turns into the write of those bytes. */
  lemma ReadDone(st: State, id: nat)
    requires Inv(st) && st.w.IsDone(id)
    requires st.w.reqs[id].sqe.dir.Read? && st.w.reqs[id].stage.res > 0
    ensures var s := UdSlot(st.w.reqs[id].sqe.ud);
            s < |st.own| == |st.slots| < U32
            && Reap(st.w, id).Fits(WriteOf(s, st.slots[s], st.w.reqs[id].stage.res)) && Inv(Turned(st, id, s))
  {
    var s := RequestOwner(st, id);
    var q := WriteOf(s, st.slots[s], st.w.reqs[id].stage.res);
    hide Lost, Flow, InPlace, Owns, Accounts, World.Valid, UdSlot, UdOp, PackUd, Buffers, Table;
    TurnTable(st, id, s);
    TurnOwners(st, id, s);
    AccountsTurn(st.w.trace, st.own, st.nextOff, s, st.w.reqs[id].sqe, st.w.nextId, q);
    FullReadBecomesWrite(st.w, DST, st.src, st.nextOff, id, q);
  }

  /** A progress report is not a transfer. */
  lemma NoteKeeps(st: State, done: nat, answer: int)
    requires Inv(st)
    ensures Inv(st.(w := st.w.(trace := Then(st.w.trace, Progress(done, answer)))))
  {
    hide Flow, InPlace, Table, Buffers, Owns;
    var t := Then(st.w.trace, Progress(done, answer));
    TraceKeepsFlow(st.w, t, DST, st.src, st.nextOff);
    TraceKeepsOwners(st.w, t, st.own);
    TraceKeepsValid(st.w, t);
  }

  datatype Config = Config(sizeCb: Option<SizeCb>, bs: nat, progressCb: Option<ProgressCb>)

  /** The invariant together with the chunk plan and the reports; a completed write may still
      be waiting for its report. */
  ghost predicate Going(st: State, c: Config) {
    && Inv(st) && 0 < c.bs <= st.maxBuf && st.maxBuf == Sizing(c.sizeCb, |st.src|, c.bs).0
    && OnPlan(st.w.trace, Read, c.sizeCb, st.calls, st.nextOff, |st.src|, c.bs)
    && Reports(st.w.trace, |st.src|, c.progressCb) && !Canceled(st.w.trace)
    && Landed(st.w.trace, DST, st.w.files[DST], st.src)
  }

  /** What holds at every loop head. */
  ghost predicate Running(st: State, c: Config) {
    Going(st, c) && AllReported(st.w.trace, c.progressCb)
  }

  /** How many reads have come back empty. */
  function EmptyReads(t: Trace): nat {
    match t
    case Start => 0
    case Then(b, e) => EmptyReads(b) + if e.Reaped? && e.sqe.dir.Read? && e.res == 0 then 1 else 0
  }

  /** While there is something left to issue, a slot retires only on an empty read, and that loses bytes. */
  ghost predicate Staffed(st: State, spare: nat) {
    && EmptyReads(st.w.trace) <= Lost(st.w.trace)
    && (st.nextOff < |st.src| ==> BusyCount(st.own) + EmptyReads(st.w.trace) + spare == |st.own|)
  }

  /** Completions to come, at most: two for every byte not yet issued, two for every read in
      flight, one for every write. */
  ghost function Measure(st: State): int {
    2 * (|st.src| - st.nextOff) + StepsLeft(st.own)
  }

  /** The parts of Going that only look at the trace. */
  ghost predicate OnTrack(t: Trace, st: State, c: Config) {
    && OnPlan(t, Read, c.sizeCb, st.calls, st.nextOff, |st.src|, c.bs)
    && Reports(t, |st.src|, c.progressCb) && !Canceled(t)
  }

  lemma StartTrack(st: State, c: Config, s: nat, want: nat)
    requires OnTrack(st.w.trace, st, c) && AllReported(st.w.trace, c.progressCb)
    requires s < |st.own| && s < |st.slots| && s < U32 && st.nextOff < |st.src|
    requires want == Want(c.sizeCb, st.calls, st.nextOff, |st.src|, c.bs, Sizing(c.sizeCb, |st.src|, c.bs).0)
    ensures OnTrack(Started(st, s, want).w.trace, Started(st, s, want), c)
    ensures !WriteReaped(Started(st, s, want).w.trace)
    ensures Lost(Started(st, s, want).w.trace) == Lost(st.w.trace)
    ensures EmptyReads(Started(st, s, want).w.trace) == EmptyReads(st.w.trace)
    ensures |st.w.files| == 2 && Landed(st.w.trace, DST, st.w.files[DST], st.src) ==>
              Landed(Started(st, s, want).w.trace, DST, st.w.files[DST], st.src)
  {
    hide Want, Plan, OnPlan, Sizing;
    PlanStep(st.w.trace, NextRead(st, s, want), c.sizeCb, st.calls, st.nextOff, |st.src|, c.bs);
  }

  lemma StartCounts(st: State, s: nat, want: nat)
    requires CanStart(st, s, want)
    ensures BusyCount(Started(st, s, want).own) == BusyCount(st.own) + 1
    ensures StepsLeft(Started(st, s, want).own) == StepsLeft(st.own) + 2
    ensures |Started(st, s, want).w.reqs| == |st.w.reqs| + 1
  {
    var q := NextRead(st, s, want);
    hide Flow, InPlace, Owns, Accounts, Table, Buffers;
    UpdateSums(st.own, s, Busy(st.w.nextId, q));
    assert st.w.nextId !in st.w.reqs;
  }

  lemma CanStartFits(st: State, s: nat, want: nat)
    requires CanStart(st, s, want)
    ensures st.w.Fits(NextRead(st, s, want)) && |st.w.files| == 2
  {
    hide Flow, InPlace, Owns, Accounts, Table;
  }

  lemma StartGoes(st: State, c: Config, s: nat, want: nat, spare: nat)
    requires Running(st, c) && CanStart(st, s, want) && Staffed(st, spare + 1)
    requires want == Want(c.sizeCb, st.calls, st.nextOff, |st.src|, c.bs, st.maxBuf)
    ensures st.w.Fits(NextRead(st, s, want))
    ensures Running(Started(st, s, want), c) && Staffed(Started(st, s, want), spare)
    ensures Measure(Started(st, s, want)) <= Measure(st)
    ensures Lost(Started(st, s, want).w.trace) == Lost(st.w.trace)
    ensures |Started(st, s, want).w.reqs| == |st.w.reqs| + 1
  {
    hide Inv, Started, Reports, OnPlan, Lost, BusyCount, StepsLeft, Want, Sizing, Landed, EmptyReads, Canceled,
         WriteReaped, NextRead;
    CanStartFits(st, s, want);
    StartedShape(st, s, want);
    StartRead(st, s, want);
    StartTrack(st, c, s, want);
    StartCounts(st, s, want);
  }

  lemma FreedTrack(st: State, c: Config, id: nat)
    requires OnTrack(st.w.trace, st, c) && AllReported(st.w.trace, c.progressCb)
    requires st.w.IsDone(id) && UdSlot(st.w.reqs[id].sqe.ud) < |st.own| == |st.slots|
    ensures OnTrack(Freed(st, id).w.trace, Freed(st, id), c)
    ensures Lost(st.w.trace) <= Lost(Freed(st, id).w.trace)
    ensures var (q, res, t) := (st.w.reqs[id].sqe, st.w.reqs[id].stage.res, Freed(st, id).w.trace);
            if q.dir.Read? && res == 0
            then EmptyReads(t) == EmptyReads(st.w.trace) + 1 && Lost(t) == Lost(st.w.trace) + q.len
            else EmptyReads(t) == EmptyReads(st.w.trace)
    ensures var q, res := st.w.reqs[id].sqe, st.w.reqs[id].stage.res;
            && (WriteReaped(Freed(st, id).w.trace) <==> q.dir.Write? && res >= 0)
            && Moved(Freed(st, id).w.trace, Write) ==
               Moved(st.w.trace, Write) + if q.dir.Write? && res > 0 then res else 0
  {
    hide Plan, Sizing;
  }

  lemma FreedCounts(st: State, id: nat)
    requires Inv(st) && st.w.IsDone(id)
    requires UdSlot(st.w.reqs[id].sqe.ud) < |st.own| == |st.slots|
    requires st.own[UdSlot(st.w.reqs[id].sqe.ud)] == Busy(id, st.w.reqs[id].sqe)
    ensures BusyCount(Freed(st, id).own) == BusyCount(st.own) - 1
    ensures StepsLeft(Freed(st, id).own) < StepsLeft(st.own)
    ensures |Freed(st, id).w.reqs| == |st.w.reqs| - 1 && st.w.reqs[id].sqe.len > 0
    ensures Landed(st.w.trace, DST, st.w.files[DST], st.src) ==>
              Landed(Freed(st, id).w.trace, DST, st.w.files[DST], st.src)
  {
    FreedLands(st, id);
    hide Flow, InPlace, Owns, Accounts, Table, Buffers, Landed;
    UpdateSums(st.own, UdSlot(st.w.reqs[id].sqe.ud), Idle);
    ReapKeepsValid(st.w, id);
  }

  lemma FreedLands(st: State, id: nat)
    requires Inv(st) && st.w.IsDone(id) && UdSlot(st.w.reqs[id].sqe.ud) < |st.own| == |st.slots|
    requires st.own[UdSlot(st.w.reqs[id].sqe.ud)] == Busy(id, st.w.reqs[id].sqe)
    ensures st.w.reqs[id].sqe.len > 0
    ensures Landed(st.w.trace, DST, st.w.files[DST], st.src) ==>
              Landed(Freed(st, id).w.trace, DST, st.w.files[DST], st.src)
  {
    hide Flow, InPlace, Owns, Accounts, Landed;
    var s := UdSlot(st.w.reqs[id].sqe.ud);
    assert SlotReq(s, st.slots[s], st.own[s].sqe);
    if Landed(st.w.trace, DST, st.w.files[DST], st.src) {
      ReapLands(st.w, DST, st.src, st.nextOff, id);
    }
  }

  lemma EofGoes(st: State, c: Config, id: nat)
    requires Running(st, c) && Staffed(st, 0) && st.w.IsDone(id)
    requires st.w.reqs[id].sqe.dir.Read? && st.w.reqs[id].stage.res == 0
    ensures UdSlot(st.w.reqs[id].sqe.ud) < |st.own| == |st.slots|
    ensures Running(Freed(st, id), c) && Staffed(Freed(st, id), 0)
    ensures Measure(Freed(st, id)) < Measure(st) && |Freed(st, id).w.reqs| == |st.w.reqs| - 1
    ensures Moved(Freed(st, id).w.trace, Write) == Moved(st.w.trace, Write)
  {
    hide Inv, Freed, Reap, Reports, OnPlan, Lost, BusyCount, StepsLeft, Sizing, Landed, EmptyReads, UdSlot, Moved,
         Canceled, WriteReaped;
    var s := RequestOwner(st, id);
    ReadEof(st, id);
    FilesKept(st);
    FreedShape(st, id);
    FreedTrack(st, c, id);
    FreedCounts(st, id);
  }

  lemma TurnTrack(st: State, c: Config, id: nat, s: nat)
    requires OnTrack(st.w.trace, st, c) && AllReported(st.w.trace, c.progressCb)
    requires st.w.IsDone(id) && st.w.reqs[id].stage.res > 0 && s < |st.own| && s < |st.slots| && s < U32
    requires st.w.reqs[id].sqe.dir.Read?
    ensures OnTrack(Turned(st, id, s).w.trace, Turned(st, id, s), c) && !WriteReaped(Turned(st, id, s).w.trace)
    ensures Lost(st.w.trace) <= Lost(Turned(st, id, s).w.trace)
    ensures EmptyReads(Turned(st, id, s).w.trace) == EmptyReads(st.w.trace)
    ensures Moved(Turned(st, id, s).w.trace, Write) == Moved(st.w.trace, Write)
  {
    hide Plan, Sizing;
    var t := Reap(st.w, id).trace;
    assert OnTrack(t, st, c) && !WriteReaped(t) && Lost(st.w.trace) <= Lost(t);
    var v := Turned(st, id, s);
    assert v.w.trace == Then(t, Issued(WriteOf(s, st.slots[s], st.w.reqs[id].stage.res)));
    assert ChunksOf(v.w.trace, Read) == ChunksOf(t, Read);
  }

  lemma TurnLands(st: State, id: nat, s: nat)
    requires st.w.IsDone(id) && st.w.reqs[id].stage.res > 0 && s < |st.own| && s < |st.slots| && s < U32
    requires st.w.reqs[id].sqe.dir.Read? && |st.w.files| == 2 && Landed(st.w.trace, DST, st.w.files[DST], st.src)
    ensures Turned(st, id, s).w.files == st.w.files && Landed(Turned(st, id, s).w.trace, DST, st.w.files[DST], st.src)
  {
    var t, f := st.w.trace, st.w.files[DST];
    var t1 := Then(t, Reaped(st.w.reqs[id].sqe, st.w.reqs[id].stage.res));
    assert WritesRight(t1, DST, f, st.src);
    assert Turned(st, id, s).w.trace == Then(t1, Issued(WriteOf(s, st.slots[s], st.w.reqs[id].stage.res)));
  }

  lemma FilesKept(st: State)
    requires Inv(st)
    ensures |st.w.files| == 2
  {
  }

  lemma FreedShape(st: State, id: nat)
    requires st.w.IsDone(id) && UdSlot(st.w.reqs[id].sqe.ud) < |st.own| == |st.slots|
    ensures var v := Freed(st, id);
            && v.src == st.src && v.nextOff == st.nextOff && v.maxBuf == st.maxBuf && v.calls == st.calls
            && |v.own| == |st.own| && v.w.files == st.w.files
  {
  }

  lemma TurnedShape(st: State, id: nat, s: nat)
    requires st.w.IsDone(id) && st.w.reqs[id].stage.res > 0 && s < |st.own| && s < |st.slots| && s < U32
    ensures var v := Turned(st, id, s);
            && v.src == st.src && v.nextOff == st.nextOff && v.maxBuf == st.maxBuf && v.calls == st.calls
            && |v.own| == |st.own| && v.w.files == st.w.files
  {
  }

  lemma StartedShape(st: State, s: nat, want: nat)
    requires s < |st.own| && s < |st.slots| && s < U32
    ensures var v := Started(st, s, want);
            && v.src == st.src && v.nextOff == st.nextOff + want && v.maxBuf == st.maxBuf
            && |v.own| == |st.own| && v.w.files == st.w.files
  {
  }

  lemma TurnCounts(st: State, id: nat, s: nat)
    requires Inv(st) && st.w.IsDone(id) && st.w.reqs[id].stage.res > 0 && s < |st.own| && s < |st.slots| && s < U32
    requires st.w.reqs[id].sqe.dir.Read? && st.own[s] == Busy(id, st.w.reqs[id].sqe)
    ensures BusyCount(Turned(st, id, s).own) == BusyCount(st.own)
    ensures StepsLeft(Turned(st, id, s).own) == StepsLeft(st.own) - 1
    ensures |Turned(st, id, s).w.reqs| == |st.w.reqs|
  {
    hide Flow, InPlace, Owns, Accounts, Table, Buffers;
    var q := WriteOf(s, st.slots[s], st.w.reqs[id].stage.res);
    UpdateSums(st.own, s, Busy(st.w.nextId, q));
    ReapKeepsValid(st.w, id);
    assert st.w.nextId !in Reap(st.w, id).reqs;
  }

  lemma TurnGoes(st: State, c: Config, id: nat)
    requires Running(st, c) && Staffed(st, 0) && st.w.IsDone(id)
    requires st.w.reqs[id].sqe.dir.Read? && st.w.reqs[id].stage.res > 0
    ensures var s := UdSlot(st.w.reqs[id].sqe.ud);
            s < |st.own| == |st.slots| < U32
            && Reap(st.w, id).Fits(WriteOf(s, st.slots[s], st.w.reqs[id].stage.res))
            && Running(Turned(st, id, s), c) && Staffed(Turned(st, id, s), 0)
            && Measure(Turned(st, id, s)) < Measure(st) && |Turned(st, id, s).w.reqs| == |st.w.reqs|
            && Moved(Turned(st, id, s).w.trace, Write) == Moved(st.w.trace, Write)
  {
    hide Inv, Reports, OnPlan, Lost, Moved, BusyCount, StepsLeft, Sizing, UdSlot, Landed, EmptyReads, Turned, Reap,
         Canceled, WriteReaped;
    var s := RequestOwner(st, id);
    ReadDone(st, id);
    FilesKept(st);
    TurnedShape(st, id, s);
    TurnTrack(st, c, id, s);
    TurnLands(st, id, s);
    TurnCounts(st, id, s);
  }

  lemma WriteGoes(st: State, c: Config, id: nat)
    requires Running(st, c) && Staffed(st, 0) && st.w.IsDone(id)
    requires st.w.reqs[id].sqe.dir.Write? && st.w.reqs[id].stage.res >= 0
    ensures UdSlot(st.w.reqs[id].sqe.ud) < |st.own| == |st.slots|
    ensures Going(Freed(st, id), c) && Staffed(Freed(st, id), 1) && WriteReaped(Freed(st, id).w.trace)
    ensures Measure(Freed(st, id)) < Measure(st) && |Freed(st, id).w.reqs| == |st.w.reqs| - 1
    ensures Moved(Freed(st, id).w.trace, Write) == Moved(st.w.trace, Write) + st.w.reqs[id].stage.res
  {
    hide Inv, Freed, Reap, Reports, OnPlan, Lost, BusyCount, StepsLeft, Sizing, Landed, EmptyReads, UdSlot, Moved,
         Canceled, WriteReaped;
    var s := RequestOwner(st, id);
    WriteDone(st, id);
    FilesKept(st);
    FreedShape(st, id);
    FreedTrack(st, c, id);
    FreedCounts(st, id);
  }

  /** The state after a progress report. */
  ghost function Noted(st: State, answer: int): State {
    st.(w := st.w.(trace := Then(st.w.trace, Progress(Moved(st.w.trace, Write), answer))))
  }

  lemma NotedLands(st: State, answer: int)
    requires |st.w.files| == 2
    ensures Landed(Noted(st, answer).w.trace, DST, st.w.files[DST], st.src) <==>
            Landed(st.w.trace, DST, st.w.files[DST], st.src)
    ensures EmptyReads(Noted(st, answer).w.trace) == EmptyReads(st.w.trace)
    ensures Lost(Noted(st, answer).w.trace) == Lost(st.w.trace)
  {
  }

  lemma NoteGoes(st: State, c: Config, answer: int, spare: nat)
    requires Going(st, c) && c.progressCb.Some? && WriteReaped(st.w.trace) && Staffed(st, spare)
    requires answer == c.progressCb.value(ReportCount(st.w.trace), Moved(st.w.trace, Write), |st.src|)
    ensures Inv(Noted(st, answer)) && Reports(Noted(st, answer).w.trace, |st.src|, c.progressCb)
    ensures answer == 0 ==> Running(Noted(st, answer), c) && Staffed(Noted(st, answer), spare)
    ensures OnPlan(Noted(st, answer).w.trace, Read, c.sizeCb, st.calls, st.nextOff, |st.src|, c.bs)
    ensures Moved(Noted(st, answer).w.trace, Write) == Moved(st.w.trace, Write)
  {
    NotedLands(st, answer);
    hide InPlace, Flow, Owns, Table, World.Valid, Buffers, Landed, EmptyReads;
    NoteKeeps(st, Moved(st.w.trace, Write), answer);
  }

  lemma SubmitGoes(st: State, c: Config)
    requires Running(st, c)
    ensures Running(st.(w := Flush(st.w)), c) && |Flush(st.w).reqs| == |st.w.reqs|
    ensures Staffed(st, 0) ==> Staffed(st.(w := Flush(st.w)), 0)
    ensures Measure(st.(w := Flush(st.w))) == Measure(st) && Flush(st.w).trace == st.w.trace
  {
    FlushedShape(st.w);
    hide Inv, Reports, OnPlan, World.Valid, Canceled, WriteReaped, StepsLeft, BusyCount, Lost, Flush, Landed,
         EmptyReads;
    InvHolds(st);
    SubmitKeeps(st);
    FlushKeepsValid(st.w);
  }

  lemma FlushedShape(w: World)
    ensures Flush(w).trace == w.trace && Flush(w).files == w.files
  {
  }

  lemma InvHolds(st: State)
    requires Inv(st)
    ensures st.w.Valid()
  {
  }

  lemma RunStaysLanded(st: State, sched: Schedule)
    requires Inv(st)
    ensures |Run(st.w, sched).files| == 2
    ensures Landed(st.w.trace, DST, st.w.files[DST], st.src) ==>
              Landed(st.w.trace, DST, Run(st.w, sched).files[DST], st.src)
  {
    hide Landed, Flow, InPlace, Owns, Accounts, Table, Buffers, Run;
    RunKeepsFlow(st.w, DST, st.src, st.nextOff, sched);
    if Landed(st.w.trace, DST, st.w.files[DST], st.src) {
      RunLands(st.w, st.w.trace, DST, st.src, st.nextOff, sched);
    }
  }

  lemma KernelGoes(st: State, c: Config, sched: Schedule)
    requires Running(st, c)
    ensures Running(st.(w := Run(st.w, sched)), c)
    ensures Staffed(st, 0) ==> Staffed(st.(w := Run(st.w, sched)), 0)
    ensures Measure(st.(w := Run(st.w, sched))) == Measure(st)
    ensures |Run(st.w, sched).reqs| == |st.w.reqs| && Run(st.w, sched).sqLen == st.w.sqLen
    ensures Run(st.w, sched).trace == st.w.trace
  {
    hide Reports, OnPlan, Inv, World.Valid, Canceled, WriteReaped, StepsLeft, BusyCount, Lost, Run, Landed, EmptyReads;
    RunStaysLanded(st, sched);
    InvHolds(st);
    KernelKeeps(st, sched);
    RunKeepsValid(st.w, sched);
  }

  /** A run that ends with nothing in flight. */
  lemma DrainedIsFinal(st: State, c: Config)
    requires Running(st, c) && Staffed(st, 0) && st.w.reqs == map[] && 0 < |st.own|
    ensures Moved(st.w.trace, Write) + Lost(st.w.trace) == st.nextOff
    ensures st.nextOff < |st.src| ==> Lost(st.w.trace) > 0 && EmptyReads(st.w.trace) == |st.own|
    ensures Lost(st.w.trace) == 0 ==> st.w.files[DST] == st.src
  {
    BusyBound(st.own);
    if Lost(st.w.trace) == 0 {
      AllLanded(st.w, DST, st.src, st.nextOff);
      assert st.src[..|st.src|] == st.src;
    }
  }

  lemma InitialRuns(st: State, c: Config)
    requires |st.slots| < U32 && Buffers(st.w.mem, |st.slots|, st.maxBuf) && st.w == Empty(st.w.mem, [st.src, []])
    requires forall s | 0 <= s < |st.slots| :: !st.slots[s].active
    requires st.own == AllIdle(|st.slots|) && st.nextOff == 0
    requires 0 < c.bs && (st.maxBuf, st.calls) == Sizing(c.sizeCb, |st.src|, c.bs) && c.bs <= st.maxBuf
    ensures Running(st, c) && BusyCount(st.own) == 0 && Staffed(st, |st.slots|)
  {
    AllIdleSums(|st.slots|);
    BusyBound(st.own);
    assert [] + WholePlan(c.sizeCb, |st.src|, c.bs) == WholePlan(c.sizeCb, |st.src|, c.bs);
  }

  /** What a caller can tell from the trace at any exit. */
  ghost predicate Observed(t: Trace, total: nat, c: Config) {
    && Tiles(t, Read) && IssuedBytes(t, Read) <= total
    && ReapedCount(t) <= 2 * IssuedCount(t, Read)
    && Reports(t, total, c.progressCb) && AllReported(t, c.progressCb)
    && (0 < c.bs ==> ChunksOf(t, Read) <= WholePlan(c.sizeCb, total, c.bs))
  }

  lemma ObservedAt(st: State, c: Config)
    requires Inv(st) && 0 < c.bs && Reports(st.w.trace, |st.src|, c.progressCb) && AllReported(st.w.trace, c.progressCb)
    requires OnPlan(st.w.trace, Read, c.sizeCb, st.calls, st.nextOff, |st.src|, c.bs)
    ensures Observed(st.w.trace, |st.src|, c)
  {
  }

  // ---------- the method ----------

  /** posix_memalign for every slot: buffers of one size with arbitrary contents. */
  method Allocate(qd: nat, size: nat) returns (mem: seq<seq<Byte>>)
    ensures Buffers(mem, qd, size)
  {
    mem := seq(qd, _ => seq(size, _ => 0));
  }

  /** The program's variables are the state st. */
  ghost predicate Mirrors(st: State, ring: Ring, slots: array<CopySlot>, src: seq<Byte>, nextOff: nat, maxBuf: nat,
                          calls: nat)
    reads ring, slots
  {
    && st.w == ring.w && st.slots == slots[..] && |st.own| == slots.Length
    && st.src == src && st.nextOff == nextOff && st.maxBuf == maxBuf && st.calls == calls
  }

  /** Size a read, fill in the slot, queue the read: the code that primes a slot and refills one.
      In st the slot is marked inactive, whatever the array says. */
  method QueueRead(ring: Ring, slots: array<CopySlot>, s: nat, nextOff: nat, fileSize: nat, maxBuf: nat, calls: nat,
                   c: Config, ghost st: State, ghost spare: nat)
      returns (ok: bool, want: nat, ghost v: State)
    requires ring.Valid() && ring.w.sqLen < ring.entries
    requires Running(st, c) && Staffed(st, spare + 1)
    requires s < slots.Length == |st.slots| == |st.own| < U32 && st.own[s].Idle?
    requires st == State(ring.w, slots[..][s := st.slots[s]], st.own, st.src, nextOff, maxBuf, calls)
    requires nextOff < |st.src| == fileSize
    modifies ring`w, slots
    ensures ring.Valid() && ok && ring.w.sqLen == old(ring.w.sqLen) + 1
    ensures 0 < want <= fileSize - nextOff
    ensures Mirrors(v, ring, slots, st.src, nextOff + want, maxBuf, calls + 1)
    ensures Running(v, c) && Staffed(v, spare) && Measure(v) <= Measure(st)
    ensures v.own == st.own[s := v.own[s]]
    ensures |v.w.reqs| == |st.w.reqs| + 1
    ensures Moved(v.w.trace, Write) == Moved(st.w.trace, Write) && Lost(v.w.trace) == Lost(st.w.trace)
  {
    want := Want(c.sizeCb, calls, nextOff, fileSize, c.bs, maxBuf);
    slots[s] := CopySlot(nextOff, want, true);
    StartGoes(st, c, s, want, spare);
    v := Started(st, s, want);
    ok := ring.GetSqe(ReadOf(s, slots[s]));
    assert v.slots == slots[..];
    hide *;
  }

  /** Primes the queue with initial reads. */
  method Prime(ring: Ring, slots: array<CopySlot>, fileSize: nat, maxBuf: nat, calls0: nat, c: Config, ghost st0: State)
      returns (ok: bool, nextOff: nat, inflight: nat, calls: nat, ghost st: State)
    requires ring.Valid() && |ring.w.reqs| == ring.w.sqLen == 0
    requires 0 < slots.Length <= ring.entries && slots.Length < U32 && |st0.src| == fileSize < U64 / 2
    requires Mirrors(st0, ring, slots, st0.src, 0, maxBuf, calls0) && Running(st0, c) && Staffed(st0, slots.Length)
    requires (forall s | 0 <= s < |st0.own| :: st0.own[s].Idle?) && Moved(st0.w.trace, Write) == 0
    modifies ring`w, slots
    ensures ring.Valid() && ok && inflight == |ring.w.reqs| && nextOff <= fileSize
    ensures Mirrors(st, ring, slots, st0.src, nextOff, maxBuf, calls) && Running(st, c) && Staffed(st, 0)
    ensures Moved(st.w.trace, Write) == 0
    ensures inflight == slots.Length || nextOff == fileSize
  {
    hide Inv, Going, Running, Staffed, Moved, Measure, Lost, World.Valid, Want, Sizing, Plan, WholePlan, Reports;
    ok, nextOff, inflight, calls, st := true, 0, 0, calls0, st0;
    var i := 0;
    while i < slots.Length && nextOff < fileSize
      invariant i <= slots.Length && inflight == i == ring.w.sqLen == |ring.w.reqs| && ring.Valid() && ok
      invariant Mirrors(st, ring, slots, st0.src, nextOff, maxBuf, calls)
      invariant Running(st, c) && Staffed(st, slots.Length - i)
      invariant forall s | i <= s < |st.own| :: st.own[s].Idle?
      invariant Moved(st.w.trace, Write) == 0 && nextOff <= fileSize
    {
      var want;
      ok, want, st := QueueRead(ring, slots, i, nextOff, fileSize, maxBuf, calls, c, st, slots.Length - i - 1);
      if !ok {
        return;
      }
      inflight, calls := inflight + 1, calls + 1;
      assert nextOff + want < U64;
      nextOff, i := nextOff + want, i + 1;
    }
    FullyStaffed(st, slots.Length - i);
  }

  lemma FullyStaffed(st: State, spare: nat)
    requires Staffed(st, spare) && (spare == 0 || st.nextOff >= |st.src|)
    ensures Staffed(st, 0)
  {
  }

  /** A completion that reports an error is consumed like any other. */
  lemma ErrorObserved(st: State, c: Config, id: nat)
    requires Running(st, c) && st.w.IsDone(id) && st.w.reqs[id].stage.res < 0
    ensures Observed(Reap(st.w, id).trace, |st.src|, c) && !Canceled(Reap(st.w, id).trace)
  {
    hide Flow, InPlace, Table, Buffers, OnPlan, World.Valid;
    var s := RequestOwner(st, id);
    UpdateSums(st.own, s, Idle);
    hide Owns;
    ObservedAt(st, c);
    ReapObserved(st.w.trace, st.w.reqs[id].sqe, st.w.reqs[id].stage.res, |st.src|, c);
  }

  /** Consuming a completion while fewer than two per read have been consumed. */
  lemma ReapObserved(t: Trace, q: Sqe, res: int, total: nat, c: Config)
    requires Observed(t, total, c) && !Canceled(t) && (q.dir.Write? ==> res < 0)
    requires ReapedCount(t) < 2 * IssuedCount(t, Read)
    ensures Observed(Then(t, Reaped(q, res)), total, c) && !Canceled(Then(t, Reaped(q, res)))
  {
  }

  /** A read completion: retire the slot at end of file, else write what was read. */
  method OnRead(ring: Ring, slots: array<CopySlot>, cqe: Cqe, slot: nat, nextOff: nat, maxBuf: nat, calls: nat,
                inflight0: nat,
                c: Config, ghost st: State)
      returns (stop: Option<Outcome>, inflight: nat, ghost v: State)
    requires ring.Valid() && ring.w.sqLen == 0 < ring.entries && inflight0 == |ring.w.reqs|
    requires Running(st, c) && Staffed(st, 0) && st.w.IsDone(cqe.id)
    requires Mirrors(st.(w := Reap(st.w, cqe.id)), ring, slots, st.src, nextOff, maxBuf, calls)
    requires cqe == Cqe(cqe.id, st.w.reqs[cqe.id].sqe.ud, st.w.reqs[cqe.id].stage.res)
    requires st.w.reqs[cqe.id].sqe.dir.Read? && cqe.res >= 0 && slot == UdSlot(cqe.ud) < slots.Length
    modifies ring, slots
    ensures ring.Valid() && (stop.Some? ==> stop.value.KernelError?)
    ensures ring.faults == if stop.Some? then old(ring.faults) + [stop.value.errno] else old(ring.faults)
    ensures Mirrors(v, ring, slots, st.src, nextOff, maxBuf, calls) && Running(v, c)
    ensures Moved(v.w.trace, Write) == Moved(st.w.trace, Write)
    ensures ring.w.trace == if cqe.res == 0 then old(ring.w.trace)
                            else Then(old(ring.w.trace), Issued(WriteOf(slot, old(slots[slot]), cqe.res)))
    ensures cqe.res == 0 ==> !slots[slot].active
    ensures stop.None? ==> inflight == |ring.w.reqs| && ring.w.sqLen == 0 && Staffed(v, 0) && Measure(v) < Measure(st)
  {
    hide Inv, Going, Running, Staffed, Measure, Moved, Lost, World.Valid, Canceled, WriteReaped, UdSlot, PackUd,
         World.Fits, BusyCount;
    stop, inflight := None, inflight0;
    if cqe.res == 0 {
      EofGoes(st, c, cqe.id);
      v := Freed(st, cqe.id);
      slots[slot] := slots[slot].(active := false);
    } else {
      TurnGoes(st, c, cqe.id);
      v := Turned(st, cqe.id, slot);
      var ok := ring.GetSqe(WriteOf(slot, slots[slot], cqe.res));
      if !ok {
        stop := Some(NoSqe);
        return;
      }
      inflight := inflight + 1;
      SubmitGoes(v, c);
      var ret := ring.Submit();
      if ret < 0 {
        stop := Some(KernelError(ret));
        return;
      }
      v := v.(w := Flush(v.w));
    }
  }

  /** The report after a completed write, if anyone wants it. */
  method Report(ring: Ring, copied: nat, fileSize: nat, c: Config, ghost st: State, ghost spare: nat)
      returns (cancel: bool, ghost v: State)
    requires ring.Valid() && st.w == ring.w && Going(st, c) && Staffed(st, spare) && WriteReaped(st.w.trace)
    requires copied == Moved(st.w.trace, Write) && fileSize == |st.src|
    modifies ring`w
    ensures ring.Valid() && v == st.(w := ring.w) && Moved(ring.w.trace, Write) == copied
    ensures ring.w == st.w.(trace := ring.w.trace) && Measure(v) == Measure(st)
    ensures cancel <==> Canceled(ring.w.trace)
    ensures cancel ==> Observed(ring.w.trace, fileSize, c)
    ensures !cancel ==> Running(v, c) && Staffed(v, spare)
  {
    v, cancel := st, false;
    if c.progressCb.Some? {
      var answer := c.progressCb.value(ReportCount(ring.w.trace), copied, fileSize);
      NoteGoes(st, c, answer, spare);
      ring.Note(copied, answer);
      v := Noted(st, answer);
      ObservedAt(v, c);
      cancel := answer != 0;
    }
    hide *;
  }

  /** The slot's next chunk, if there is one. */
  method Refill(ring: Ring, slots: array<CopySlot>, slot: nat, nextOff0: nat, fileSize: nat, maxBuf: nat,
                calls0: nat, inflight0: nat, c: Config, ghost st: State)
      returns (stop: Option<Outcome>, nextOff: nat, calls: nat, inflight: nat, ghost v: State)
    requires ring.Valid() && ring.w.sqLen == 0 < ring.entries && inflight0 == |ring.w.reqs|
    requires Running(st, c) && Staffed(st, 1) && |st.src| == fileSize < U64 / 2
    requires slot < slots.Length == |st.slots| == |st.own| < U32 && st.own[slot].Idle? && !st.slots[slot].active
    requires st == State(ring.w, slots[..][slot := slots[slot].(active := false)], st.own, st.src, nextOff0, maxBuf,
                         calls0)
    modifies ring, slots
    ensures ring.Valid() && (stop.Some? ==> stop.value.KernelError?)
    ensures ring.faults == if stop.Some? then old(ring.faults) + [stop.value.errno] else old(ring.faults)
    ensures Mirrors(v, ring, slots, st.src, nextOff, maxBuf, calls) && Running(v, c) && Measure(v) <= Measure(st)
    ensures Moved(v.w.trace, Write) == Moved(st.w.trace, Write)
    ensures stop.None? ==> Staffed(v, 0) && inflight == |ring.w.reqs| && ring.w.sqLen == 0
  {
    stop, nextOff, calls, inflight, v := None, nextOff0, calls0, inflight0, st;
    hide Inv, Going, Running, Measure, Moved, Lost, BusyCount, World.Valid;
    if nextOff < fileSize {
      var ok, want;
      ok, want, v := QueueRead(ring, slots, slot, nextOff, fileSize, maxBuf, calls, c, st, 0);
      if !ok {
        stop := Some(NoSqe);
        return;
      }
      inflight, calls := inflight + 1, calls + 1;
      assert nextOff + want < U64;
      nextOff := nextOff + want;
      SubmitGoes(v, c);
      var ret := ring.Submit();
      if ret < 0 {
        stop := Some(KernelError(ret));
        return;
      }
      v := v.(w := Flush(v.w));
    } else {
      slots[slot] := slots[slot].(active := false);
    }
  }

  /** A write completion: count it, report it, and move the slot on. */
  method OnWrite(ring: Ring, slots: array<CopySlot>, cqe: Cqe, slot: nat, nextOff0: nat, fileSize: nat, maxBuf: nat,
                 calls0: nat, inflight0: nat, copied0: nat,
                 c: Config, ghost st: State)
      returns (stop: Option<Outcome>, nextOff: nat, calls: nat, inflight: nat, copied: nat, ghost v: State)
    requires ring.Valid() && ring.w.sqLen == 0 < ring.entries && inflight0 == |ring.w.reqs|
    requires Running(st, c) && Staffed(st, 0) && st.w.IsDone(cqe.id)
    requires Mirrors(st.(w := Reap(st.w, cqe.id)), ring, slots, st.src, nextOff0, maxBuf, calls0)
    requires cqe == Cqe(cqe.id, st.w.reqs[cqe.id].sqe.ud, st.w.reqs[cqe.id].stage.res)
    requires st.w.reqs[cqe.id].sqe.dir.Write? && cqe.res >= 0 && slot == UdSlot(cqe.ud) < slots.Length < U32
    requires copied0 == Moved(st.w.trace, Write) && |st.src| == fileSize < U64 / 2
    modifies ring, slots
    ensures ring.Valid() && v.w == ring.w && v.src == st.src && Observed(ring.w.trace, fileSize, c)
    ensures stop.Some? ==> || (stop.value.KernelError? && !Canceled(ring.w.trace))
                           || (stop.value.Aborted? && Canceled(ring.w.trace))
    ensures ring.faults == if stop.Some? && stop.value.KernelError? then old(ring.faults) + [stop.value.errno]
                           else old(ring.faults)
    ensures stop.None? ==>
              && Mirrors(v, ring, slots, st.src, nextOff, maxBuf, calls) && Running(v, c) && Staffed(v, 0)
              && inflight == |ring.w.reqs| && ring.w.sqLen == 0 && copied == Moved(ring.w.trace, Write)
              && Measure(v) < Measure(st)
  {
    hide Inv, Going, Running, Staffed, Measure, Moved, Lost, Observed, World.Valid, Canceled, WriteReaped, BusyCount,
         UdSlot, PackUd;
    nextOff, calls, inflight, copied := nextOff0, calls0, inflight0, copied0 + cqe.res;
    WriteGoes(st, c, cqe.id);
    v := Freed(st, cqe.id);
    var cancel;
    cancel, v := Report(ring, copied, fileSize, c, v, 1);
    if cancel {
      stop := Some(Aborted);
      return;
    }
    stop, nextOff, calls, inflight, v := Refill(ring, slots, slot, nextOff, fileSize, maxBuf, calls, inflight, c, v);
    RunningObserved(v, c);
  }

  lemma RunningObserved(st: State, c: Config)
    requires Running(st, c)
    ensures Observed(st.w.trace, |st.src|, c) && !Canceled(st.w.trace)
  {
    hide Flow, InPlace, Owns, Table, Buffers;
  }

  /** Facts about the completion that was just reaped. */
  lemma CompletionFacts(st: State, c: Config, id: nat)
    requires Running(st, c) && st.w.IsDone(id)
    ensures UdSlot(st.w.reqs[id].sqe.ud) < |st.own| == |st.slots| && st.slots[UdSlot(st.w.reqs[id].sqe.ud)].active
    ensures UdOp(st.w.reqs[id].sqe.ud) == 0 <==> st.w.reqs[id].sqe.dir.Read?
    ensures |Reap(st.w, id).reqs| == |st.w.reqs| - 1
  {
    var _ := RequestOwner(st, id);
    ReapKeepsValid(st.w, id);
  }

  /** io_uring_wait_cqe, with the kernel's doings folded into the state. */
  method Await(ring: Ring, c: Config, ghost st0: State) returns (ret: int, cqe: Cqe, ghost st: State)
    requires ring.Valid() && ring.w.sqLen == 0 && ring.w.reqs != map[]
    requires st0.w == ring.w && Running(st0, c) && Staffed(st0, 0)
    modifies ring
    ensures ring.Valid() && ring.w.sqLen == 0 && |ring.w.reqs| == old(|ring.w.reqs|)
    ensures st == st0.(w := ring.w) && Running(st, c) && Staffed(st, 0) && Measure(st) == Measure(st0)
    ensures ring.w.trace == old(ring.w.trace)
    ensures ring.faults == if ret < 0 then old(ring.faults) + [ret] else old(ring.faults)
    ensures ret >= 0 ==> st.w.IsDone(cqe.id)
                         && cqe == Cqe(cqe.id, st.w.reqs[cqe.id].sqe.ud, st.w.reqs[cqe.id].stage.res)
  {
    hide Inv, Going, Running, Staffed, Measure, World.Valid;
    ghost var sched;
    ret, cqe, sched := ring.WaitCqe();
    KernelGoes(st0, c, sched);
    st := st0.(w := ring.w);
  }

  /** One turn of the loop, from io_uring_cqe_seen on. */
  method Handle(ring: Ring, slots: array<CopySlot>, cqe: Cqe, nextOff0: nat, fileSize: nat, maxBuf: nat,
                calls0: nat, inflight0: nat, copied0: nat,
                c: Config, ghost st: State)
      returns (stop: Option<Outcome>, nextOff: nat, calls: nat, inflight: nat, copied: nat, ghost v: State)
    requires ring.Valid() && ring.w.sqLen == 0 < ring.entries && inflight0 == |ring.w.reqs|
    requires Mirrors(st, ring, slots, st.src, nextOff0, maxBuf, calls0) && Running(st, c) && Staffed(st, 0)
    requires st.w.IsDone(cqe.id) && cqe == Cqe(cqe.id, st.w.reqs[cqe.id].sqe.ud, st.w.reqs[cqe.id].stage.res)
    requires copied0 == Moved(st.w.trace, Write) && |st.src| == fileSize < U64 / 2
    requires slots.Length < U32
    modifies ring, slots
    ensures ring.Valid() && v.w == ring.w && v.src == st.src && Observed(ring.w.trace, fileSize, c)
    ensures stop.Some? ==> || (stop.value.KernelError? && !Canceled(ring.w.trace))
                           || (stop.value.Aborted? && Canceled(ring.w.trace))
    ensures ring.faults == if stop.Some? && stop.value.KernelError? then old(ring.faults) + [stop.value.errno]
                           else old(ring.faults)
    ensures stop.None? ==>
              && Mirrors(v, ring, slots, st.src, nextOff, maxBuf, calls) && Running(v, c) && Staffed(v, 0)
              && inflight == |ring.w.reqs| && ring.w.sqLen == 0 && copied == Moved(ring.w.trace, Write)
              && Measure(v) < Measure(st)
  {
    stop, nextOff, calls, inflight, copied, v := None, nextOff0, calls0, inflight0, copied0, st;
    var op, slot, res := UdOp(cqe.ud), UdSlot(cqe.ud), cqe.res;
    hide Inv, Going, Running, Staffed, Measure, Moved, Lost, Observed, World.Valid, Canceled, UdOp, UdSlot, PackUd;
    CompletionFacts(st, c, cqe.id);
    ring.Seen(cqe);
    inflight := inflight - 1;
    if slot >= slots.Length || !slots[slot].active {
      stop := Some(BadSlot);
      return;
    }
    if res < 0 {
      ErrorObserved(st, c, cqe.id);
      stop, v := Some(KernelError(res)), st.(w := ring.w);
    } else if op == 0 {
      stop, inflight, v := OnRead(ring, slots, cqe, slot, nextOff, maxBuf, calls, inflight, c, st);
      RunningObserved(v, c);
    } else {
      stop, nextOff, calls, inflight, copied, v :=
        OnWrite(ring, slots, cqe, slot, nextOff, fileSize, maxBuf, calls, inflight, copied, c, st);
    }
  }

  lemma MeasureBound(st: State, c: Config)
    requires Running(st, c)
    ensures Measure(st) >= 0
  {
  }

  /** The while (inflight) loop. */
  method Pump(ring: Ring, slots: array<CopySlot>, fileSize: nat, maxBuf: nat, nextOff0: nat, calls0: nat,
              inflight0: nat, c: Config, ghost st0: State)
      returns (stop: Option<Outcome>, copied: nat, ghost st: State)
    requires ring.Valid() && ring.w.sqLen == 0 && inflight0 == |ring.w.reqs|
    requires 0 < slots.Length <= ring.entries && slots.Length < U32 && |st0.src| == fileSize < U64 / 2
    requires Mirrors(st0, ring, slots, st0.src, nextOff0, maxBuf, calls0) && Running(st0, c) && Staffed(st0, 0)
    requires Moved(st0.w.trace, Write) == 0
    modifies ring, slots
    ensures ring.Valid() && st.src == st0.src && st.w == ring.w && Observed(ring.w.trace, fileSize, c)
    ensures stop.Some? ==> || (stop.value.KernelError? && !Canceled(ring.w.trace))
                           || (stop.value.Aborted? && Canceled(ring.w.trace))
    ensures ring.faults == if stop.Some? && stop.value.KernelError? then old(ring.faults) + [stop.value.errno]
                           else old(ring.faults)
    ensures stop.None? ==> Running(st, c) && Staffed(st, 0) && ring.w.reqs == map[] && |st.own| == slots.Length
                           && copied == Moved(ring.w.trace, Write)
  {
    hide Inv, Going, Running, Staffed, Moved, Lost, Observed, World.Valid, Canceled, Measure;
    stop, copied, st := None, 0, st0;
    var nextOff, calls, inflight := nextOff0, calls0, inflight0;
    RunningObserved(st, c);
    while inflight > 0
      invariant ring.Valid() && ring.w.sqLen == 0 && inflight == |ring.w.reqs| && stop == None
      invariant Mirrors(st, ring, slots, st0.src, nextOff, maxBuf, calls) && Running(st, c) && Staffed(st, 0)
      invariant copied == Moved(ring.w.trace, Write) && Observed(ring.w.trace, fileSize, c)
      invariant ring.faults == old(ring.faults)
      decreases Measure(st) + 1
    {
      MeasureBound(st, c);
      var ret, cqe;
      ret, cqe, st := Await(ring, c, st);
      if ret < 0 {
        RunningObserved(st, c);
        stop := Some(KernelError(ret));
        return;
      }
      stop, nextOff, calls, inflight, copied, st :=
        Handle(ring, slots, cqe, nextOff, fileSize, maxBuf, calls, inflight, copied, c, st);
      if stop.Some? {
        return;
      }
    }
  }

  /** Contents of the destination. */
  function Destination(w: World): seq<Byte> { if DST < |w.files| then w.files[DST] else [] }

  /** ftruncate. */
  function Truncate(f: seq<Byte>, n: nat): (g: seq<Byte>)
    ensures |g| == n && forall p | 0 <= p < n :: g[p] == if p < |f| then f[p] else 0
  {
    seq(n, p requires 0 <= p < n => if p < |f| then f[p] else 0)
  }

  /** How the world looks after a run that ended well. */
  ghost predicate Final(w: World, c: Config, src: seq<Byte>, bytes: nat) {
    && bytes == Moved(w.trace, Write) && bytes + Lost(w.trace) == IssuedBytes(w.trace, Read)
    && bytes <= |src| && (bytes == |src| <==> Lost(w.trace) == 0)
    && (bytes == |src| ==> Destination(w) == src && Truncate(src, bytes) == src)
    && Landed(w.trace, DST, Destination(w), src)
    && (c.progressCb.Some? ==> LastReport(w.trace) == bytes) && !Canceled(w.trace)
  }

  lemma FinalFacts(st: State, c: Config, fileSize: nat)
    requires Running(st, c) && Staffed(st, 0) && st.w.reqs == map[] && 0 < |st.own| && fileSize == |st.src|
    ensures Final(st.w, c, st.src, Moved(st.w.trace, Write)) && !Canceled(st.w.trace)
    ensures IssuedBytes(st.w.trace, Read) == |st.src| || EmptyReads(st.w.trace) == |st.own|
  {
    DrainedIsFinal(st, c);
    hide Flow, InPlace, Owns, Table, Buffers;
    if c.progressCb.Some? {
      ReportsAreRunningSums(st.w.trace, |st.src|, c.progressCb);
    }
  }

  /** The pipeline proper, once ring and buffers exist. */
  method CopyThrough(ring: Ring, slots: array<CopySlot>, fileSize: nat, maxBuf: nat, calls0: nat, doFsync: bool,
                     c: Config, ghost st0: State)
      returns (out: Outcome)
    requires ring.Valid() && |ring.w.reqs| == ring.w.sqLen == 0 && Moved(ring.w.trace, Write) == 0
    requires 0 < slots.Length <= ring.entries && slots.Length < U32 && |st0.src| == fileSize < U64 / 2
    requires Mirrors(st0, ring, slots, st0.src, 0, maxBuf, calls0) && Running(st0, c)
    requires st0.own == AllIdle(slots.Length) && BusyCount(st0.own) == 0 && Staffed(st0, slots.Length)
    modifies ring, slots
    ensures !out.BadSlot? && !out.NoSqe? && !out.Invalid? && (out.Aborted? <==> Canceled(ring.w.trace))
    ensures ring.Valid() && Observed(ring.w.trace, fileSize, c)
    ensures ring.faults == if out.KernelError? then old(ring.faults) + [out.errno] else old(ring.faults)
    ensures out.Finished? ==>
              && Final(ring.w, c, st0.src, out.bytes)
              && (IssuedBytes(ring.w.trace, Read) == fileSize || EmptyReads(ring.w.trace) == slots.Length)
  {
    ghost var st := st0;
    hide IssuedBytes, EmptyReads, Inv, Going, Running, Measure, Moved, Lost, World.Valid, Canceled, Observed, Final,
         BusyCount;
    var ok, nextOff, inflight, calls;
    ok, nextOff, inflight, calls, st := Prime(ring, slots, fileSize, maxBuf, calls0, c, st);
    RunningObserved(st, c);
    if !ok {
      out := NoSqe;
      return;
    }
    SubmitGoes(st, c);
    var ret := ring.Submit();
    if ret < 0 {
      out := KernelError(ret);
      return;
    }
    st := st.(w := ring.w);
    var stop, copied;
    stop, copied, st := Pump(ring, slots, fileSize, maxBuf, nextOff, calls, inflight, c, st);
    if stop.Some? {
      out := stop.value;
      return;
    }
    FinalFacts(st, c, fileSize);
    out := Finished(copied);
    if doFsync {
      ret := ring.Fsync();
      if ret < 0 {
        out := KernelError(ret);
      }
    }
  }

  lemma NothingObserved(total: nat, c: Config)
    ensures Observed(Start, total, c) && !Canceled(Start) && LastReport(Start) == 0
    ensures Moved(Start, Write) == Lost(Start) == IssuedBytes(Start, Read) == 0
    ensures forall src :: Landed(Start, DST, [], src)
  {
  }

  lemma StopsAsWanted(t: Trace, total: nat, c: Config)
    requires Observed(t, total, c)
    ensures Canceled(t) <==> WantsStop(t, total, c.progressCb)
  {
    CanceledIff(t, total, c.progressCb);
  }

  /** uring_copy_path_dynamic, for a source with contents src and a fresh destination. The
      outcome, the contents of the destination, and what was observed on the way. */
  method CopyPathDynamic(src: seq<Byte>, qd: nat, bs: nat, sizeCb: Option<SizeCb>, doFsync: bool,
                         progressCb: Option<ProgressCb>)
      returns (out: Outcome, dst: seq<Byte>, trace: Trace, faults: seq<int>, ghost left: seq<Byte>)
    requires |src| < U64 / 2 && qd < U32 && bs < U32
    requires sizeCb.Some? ==> bs <= CAP
    ensures out.Invalid? <==> qd == 0 || bs == 0
    // the bad-slot and the no-SQE exit are never taken
    ensures !out.BadSlot? && !out.NoSqe?
    // an error is returned if and only if some call or completion failed; it is the first failure, and the last
    ensures faults == (if out.KernelError? then [out.errno] else []) && (out.KernelError? ==> out.errno < 0)
    // every byte issued is written or lost, and the count says whether the copy is whole
    ensures out.Finished? ==> out.bytes == Moved(trace, Write) && out.bytes + Lost(trace) == IssuedBytes(trace, Read)
    ensures out.Finished? ==> out.bytes <= |src| && (out.bytes == |src| <==> Lost(trace) == 0)
    ensures out.Finished? && out.bytes == |src| ==> dst == src
    // short transfers or not: all of the source is read unless every slot has met an empty read; what is left in the
    // destination is right or zero, and right wherever a write reported so; at most it is cut to the count
    ensures out.Finished? ==> IssuedBytes(trace, Read) == |src| || EmptyReads(trace) == qd
    ensures out.Finished? ==> Landed(trace, DST, left, src) && (dst == left || dst == Truncate(left, out.bytes))
    // chunks follow the plan and tile a prefix, at most two completions each; reports are running sums
    ensures Observed(trace, |src|, Config(sizeCb, bs, progressCb))
    // the run is aborted exactly when the callback, asked after every write with the bytes so far, says so
    ensures out.Aborted? <==> Canceled(trace)
    ensures out.Aborted? <==> WantsStop(trace, |src|, progressCb)
    ensures out.Finished? && progressCb.Some? ==> LastReport(trace) == out.bytes
  {
    hide Inv, Going, Running, World.Valid, Canceled, Observed, Sizing, Plan, WholePlan, Lost, IssuedBytes, LastReport,
         Moved, BusyCount, WantsStop, Landed, EmptyReads;
    out, dst, trace, faults, left := Invalid, [], Start, [], [];
    NothingObserved(|src|, Config(sizeCb, bs, progressCb));
    StopsAsWanted(Start, |src|, Config(sizeCb, bs, progressCb));
    if qd == 0 || bs == 0 {
      return;
    }
    var fileSize := |src|;
    if fileSize == 0 {
      out := Finished(0);
      return;
    }
    var c := Config(sizeCb, bs, progressCb);
    var maxBuf, calls := ProbeBuffers(sizeCb, fileSize, bs);
    SizingFits(sizeCb, fileSize, bs);
    var mem := Allocate(qd, maxBuf);
    var spare: nat :| true;
    var ring := new Ring(qd + spare, mem, [src, []]);
    var slots := new CopySlot[qd](_ => CopySlot(0, 0, false));
    ghost var st := State(ring.w, slots[..], AllIdle(qd), src, 0, maxBuf, calls);
    InitialRuns(st, c);
    out := CopyThrough(ring, slots, fileSize, maxBuf, calls, doFsync, c, st);
    dst, trace, faults := Destination(ring.w), ring.w.trace, ring.faults;
    left := dst;
    StopsAsWanted(trace, fileSize, c);
    assert out.KernelError? ==> faults[0] == out.errno;
    var truncated: bool := *;
    if out.Finished? && truncated {
      dst := Truncate(dst, out.bytes);
    }
  }
}
