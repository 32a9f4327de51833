/**
 uring_write_manyfiles: a round-robin writer over many files. Free slots are a stack; a
 request in flight holds the slot its tag names.
 */
module WriteManyFiles {
  import opened IoUring
  import opened Slots
  import opened RoundRobin
  import opened ShortRuns
  import opened ByteFlow
  import opened FileSet
  import opened Pipeline
  import opened Sequences
  import opened Arithmetic

  // ---------- the free-slot stack ----------

  /** free holds exactly the idle slots, each once. */
  ghost predicate FreeList(free: seq<nat>, own: seq<Owner>) {
    && |free| + BusyCount(own) == |own|
    && (forall j, k | 0 <= j < k < |free| :: free[j] != free[k])
    && (forall k | 0 <= k < |free| :: free[k] < |own| && own[free[k]].Idle?)
    && (forall s | 0 <= s < |own| && own[s].Idle? :: s in free)
  }

  lemma FreshFreeList(free: seq<nat>, own: seq<Owner>)
    requires own == AllIdle(|free|) && forall k | 0 <= k < |free| :: free[k] == k
    ensures FreeList(free, own)
  {
    AllIdleSums(|free|);
    forall s | 0 <= s < |own| ensures s in free {
      assert free[s] == s;
    }
  }

  /** Popping hands out an idle slot. */
  lemma PopKeepsFreeList(free: seq<nat>, own: seq<Owner>, o: Owner)
    requires FreeList(free, own) && free != [] && o.Busy?
    ensures var s := free[|free| - 1];
            s < |own| && own[s].Idle? && FreeList(free[..|free| - 1], own[s := o])
  {
    var s, rest := free[|free| - 1], free[..|free| - 1];
    UpdateSums(own, s, o);
    forall i | 0 <= i < |own| && own[s := o][i].Idle? ensures i in rest {
      var k :| 0 <= k < |free| && free[k] == i;
      assert rest[k] == i;
    }
  }

  /** Pushing the slot of a reaped request cannot overflow the stack. */
  lemma PushKeepsFreeList(free: seq<nat>, own: seq<Owner>, s: nat)
    requires FreeList(free, own) && s < |own| && own[s].Busy?
    ensures |free| < |own| && FreeList(free + [s], own[s := Idle])
  {
    UpdateSums(own, s, Idle);
    forall i | 0 <= i < |own| && own[s := Idle][i].Idle? ensures i in free + [s] {
      if i != s {
        assert i in free;
      } else {
        assert (free + [s])[|free|] == s;
      }
    }
  }

  /** The free slots and the slots in flight partition 0..qd-1. */
  lemma SlotsPartition(w: World, free: seq<nat>, own: seq<Owner>, s: nat)
    requires Owns(w, own) && FreeList(free, own) && s < |own|
    ensures s in free <==> !exists id :: id in w.reqs && UdSlot(w.reqs[id].sqe.ud) == s
    ensures |free| + |w.reqs| == |own|
  {
    if own[s].Busy? {
      assert own[s].id in w.reqs && UdSlot(w.reqs[own[s].id].sqe.ud) == s;
    }
  }

  // ---------- what the trace says about files ----------

  /** Bytes queued for file f. */
  function FileBytes(t: Trace, f: nat): nat {
    match t
    case Start => 0
    case Then(b, Issued(q)) => FileBytes(b, f) + if q.fd == f then q.len else 0
    case Then(b, _) => FileBytes(b, f)
  }

  /** The ranges queued for each file tile a prefix of it. */
  ghost predicate FileTiles(t: Trace) {
    match t
    case Start => true
    case Then(b, Issued(q)) => FileTiles(b) && q.off == FileBytes(b, q.fd)
    case Then(b, _) => FileTiles(b)
  }

  /** The t-th chunk queued goes to file t mod n, at round t div n. */
  ghost predicate DealtInTurn(t: Trace, c: Shape)
    requires c.Ok()
  {
    match t
    case Start => true
    case Then(b, Issued(q)) =>
      var k := IssuedCount(b, Write);
      DealtInTurn(b, c) && q.dir.Write? && q.fd == k % c.n && q.off == (k / c.n) * c.bs
      && q.len == Min(c.bs, c.perFile - q.off)
    case Then(b, _) => DealtInTurn(b, c)
  }

  /** How many files are done. */
  function DoneCount(offs: seq<nat>, perFile: nat): nat {
    if offs == [] then 0
    else DoneCount(offs[..|offs| - 1], perFile) + if offs[|offs| - 1] >= perFile then 1 else 0
  }

  lemma {:induction false} DoneUpdate(offs: seq<nat>, perFile: nat, f: nat, v: nat)
    requires f < |offs|
    ensures DoneCount(offs[f := v], perFile) ==
            DoneCount(offs, perFile) - (if offs[f] >= perFile then 1 else 0) + if v >= perFile then 1 else 0
  {
    var n := |offs| - 1;
    if f == n {
      assert offs[f := v][..n] == offs[..n];
    } else {
      DoneUpdate(offs[..n], perFile, f, v);
      assert offs[f := v][..n] == offs[..n][f := v];
    }
  }

  lemma {:induction false} AllDone(offs: seq<nat>, perFile: nat)
    ensures DoneCount(offs, perFile) <= |offs|
    ensures DoneCount(offs, perFile) == |offs| <==> forall i | 0 <= i < |offs| :: offs[i] >= perFile
  {
    if offs != [] {
      AllDone(offs[..|offs| - 1], perFile);
    }
  }

  // ---------- the state ----------

  datatype State = State(w: World, own: seq<Owner>, free: seq<nat>, s: Sched, searches: nat)

  /** The chunks queued, in order. */
  function DealsOf(t: Trace): seq<Deal> {
    match t
    case Start => []
    case Then(b, Issued(q)) => DealsOf(b) + if q.dir.Write? then [Deal(q.fd, q.off, q.len)] else []
    case Then(b, _) => DealsOf(b)
  }

  /** What has been queued is what so many searches deal out, whatever the shape. */
  ghost predicate Searched(t: Trace, s: Sched, searches: nat, c: Shape) {
    0 < c.n && s == After(searches, c) && DealsOf(t) == DealtBy(searches, c)
  }

  ghost predicate AllWrites(reqs: map<nat, Req>) {
    forall id | id in reqs :: reqs[id].sqe.dir.Write? && UdOp(reqs[id].sqe.ud) == 1
  }

  /** Every byte queued is in flight, written or lost, and counted for its file. */
  ghost predicate Ledger(w: World, s: Sched, c: Shape) {
    && Balanced(w) && FileTiles(w.trace)
    && (forall f | 0 <= f < |s.offs| :: s.offs[f] == FileBytes(w.trace, f))
    && IssuedBytes(w.trace, Write) == Sum(s.offs)
    && Moved(w.trace, Write) + Lost(w.trace) + OpenBytes(w.reqs, w.nextId) == Sum(s.offs)
  }

  /** What an aligned counter adds. */
  ghost predicate Dealt(t: Trace, s: Sched, c: Shape)
    requires c.Ok()
  {
    Aligned(c) ==>
      IssuedCount(t, Write) <= c.Chunks() && Exact(s, IssuedCount(t, Write), c) && DealtInTurn(t, c)
  }

  /** Buffers hold their letters, requests carry them, and the files show those that have arrived. */
  ghost predicate Content(w: World, n: nat) {
    && Writing(w) && InRows(w.trace, n) && NothingOver(w.trace)
    && forall i, k | 0 <= i < |w.mem| && 0 <= k < |w.mem[i]| :: w.mem[i][k] as int == 97 + (i + k) % U32 % 26
  }

  ghost predicate Inv(st: State, c: Shape, qd: nat) {
    && c.Ok() && st.w.Valid() && Content(st.w, c.n)
    && Buffers(st.w.mem, qd, c.bs) && |st.w.files| == c.n && |st.own| == qd < U32
    && AllWrites(st.w.reqs) && Owns(st.w, st.own) && FreeList(st.free, st.own) && Bounded(st.w.trace, qd)
    && Sane(st.s, c) && Ledger(st.w, st.s, c) && Dealt(st.w.trace, st.s, c)
  }

  /** What the kernel and io_uring_submit change is invisible to the invariant. */
  lemma SameRequestsKeepInv(st: State, v: World, c: Shape, qd: nat)
    requires Inv(st, c, qd) && v.Valid() && SameRequests(st.w, v) && Content(v, c.n)
    ensures Inv(st.(w := v), c, qd) && |v.reqs| == |st.w.reqs|
  {
    hide Content, Owns, FreeList, Dealt, World.Valid, Balanced, Bounded, OpenOps, OpenBytes;
    SameRequestsKeepOwners(st.w, v, st.own);
    SameRequestsKeepBalance(st.w, v);
    assert |v.reqs.Keys| == |st.w.reqs.Keys|;
  }

  lemma KernelGoes(st: State, c: Shape, qd: nat, sched: Schedule)
    requires Inv(st, c, qd)
    ensures Inv(st.(w := Run(st.w, sched)), c, qd)
    ensures Run(st.w, sched).sqLen == st.w.sqLen && |Run(st.w, sched).reqs| == |st.w.reqs|
    ensures Run(st.w, sched).trace == st.w.trace
  {
    RunKeepsValid(st.w, sched);
    ContentOf(st, c, qd);
    hide Inv, Run, Content;
    RunContent(st.w, c.n, sched);
    SameRequestsKeepInv(st, Run(st.w, sched), c, qd);
  }

  lemma SubmitGoes(st: State, c: Shape, qd: nat)
    requires Inv(st, c, qd)
    ensures Inv(st.(w := Flush(st.w)), c, qd) && |Flush(st.w).reqs| == |st.w.reqs|
    ensures Flush(st.w).trace == st.w.trace && Flush(st.w).sqLen == 0
  {
    FlushKeepsValid(st.w);
    ContentOf(st, c, qd);
    hide Inv, Content;
    FlushContent(st.w, c.n);
    SameRequestsKeepInv(st, Flush(st.w), c, qd);
  }

  lemma ContentOf(st: State, c: Shape, qd: nat)
    requires Inv(st, c, qd)
    ensures Content(st.w, c.n)
  {
  }

  lemma RunContent(w: World, n: nat, sched: Schedule)
    requires Content(w, n)
    ensures Content(Run(w, sched), n)
  {
    hide Writing, Run, InRows, NothingOver;
    RunWrites(w, sched);
  }

  lemma FlushContent(w: World, n: nat)
    requires Content(w, n)
    ensures Content(Flush(w), n)
  {
    hide Writing, InRows, NothingOver;
    FlushWrites(w);
  }

  lemma ReapContent(w: World, n: nat, id: nat)
    requires Content(w, n) && w.Valid() && w.IsDone(id) && w.reqs[id].stage.res >= 0
    ensures Content(Reap(w, id), n)
  {
    assert NothingOver(Reap(w, id).trace) && InRows(Reap(w, id).trace, n);
    hide Writing, InRows, NothingOver;
    ReapWrites(w, id);
  }

  lemma {:induction false} ExpectedLength(t: Trace, n: nat, f: nat)
    requires InRows(t, n)
    ensures |Expected(t, f)| == FileBytes(t, f)
  {
    if t.Then? {
      ExpectedLength(t.before, n, f);
    }
  }

  lemma PushContent(w: World, n: nat, q: Sqe)
    requires Content(w, n) && q.dir.Write? && q.fd < n == |w.files| && q.at == 0 && q.off == FileBytes(w.trace, q.fd)
    requires q.buf < |w.mem| && q.len <= |w.mem[q.buf]| && q.ud == U32 + q.buf
    ensures Content(Push(w, q), n)
  {
    ExpectedLength(w.trace, n, q.fd);
    assert InRows(Push(w, q).trace, n) && NothingOver(Push(w, q).trace);
    assert w.mem[q.buf][..q.len] == Letters(q.buf, q.len);
    hide Writing, InRows, NothingOver, Letters, Expected;
    PushWrites(w, q);
  }

  // ---------- queueing a chunk ----------

  /** The scheduler has just picked file f; s is its state before the pick was served. */
  function ChunkFor(s: Sched, slot: nat, c: Shape): Sqe
    requires slot < U32 && 0 < c.n && Sane(s, c)
  {
    var f := Pointed(s, c);
    Sqe(Write, f, slot, 0, c.ChunkLen(s.offs[f]), s.offs[f], PackUd(1, slot))
  }

  ghost predicate CanQueue(st: State, c: Shape, qd: nat) {
    Inv(st, c, qd) && st.free != [] && st.s.offs[Pointed(st.s, c)] < c.perFile
  }

  ghost function Queued(st: State, c: Shape): State
    requires c.Ok() && Sane(st.s, c) && st.free != [] && st.free[|st.free| - 1] < |st.own| < U32
  {
    var slot := st.free[|st.free| - 1];
    var q := ChunkFor(st.s, slot, c);
    State(Push(st.w, q), st.own[slot := Busy(st.w.nextId, q)], st.free[..|st.free| - 1], Serve(st.s, c),
          st.searches)
  }

  lemma QueueSlot(st: State, c: Shape, qd: nat)
    requires CanQueue(st, c, qd)
    ensures var slot := st.free[|st.free| - 1];
            && slot < |st.own| && st.own[slot].Idle? && st.w.Fits(ChunkFor(st.s, slot, c))
            && UdSlot(ChunkFor(st.s, slot, c).ud) == slot && UdOp(ChunkFor(st.s, slot, c).ud) == 1
            && FreeList(Queued(st, c).free, Queued(st, c).own)
  {
    var slot := st.free[|st.free| - 1];
    assert slot < U32;
    PackRoundTrip(1, slot);
    PopKeepsFreeList(st.free, st.own, Busy(st.w.nextId, ChunkFor(st.s, slot, c)));
    hide Content, Owns, FreeList, Ledger, Dealt, World.Valid;
  }

  lemma QueueOwners(st: State, c: Shape, qd: nat)
    requires CanQueue(st, c, qd)
    ensures st.free[|st.free| - 1] < |st.own|
    ensures Queued(st, c).w.Valid() && Owns(Queued(st, c).w, Queued(st, c).own) && AllWrites(Queued(st, c).w.reqs)
    ensures |Queued(st, c).w.reqs| == |st.w.reqs| + 1
  {
    hide Content, Owns, FreeList, Ledger, Dealt, World.Valid, Bounded, Buffers, Sane, Serve, PackUd, UdSlot, UdOp,
         World.Fits;
    var slot := st.free[|st.free| - 1];
    QueueSlot(st, c, qd);
    PushKeepsValid(st.w, ChunkFor(st.s, slot, c));
    PushKeepsOwners(st.w, st.own, slot, ChunkFor(st.s, slot, c));
  }

  lemma FilesIssue(t: Trace, s: Sched, c: Shape, q: Sqe)
    requires c.Ok() && Sane(s, c) && FileTiles(t) && q.dir.Write?
    requires forall f | 0 <= f < |s.offs| :: s.offs[f] == FileBytes(t, f)
    requires q.fd == Pointed(s, c) && q.off == s.offs[q.fd] && q.len == c.ChunkLen(q.off)
    ensures FileTiles(Then(t, Issued(q))) && Sane(Serve(s, c), c)
    ensures forall f | 0 <= f < |s.offs| :: Serve(s, c).offs[f] == FileBytes(Then(t, Issued(q)), f)
    ensures Sum(Serve(s, c).offs) == Sum(s.offs) + q.len && |Serve(s, c).offs| == |s.offs|
  {
    SumUpdate(s.offs, q.fd, s.offs[q.fd] + q.len);
  }

  lemma PushSums(w: World, q: Sqe)
    requires q.dir.Write?
    ensures var v := Push(w, q);
            && v.trace == Then(w.trace, Issued(q)) && v.nextId == w.nextId + 1
            && IssuedBytes(v.trace, Write) == IssuedBytes(w.trace, Write) + q.len
            && Moved(v.trace, Write) == Moved(w.trace, Write) && Lost(v.trace) == Lost(w.trace)
  {
  }

  lemma LedgerIssue(w: World, s: Sched, c: Shape, q: Sqe)
    requires w.Valid() && c.Ok() && Sane(s, c) && Ledger(w, s, c) && q.dir.Write?
    requires q.fd == Pointed(s, c) && q.off == s.offs[q.fd] && q.len == c.ChunkLen(q.off)
    ensures Ledger(Push(w, q), Serve(s, c), c) && Sane(Serve(s, c), c)
    ensures Sum(Serve(s, c).offs) == Sum(s.offs) + q.len
  {
    hide Balanced, World.Valid, FileBytes, IssuedBytes, Moved, Lost, FileTiles, OpenBytes, Sum, Serve, Sane,
         Pointed, Push;
    PushSums(w, q);
    PushKeepsBalance(w, q);
    FilesIssue(w.trace, s, c, q);
  }

  lemma QueueLedger(st: State, c: Shape, qd: nat)
    requires CanQueue(st, c, qd)
    ensures st.free[|st.free| - 1] < |st.own|
    ensures Ledger(Queued(st, c).w, Queued(st, c).s, c) && Sane(Queued(st, c).s, c)
    ensures Sum(Queued(st, c).s.offs) > Sum(st.s.offs)
  {
    var slot := st.free[|st.free| - 1];
    QueueSlot(st, c, qd);
    hide Owns, FreeList, Dealt, World.Valid, Ledger, Serve;
    LedgerIssue(st.w, st.s, c, ChunkFor(st.s, slot, c));
  }

  lemma DealtIssue(t: Trace, s: Sched, c: Shape, q: Sqe)
    requires c.Ok() && Sane(s, c) && Dealt(t, s, c) && q.dir.Write? && s.offs[Pointed(s, c)] < c.perFile
    requires q.fd == Pointed(s, c) && q.off == s.offs[q.fd] && q.len == c.ChunkLen(q.off)
    ensures Sane(Serve(s, c), c) && Dealt(Then(t, Issued(q)), Serve(s, c), c)
  {
    if Aligned(c) {
      var k := IssuedCount(t, Write);
      NotAllDealt(s, k, c, Pointed(s, c));
      PointsInTurn(k, c);
      ServeExact(s, k, c);
    }
    hide Exact, Serve, Aligned, Shape.Chunks, Shape.Rounds;
  }

  lemma QueueContent(st: State, c: Shape, qd: nat)
    requires CanQueue(st, c, qd)
    ensures st.free[|st.free| - 1] < |st.own| && Content(Queued(st, c).w, c.n)
  {
    var slot := st.free[|st.free| - 1];
    QueueSlot(st, c, qd);
    hide Content, Owns, FreeList, World.Valid, Exact, Serve, Aligned, Dealt;
    PushContent(st.w, c.n, ChunkFor(st.s, slot, c));
  }

  lemma QueueDealt(st: State, c: Shape, qd: nat)
    requires CanQueue(st, c, qd)
    ensures st.free[|st.free| - 1] < |st.own|
    ensures Dealt(Queued(st, c).w.trace, Queued(st, c).s, c) && Content(Queued(st, c).w, c.n)
    ensures Buffers(Queued(st, c).w.mem, qd, c.bs) && |Queued(st, c).w.files| == c.n
  {
    var slot := st.free[|st.free| - 1];
    QueueContent(st, c, qd);
    QueueSlot(st, c, qd);
    hide Content, Owns, FreeList, Ledger, World.Valid, Exact, Serve, Aligned, Dealt;
    DealtIssue(st.w.trace, st.s, c, ChunkFor(st.s, slot, c));
  }

  /** While some file has room, chunks remain. */
  lemma NotAllDealt(s: Sched, k: nat, c: Shape, f: nat)
    requires c.Ok() && Exact(s, k, c) && k <= c.Chunks() && f < c.n && s.offs[f] < c.perFile
    ensures k < c.Chunks()
  {
    if k == c.Chunks() {
      DivModUnique(k, c.Rounds(), 0, c.n);
    }
  }

  lemma QueueBounded(st: State, c: Shape, qd: nat)
    requires CanQueue(st, c, qd)
    ensures st.free[|st.free| - 1] < |st.own|
    ensures Bounded(Queued(st, c).w.trace, qd)
  {
    QueueSlot(st, c, qd);
    var q := ChunkFor(st.s, st.free[|st.free| - 1], c);
    BusyBound(st.own);
    assert |ReapedOps(st.w.trace)| + |OpenOps(st.w.reqs, st.w.nextId)| == |IssuedOps(st.w.trace)|;
    hide OpenOps;
  }

  lemma QueueGoes(st: State, c: Shape, qd: nat)
    requires CanQueue(st, c, qd)
    ensures st.free[|st.free| - 1] < |st.own| && st.w.Fits(ChunkFor(st.s, st.free[|st.free| - 1], c))
    ensures Inv(Queued(st, c), c, qd) && |Queued(st, c).w.reqs| == |st.w.reqs| + 1
    ensures Sum(Queued(st, c).s.offs) > Sum(st.s.offs)
    ensures Moved(Queued(st, c).w.trace, Write) == Moved(st.w.trace, Write)
  {
    QueueSlot(st, c, qd);
    assert |Queued(st, c).own| == |st.own|;
    assert Moved(Queued(st, c).w.trace, Write) == Moved(st.w.trace, Write);
    hide Content, Owns, FreeList, Ledger, Dealt, World.Valid, Queued, Bounded, Buffers, Moved, Sum;
    QueueOwners(st, c, qd);
    QueueLedger(st, c, qd);
    QueueDealt(st, c, qd);
    QueueBounded(st, c, qd);
  }

  // ---------- reaping a completion ----------

  ghost function Freed(st: State, id: nat): State
    requires st.w.IsDone(id) && UdSlot(st.w.reqs[id].sqe.ud) < |st.own|
  {
    var s := UdSlot(st.w.reqs[id].sqe.ud);
    st.(w := Reap(st.w, id), own := st.own[s := Idle], free := st.free + [s])
  }

  lemma ReapLedger(w: World, s: Sched, c: Shape, id: nat)
    requires w.Valid() && w.IsDone(id) && w.reqs[id].stage.res >= 0 && AllWrites(w.reqs) && Ledger(w, s, c)
    ensures Ledger(Reap(w, id), s, c)
    ensures Moved(Reap(w, id).trace, Write) == Moved(w.trace, Write) + w.reqs[id].stage.res
  {
    var v, q, res := Reap(w, id), w.reqs[id].sqe, w.reqs[id].stage.res;
    assert v.trace == Then(w.trace, Reaped(q, res)) && v.nextId == w.nextId;
    assert IssuedBytes(v.trace, Write) == IssuedBytes(w.trace, Write) && FileTiles(v.trace);
    assert Moved(v.trace, Write) == Moved(w.trace, Write) + res && Lost(v.trace) == Lost(w.trace) + q.len - res;
    assert forall f | 0 <= f < |s.offs| :: FileBytes(v.trace, f) == FileBytes(w.trace, f);
    hide Balanced, World.Valid, FileBytes, IssuedBytes, Moved, Lost, FileTiles, OpenBytes, Sum, Reap;
    ReapKeepsBalance(w, id);
  }

  lemma ReapGoes(st: State, c: Shape, qd: nat, id: nat)
    requires Inv(st, c, qd) && st.w.IsDone(id) && st.w.reqs[id].stage.res >= 0
    ensures UdSlot(st.w.reqs[id].sqe.ud) < |st.own| && UdOp(st.w.reqs[id].sqe.ud) == 1 && |st.free| < qd
    ensures Inv(Freed(st, id), c, qd) && |Freed(st, id).w.reqs| == |st.w.reqs| - 1
    ensures Moved(Freed(st, id).w.trace, Write) == Moved(st.w.trace, Write) + st.w.reqs[id].stage.res
  {
    hide Content, Owns, FreeList, Ledger, World.Valid;
    TagInRange(st, c, qd, id);
    var v := Reap(st.w, id);
    ReapKeepsValid(st.w, id);
    ReapKeepsOwners(st.w, st.own, id);
    ReapContent(st.w, c.n, id);
    PushKeepsFreeList(st.free, st.own, UdSlot(st.w.reqs[id].sqe.ud));
    assert AllWrites(v.reqs) && Dealt(v.trace, st.s, c) && Buffers(v.mem, qd, c.bs) && |v.files| == c.n;
    assert Bounded(v.trace, qd);
    hide Dealt, Bounded, AllWrites, Buffers;
    ReapLedger(st.w, st.s, c, id);
  }

  lemma TagInRange(st: State, c: Shape, qd: nat, id: nat)
    requires Inv(st, c, qd) && st.w.IsDone(id)
    ensures UdSlot(st.w.reqs[id].sqe.ud) < qd && UdOp(st.w.reqs[id].sqe.ud) == 1
  {
    hide FreeList, Ledger, Dealt;
  }

  // ---------- exits ----------

  /** What a caller can tell from the trace at any exit. */
  ghost predicate Observed(t: Trace, c: Shape, qd: nat, detours: nat)
    requires c.Ok()
  {
    && Bounded(t, qd) && FileTiles(t) && (forall f | 0 <= f < c.n :: FileBytes(t, f) <= c.perFile)
    && (Aligned(c) ==> DealtInTurn(t, c) && detours == 0 && IssuedCount(t, Write) <= c.Chunks() && Even(t, c))
  }

  /** At every moment any two files are within one block of each other. */
  ghost predicate Even(t: Trace, c: Shape) {
    && (forall f, g | 0 <= f < c.n && 0 <= g < c.n :: FileBytes(t, f) <= FileBytes(t, g) + c.bs)
    && (t.Then? ==> Even(t.before, c))
  }

  lemma {:induction false} InTurnIsEven(t: Trace, c: Shape)
    requires c.Ok() && DealtInTurn(t, c) && IssuedCount(t, Write) <= c.Chunks()
    ensures Even(t, c)
  {
    if t.Then? {
      InTurnIsEven(t.before, c);
    }
    forall f, g | 0 <= f < c.n && 0 <= g < c.n ensures FileBytes(t, f) <= FileBytes(t, g) + c.bs {
      WithinOneBlock(t, c, f, g);
    }
  }

  lemma ObservedAt(st: State, c: Shape, qd: nat, detours: nat)
    requires Inv(st, c, qd) && (Aligned(c) ==> detours == 0)
    ensures Observed(st.w.trace, c, qd, detours)
  {
    hide Content, Owns, FreeList, World.Valid;
    if Aligned(c) {
      InTurnIsEven(st.w.trace, c);
    }
  }

  lemma ReapObserved(t: Trace, q: Sqe, res: int, c: Shape, qd: nat, detours: nat)
    requires c.Ok() && Observed(t, c, qd, detours)
    ensures Observed(Then(t, Reaped(q, res)), c, qd, detours)
  {
    assert ReapedOps(Then(t, Reaped(q, res))) == ReapedOps(t) + multiset{q};
    assert forall f :: FileBytes(Then(t, Reaped(q, res)), f) == FileBytes(t, f);
  }

  /** How the trace looks after a run that ended well and reaped batches of these sizes. */
  ghost predicate Final(t: Trace, c: Shape, qd: nat, bytes: nat, batches: seq<nat>)
    requires c.Ok()
  {
    && bytes == Moved(t, Write) && bytes + Lost(t) == IssuedBytes(t, Write) <= c.n * c.perFile
    && IssuedOps(t) == ReapedOps(t)
    && (c.n * c.perFile < U64 ==>
          Ends(batches, c, qd) && (IssuedBytes(t, Write) < c.n * c.perFile <==> GivesUp(batches, c, qd)))
  }

  /** Each byte queued is the letter of its write; files hold what has arrived, right or zero elsewhere, and all
      of it if nothing was lost. */
  ghost predicate Filed(t: Trace, files: seq<seq<Byte>>, wholes: seq<seq<Byte>>, n: nat) {
    && |files| == |wholes| == n && InRows(t, n) && LettersOf(t, wholes)
    && (forall f | 0 <= f < n :: |wholes[f]| == FileBytes(t, f) && Landed(t, f, files[f], wholes[f]))
    && (Lost(t) == 0 ==> files == wholes)
  }

  lemma FilesFacts(st: State, c: Shape, qd: nat) returns (wholes: seq<seq<Byte>>)
    requires Inv(st, c, qd) && st.w.reqs == map[]
    ensures Filed(st.w.trace, st.w.files, wholes, c.n)
  {
    FinalFacts(st, c, qd);
    ContentOf(st, c, qd);
    FilesAre(st, c, qd);
    hide Inv, Expected, Lost, IssuedOps, ReapedOps, Landed, LettersOf, InRows;
    var t := st.w.trace;
    wholes := seq(c.n, f requires 0 <= f < c.n => Expected(t, f));
    ExpectedLetters(t, wholes);
    forall f | 0 <= f < c.n
      ensures |wholes[f]| == FileBytes(t, f) && (Lost(t) == 0 ==> st.w.files[f] == wholes[f])
    {
      ExpectedLength(t, c.n, f);
      if Lost(t) == 0 {
        WholeFile(t, c.n, f, st.w.files[f]);
      }
    }
  }

  lemma FilesAre(st: State, c: Shape, qd: nat)
    requires Inv(st, c, qd)
    ensures |st.w.files| == c.n
  {
  }

  lemma FinalFacts(st: State, c: Shape, qd: nat)
    requires Inv(st, c, qd) && st.w.reqs == map[]
    ensures Moved(st.w.trace, Write) + Lost(st.w.trace) == IssuedBytes(st.w.trace, Write) <= c.n * c.perFile
    ensures IssuedOps(st.w.trace) == ReapedOps(st.w.trace)
  {
    NothingOpen(st.w.nextId);
    SumOfEqual(st.s.offs, c.perFile);
    hide Content, Owns, FreeList, World.Valid, Dealt, Bounded;
  }

  // ---------- the method ----------

  /** file_done and done_files agree with file_off. */
  ghost predicate DoneFlags(offs: seq<nat>, done: seq<bool>, doneFiles: nat, c: Shape) {
    && |offs| == |done| == c.n && doneFiles == DoneCount(offs, c.perFile)
    && forall i | 0 <= i < c.n :: done[i] <==> offs[i] >= c.perFile
  }

  lemma ServedFlags(s: Sched, done: seq<bool>, doneFiles: nat, c: Shape)
    requires c.Ok() && Sane(s, c) && DoneFlags(s.offs, done, doneFiles, c) && s.offs[Pointed(s, c)] < c.perFile
    ensures var f := Pointed(s, c);
            var full := s.offs[f] + c.ChunkLen(s.offs[f]) >= c.perFile;
            DoneFlags(Serve(s, c).offs, done[f := full], doneFiles + if full then 1 else 0, c)
  {
    DoneUpdate(s.offs, c.perFile, Pointed(s, c), s.offs[Pointed(s, c)] + c.ChunkLen(s.offs[Pointed(s, c)]));
  }

  /** The search for the next unfinished file. The detours counted are files skipped and coming
      back empty. */
  method PickFile(fileOff: array<nat>, fileDone: array<bool>, rr0: nat, doneFiles0: nat, c: Shape)
      returns (found: bool, f: nat, off: nat, len: nat, rr: nat, doneFiles: nat, ghost detours: nat,
               ghost before: Sched)
    requires c.Ok() && fileOff != fileDone as object && Sane(Sched(rr0, fileOff[..]), c)
    requires DoneFlags(fileOff[..], fileDone[..], doneFiles0, c)
    modifies fileOff, fileDone
    ensures DoneFlags(fileOff[..], fileDone[..], doneFiles, c)
    ensures Sane(before, c) && before.offs == old(fileOff[..])
    ensures Pick(Sched(rr0, old(fileOff[..])), c.n, c) == (if found then Some(f) else None, Sched(rr, fileOff[..]))
    ensures found ==> f == Pointed(before, c) && off == before.offs[f] < c.perFile && len == c.ChunkLen(off)
                      && Sched(rr, fileOff[..]) == Serve(before, c)
    ensures !found ==> before == Sched(rr, fileOff[..]) && doneFiles == doneFiles0
    ensures old(fileOff[..])[rr0 % c.n] < c.perFile ==> found && detours == 0 && before.rr == rr0
  {
    found, f, off, len, rr, doneFiles, detours := false, 0, 0, 0, rr0, doneFiles0, 0;
    ghost var start := Sched(rr0, fileOff[..]);
    before := start;
    var tries := 0;
    while tries < c.n
      invariant tries <= c.n && rr < U32 && doneFiles == doneFiles0
      invariant fileOff[..] == old(fileOff[..]) && fileDone[..] == old(fileDone[..])
      invariant before == Sched(rr, fileOff[..]) && Sane(before, c)
      invariant Pick(start, c.n, c) == Pick(before, c.n - tries, c)
      invariant fileOff[rr0 % c.n] < c.perFile ==> tries == 0 && detours == 0 && rr == rr0
    {
      var idx := rr % c.n;
      rr := (rr + 1) % U32;
      tries := tries + 1;
      if fileDone[idx] {
        detours := detours + 1;
        before := Advance(before);
        continue;
      }
      off := fileOff[idx];
      if off >= c.perFile {
        assert false;  // file_done is set together with the last byte, so this is never found out late
      }
      var want := Min(c.bs, c.perFile - off);
      f, len := idx, want;
      ServedFlags(before, fileDone[..], doneFiles, c);
      PickServes(before, c);
      fileOff[idx] := off + want;
      assert fileOff[..] == Serve(before, c).offs;
      hide DoneCount, Pick, Sane;
      if fileOff[idx] >= c.perFile {
        fileDone[idx] := true;
        doneFiles := doneFiles + 1;
      }
      found := true;
      return;
    }
    detours := detours + 1;
  }

  /** The arrays of the method. */
  datatype Tables = Tables(fileOff: array<nat>, fileDone: array<bool>, freeSlots: array<nat>,
                           slots: array<CopySlot>, slotFile: array<nat>)

  ghost predicate Separate(tb: Tables, c: Shape, qd: nat) {
    && tb.fileOff != tb.freeSlots && tb.fileOff != tb.slotFile && tb.freeSlots != tb.slotFile
    && tb.fileOff.Length == tb.fileDone.Length == c.n
    && tb.freeSlots.Length == tb.slots.Length == tb.slotFile.Length == qd
  }

  /** The program's variables are the state st. */
  ghost predicate Mirrors(st: State, ring: Ring, tb: Tables, rr: nat, freeCount: nat)
    reads ring, tb.fileOff, tb.freeSlots
  {
    && st.w == ring.w && st.s == Sched(rr, tb.fileOff[..])
    && freeCount <= tb.freeSlots.Length && st.free == tb.freeSlots[..freeCount]
  }

  lemma SkipKeepsInv(st: State, c: Shape, qd: nat, s: Sched, searches: nat)
    requires Inv(st, c, qd) && Sane(s, c) && s.offs == st.s.offs && (Aligned(c) ==> s == st.s)
    ensures Inv(st.(s := s, searches := searches), c, qd)
  {
    hide Content, Owns, FreeList, World.Valid, Bounded;
  }

  /** With an aligned counter, the file pointed at has room as long as any has. */
  lemma PointedHasRoom(st: State, c: Shape, qd: nat)
    requires Inv(st, c, qd) && Aligned(c) && DoneCount(st.s.offs, c.perFile) < c.n
    ensures st.s.offs[Pointed(st.s, c)] < c.perFile
  {
    var k := IssuedCount(st.w.trace, Write);
    AllDone(st.s.offs, c.perFile);
    var f :| 0 <= f < c.n && st.s.offs[f] < c.perFile;
    hide Content, Owns, FreeList, World.Valid, Bounded, Ledger;
    NotAllDealt(st.s, k, c, f);
    PointsInTurn(k, c);
    ServeExact(st.s, k, c);
  }

  /** Puts the chunk just picked into the slot on top of the stack and queues its write. */
  method QueueChunk(ring: Ring, tb: Tables, f: nat, off: nat, len: nat, rr: nat, freeCount0: nat, c: Shape,
                    qd: nat, ghost st0: State)
      returns (freeCount: nat, ghost st: State)
    requires ring.Valid() && ring.w.sqLen < ring.entries && Separate(tb, c, qd) && CanQueue(st0, c, qd)
    requires st0.w == ring.w && 0 < freeCount0 <= qd && st0.free == tb.freeSlots[..freeCount0]
    requires f == Pointed(st0.s, c) && off == st0.s.offs[f] && len == c.ChunkLen(off)
    requires Sched(rr, tb.fileOff[..]) == Serve(st0.s, c)
    modifies ring`w, tb.slots, tb.slotFile
    ensures ring.Valid() && Mirrors(st, ring, tb, rr, freeCount) && Inv(st, c, qd) && freeCount == freeCount0 - 1
    ensures |ring.w.reqs| == |st0.w.reqs| + 1 && ring.w.sqLen == old(ring.w.sqLen) + 1
    ensures Sum(st.s.offs) > Sum(st0.s.offs) && Moved(ring.w.trace, Write) == Moved(st0.w.trace, Write)
    ensures DealsOf(ring.w.trace) == DealsOf(st0.w.trace) + [Deal(f, off, len)] && st.s == Serve(st0.s, c)
    ensures st.searches == st0.searches
  {
    hide Inv, CanQueue, World.Valid, Sum, Moved, Serve, Pointed, PackUd, World.Fits, Push, Shape.ChunkLen, Sane,
         Shape.Ok;
    freeCount := freeCount0 - 1;
    var slot := tb.freeSlots[freeCount];
    st := Queueing(st0, f, off, len, slot, c, qd);
    assert st.free == tb.freeSlots[..freeCount];
    tb.slotFile[slot] := f;
    tb.slots[slot] := tb.slots[slot].(off := off, len := len);
    var ok := ring.GetSqe(Sqe(Write, f, slot, 0, len, off, PackUd(1, slot)));
    if !ok {
      assert false;  // the SQ has an entry for every slot, so the chunk is never dropped here
    }
  }

  /** The state after the chunk is queued. */
  lemma Queueing(st0: State, f: nat, off: nat, len: nat, slot: nat, c: Shape, qd: nat) returns (st: State)
    requires CanQueue(st0, c, qd) && slot == st0.free[|st0.free| - 1]
    requires f == Pointed(st0.s, c) && off == st0.s.offs[f] && len == c.ChunkLen(off)
    ensures slot < qd < U32 && Inv(st, c, qd) && st.s == Serve(st0.s, c) && st.free == st0.free[..|st0.free| - 1]
    ensures var q := Sqe(Write, f, slot, 0, len, off, PackUd(1, slot)); st0.w.Fits(q) && st.w == Push(st0.w, q)
    ensures |st.w.reqs| == |st0.w.reqs| + 1 && st.w.sqLen == st0.w.sqLen + 1
    ensures Sum(st.s.offs) > Sum(st0.s.offs) && Moved(st.w.trace, Write) == Moved(st0.w.trace, Write)
    ensures DealsOf(st.w.trace) == DealsOf(st0.w.trace) + [Deal(f, off, len)] && st.searches == st0.searches
  {
    QueueGoes(st0, c, qd);
    InvFacts(st0, c, qd);
    hide Inv, World.Valid, Sum, Moved, Serve, Aligned, Pointed, CanQueue;
    st := Queued(st0, c);
  }

  /** One turn of the queueing loop. */
  method PickAndQueue(ring: Ring, tb: Tables, rr0: nat, freeCount0: nat, doneFiles0: nat, c: Shape, qd: nat,
                      ghost st0: State)
      returns (found: bool, rr: nat, freeCount: nat, doneFiles: nat, ghost detours: nat, ghost st: State)
    requires ring.Valid() && ring.w.sqLen < ring.entries && Separate(tb, c, qd) && 0 < freeCount0
    requires Mirrors(st0, ring, tb, rr0, freeCount0) && Inv(st0, c, qd) && doneFiles0 < c.n
    requires DoneFlags(tb.fileOff[..], tb.fileDone[..], doneFiles0, c)
    requires Searched(ring.w.trace, st0.s, st0.searches, c)
    modifies ring`w, tb.fileOff, tb.fileDone, tb.slots, tb.slotFile
    ensures ring.Valid() && Mirrors(st, ring, tb, rr, freeCount) && Inv(st, c, qd)
    ensures DoneFlags(tb.fileOff[..], tb.fileDone[..], doneFiles, c)
    ensures Searched(ring.w.trace, st.s, st.searches, c) && st.searches == st0.searches + 1
    ensures found <==> Found(st0.searches, c)
    ensures Aligned(c) ==> found && detours == 0
    ensures !found ==> doneFiles == doneFiles0
    ensures Moved(ring.w.trace, Write) == Moved(st0.w.trace, Write)
    ensures found ==> freeCount == freeCount0 - 1 && |ring.w.reqs| == |st0.w.reqs| + 1
                      && ring.w.sqLen == old(ring.w.sqLen) + 1 && Sum(st.s.offs) > Sum(st0.s.offs)
    ensures !found ==> freeCount == freeCount0 && ring.w == st0.w && Sum(st.s.offs) == Sum(st0.s.offs)
  {
    hide Inv, World.Valid, Sum, Moved, DoneFlags, Pick, Aligned, Searched, Found, Shape.ChunkLen, Serve;
    InvFacts(st0, c, qd);
    PickFacts(st0, tb.fileDone[..], doneFiles0, c, qd);
    freeCount := freeCount0;
    var f, off, len;
    ghost var before;
    found, f, off, len, rr, doneFiles, detours, before := PickFile(tb.fileOff, tb.fileDone, rr0, doneFiles0, c);
    SkipKeepsInv(st0, c, qd, before, st0.searches + 1);
    st := st0.(s := before, searches := st0.searches + 1);
    ghost var s1 := Sched(rr, tb.fileOff[..]);
    if found {
      freeCount, st := QueueChunk(ring, tb, f, off, len, rr, freeCount, c, qd, st);
    }
    SearchStep(st0.w.trace, ring.w.trace, st0.s, s1, st0.searches, if found then Some(Deal(f, off, len)) else None, c);
  }

  lemma PickFacts(st: State, done: seq<bool>, doneFiles: nat, c: Shape, qd: nat)
    requires Inv(st, c, qd) && DoneFlags(st.s.offs, done, doneFiles, c) && doneFiles < c.n
    ensures Aligned(c) ==> st.s.offs[Pointed(st.s, c)] < c.perFile
  {
    if Aligned(c) {
      PointedHasRoom(st, c, qd);
    }
  }

  /** One more search, which found this chunk or nothing. */
  lemma SearchStep(t: Trace, t1: Trace, s: Sched, s1: Sched, p: nat, d: Option<Deal>, c: Shape)
    requires Searched(t, s, p, c) && Sane(s, c)
    requires d.Some? ==>
               d.value.file < c.n && d.value.off == s.offs[d.value.file] && d.value.len == c.ChunkLen(d.value.off)
    requires Pick(s, c.n, c) == (if d.Some? then Some(d.value.file) else None, s1)
    requires DealsOf(t1) == if d.Some? then DealsOf(t) + [d.value] else DealsOf(t)
    ensures Searched(t1, s1, p + 1, c) && (d.Some? <==> Found(p, c))
  {
    PickSane(s, c.n, c);
    hide Pick, DealsOf, Shape.ChunkLen;
  }

  /** Queues chunks while there are free slots and unfinished files. */
  method QueueChunks(ring: Ring, tb: Tables, rr0: nat, freeCount0: nat, doneFiles0: nat, inflight0: nat,
                     ghost detours0: nat, c: Shape, qd: nat, ghost st0: State)
      returns (rr: nat, freeCount: nat, doneFiles: nat, inflight: nat, queued: nat, ghost detours: nat,
               ghost empty: bool, ghost st: State)
    requires ring.Valid() && ring.w.sqLen == 0 && 0 < qd <= ring.entries && Separate(tb, c, qd)
    requires Mirrors(st0, ring, tb, rr0, freeCount0) && Inv(st0, c, qd) && inflight0 == |ring.w.reqs|
    requires DoneFlags(tb.fileOff[..], tb.fileDone[..], doneFiles0, c) && (Aligned(c) ==> detours0 == 0)
    requires Searched(ring.w.trace, st0.s, st0.searches, c)
    modifies ring`w, tb.fileOff, tb.fileDone, tb.slots, tb.slotFile
    ensures ring.Valid() && Mirrors(st, ring, tb, rr, freeCount) && Inv(st, c, qd)
    ensures queued == ring.w.sqLen && inflight == |ring.w.reqs| == inflight0 + queued
    ensures DoneFlags(tb.fileOff[..], tb.fileDone[..], doneFiles, c) && (Aligned(c) ==> detours == 0)
    ensures Sum(st.s.offs) >= Sum(st0.s.offs) && (queued > 0 ==> Sum(st.s.offs) > Sum(st0.s.offs))
    ensures Searched(ring.w.trace, st.s, st.searches, c)
    // it stops for want of slots or of files, or after an empty search, which an aligned counter rules out
    ensures if empty then !Aligned(c) && freeCount > 0 && doneFiles < c.n else freeCount == 0 || doneFiles == c.n
    ensures Fill(Loop(st0.searches, inflight0), c, qd) == (Loop(st.searches, inflight), empty)
    ensures Moved(ring.w.trace, Write) == Moved(st0.w.trace, Write)
  {
    hide Inv, World.Valid, Sum, Moved, DoneFlags, Aligned, Sane, Shape.Ok, Searched, Found, Fill,
         Unfinished;
    rr, freeCount, doneFiles, inflight, queued, detours := rr0, freeCount0, doneFiles0, inflight0, 0, detours0;
    empty := false;
    st := st0;
    InvFacts(st, c, qd);
    FlagsTold(ring.w.trace, st, tb.fileDone[..], doneFiles, c);
    while freeCount > 0 && doneFiles < c.n
      invariant ring.Valid() && Mirrors(st, ring, tb, rr, freeCount) && Inv(st, c, qd)
      invariant queued == ring.w.sqLen && inflight == |ring.w.reqs| == inflight0 + queued
      invariant queued + freeCount <= qd && doneFiles <= c.n
      invariant DoneFlags(tb.fileOff[..], tb.fileDone[..], doneFiles, c) && (Aligned(c) ==> detours == 0)
      invariant Sum(st.s.offs) >= Sum(st0.s.offs) && (queued > 0 ==> Sum(st.s.offs) > Sum(st0.s.offs))
      invariant Moved(ring.w.trace, Write) == Moved(st0.w.trace, Write) && !empty
      invariant Searched(ring.w.trace, st.s, st.searches, c) && (doneFiles < c.n <==> Unfinished(st.searches, c))
      invariant freeCount + inflight == qd
      invariant Fill(Loop(st.searches, inflight), c, qd) == Fill(Loop(st0.searches, inflight0), c, qd)
      decreases freeCount
    {
      var found;
      ghost var more;
      FillStep(Loop(st.searches, inflight), c, qd);
      found, rr, freeCount, doneFiles, more, st := PickAndQueue(ring, tb, rr, freeCount, doneFiles, c, qd, st);
      detours := detours + more;
      FlagsTold(ring.w.trace, st, tb.fileDone[..], doneFiles, c);
      if !found {
        empty := true;
        break;
      }
      inflight, queued := inflight + 1, queued + 1;
    }
    if !empty {
      FillStops(Loop(st.searches, inflight), c, qd);
    }
  }

  /** done_files falls short of all exactly as long as a file is unfinished. */
  lemma FlagsTold(t: Trace, st: State, done: seq<bool>, doneFiles: nat, c: Shape)
    requires c.Ok() && Searched(t, st.s, st.searches, c) && DoneFlags(st.s.offs, done, doneFiles, c)
    ensures doneFiles <= c.n && (doneFiles < c.n <==> Unfinished(st.searches, c))
  {
    hide After, DealsOf, DealtBy;
    AllDone(st.s.offs, c.perFile);
  }

  lemma InvFacts(st: State, c: Shape, qd: nat)
    requires Inv(st, c, qd)
    ensures c.Ok() && Sane(st.s, c) && |st.free| + |st.w.reqs| == |st.own| == qd < U32
    ensures forall k | 0 <= k < |st.free| :: st.free[k] < qd
    ensures Moved(st.w.trace, Write) <= Sum(st.s.offs) <= c.n * c.perFile
  {
    SumOfEqual(st.s.offs, c.perFile);
  }

  /** One entry of a batch: check it, count it, give its slot back. */
  method HandleOne(ring: Ring, cqe: Cqe, freeSlots: array<nat>, written0: nat, freeCount0: nat, c: Shape, qd: nat,
                   ghost detours: nat, ghost st0: State)
      returns (stop: Option<Outcome>, written: nat, freeCount: nat, ghost st: State)
    requires ring.Valid() && st0.w == ring.w && Inv(st0, c, qd) && (Aligned(c) ==> detours == 0)
    requires freeSlots.Length == qd && freeCount0 <= qd && st0.free == freeSlots[..freeCount0]
    requires ring.w.IsDone(cqe.id)
    requires cqe == Cqe(cqe.id, ring.w.reqs[cqe.id].sqe.ud, ring.w.reqs[cqe.id].stage.res)
    requires written0 == Moved(ring.w.trace, Write)
    modifies ring, freeSlots
    ensures ring.Valid() && ring.w.reqs == old(ring.w.reqs) - {cqe.id} && ring.w.sqLen == old(ring.w.sqLen)
    ensures |ring.w.reqs| == |old(ring.w.reqs)| - 1
    ensures DealsOf(ring.w.trace) == old(DealsOf(ring.w.trace)) && st.searches == st0.searches
    ensures stop.Some? ==> stop.value.KernelError? && Observed(ring.w.trace, c, qd, detours)
    ensures ring.faults == if stop.Some? then old(ring.faults) + [stop.value.errno] else old(ring.faults)
    ensures stop.None? ==> Inv(st, c, qd) && st.w == ring.w && st.s == st0.s
                           && written == Moved(ring.w.trace, Write)
                           && freeCount <= qd && st.free == freeSlots[..freeCount]
  {
    hide *;
    stop, written, freeCount := None, written0, freeCount0;
    var op, slot, res := UdOp(cqe.ud), UdSlot(cqe.ud), cqe.res;
    st := Reaping(st0, cqe.id, c, qd, detours);
    ring.Seen(cqe);
    if op != 1 || slot >= qd {
      stop := Some(BadSlot);
      return;
    }
    if res < 0 {
      stop := Some(KernelError(res));
      return;
    }
    written := written + res;
    freeSlots[freeCount] := slot;
    freeCount := freeCount + 1;
    assert freeSlots[..freeCount] == st0.free + [slot];
  }

  lemma Reaping(st: State, id: nat, c: Shape, qd: nat, detours: nat) returns (st1: State)
    requires Inv(st, c, qd) && st.w.IsDone(id) && (Aligned(c) ==> detours == 0)
    ensures UdSlot(st.w.reqs[id].sqe.ud) < qd && UdOp(st.w.reqs[id].sqe.ud) == 1
    ensures Observed(Reap(st.w, id).trace, c, qd, detours) && |Reap(st.w, id).reqs| == |st.w.reqs| - 1
    ensures Reap(st.w, id).reqs == st.w.reqs - {id} && Reap(st.w, id).sqLen == st.w.sqLen
    ensures DealsOf(Reap(st.w, id).trace) == DealsOf(st.w.trace) && st1.searches == st.searches
    ensures st.w.reqs[id].stage.res >= 0 ==>
              && Inv(st1, c, qd) && |st.free| < qd && st1.w == Reap(st.w, id) && st1.s == st.s
              && st1.free == st.free + [UdSlot(st.w.reqs[id].sqe.ud)]
              && Moved(Reap(st.w, id).trace, Write) == Moved(st.w.trace, Write) + st.w.reqs[id].stage.res
  {
    TagInRange(st, c, qd, id);
    ObservedAt(st, c, qd, detours);
    ReapObserved(st.w.trace, st.w.reqs[id].sqe, st.w.reqs[id].stage.res, c, qd, detours);
    ReapKeepsValid(st.w, id);
    st1 := st;
    if st.w.reqs[id].stage.res >= 0 {
      ReapGoes(st, c, qd, id);
      st1 := Freed(st, id);
    }
    hide Inv, Moved, Observed, Aligned;
  }

  /** The entries of a batch, in order. */
  method HandleBatch(ring: Ring, batch: seq<Cqe>, freeSlots: array<nat>, written0: nat, inflight0: nat,
                     freeCount0: nat, c: Shape, qd: nat, ghost detours: nat, ghost st0: State)
      returns (stop: Option<Outcome>, written: nat, inflight: nat, freeCount: nat, ghost st: State)
    requires ring.Valid() && st0.w == ring.w && Inv(st0, c, qd) && (Aligned(c) ==> detours == 0)
    requires freeSlots.Length == qd && freeCount0 <= qd && st0.free == freeSlots[..freeCount0]
    requires Batch(ring.w, batch) && |batch| <= inflight0 == |ring.w.reqs|
    requires written0 == Moved(ring.w.trace, Write)
    modifies ring, freeSlots
    ensures ring.Valid() && ring.w.sqLen == old(ring.w.sqLen)
    ensures DealsOf(ring.w.trace) == old(DealsOf(ring.w.trace)) && st.searches == st0.searches
    ensures stop.Some? ==> stop.value.KernelError? && Observed(ring.w.trace, c, qd, detours)
    ensures ring.faults == if stop.Some? then old(ring.faults) + [stop.value.errno] else old(ring.faults)
    ensures stop.None? ==> Inv(st, c, qd) && st.w == ring.w && st.s == st0.s
                           && written == Moved(ring.w.trace, Write)
                           && inflight == |ring.w.reqs| == inflight0 - |batch|
                           && freeCount <= qd && st.free == freeSlots[..freeCount]
  {
    stop, written, inflight, freeCount, st := None, written0, inflight0, freeCount0, st0;
    hide Inv, Moved, World.Valid, Observed, Aligned, Batch;
    var i := 0;
    assert batch[0..] == batch;
    while i < |batch|
      invariant i <= |batch| && ring.Valid() && st.w == ring.w && st.s == st0.s && Inv(st, c, qd)
      invariant st.searches == st0.searches && DealsOf(ring.w.trace) == old(DealsOf(ring.w.trace))
      invariant freeCount <= qd && st.free == freeSlots[..freeCount] && stop == None
      invariant written == Moved(ring.w.trace, Write) && ring.w.sqLen == old(ring.w.sqLen)
      invariant inflight == |ring.w.reqs| == inflight0 - i && Batch(ring.w, batch[i..])
      invariant ring.faults == old(ring.faults)
    {
      ghost var before := ring.w;
      assert batch[i..][0] == batch[i];
      BatchHead(before, batch[i..]);
      stop, written, freeCount, st := HandleOne(ring, batch[i], freeSlots, written, freeCount, c, qd, detours, st);
      if stop.Some? {
        return;
      }
      BatchTail(before, ring.w, batch[i..]);
      assert batch[i..][1..] == batch[i + 1..];
      inflight := inflight - 1;
      i := i + 1;
    }
  }

  /** Waits for a completion and reaps one batch of at most 256. */
  method WaitAndReap(ring: Ring, freeSlots: array<nat>, written0: nat, inflight0: nat, freeCount0: nat, c: Shape,
                     qd: nat, ghost detours: nat, ghost st0: State)
      returns (stop: Option<Outcome>, written: nat, inflight: nat, freeCount: nat, ghost st: State)
    requires ring.Valid() && st0.w == ring.w && Inv(st0, c, qd) && (Aligned(c) ==> detours == 0)
    requires freeSlots.Length == qd && freeCount0 <= qd && st0.free == freeSlots[..freeCount0]
    requires ring.w.sqLen == 0 && inflight0 == |ring.w.reqs| > 0 && written0 == Moved(ring.w.trace, Write)
    modifies ring, freeSlots
    ensures ring.Valid()
    ensures DealsOf(ring.w.trace) == old(DealsOf(ring.w.trace)) && st.searches == st0.searches
    ensures stop.Some? ==> stop.value.KernelError? && Observed(ring.w.trace, c, qd, detours)
    ensures ring.faults == if stop.Some? then old(ring.faults) + [stop.value.errno] else old(ring.faults)
    ensures stop.None? ==> Inv(st, c, qd) && st.w == ring.w && st.s == st0.s
                           && written == Moved(ring.w.trace, Write)
                           && ring.w.sqLen == 0 && inflight == |ring.w.reqs|
                           && 0 < inflight0 - inflight <= 256
                           && freeCount <= qd && st.free == freeSlots[..freeCount]
  {
    hide *;
    stop, written, inflight, freeCount, st := None, written0, inflight0, freeCount0, st0;
    ObservedAt(st0, c, qd, detours);
    SubmitGoes(st0, c, qd);
    var ret, sched := ring.SubmitAndWait();
    if ret < 0 {
      stop := Some(KernelError(ret));
      return;
    }
    st := st.(w := Flush(st.w));
    KernelGoes(st, c, qd, sched);
    st := st.(w := ring.w);
    var batch;
    batch, sched := ring.PeekBatch(256);
    KernelGoes(st, c, qd, sched);
    st := st.(w := ring.w);
    if batch == [] {
      var cqe;
      ret, cqe, sched := ring.WaitCqe();
      KernelGoes(st, c, qd, sched);
      st := st.(w := ring.w);
      if ret < 0 {
        stop := Some(KernelError(ret));
        return;
      }
      batch := [cqe];
      OneIsBatch(ring.w, cqe);
    }
    stop, written, inflight, freeCount, st :=
      HandleBatch(ring, batch, freeSlots, written, inflight, freeCount, c, qd, detours, st);
  }

  lemma OneIsBatch(w: World, cqe: Cqe)
    requires w.IsDone(cqe.id) && cqe == Cqe(cqe.id, w.reqs[cqe.id].sqe.ud, w.reqs[cqe.id].stage.res)
    ensures Batch(w, [cqe])
  {
  }

  /** One round: queue, submit, wait, reap. Leaves the loop when nothing is in flight. */
  method Round(ring: Ring, tb: Tables, rr0: nat, freeCount0: nat, doneFiles0: nat, inflight0: nat, written0: nat,
               ghost detours0: nat, c: Shape, qd: nat, ghost st0: State)
      returns (stop: Option<Outcome>, leave: bool, rr: nat, freeCount: nat, doneFiles: nat, inflight: nat,
               written: nat, ghost detours: nat, ghost reaped: nat, ghost st: State)
    requires ring.Valid() && ring.w.sqLen == 0 && 0 < qd <= ring.entries && Separate(tb, c, qd)
    requires Mirrors(st0, ring, tb, rr0, freeCount0) && Inv(st0, c, qd) && inflight0 == |ring.w.reqs|
    requires DoneFlags(tb.fileOff[..], tb.fileDone[..], doneFiles0, c) && (Aligned(c) ==> detours0 == 0)
    requires written0 == Moved(ring.w.trace, Write) && Searched(ring.w.trace, st0.s, st0.searches, c)
    modifies ring, tb.fileOff, tb.fileDone, tb.freeSlots, tb.slots, tb.slotFile
    ensures ring.Valid()
    ensures stop.Some? ==> stop.value.KernelError? && Observed(ring.w.trace, c, qd, detours)
    ensures ring.faults == if stop.Some? then old(ring.faults) + [stop.value.errno] else old(ring.faults)
    ensures stop.None? ==> ring.w.sqLen == 0 && Mirrors(st, ring, tb, rr, freeCount) && Inv(st, c, qd)
                           && inflight == |ring.w.reqs| && written == Moved(ring.w.trace, Write)
                           && DoneFlags(tb.fileOff[..], tb.fileDone[..], doneFiles, c) && (Aligned(c) ==> detours == 0)
                           && Sum(st.s.offs) >= Sum(st0.s.offs)
    ensures DealsOf(ring.w.trace) == DealtBy(st.searches, c)
    ensures stop.None? ==> Searched(ring.w.trace, st.s, st.searches, c)
    // it leaves if nothing is in flight once it has queued; otherwise it reaps a batch
    ensures stop.None? ==> Fill(Loop(st0.searches, inflight0), c, qd).0 == Loop(st.searches, inflight + reaped)
    ensures stop.None? ==> if leave then inflight == 0 == reaped else 0 < reaped <= 256
    ensures stop.None? && !leave ==> Sum(st.s.offs) > Sum(st0.s.offs) || inflight < inflight0
  {
    hide Inv, Moved, World.Valid, Observed, Aligned, Flush, Sum, DoneFlags, DealsOf, DealtBy, After, Found, Fill,
         Unfinished;
    stop, leave, written, reaped := None, false, written0, 0;
    var queued;
    ghost var empty;
    rr, freeCount, doneFiles, inflight, queued, detours, empty, st :=
      QueueChunks(ring, tb, rr0, freeCount0, doneFiles0, inflight0, detours0, c, qd, st0);
    InvFacts(st, c, qd);
    if queued > 0 {
      ObservedAt(st, c, qd, detours);
      SubmitGoes(st, c, qd);
      var ret := ring.Submit();
      if ret < 0 {
        stop := Some(KernelError(ret));
        return;
      }
      st := st.(w := ring.w);
    }
    if inflight == 0 {
      leave := true;
      return;
    }
    reaped := inflight;
    stop, written, inflight, freeCount, st :=
      WaitAndReap(ring, tb.freeSlots, written, inflight, freeCount, c, qd, detours, st);
    reaped := if stop.None? then reaped - inflight else 0;
  }

  lemma SearchedDeals(t: Trace, s: Sched, searches: nat, c: Shape)
    requires Searched(t, s, searches, c)
    ensures 0 < c.n && DealsOf(t) == DealtBy(searches, c)
  {
  }

  /** The main loop. */
  method Pump(ring: Ring, tb: Tables, c: Shape, qd: nat)
      returns (out: Outcome, ghost detours: nat, ghost searches: nat, ghost batches: seq<nat>,
               ghost wholes: seq<seq<Byte>>)
    requires ring.Valid() && ring.w.sqLen == 0 && qd <= ring.entries && Separate(tb, c, qd) && 0 < qd
    requires ring.w.reqs == map[] && ring.w.trace == Start
    requires Inv(State(ring.w, AllIdle(qd), tb.freeSlots[..], Sched(0, tb.fileOff[..]), 0), c, qd)
    requires Searched(ring.w.trace, Sched(0, tb.fileOff[..]), 0, c)
    requires DoneFlags(tb.fileOff[..], tb.fileDone[..], 0, c)
    modifies ring, tb.fileOff, tb.fileDone, tb.freeSlots, tb.slots, tb.slotFile
    ensures out.Finished? || out.KernelError?
    ensures ring.Valid() && Observed(ring.w.trace, c, qd, detours)
    ensures ring.faults == if out.KernelError? then old(ring.faults) + [out.errno] else old(ring.faults)
    ensures out.Finished? ==> Final(ring.w.trace, c, qd, out.bytes, batches)
    ensures out.Finished? ==> Filed(ring.w.trace, ring.w.files, wholes, c.n)
    ensures DealsOf(ring.w.trace) == DealtBy(searches, c)
    ensures (c.perFile * c.n) % U64 == 0 ==> ring.w.trace == Start
  {
    hide Inv, Moved, World.Valid, Observed, Aligned, Final, Sum, DoneFlags, DealsOf, DealtBy, After, Found, Sane,
         Shape.Ok, Searched, AllIdle, Played, Fill, Filed;
    var freeCount, inflight, written, doneFiles, rr, leave := qd, 0, 0, 0, 0, false;
    ghost var st := State(ring.w, AllIdle(qd), tb.freeSlots[..], Sched(0, tb.fileOff[..]), 0);
    detours, searches, batches, wholes := 0, 0, [], [];
    var total := (c.perFile * c.n) % U64;
    assert tb.freeSlots[..freeCount] == tb.freeSlots[..];
    InvFacts(st, c, qd);
    NoBatches(c, qd);
    NoneMoved();
    while written % U64 < total || inflight > 0
      invariant ring.Valid() && ring.w.sqLen == 0 && Mirrors(st, ring, tb, rr, freeCount) && Inv(st, c, qd)
      invariant DoneFlags(tb.fileOff[..], tb.fileDone[..], doneFiles, c) && (Aligned(c) ==> detours == 0)
      invariant inflight == |ring.w.reqs| && written == Moved(ring.w.trace, Write)
      invariant Sum(st.s.offs) <= c.n * c.perFile && !leave && ring.faults == old(ring.faults)
      invariant Searched(ring.w.trace, st.s, st.searches, c) && searches == st.searches
      invariant Played(batches, c, qd) == Some(Loop(searches, inflight))
      invariant total == 0 ==> ring.w.trace == Start && inflight == 0
      decreases c.n * c.perFile - Sum(st.s.offs), inflight
    {
      var stop;
      ghost var reaped;
      stop, leave, rr, freeCount, doneFiles, inflight, written, detours, reaped, st :=
        Round(ring, tb, rr, freeCount, doneFiles, inflight, written, detours, c, qd, st);
      searches := st.searches;
      if stop.Some? {
        out := stop.value;
        return;
      }
      InvFacts(st, c, qd);
      if leave {
        break;
      }
      PlayedSnoc(batches, reaped, c, qd);
      batches := batches + [reaped];
    }
    SearchedDeals(ring.w.trace, st.s, st.searches, c);
    ObservedAt(st, c, qd, detours);
    if !leave {
      AllWritten(st, c, qd);
    }
    Ended(st, batches, c, qd);
    wholes := FilesFacts(st, c, qd);
    out := Finished(written);
  }

  lemma NoneMoved()
    ensures Moved(Start, Write) == 0
  {
  }

  lemma Unwrapped(n: nat, perFile: nat, moved: nat)
    requires moved <= n * perFile < U64
    ensures moved % U64 >= (perFile * n) % U64 ==> moved >= n * perFile
  {
    assert perFile * n == n * perFile;
  }

  /** If the loop ends because all bytes are written, no file is unfinished. */
  lemma AllWritten(st: State, c: Shape, qd: nat)
    requires Inv(st, c, qd) && Searched(st.w.trace, st.s, st.searches, c)
    requires Moved(st.w.trace, Write) % U64 >= (c.perFile * c.n) % U64
    ensures c.n * c.perFile < U64 ==> Fill(Loop(st.searches, 0), c, qd) == (Loop(st.searches, 0), false)
  {
    hide Inv, Sum, Moved, After, DealsOf, DealtBy;
    InvFacts(st, c, qd);
    if c.n * c.perFile < U64 {
      Unwrapped(c.n, c.perFile, Moved(st.w.trace, Write));
      SumOfEqual(st.s.offs, c.perFile);
    }
  }

  /** Either loop exit is a good end. */
  lemma Ended(st: State, batches: seq<nat>, c: Shape, qd: nat)
    requires Inv(st, c, qd) && |st.w.reqs| == 0 && 0 < qd && Searched(st.w.trace, st.s, st.searches, c)
    requires Played(batches, c, qd).Some?
    requires c.n * c.perFile < U64 ==> Fill(Played(batches, c, qd).value, c, qd).0 == Loop(st.searches, 0)
    ensures Final(st.w.trace, c, qd, Moved(st.w.trace, Write), batches)
  {
    hide Inv, Sane, Moved, Shape.Ok, After, DealtBy, DealsOf, DealBytes, Played, Fill, Unfinished;
    InvFacts(st, c, qd);
    FinalFacts(st, c, qd);
    IssuedIsDealt(st.w.trace);
    if c.n * c.perFile < U64 {
      CompleteDeals(batches, c, qd);
    }
  }

  /** fsync on every file, up to the first failure. */
  method SyncAll(ring: Ring, nfiles: nat, out0: Outcome) returns (out: Outcome)
    requires ring.Valid()
    modifies ring`faults
    ensures ring.Valid()
    ensures || (out == out0 && ring.faults == old(ring.faults))
            || (out.KernelError? && out.errno < 0 && ring.faults == old(ring.faults) + [out.errno])
  {
    out := out0;
    var i := 0;
    while i < nfiles
      invariant ring.Valid() && ring.faults == old(ring.faults) && out == out0
    {
      var ret := ring.Fsync();
      if ret < 0 {
        return KernelError(ret);
      }
      i := i + 1;
    }
  }

  /** Sets up the buffers and tables, runs the main loop, and syncs. */
  method WriteShape(c: Shape, qd: nat, doFsync: bool)
      returns (out: Outcome, files: seq<seq<Byte>>, trace: Trace, faults: seq<int>, ghost detours: nat,
               ghost searches: nat, ghost batches: seq<nat>, ghost wholes: seq<seq<Byte>>)
    requires c.Ok() && 0 < qd < U32
    ensures out.Finished? || out.KernelError?
    ensures faults == (if out.KernelError? then [out.errno] else []) && (out.KernelError? ==> out.errno < 0)
    ensures Observed(trace, c, qd, detours) && DealsOf(trace) == DealtBy(searches, c)
    ensures out.Finished? ==> Final(trace, c, qd, out.bytes, batches) && Filed(trace, files, wholes, c.n)
    ensures (c.perFile * c.n) % U64 == 0 ==> trace == Start
  {
    hide Inv, Moved, World.Valid, Observed, Final, DoneFlags, DealsOf, DealtBy, After, Found, Searched, Sum,
         DoneCount, AllIdle, Filed;
    var mem := FillPatterns(97, qd, c.bs);
    var spare: nat :| true;
    var ring := new Ring(qd + spare, mem, seq(c.n, _ => []));
    var fileOff := new nat[c.n](_ => 0);
    var fileDone := new bool[c.n](_ => false);
    var freeSlots := new nat[qd](i => i);
    var slots := new CopySlot[qd](_ => CopySlot(0, 0, true));
    var slotFile := new nat[qd](_ => 0);
    var tb := Tables(fileOff, fileDone, freeSlots, slots, slotFile);
    InitialInv(ring.w, tb.fileOff[..], tb.fileDone[..], tb.freeSlots[..], c, qd);
    out, detours, searches, batches, wholes := Pump(ring, tb, c, qd);
    if out.Finished? && doFsync {
      out := SyncAll(ring, c.n, out);
    }
    files, trace, faults := ring.w.files, ring.w.trace, ring.faults;
    assert out.KernelError? ==> faults[0] == out.errno;
  }

  /** uring_write_manyfiles on fresh files. The outcome, and what was observed on the way. */
  method WriteManyFiles(nfiles: nat, mbPerFile: nat, bs: nat, qd: nat, doFsync: bool)
      returns (out: Outcome, files: seq<seq<Byte>>, trace: Trace, faults: seq<int>, ghost detours: nat,
               ghost searches: nat, ghost batches: seq<nat>, ghost wholes: seq<seq<Byte>>)
    requires nfiles < U32 && mbPerFile < U32 && bs < U32 && qd < U32
    ensures out.Invalid? <==> nfiles == 0 || mbPerFile == 0 || bs == 0 || qd == 0
    // no slot is lost or used twice: tags are always in range and the SQ never fills up
    ensures !out.BadSlot? && !out.NoSqe? && !out.Aborted?
    // an error is returned if and only if some call or completion failed; it is the first failure, and the last
    ensures faults == (if out.KernelError? then [out.errno] else []) && (out.KernelError? ==> out.errno < 0)
    // in every run each file is filled from its start, and with an aligned counter chunks go round in turn
    ensures !out.Invalid? ==> Observed(trace, Shape(nfiles, mbPerFile * 1024 * 1024, bs), qd, detours)
    // whatever the shape, what is queued is what the searches deal out
    ensures !out.Invalid? ==> DealsOf(trace) == DealtBy(searches, Shape(nfiles, mbPerFile * 1024 * 1024, bs))
    // after a good run every chunk queued was reaped once, and its bytes are written or lost
    ensures out.Finished? ==> Final(trace, Shape(nfiles, mbPerFile * 1024 * 1024, bs), qd, out.bytes, batches)
    // each file holds the letters of the writes to it, all of them if no write was short
    ensures out.Finished? ==> Filed(trace, files, wholes, nfiles)
    // a good run leaves chunks unqueued only if the shape is such and at most 256 slots are used; with
    // a single slot it does so if and only if the shape is such
    ensures out.Finished? && nfiles * (mbPerFile * 1024 * 1024) < U64 ==>
              EndsAsShaped(trace, Shape(nfiles, mbPerFile * 1024 * 1024, bs), qd)
    // the number of bytes is kept in 64 bits: a multiple of 2^64 of them are not written at all
    ensures (mbPerFile * 1024 * 1024 * nfiles) % U64 == 0 ==> trace == Start
  {
    hide Observed, Final, DealsOf, DealtBy, EndsAsShaped, Filed;
    out, files, trace, faults, detours, searches, batches, wholes := Invalid, [], Start, [], 0, 0, [], [];
    if nfiles == 0 || mbPerFile == 0 || bs == 0 || qd == 0 {
      return;
    }
    var c := Shape(nfiles, mbPerFile * 1024 * 1024, bs);
    out, files, trace, faults, detours, searches, batches, wholes := WriteShape(c, qd, doFsync);
    if out.Finished? {
      FinalAsShaped(trace, c, qd, out.bytes, batches);
    }
  }

  lemma InitialInv(w: World, offs: seq<nat>, done: seq<bool>, free: seq<nat>, c: Shape, qd: nat)
    requires c.Ok() && 0 < qd < U32 && Buffers(w.mem, qd, c.bs) && |w.files| == c.n && w == Empty(w.mem, w.files)
    requires forall i, k | 0 <= i < qd && 0 <= k < c.bs :: w.mem[i][k] as int == 97 + (i + k) % U32 % 26
    requires forall f | 0 <= f < c.n :: w.files[f] == []
    requires |offs| == |done| == c.n && forall i | 0 <= i < c.n :: offs[i] == 0 && !done[i]
    requires |free| == qd && forall i | 0 <= i < qd :: free[i] == i
    ensures Inv(State(w, AllIdle(qd), free, Sched(0, offs), 0), c, qd) && DoneFlags(offs, done, 0, c)
    ensures Searched(w.trace, Sched(0, offs), 0, c) && w.trace == Start
  {
    FreshFreeList(free, AllIdle(qd));
    AllIdleSums(qd);
    ZeroSums(offs, c.perFile);
    ZeroTurns(c);
    assert w.trace == Start;
  }

  lemma {:induction false} ZeroSums(offs: seq<nat>, perFile: nat)
    requires 0 < perFile && forall i | 0 <= i < |offs| :: offs[i] == 0
    ensures Sum(offs) == 0 && DoneCount(offs, perFile) == 0
  {
    if offs != [] {
      ZeroSums(offs[..|offs| - 1], perFile);
    }
  }

  // ---------- fairness ----------

  /** After k chunks dealt in turn, file f has had its share of turns. */
  lemma {:induction false} ShareOfFile(t: Trace, c: Shape, f: nat)
    requires c.Ok() && DealtInTurn(t, c) && IssuedCount(t, Write) <= c.Chunks() && f < c.n
    ensures FileBytes(t, f) == Min(c.perFile, Turns(f, IssuedCount(t, Write), c.n) * c.bs)
  {
    hide Turns, Shape.Chunks, Shape.Rounds;
    if t == Start {
      TurnsNone(f, c.n);
    } else {
      ShareOfFile(t.before, c, f);
      if t.event.Issued? {
        ShareStepOf(IssuedCount(t.before, Write), c, f);
      }
    }
  }

  /** Chunk k gives the file whose turn it is its next block. */
  lemma ShareStepOf(k: nat, c: Shape, f: nat)
    requires c.Ok() && k < c.Chunks() && f < c.n
    ensures var off := (k / c.n) * c.bs;
            && off < c.perFile
            && Min(c.perFile, Turns(f, k + 1, c.n) * c.bs) ==
               Min(c.perFile, Turns(f, k, c.n) * c.bs) + (if f == k % c.n then Min(c.bs, c.perFile - off) else 0)
            && (f == k % c.n ==> Min(c.perFile, Turns(f, k, c.n) * c.bs) == off)
  {
    TurnsStep(f, k, c.n);
    RoomLeft(k, c);
    var q := k / c.n;
    assert (q + 1) * c.bs == q * c.bs + c.bs;
    hide Shape.Chunks, Shape.Rounds;
  }

  /** At every moment of such a run any two files are within one block of each other. */
  lemma WithinOneBlock(t: Trace, c: Shape, f: nat, g: nat)
    requires c.Ok() && DealtInTurn(t, c) && IssuedCount(t, Write) <= c.Chunks() && f < c.n && g < c.n
    ensures FileBytes(t, f) <= FileBytes(t, g) + c.bs
  {
    ShareOfFile(t, c, f);
    ShareOfFile(t, c, g);
    var k := IssuedCount(t, Write);
    assert Turns(f, k, c.n) <= Turns(g, k, c.n) + 1;
    hide *;
    Proportional(Turns(f, k, c.n), Turns(g, k, c.n), c.bs);
  }

  lemma Proportional(a: nat, b: nat, bs: nat)
    requires a <= b + 1
    ensures a * bs <= b * bs + bs
  {
    if a < b {
      Times(a, b, bs);
    } else if a == b + 1 {
      assert (b + 1) * bs == b * bs + bs;
    }
  }

  // ---------- runs that end short ----------

  lemma {:induction false} IssuedIsDealt(t: Trace)
    ensures IssuedBytes(t, Write) == DealBytes(DealsOf(t))
  {
    if t.Then? {
      IssuedIsDealt(t.before);
      if t.event.Issued? {
        var q := t.event.sqe;
        DealSnoc(DealsOf(t.before), Deal(q.fd, q.off, q.len));
        assert DealsOf(t.before) + [] == DealsOf(t.before);
      }
    }
  }

  /** Whether everything is queued, told from the shape and the number of slots. */
  ghost predicate EndsAsShaped(t: Trace, c: Shape, qd: nat) {
    && (IssuedBytes(t, Write) < c.n * c.perFile ==> EndsShort(c) && qd <= 256)
    && (qd == 1 && EndsShort(c) ==> IssuedBytes(t, Write) < c.n * c.perFile)
    && (c.Ok() && Aligned(c) ==> IssuedBytes(t, Write) == c.n * c.perFile)
  }

  lemma FinalAsShaped(t: Trace, c: Shape, qd: nat, bytes: nat, batches: seq<nat>)
    requires c.Ok() && 0 < qd && Final(t, c, qd, bytes, batches)
    ensures c.n * c.perFile < U64 ==> EndsAsShaped(t, c, qd)
  {
    hide GivesUp, EndsShort, Moved, IssuedBytes, Lost, IssuedOps, ReapedOps, Aligned;
    if c.n * c.perFile < U64 {
      if GivesUp(batches, c, qd) {
        GivesUpOnly(batches, c, qd);
      }
      if qd == 1 {
        SingleSlotGivesUpIff(batches, c);
      }
      if Aligned(c) {
        AlignedNeverShort(c);
      }
    }
  }
}
