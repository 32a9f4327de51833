/**
 The environment of every pipeline: an io_uring instance, the memory its requests
 point into, and the files they act on.

 A World is a value. The user side changes it with Push, Flush and Reap; the kernel
 changes it with Complete, at any moment, on any submitted request, with any result
 that POSIX allows. The class Ring wraps a World behind the liburing calls the C code
 makes; wherever the kernel may act, the method body picks the steps at random and
 reports them in a ghost schedule, so a caller is verified against all of them.
 */
module IoUring {

  newtype Byte = b: int | 0 <= b < 256

  const U32: nat := 0x1_0000_0000
  const U64: nat := 0x1_0000_0000_0000_0000

  datatype Option<+T> = None | Some(value: T)

  datatype Dir = Read | Write

  /** A submission entry: transfer len bytes between file fd at offset off and
      memory buffer buf at position at. The tag ud is the user_data. */
  datatype Sqe = Sqe(dir: Dir, fd: nat, buf: nat, at: nat, len: nat, off: nat, ud: nat)

  datatype Stage = Queued | Running | Done(res: int)

  datatype Req = Req(sqe: Sqe, stage: Stage)

  /** A completion as the user sees it; id plays the part of the CQE pointer. */
  datatype Cqe = Cqe(id: nat, ud: nat, res: int)

  /** What an observer of the pipeline sees, in order. */
  datatype Event =
    | Issued(sqe: Sqe)
    | Reaped(sqe: Sqe, res: int)
    | Progress(done: nat, answer: int)

  /** A history that grows at its end. */
  datatype Trace = Start | Then(before: Trace, event: Event)

  // ---------- user_data packing ----------

  /** op in the high 32 bits, slot in the low 32; the two parts do not overlap, so OR is a sum. */
  function PackUd(op: nat, slot: nat): nat
    requires slot < U32
  {
    op * U32 + slot
  }

  function UdOp(ud: nat): nat { ud / U32 }

  function UdSlot(ud: nat): nat { ud % U32 }

  lemma PackRoundTrip(op: nat, slot: nat)
    requires op < U32 && slot < U32
    ensures PackUd(op, slot) < U64
    ensures UdOp(PackUd(op, slot)) == op && UdSlot(PackUd(op, slot)) == slot
  {
  }

  lemma UnpackRoundTrip(ud: nat)
    requires ud < U64
    ensures UdOp(ud) < U32 && UdSlot(ud) < U32
    ensures PackUd(UdOp(ud), UdSlot(ud)) == ud
  {
  }

  // ---------- file and memory contents ----------

  function Max(a: int, b: int): int { if a < b then b else a }

  function Min(a: int, b: int): int { if a < b then a else b }

  /** How many of len bytes from off on a file has. */
  function Available(file: seq<Byte>, off: nat, len: nat): nat {
    Min(len, Max(0, |file| - off))
  }

  /** At most n bytes of a file from off on. */
  function Slice(file: seq<Byte>, off: nat, n: nat): (s: seq<Byte>)
    ensures |s| == Available(file, off, n)
  {
    file[Min(off, |file|)..Min(off + n, |file|)]
  }

  function Zeros(len: nat): (z: seq<Byte>)
    ensures |z| == len && forall k | 0 <= k < len :: z[k] == 0
  {
    seq(len, _ => 0)
  }

  /** pwrite: bytes past the old end that are not written become zero. */
  function PWrite(f: seq<Byte>, off: nat, data: seq<Byte>): (g: seq<Byte>)
    ensures |g| == if data == [] then |f| else Max(|f|, off + |data|)
    ensures forall p | off <= p < off + |data| :: g[p] == data[p - off]
    ensures forall p | 0 <= p < |f| && !(off <= p < off + |data|) :: g[p] == f[p]
  {
    if data == [] then f
    else
      seq(Max(|f|, off + |data|), p requires 0 <= p < Max(|f|, off + |data|) =>
        if off <= p < off + |data| then data[p - off] else if p < |f| then f[p] else 0)
  }

  /** Overwrites part of a memory buffer. */
  function Blit(m: seq<Byte>, at: nat, data: seq<Byte>): (r: seq<Byte>)
    requires at + |data| <= |m|
    ensures |r| == |m|
    ensures forall k | at <= k < at + |data| :: r[k] == data[k - at]
    ensures forall k | 0 <= k < |m| && !(at <= k < at + |data|) :: r[k] == m[k]
  {
    m[..at] + data + m[at + |data|..]
  }

  // ---------- the ring as a value ----------

  datatype World = World(reqs: map<nat, Req>, nextId: nat, sqLen: nat,
                         mem: seq<seq<Byte>>, files: seq<seq<Byte>>, trace: Trace)
  {
    /** The transfer stays inside its buffer and names a known file. */
    predicate Fits(sqe: Sqe) {
      sqe.fd < |files| && sqe.buf < |mem| && sqe.at + sqe.len <= |mem[sqe.buf]|
    }

    ghost predicate Valid() {
      match this case World(reqs, nextId, sqLen, _, _, _) =>
        && (forall id | id in reqs :: id < nextId && Fits(reqs[id].sqe))
        && (forall id | id in reqs && reqs[id].stage.Done? :: reqs[id].stage.res <= reqs[id].sqe.len)
        && (sqLen == 0 ==> forall id | id in reqs :: reqs[id].stage != Queued)
    }

    /** How many bytes the request can transfer at most. */
    function Avail(sqe: Sqe): nat
      requires Fits(sqe)
    {
      if sqe.dir.Write? then sqe.len else Available(files[sqe.fd], sqe.off, sqe.len)
    }

    /** The kernel may finish request id with this result now. */
    predicate CanComplete(id: nat, res: int) {
      && id in reqs && reqs[id].stage == Running && Fits(reqs[id].sqe)
      && res <= Avail(reqs[id].sqe)
    }

    /** Some request is with the kernel or finished. */
    ghost predicate Waitable() {
      exists id :: id in reqs && reqs[id].stage != Queued
    }

    predicate IsDone(id: nat) { id in reqs && reqs[id].stage.Done? }
  }

  function Empty(mem: seq<seq<Byte>>, files: seq<seq<Byte>>): World {
    World(map[], 0, 0, mem, files, Start)
  }

  /** io_uring_get_sqe, the prep call and the user_data store, on a ring with room. */
  function Push(w: World, sqe: Sqe): World {
    w.(reqs := w.reqs[w.nextId := Req(sqe, Queued)], nextId := w.nextId + 1, sqLen := w.sqLen + 1,
       trace := Then(w.trace, Issued(sqe)))
  }

  /** io_uring_submit: every queued request reaches the kernel. */
  function Flush(w: World): World {
    w.(reqs := map id | id in w.reqs ::
                 if w.reqs[id].stage == Queued then w.reqs[id].(stage := Running) else w.reqs[id],
       sqLen := 0)
  }

  /** The kernel carries out request id. A negative result has no effect on the data. */
  function Complete(w: World, id: nat, res: int): World
    requires w.CanComplete(id, res)
  {
    var sqe := w.reqs[id].sqe;
    var w1 := w.(reqs := w.reqs[id := Req(sqe, Done(res))]);
    if res <= 0 then w1
    else if sqe.dir.Read? then
      w1.(mem := w.mem[sqe.buf := Blit(w.mem[sqe.buf], sqe.at, w.files[sqe.fd][sqe.off..sqe.off + res])])
    else
      w1.(files := w.files[sqe.fd := PWrite(w.files[sqe.fd], sqe.off, w.mem[sqe.buf][sqe.at..sqe.at + res])])
  }

  type Schedule = seq<(nat, int)>

  /** Any number of kernel steps; a step that is not possible is skipped. */
  function Run(w: World, sched: Schedule): World {
    if sched == [] then w
    else
      var v := Run(w, sched[..|sched| - 1]);
      var (id, res) := sched[|sched| - 1];
      if v.CanComplete(id, res) then Complete(v, id, res) else v
  }

  lemma RunStep(w: World, sched: Schedule, id: nat, res: int)
    requires Run(w, sched).CanComplete(id, res)
    ensures Run(w, sched + [(id, res)]) == Complete(Run(w, sched), id, res)
  {
    assert (sched + [(id, res)])[..|sched|] == sched;
  }

  lemma {:induction false} RunConcat(w: World, a: Schedule, b: Schedule)
    ensures Run(w, a + b) == Run(Run(w, a), b)
  {
    if b == [] {
      assert a + b == a;
    } else {
      RunConcat(w, a, b[..|b| - 1]);
      assert (a + b)[..|a + b| - 1] == a + b[..|b| - 1];
    }
  }

  /** io_uring_cqe_seen: the user consumes a completion. */
  function Reap(w: World, id: nat): World
    requires w.IsDone(id)
  {
    w.(reqs := w.reqs - {id}, trace := Then(w.trace, Reaped(w.reqs[id].sqe, w.reqs[id].stage.res)))
  }

  /** The kernel neither adds nor drops requests, and leaves the shape of memory alone. */
  ghost predicate SameRequests(w: World, v: World) {
    && v.reqs.Keys == w.reqs.Keys
    && (forall id | id in w.reqs :: v.reqs[id].sqe == w.reqs[id].sqe)
    && v.nextId == w.nextId && v.trace == w.trace
    && |v.mem| == |w.mem| && (forall b | 0 <= b < |w.mem| :: |v.mem[b]| == |w.mem[b]|)
    && |v.files| == |w.files|
  }

  lemma PushKeepsValid(w: World, sqe: Sqe)
    requires w.Valid() && w.Fits(sqe)
    ensures Push(w, sqe).Valid() && w.nextId !in w.reqs
    ensures |Push(w, sqe).reqs| == |w.reqs| + 1
  {
  }

  lemma FlushKeepsValid(w: World)
    requires w.Valid()
    ensures Flush(w).Valid() && SameRequests(w, Flush(w))
    ensures |Flush(w).reqs| == |w.reqs|
  {
    assert Flush(w).reqs.Keys == w.reqs.Keys;
  }

  lemma TraceKeepsValid(w: World, t: Trace)
    requires w.Valid()
    ensures w.(trace := t).Valid()
  {
  }

  lemma CompleteKeepsValid(w: World, id: nat, res: int)
    requires w.Valid() && w.CanComplete(id, res)
    ensures Complete(w, id, res).Valid() && SameRequests(w, Complete(w, id, res))
    ensures Complete(w, id, res).sqLen == w.sqLen
  {
    hide Blit, PWrite;
    var v := Complete(w, id, res);
    assert v.reqs == w.reqs[id := Req(w.reqs[id].sqe, Done(res))] && v.nextId == w.nextId && v.sqLen == w.sqLen;
    SameShape(w, id, res);
    hide Complete;
  }

  lemma SameShape(w: World, id: nat, res: int)
    requires w.CanComplete(id, res)
    ensures var v := Complete(w, id, res);
            && |v.mem| == |w.mem| && (forall b | 0 <= b < |w.mem| :: |v.mem[b]| == |w.mem[b]|)
            && |v.files| == |w.files| && v.trace == w.trace
  {
    hide Blit, PWrite;
  }

  lemma {:induction false} RunKeepsValid(w: World, sched: Schedule)
    requires w.Valid()
    ensures Run(w, sched).Valid() && SameRequests(w, Run(w, sched))
    ensures Run(w, sched).sqLen == w.sqLen && |Run(w, sched).reqs| == |w.reqs|
  {
    hide World.Valid, World.CanComplete, Complete;
    if sched != [] {
      var before := sched[..|sched| - 1];
      RunKeepsValid(w, before);
      var (id, res) := sched[|sched| - 1];
      var u := Run(w, before);
      if u.CanComplete(id, res) {
        CompleteKeepsValid(u, id, res);
        SameSize(u.reqs, Complete(u, id, res).reqs);
      }
    }
  }

  lemma SameSize(a: map<nat, Req>, b: map<nat, Req>)
    requires a.Keys == b.Keys
    ensures |a| == |b|
  {
    assert |a.Keys| == |b.Keys|;
  }

  /** A finished request stays finished with the same result: the kernel acts once on each. */
  lemma {:induction false} RunKeepsDone(w: World, sched: Schedule, id: nat)
    requires w.Valid() && w.IsDone(id)
    ensures Run(w, sched).IsDone(id) && Run(w, sched).reqs[id] == w.reqs[id]
  {
    if sched != [] {
      RunKeepsDone(w, sched[..|sched| - 1], id);
    }
  }

  lemma {:induction false} RunKeepsWaitable(w: World, sched: Schedule, id: nat)
    requires id in w.reqs && w.reqs[id].stage != Queued
    ensures id in Run(w, sched).reqs && Run(w, sched).reqs[id].stage != Queued
  {
    if sched != [] {
      RunKeepsWaitable(w, sched[..|sched| - 1], id);
    }
  }

  lemma ReapKeepsValid(w: World, id: nat)
    requires w.Valid() && w.IsDone(id)
    ensures Reap(w, id).Valid() && |Reap(w, id).reqs| == |w.reqs| - 1
  {
    assert Reap(w, id).reqs.Keys == w.reqs.Keys - {id};
  }

  // ---------- summaries of a trace ----------

  /** The result of this request as last consumed, -1 if it has not been. */
  function ResultOf(t: Trace, q: Sqe): int {
    match t
    case Start => -1
    case Then(b, Reaped(r, res)) => if r == q then res else ResultOf(b, q)
    case Then(b, _) => ResultOf(b, q)
  }

  /** Nothing has been consumed in between. */
  ghost predicate SameResults(t: Trace, u: Trace) {
    forall q :: ResultOf(t, q) == ResultOf(u, q)
  }

  /** Bytes asked for by the requests of one direction. */
  function IssuedBytes(t: Trace, dir: Dir): nat {
    match t
    case Start => 0
    case Then(b, Issued(sqe)) => IssuedBytes(b, dir) + if sqe.dir == dir then sqe.len else 0
    case Then(b, _) => IssuedBytes(b, dir)
  }

  /** Number of requests of one direction. */
  function IssuedCount(t: Trace, dir: Dir): nat {
    match t
    case Start => 0
    case Then(b, Issued(sqe)) => IssuedCount(b, dir) + if sqe.dir == dir then 1 else 0
    case Then(b, _) => IssuedCount(b, dir)
  }

  /** Number of completions consumed. */
  function ReapedCount(t: Trace): nat {
    match t
    case Start => 0
    case Then(b, Reaped(_, _)) => ReapedCount(b) + 1
    case Then(b, _) => ReapedCount(b)
  }

  /** Bytes reported by completed requests of one direction. */
  function Moved(t: Trace, dir: Dir): nat {
    match t
    case Start => 0
    case Then(b, Reaped(sqe, res)) => Moved(b, dir) + if sqe.dir == dir && res > 0 then res else 0
    case Then(b, _) => Moved(b, dir)
  }

  /** Bytes asked for but not transferred by completed requests: zero iff none was short. */
  function Lost(t: Trace): nat {
    match t
    case Start => 0
    case Then(b, Reaped(sqe, res)) => Lost(b) + if 0 <= res <= sqe.len then sqe.len - res else 0
    case Then(b, _) => Lost(b)
  }

  /** How many completed reads returned less than these files had for them. */
  function ShortReads(t: Trace, files: seq<seq<Byte>>): nat {
    match t
    case Start => 0
    case Then(b, Reaped(q, res)) =>
      ShortReads(b, files) +
      if q.dir.Read? && q.fd < |files| && res < Available(files[q.fd], q.off, q.len) then 1 else 0
    case Then(b, _) => ShortReads(b, files)
  }

  /** The requests of one direction were issued at consecutive offsets from 0: they tile a prefix. */
  ghost predicate Tiles(t: Trace, dir: Dir) {
    match t
    case Start => true
    case Then(b, Issued(sqe)) => Tiles(b, dir) && (sqe.dir == dir ==> sqe.off == IssuedBytes(b, dir) && sqe.len > 0)
    case Then(b, _) => Tiles(b, dir)
  }

  /** The requests issued, and the requests reaped. */
  ghost function IssuedOps(t: Trace): multiset<Sqe> {
    match t
    case Start => multiset{}
    case Then(b, Issued(q)) => IssuedOps(b) + multiset{q}
    case Then(b, _) => IssuedOps(b)
  }

  ghost function ReapedOps(t: Trace): multiset<Sqe> {
    match t
    case Start => multiset{}
    case Then(b, Reaped(q, _)) => ReapedOps(b) + multiset{q}
    case Then(b, _) => ReapedOps(b)
  }

  /** At no moment are more than limit requests outstanding. */
  ghost predicate Bounded(t: Trace, limit: nat) {
    |IssuedOps(t)| <= |ReapedOps(t)| + limit && (t.Then? ==> Bounded(t.before, limit))
  }

  ghost predicate Canceled(t: Trace) {
    t.Then? && t.event.Progress? && t.event.answer != 0
  }

  ghost predicate WriteReaped(t: Trace) {
    t.Then? && t.event.Reaped? && t.event.sqe.dir.Write? && t.event.res >= 0
  }

  // ---------- what is outstanding ----------

  /** The requests with an id below n. */
  ghost function OpenOps(reqs: map<nat, Req>, n: nat): multiset<Sqe> {
    if n == 0 then multiset{}
    else OpenOps(reqs, n - 1) + if n - 1 in reqs then multiset{reqs[n - 1].sqe} else multiset{}
  }

  /** The bytes they ask for. */
  ghost function OpenBytes(reqs: map<nat, Req>, n: nat): nat {
    if n == 0 then 0 else OpenBytes(reqs, n - 1) + if n - 1 in reqs then reqs[n - 1].sqe.len else 0
  }

  lemma {:induction false} OpenDependsOnSqes(a: map<nat, Req>, b: map<nat, Req>, n: nat)
    requires forall i | 0 <= i < n :: (i in a <==> i in b) && (i in a ==> a[i].sqe == b[i].sqe)
    ensures OpenOps(a, n) == OpenOps(b, n) && OpenBytes(a, n) == OpenBytes(b, n)
  {
    if n > 0 {
      OpenDependsOnSqes(a, b, n - 1);
    }
  }

  lemma {:induction false} OpenAfterReap(reqs: map<nat, Req>, n: nat, id: nat)
    requires id in reqs && id < n
    ensures OpenOps(reqs, n) == OpenOps(reqs - {id}, n) + multiset{reqs[id].sqe}
    ensures OpenBytes(reqs, n) == OpenBytes(reqs - {id}, n) + reqs[id].sqe.len
  {
    var rest := reqs - {id};
    assert id !in rest && (n - 1 != id ==> (n - 1 in rest <==> n - 1 in reqs));
    if id == n - 1 {
      OpenDependsOnSqes(reqs, rest, n - 1);
    } else {
      OpenAfterReap(reqs, n - 1, id);
    }
  }

  lemma {:induction false} NothingOpen(n: nat)
    ensures OpenOps(map[], n) == multiset{} && OpenBytes(map[], n) == 0
  {
    if n > 0 {
      NothingOpen(n - 1);
    }
  }

  /** The books balance: what was issued is reaped or still open. */
  ghost predicate Balanced(w: World) {
    && IssuedOps(w.trace) == ReapedOps(w.trace) + OpenOps(w.reqs, w.nextId)
    && |OpenOps(w.reqs, w.nextId)| == |w.reqs|
  }

  lemma OpenAfterPush(reqs: map<nat, Req>, n: nat, r: Req)
    requires n !in reqs
    ensures OpenOps(reqs[n := r], n + 1) == OpenOps(reqs, n) + multiset{r.sqe}
    ensures OpenBytes(reqs[n := r], n + 1) == OpenBytes(reqs, n) + r.sqe.len
  {
    OpenDependsOnSqes(reqs, reqs[n := r], n);
  }

  lemma PushKeepsBalance(w: World, q: Sqe)
    requires w.Valid() && Balanced(w)
    ensures Balanced(Push(w, q))
    ensures OpenBytes(Push(w, q).reqs, w.nextId + 1) == OpenBytes(w.reqs, w.nextId) + q.len
  {
    assert w.nextId !in w.reqs;
    OpenAfterPush(w.reqs, w.nextId, Req(q, Queued));
    hide OpenOps, OpenBytes;
    var (issued, reaped, open) := (IssuedOps(w.trace), ReapedOps(w.trace), OpenOps(w.reqs, w.nextId));
    assert issued + multiset{q} == reaped + (open + multiset{q});
    assert |open + multiset{q}| == |open| + 1;
  }

  lemma ReapKeepsBalance(w: World, id: nat)
    requires w.Valid() && w.IsDone(id) && Balanced(w)
    ensures Balanced(Reap(w, id))
    ensures OpenBytes(w.reqs, w.nextId) == OpenBytes(Reap(w, id).reqs, w.nextId) + w.reqs[id].sqe.len
  {
    OpenAfterReap(w.reqs, w.nextId, id);
    ReapKeepsValid(w, id);
  }

  lemma SameRequestsKeepBalance(w: World, v: World)
    requires SameRequests(w, v) && Balanced(w)
    ensures Balanced(v) && OpenBytes(v.reqs, v.nextId) == OpenBytes(w.reqs, w.nextId)
  {
    OpenDependsOnSqes(w.reqs, v.reqs, w.nextId);
    assert |v.reqs.Keys| == |w.reqs.Keys|;
  }

  // ---------- liburing ----------

  class Ring {
    const entries: nat
    var w: World
    // the negative results of failed calls and of consumed completions, in order
    var faults: seq<int>

    ghost predicate Valid()
      reads this
    {
      w.Valid() && w.sqLen <= entries && forall k | 0 <= k < |faults| :: faults[k] < 0
    }

    /** io_uring_queue_init plus the allocation of the buffers. */
    constructor (entries: nat, mem: seq<seq<Byte>>, files: seq<seq<Byte>>)
      ensures Valid() && w == Empty(mem, files) && this.entries == entries && faults == []
    {
      this.entries := entries;
      this.w := Empty(mem, files);
      this.faults := [];
    }

    /** A new buffer of the program. */
    method Alloc(contents: seq<Byte>) returns (buf: nat)
      requires Valid()
      modifies this`w
      ensures Valid() && buf == |old(w.mem)|
      ensures w == old(w).(mem := old(w.mem) + [contents])
    {
      buf := |w.mem|;
      w := w.(mem := w.mem + [contents]);
    }

    /** io_uring_get_sqe followed by the prep call; fails only when the SQ is full. */
    method GetSqe(sqe: Sqe) returns (ok: bool)
      requires Valid() && w.Fits(sqe)
      modifies this`w
      ensures Valid()
      ensures ok == (old(w.sqLen) < entries)
      ensures w == if ok then Push(old(w), sqe) else old(w)
    {
      ok := w.sqLen < entries;
      if ok {
        PushKeepsValid(w, sqe);
        w := Push(w, sqe);
      }
    }

    /** io_uring_submit: hands over the whole SQ, or fails with a negative errno. */
    method Submit() returns (ret: int)
      requires Valid()
      modifies this
      ensures Valid()
      ensures ret >= 0 ==> w == Flush(old(w)) && faults == old(faults)
      ensures ret < 0 ==> w == old(w) && faults == old(faults) + [ret]
    {
      if * {
        ret := w.sqLen;
        FlushKeepsValid(w);
        w := Flush(w);
      } else {
        ret :| ret < 0;
        faults := faults + [ret];
      }
    }

    /** Lets the kernel run for a while. */
    method Kernel() returns (ghost sched: Schedule)
      requires Valid()
      modifies this`w
      ensures Valid()
      ensures w == Run(old(w), sched)
    {
      var steps: nat := *;
      sched := [];
      while steps > 0
        invariant Valid()
        invariant w == Run(old(w), sched)
      {
        var id: nat, res: int := *, *;
        if w.CanComplete(id, res) {
          CompleteKeepsValid(w, id, res);
          RunStep(old(w), sched, id, res);
          w := Complete(w, id, res);
          sched := sched + [(id, res)];
        }
        steps := steps - 1;
      }
    }

    /** io_uring_wait_cqe: returns a completion once there is one, in whatever order the
        kernel produced them, or fails with a negative errno. */
    method WaitCqe() returns (ret: int, cqe: Cqe, ghost sched: Schedule)
      requires Valid() && ((w.sqLen == 0 && w.reqs != map[]) || w.Waitable())
      modifies this
      ensures Valid()
      ensures w == Run(old(w), sched)
      ensures ret >= 0 ==> w.IsDone(cqe.id)
                           && cqe == Cqe(cqe.id, w.reqs[cqe.id].sqe.ud, w.reqs[cqe.id].stage.res)
      ensures faults == if ret < 0 then old(faults) + [ret] else old(faults)
    {
      cqe := Cqe(0, 0, 0);
      sched := Kernel();
      RunKeepsValid(old(w), sched);
      if * {
        ret :| ret < 0;
        faults := faults + [ret];
        return;
      }
      ghost var any :| any in old(w.reqs) && old(w.reqs[any].stage) != Queued;
      RunKeepsWaitable(old(w), sched, any);
      var id :| id in w.reqs && w.reqs[id].stage != Queued;
      ghost var more := Finish(id);
      RunConcat(old(w), sched, more);
      sched := sched + more;
      ret, cqe := 0, Cqe(id, w.reqs[id].sqe.ud, w.reqs[id].stage.res);
    }

    /** The kernel finishes this request, if it has not yet done so. */
    method Finish(id: nat) returns (ghost sched: Schedule)
      requires Valid() && id in w.reqs && w.reqs[id].stage != Queued
      modifies this`w
      ensures Valid()
      ensures w == Run(old(w), sched) && w.IsDone(id)
    {
      sched := [];
      if w.reqs[id].stage == Running {
        var res: int :| res <= w.Avail(w.reqs[id].sqe);
        CompleteKeepsValid(w, id, res);
        RunStep(w, [], id, res);
        w, sched := Complete(w, id, res), [] + [(id, res)];
      }
    }

    /** io_uring_submit_and_wait(1): flushes the SQ and waits until some completion exists. */
    method SubmitAndWait() returns (ret: int, ghost sched: Schedule)
      requires Valid() && w.reqs != map[]
      modifies this
      ensures Valid()
      ensures ret >= 0 ==> w == Run(Flush(old(w)), sched) && exists id :: w.IsDone(id)
      ensures w.trace == old(w.trace)
      ensures faults == if ret < 0 then old(faults) + [ret] else old(faults)
    {
      ret := Submit();
      sched := [];
      if ret >= 0 {
        FlushKeepsValid(old(w));
        var cqe;
        ret, cqe, sched := WaitCqe();
        RunKeepsValid(Flush(old(w)), sched);
      }
    }

    /** io_uring_peek_batch_cqe: up to max completions, none twice, zero only if there is none. */
    method PeekBatch(max: nat) returns (batch: seq<Cqe>, ghost sched: Schedule)
      requires Valid() && max > 0
      modifies this`w
      ensures Valid()
      ensures w == Run(old(w), sched)
      ensures Batch(w, batch) && |batch| <= max && |batch| <= |w.reqs|
      ensures batch == [] ==> forall id :: !w.IsDone(id)
    {
      hide World.Valid, Run, World.Fits, World.CanComplete;
      sched := Kernel();
      batch := [];
      var todo := w.reqs.Keys;
      assert w.reqs.Keys - todo == {};
      var stop := false;
      while todo != {} && |batch| < max && !stop
        invariant todo <= w.reqs.Keys
        invariant Batch(w, batch)
        invariant |batch| <= max && |batch| <= |w.reqs.Keys| - |todo|
        invariant forall k | 0 <= k < |batch| :: batch[k].id !in todo
        invariant batch == [] ==> !stop && forall id | w.IsDone(id) :: id in todo
        decreases |todo|
      {
        var id :| id in todo;
        todo := todo - {id};
        if w.reqs[id].stage.Done? {
          batch := batch + [Cqe(id, w.reqs[id].sqe.ud, w.reqs[id].stage.res)];
          stop := *;
        }
      }
    }

    /** io_uring_cqe_seen, or one entry's share of io_uring_cq_advance. */
    method Seen(cqe: Cqe)
      requires Valid() && w.IsDone(cqe.id)
      modifies this
      ensures Valid()
      ensures w == Reap(old(w), cqe.id)
      ensures var res := old(w.reqs[cqe.id].stage.res);
              faults == if res < 0 then old(faults) + [res] else old(faults)
    {
      ReapKeepsValid(w, cqe.id);
      if w.reqs[cqe.id].stage.res < 0 {
        faults := faults + [w.reqs[cqe.id].stage.res];
      }
      w := Reap(w, cqe.id);
    }

    /** fsync on a file: zero or a negative errno. */
    method Fsync() returns (ret: int)
      modifies this`faults
      ensures ret <= 0 && faults == if ret < 0 then old(faults) + [ret] else old(faults)
    {
      ret :| ret <= 0;
      if ret < 0 {
        faults := faults + [ret];
      }
    }

    /** Notes a call of the progress callback and its answer. */
    method Note(done: nat, answer: int)
      requires Valid()
      modifies this`w
      ensures Valid()
      ensures w == old(w).(trace := Then(old(w.trace), Progress(done, answer)))
    {
      w := w.(trace := Then(w.trace, Progress(done, answer)));
    }
  }

  /** Distinct finished requests of w, as the user sees them. */
  ghost predicate Batch(w: World, batch: seq<Cqe>) {
    && (forall k | 0 <= k < |batch| :: w.IsDone(batch[k].id)
          && batch[k] == Cqe(batch[k].id, w.reqs[batch[k].id].sqe.ud, w.reqs[batch[k].id].stage.res))
    && (forall j, k | 0 <= j < k < |batch| :: batch[j].id != batch[k].id)
  }

  lemma BatchHead(w: World, batch: seq<Cqe>)
    requires Batch(w, batch) && batch != []
    ensures w.IsDone(batch[0].id)
    ensures batch[0] == Cqe(batch[0].id, w.reqs[batch[0].id].sqe.ud, w.reqs[batch[0].id].stage.res)
  {
  }

  lemma BatchTail(w: World, v: World, batch: seq<Cqe>)
    requires Batch(w, batch) && batch != [] && v.reqs == w.reqs - {batch[0].id}
    ensures Batch(v, batch[1..])
  {
  }
}
