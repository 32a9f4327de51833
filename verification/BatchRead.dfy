/**
 uring_read_batch_sync and uring_read_offsets_sync with the Python methods on top: a batch of
 reads into one buffer, tagged 1, 2, ..., whose completions come back in any order and in
 batches of any size. The ring is quiet before the call.
 */
module BatchRead {
  import opened IoUring
  import opened Slots
  import opened Sequences
  import opened Arithmetic

  /** What one call asks for: block i is read from offs[i] into the buffer at i * bs. */
  datatype Job = Job(fd: nat, buf: nat, bs: nat, offs: seq<nat>, file: seq<Byte>)
  {
    predicate Ok() { 0 < bs < U32 && 0 < |offs| < U32 }

    /** How many bytes there are to read for block i. */
    function Avail(i: nat): nat
      requires i < |offs|
    {
      Available(file, offs[i], bs)
    }
  }

  function At(i: nat, bs: nat): nat { i * bs }

  function ReadOf(j: Job, i: nat): Sqe
    requires i < |j.offs|
  {
    Sqe(Read, j.fd, j.buf, At(i, j.bs), j.bs, j.offs[i], i + 1)
  }

  /** Block i of the buffer holds data, then zeros. */
  ghost predicate BlockIs(m: seq<Byte>, bs: nat, i: nat, data: seq<Byte>) {
    && At(i, bs) + bs <= |m|
    && forall p | At(i, bs) <= p < At(i, bs) + bs ::
         m[p] == if p - At(i, bs) < |data| then data[p - At(i, bs)] else 0
  }

  /** The buffer after block i has received got[i] bytes. */
  ghost predicate Image(m: seq<Byte>, j: Job, got: seq<nat>) {
    && |got| == |j.offs| && |m| == At(|j.offs|, j.bs)
    && forall i | 0 <= i < |j.offs| :: BlockIs(m, j.bs, i, Slice(j.file, j.offs[i], got[i]))
  }

  /** The result that the completion with this tag reported last. */
  function Reported(t: Trace, ud: nat): int {
    match t
    case Start => 0
    case Then(b, Reaped(q, res)) => if q.ud == ud then res else Reported(b, ud)
    case Then(b, _) => Reported(b, ud)
  }

  // ---------- the state ----------

  /** own[i + 1] owns the read of block i; got[i] is what its reaped completion reported. */
  datatype State = State(w: World, own: seq<Owner>, got: seq<nat>, queued: nat)

  ghost predicate Placed(w: World, j: Job) {
    && j.fd < |w.files| && w.files[j.fd] == j.file
    && j.buf < |w.mem| && |w.mem[j.buf]| == At(|j.offs|, j.bs)
  }

  ghost predicate Reads(w: World, j: Job) {
    forall id | id in w.reqs ::
      && 0 < w.reqs[id].sqe.ud <= |j.offs| && w.reqs[id].sqe == ReadOf(j, w.reqs[id].sqe.ud - 1)
      && (w.reqs[id].stage.Done? ==> w.reqs[id].stage.res <= j.Avail(w.reqs[id].sqe.ud - 1))
  }

  ghost predicate Tally(t: Trace, own: seq<Owner>, got: seq<nat>, queued: nat, j: Job) {
    && |got| == |j.offs| && |own| == |j.offs| + 1 && queued <= |j.offs|
    && forall i | 0 <= i < |j.offs| ::
         && got[i] <= j.Avail(i)
         && (own[i + 1].Busy? ==> got[i] == 0 && i < queued)
         && (own[i + 1].Idle? && i < queued ==> got[i] == Reported(t, i + 1))
         && (i >= queued ==> got[i] == 0)
  }

  /** Bytes of block i that are in the buffer by now. */
  function Here(w: World, o: Owner, got: nat): nat {
    if o.Busy? && w.IsDone(o.id) then Max(0, w.reqs[o.id].stage.res) else got
  }

  ghost predicate Blocks(w: World, own: seq<Owner>, got: seq<nat>, j: Job) {
    && |own| == |j.offs| + 1 && |got| == |j.offs| && j.buf < |w.mem|
    && forall i | 0 <= i < |j.offs| ::
         BlockIs(w.mem[j.buf], j.bs, i, Slice(j.file, j.offs[i], Here(w, own[i + 1], got[i])))
  }

  ghost predicate Inv(st: State, j: Job) {
    && j.Ok() && st.w.Valid() && Placed(st.w, j) && Reads(st.w, j) && Owns(st.w, st.own)
    && Tally(st.w.trace, st.own, st.got, st.queued, j) && Blocks(st.w, st.own, st.got, j)
  }

  lemma BlocksApart(i: nat, k: nat, bs: nat)
    requires i < k
    ensures At(i, bs) + bs <= At(k, bs)
  {
    Times(i, k, bs);
  }

  lemma TagsAreSlots(w: World, j: Job, own: seq<Owner>, id: nat)
    requires j.Ok() && Reads(w, j) && Owns(w, own) && id in w.reqs
    ensures UdSlot(w.reqs[id].sqe.ud) == w.reqs[id].sqe.ud < |own|
    ensures own[w.reqs[id].sqe.ud] == Busy(id, w.reqs[id].sqe)
  {
    hide At, ReadOf, Job.Avail;
  }

  // ---------- the kernel ----------

  /** Filling one block leaves the others alone. */
  lemma FillBlock(m: seq<Byte>, bs: nat, i: nat, data: seq<Byte>, k: nat, other: seq<Byte>)
    requires BlockIs(m, bs, i, []) && |data| <= bs
    requires k != i ==> BlockIs(m, bs, k, other)
    ensures BlockIs(Blit(m, At(i, bs), data), bs, k, if k == i then data else other)
  {
    if k < i {
      BlocksApart(k, i, bs);
    } else if i < k {
      BlocksApart(i, k, bs);
    }
  }

  /** A completed read puts its bytes into its block. */
  lemma CompleteFills(st: State, j: Job, id: nat, res: int)
    requires Inv(st, j) && st.w.CanComplete(id, res)
    ensures var (v, s) := (Complete(st.w, id, res), st.w.reqs[id].sqe.ud - 1);
            && 0 <= s < |j.offs| && At(s, j.bs) + j.bs <= |st.w.mem[j.buf]| && j.buf < |v.mem|
            && (var data := Slice(j.file, j.offs[s], Max(0, res));
                |data| <= j.bs
                && v.mem[j.buf] == if res > 0 then Blit(st.w.mem[j.buf], At(s, j.bs), data) else st.w.mem[j.buf])
  {
    hide Owns, Tally, World.Valid, Blocks, BlockIs, At, Blit;
  }

  /** Block i before and after. */
  lemma OtherBlock(st: State, j: Job, id: nat, res: int, i: nat)
    requires Inv(st, j) && st.w.CanComplete(id, res) && i < |j.offs|
    ensures var (v, s, other) := (Complete(st.w, id, res), st.w.reqs[id].sqe.ud - 1,
                                  Slice(j.file, j.offs[i], Here(st.w, st.own[i + 1], st.got[i])));
            && BlockIs(st.w.mem[j.buf], j.bs, i, other)
            && Here(v, st.own[i + 1], st.got[i]) ==
               (if i == s then Max(0, res) else Here(st.w, st.own[i + 1], st.got[i]))
            && (i == s ==> other == [])
  {
    hide World.Valid, BlockIs, At, Blit, Job.Avail, Slice, Reads, Placed, PWrite;
    TagsAreSlots(st.w, j, st.own, id);
    HereAfter(st.w, st.own[i + 1], st.got[i], id, res);
    assert i != st.w.reqs[id].sqe.ud - 1 && st.own[i + 1].Busy? ==> st.own[i + 1].id != id;
    NoBytes(j.file, j.offs[i]);
  }

  /** What is here of a block changes only when its own read completes. */
  lemma HereAfter(w: World, o: Owner, got: nat, id: nat, res: int)
    requires w.CanComplete(id, res)
    ensures var v := Complete(w, id, res);
            Here(v, o, got) == if o.Busy? && o.id == id then Max(0, res) else Here(w, o, got)
    ensures o.Busy? && o.id == id ==> Here(w, o, got) == got
  {
    hide Blit, PWrite;
  }

  lemma CompleteKeepsBlocks(st: State, j: Job, id: nat, res: int)
    requires Inv(st, j) && st.w.CanComplete(id, res)
    ensures Blocks(Complete(st.w, id, res), st.own, st.got, j)
  {
    hide World.Valid, Owns, Reads, Tally, Placed, BlockIs, Slice, At, Job.Avail, Complete, Here, Blit;
    var w, v, own, got := st.w, Complete(st.w, id, res), st.own, st.got;
    CompleteFills(st, j, id, res);
    var s := w.reqs[id].sqe.ud - 1;
    OtherBlock(st, j, id, res, s);
    forall i | 0 <= i < |j.offs|
      ensures BlockIs(v.mem[j.buf], j.bs, i, Slice(j.file, j.offs[i], Here(v, own[i + 1], got[i])))
    {
      OtherBlock(st, j, id, res, i);
      if res > 0 {
        FillBlock(w.mem[j.buf], j.bs, s, Slice(j.file, j.offs[s], res), i,
                  Slice(j.file, j.offs[i], Here(w, own[i + 1], got[i])));
      } else {
        NoBytes(j.file, j.offs[s]);
      }
    }
  }

  lemma NoBytes(file: seq<Byte>, off: nat)
    ensures Slice(file, off, 0) == []
  {
  }

  lemma CompleteKeepsReads(st: State, j: Job, id: nat, res: int)
    requires Inv(st, j) && st.w.CanComplete(id, res)
    ensures Placed(Complete(st.w, id, res), j) && Reads(Complete(st.w, id, res), j)
  {
    hide At, BlockIs, Slice, Blocks, Tally, Owns;
    CompleteKeepsValid(st.w, id, res);
  }

  lemma CompleteGoes(st: State, j: Job, id: nat, res: int)
    requires Inv(st, j) && st.w.CanComplete(id, res)
    ensures Inv(st.(w := Complete(st.w, id, res)), j)
  {
    hide At, BlockIs, Slice, Blocks, Tally, World.Valid, Owns, Reads, Placed, Complete;
    var v := Complete(st.w, id, res);
    CompleteKeepsValid(st.w, id, res);
    CompleteKeepsReads(st, j, id, res);
    CompleteKeepsBlocks(st, j, id, res);
    SameRequestsKeepOwners(st.w, v, st.own);
  }

  /** Whatever the kernel does, and in whatever order. */
  lemma {:induction false} KernelGoes(st: State, j: Job, sched: Schedule)
    requires Inv(st, j)
    ensures Inv(st.(w := Run(st.w, sched)), j)
    ensures |Run(st.w, sched).reqs| == |st.w.reqs| && Run(st.w, sched).sqLen == st.w.sqLen
    ensures Run(st.w, sched).trace == st.w.trace
  {
    RunKeepsValid(st.w, sched);
    hide Inv;
    if sched != [] {
      var before := sched[..|sched| - 1];
      KernelGoes(st, j, before);
      var v := Run(st.w, before);
      var (id, res) := sched[|sched| - 1];
      if v.CanComplete(id, res) {
        CompleteGoes(st.(w := v), j, id, res);
      }
    }
  }

  lemma SubmitGoes(st: State, j: Job)
    requires Inv(st, j)
    ensures Inv(st.(w := Flush(st.w)), j)
    ensures |Flush(st.w).reqs| == |st.w.reqs| && Flush(st.w).sqLen == 0
  {
    hide At, BlockIs, Slice, Tally, World.Valid, Owns, Blocks;
    var v := Flush(st.w);
    FlushKeepsValid(st.w);
    SameRequestsKeepOwners(st.w, v, st.own);
    assert Reads(v, j) && Placed(v, j);
    SubmitBlocks(st, j);
  }

  lemma SubmitBlocks(st: State, j: Job)
    requires Inv(st, j)
    ensures Blocks(Flush(st.w), st.own, st.got, j)
  {
    hide At, BlockIs, Slice, Tally, World.Valid, Owns, Reads;
    var v := Flush(st.w);
    assert forall i | 0 <= i < |j.offs| :: Here(v, st.own[i + 1], st.got[i]) == Here(st.w, st.own[i + 1], st.got[i]);
    hide Flush, Here;
  }

  // ---------- queueing and reaping ----------

  ghost function Queueing(st: State, j: Job): State
    requires st.queued < |j.offs| < |st.own|
  {
    var q := ReadOf(j, st.queued);
    State(Push(st.w, q), st.own[st.queued + 1 := Busy(st.w.nextId, q)], st.got, st.queued + 1)
  }

  /** Nothing has been reaped yet while the reads are being queued. */
  ghost predicate AllQueued(st: State, j: Job) {
    && |st.own| == |j.offs| + 1
    && forall s | 0 <= s < |st.own| :: st.own[s].Busy? <==> 0 < s <= st.queued
  }

  lemma QueueReads(st: State, j: Job)
    requires Inv(st, j) && AllQueued(st, j) && st.queued < |j.offs|
    ensures var v := Push(st.w, ReadOf(j, st.queued)); Reads(v, j) && Placed(v, j)
    ensures st.w.Fits(ReadOf(j, st.queued))
  {
    hide Tally, Owns, Blocks, At, Job.Avail, BlockIs, Slice, Blit;
    BlocksApart(st.queued, |j.offs|, j.bs);
  }

  lemma QueueTally(st: State, j: Job)
    requires Inv(st, j) && AllQueued(st, j) && st.queued < |j.offs|
    ensures st.queued < |j.offs| < |st.own|
    ensures var st1 := Queueing(st, j); Tally(st1.w.trace, st1.own, st1.got, st1.queued, j) && AllQueued(st1, j)
  {
    hide Owns, Blocks, At, World.Valid, Reads, Job.Avail;
  }

  lemma QueueBlocks(st: State, j: Job)
    requires Inv(st, j) && AllQueued(st, j) && st.queued < |j.offs| < |st.own|
    ensures Blocks(Queueing(st, j).w, Queueing(st, j).own, st.got, j)
  {
    var st1, w := Queueing(st, j), st.w;
    forall i | 0 <= i < |j.offs|
      ensures Here(st1.w, st1.own[i + 1], st.got[i]) == Here(w, st.own[i + 1], st.got[i])
    {
      if i != st.queued && st.own[i + 1].Busy? {
        assert st.own[i + 1].id in w.reqs && st.own[i + 1].id != w.nextId;
      }
    }
    hide Owns, At, World.Valid, Reads, Job.Avail, Tally, BlockIs, Here;
  }

  lemma QueueGoes(st: State, j: Job)
    requires Inv(st, j) && AllQueued(st, j) && st.queued < |j.offs|
    ensures st.queued < |j.offs| < |st.own| && st.w.Fits(ReadOf(j, st.queued))
    ensures Inv(Queueing(st, j), j) && AllQueued(Queueing(st, j), j)
    ensures |Queueing(st, j).w.reqs| == |st.w.reqs| + 1
  {
    hide At, BlockIs, Slice, Blocks, Job.Avail, World.Valid, Reads, Placed, Owns;
    var q := ReadOf(j, st.queued);
    assert UdSlot(q.ud) == st.queued + 1;
    QueueTally(st, j);
    hide Tally;
    QueueReads(st, j);
    QueueBlocks(st, j);
    PushKeepsValid(st.w, q);
    PushKeepsOwners(st.w, st.own, st.queued + 1, q);
  }

  ghost function Taken(st: State, id: nat): State
    requires st.w.IsDone(id) && st.w.reqs[id].stage.res >= 0
    requires 0 < st.w.reqs[id].sqe.ud < |st.own| == |st.got| + 1
  {
    var s := st.w.reqs[id].sqe.ud;
    State(Reap(st.w, id), st.own[s := Idle], st.got[s - 1 := st.w.reqs[id].stage.res], st.queued)
  }

  lemma ReapTally(st: State, j: Job, id: nat)
    requires Inv(st, j) && st.w.IsDone(id) && st.w.reqs[id].stage.res >= 0
    requires 0 < st.w.reqs[id].sqe.ud < |st.own| == |st.got| + 1 && st.own[st.w.reqs[id].sqe.ud].Busy?
    ensures var st1 := Taken(st, id);
            Tally(st1.w.trace, st1.own, st1.got, st1.queued, j) && Placed(st1.w, j) && Reads(st1.w, j)
  {
    hide Owns, Blocks, At, World.Valid, Job.Avail;
  }

  lemma ReapBlocks(st: State, j: Job, id: nat)
    requires Inv(st, j) && st.w.IsDone(id) && st.w.reqs[id].stage.res >= 0
    requires 0 < st.w.reqs[id].sqe.ud < |st.own| == |st.got| + 1
    requires st.own[st.w.reqs[id].sqe.ud] == Busy(id, st.w.reqs[id].sqe)
    ensures Blocks(Taken(st, id).w, Taken(st, id).own, Taken(st, id).got, j)
  {
    hide At, World.Valid, Reads, Job.Avail, BlockIs, Slice;
    var st1, w, s := Taken(st, id), st.w, st.w.reqs[id].sqe.ud;
    forall i | 0 <= i < |j.offs|
      ensures Here(st1.w, st1.own[i + 1], st1.got[i]) == Here(w, st.own[i + 1], st.got[i])
    {
      if i + 1 != s && st.own[i + 1].Busy? {
        assert UdSlot(st.own[i + 1].sqe.ud) == i + 1 && st.own[i + 1].id != id;
      }
    }
    hide Owns, Tally, Here;
  }

  lemma SlotReaped(st: State, j: Job, id: nat)
    requires Inv(st, j) && st.w.IsDone(id)
    ensures var s := st.w.reqs[id].sqe.ud;
            && 0 < s < |st.own| == |st.got| + 1 && UdSlot(s) == s && st.own[s] == Busy(id, st.w.reqs[id].sqe)
            && st.got[s - 1] == 0
  {
    hide At, BlockIs, Slice, Blocks, World.Valid, Placed;
    TagsAreSlots(st.w, j, st.own, id);
  }

  lemma ReapGoes(st: State, j: Job, id: nat)
    requires Inv(st, j) && st.w.IsDone(id) && st.w.reqs[id].stage.res >= 0
    ensures 0 < st.w.reqs[id].sqe.ud < |st.own| == |st.got| + 1
    ensures Inv(Taken(st, id), j) && |Taken(st, id).w.reqs| == |st.w.reqs| - 1
    ensures Sum(Taken(st, id).got) == Sum(st.got) + st.w.reqs[id].stage.res
  {
    hide At, BlockIs, Slice, Blocks, Sum, World.Valid, Reads, Tally, Placed, Owns, Job.Avail, UdSlot;
    var s, res := st.w.reqs[id].sqe.ud, st.w.reqs[id].stage.res;
    SlotReaped(st, j, id);
    ReapTally(st, j, id);
    ReapBlocks(st, j, id);
    ReapKeepsValid(st.w, id);
    ReapKeepsOwners(st.w, st.own, id);
    SumUpdate(st.got, s - 1, res);
  }

  // ---------- the methods ----------

  /** What the C function returns: an int, whose wrap-around C leaves undefined. */
  function Int32(n: int): int {
    (n + 0x8000_0000) % U32 - 0x8000_0000
  }

  lemma Int32Adds(a: int, b: int)
    ensures Int32(Int32(a) + b) == Int32(a + b)
  {
    var c := a + 0x8000_0000;
    assert c == c / U32 * U32 + c % U32;
    assert (c + b) % U32 == (c % U32 + b + c / U32 * U32) % U32;
  }

  lemma Int32Zero()
    ensures Int32(0) == 0
  {
  }

  /** How the C functions end; Code gives the C return value. A total stands for the int
      that the sum of the results wraps to. */
  datatype Outcome = Total(total: int) | Errno(errno: int) | NoSqe | Invalid
  {
    function Code(): int {
      match this
      case Total(n) => n
      case Errno(e) => e
      case NoSqe => -11
      case Invalid => -22
    }
  }

  lemma Taking(st0: State, j: Job, id: nat, total: int) returns (st: State)
    requires Inv(st0, j) && st0.w.IsDone(id) && total == Int32(Sum(st0.got))
    ensures Reap(st0.w, id).reqs == st0.w.reqs - {id} && Reap(st0.w, id).sqLen == st0.w.sqLen
    ensures var res := st0.w.reqs[id].stage.res;
            res >= 0 ==> && st.w == Reap(st0.w, id) && Inv(st, j) && st.queued == st0.queued
                         && |st.w.reqs| == |st0.w.reqs| - 1
                         && Int32(total + res) == Int32(Sum(st.got))
  {
    hide Inv, Int32, Sum;
    st := st0;
    if st0.w.reqs[id].stage.res >= 0 {
      ReapGoes(st0, j, id);
      st := Taken(st0, id);
      Int32Adds(Sum(st0.got), st0.w.reqs[id].stage.res);
    }
  }

  /** Takes one completion: consume it, check it, count it. */
  method TakeOne(ring: Ring, cqe: Cqe, total0: int, j: Job, ghost st0: State)
      returns (error: Option<int>, total: int, ghost st: State)
    requires ring.Valid() && st0.w == ring.w && Inv(st0, j) && ring.w.IsDone(cqe.id)
    requires cqe == Cqe(cqe.id, ring.w.reqs[cqe.id].sqe.ud, ring.w.reqs[cqe.id].stage.res)
    requires total0 == Int32(Sum(st0.got))
    modifies ring
    ensures ring.Valid() && ring.w.reqs == old(ring.w.reqs) - {cqe.id} && ring.w.sqLen == old(ring.w.sqLen)
    ensures error.Some? ==> error.value < 0
    ensures ring.faults == if error.Some? then old(ring.faults) + [error.value] else old(ring.faults)
    ensures error.None? ==> st.w == ring.w && Inv(st, j) && st.queued == st0.queued && total == Int32(Sum(st.got))
                            && |ring.w.reqs| == |old(ring.w.reqs)| - 1
  {
    error, total, st := None, total0, st0;
    hide *;
    st := Taking(st0, j, cqe.id, total);
    ring.Seen(cqe);
    if cqe.res < 0 {
      error := Some(cqe.res);
      return;
    }
    total := Int32(total0 + cqe.res);
  }

  /** The entries of a batch, in order. */
  method TakeBatch(ring: Ring, batch: seq<Cqe>, total0: int, j: Job, ghost st0: State)
      returns (error: Option<int>, total: int, ghost st: State)
    requires ring.Valid() && st0.w == ring.w && Inv(st0, j) && Batch(ring.w, batch)
    requires total0 == Int32(Sum(st0.got))
    modifies ring
    ensures ring.Valid() && ring.w.sqLen == old(ring.w.sqLen)
    ensures error.Some? ==> error.value < 0
    ensures ring.faults == if error.Some? then old(ring.faults) + [error.value] else old(ring.faults)
    ensures error.None? ==> st.w == ring.w && Inv(st, j) && st.queued == st0.queued && total == Int32(Sum(st.got))
                            && |ring.w.reqs| == |old(ring.w.reqs)| - |batch|
  {
    error, total, st := None, total0, st0;
    hide Inv, World.Valid, Sum, Batch, Int32;
    var i := 0;
    assert batch[0..] == batch;
    while i < |batch|
      invariant i <= |batch| && ring.Valid() && ring.w.sqLen == old(ring.w.sqLen) && error.None?
      invariant st.w == ring.w && Inv(st, j) && st.queued == st0.queued && total == Int32(Sum(st.got))
      invariant |ring.w.reqs| == |old(ring.w.reqs)| - i && Batch(ring.w, batch[i..])
      invariant ring.faults == old(ring.faults)
    {
      ghost var before := ring.w;
      assert batch[i..][0] == batch[i];
      BatchHead(before, batch[i..]);
      error, total, st := TakeOne(ring, batch[i], total, j, st);
      if error.Some? {
        return;
      }
      BatchTail(before, ring.w, batch[i..]);
      assert batch[i..][1..] == batch[i + 1..];
      i := i + 1;
    }
  }

  /** The reaping loop: batches of at most 256, and a wait for one when none is ready. */
  method ReapAll(ring: Ring, j: Job, ghost st0: State) returns (out: Outcome, ghost st: State)
    requires ring.Valid() && st0.w == ring.w && Inv(st0, j) && st0.queued == |j.offs| && Sum(st0.got) == 0
    requires ring.w.sqLen == 0 && |ring.w.reqs| == |j.offs|
    modifies ring
    ensures ring.Valid() && st.w == ring.w && (out.Total? || (out.Errno? && out.errno < 0))
    ensures ring.faults == if out.Errno? then old(ring.faults) + [out.errno] else old(ring.faults)
    ensures out.Total? ==>
              && Inv(st, j) && st.queued == |j.offs| && st.w.reqs == map[] && st.w.sqLen == 0
              && out.total == Int32(Sum(st.got))
  {
    hide *;
    st := st0;
    var remaining, total := |j.offs|, 0;
    Int32Zero();
    while remaining > 0
      invariant ring.Valid() && st.w == ring.w && Inv(st, j) && st.queued == |j.offs|
      invariant ring.w.sqLen == 0 && remaining == |ring.w.reqs| && total == Int32(Sum(st.got))
      invariant ring.faults == old(ring.faults)
      decreases remaining
    {
      var want := if remaining > 256 then 256 else remaining;
      var batch, sched := ring.PeekBatch(want);
      KernelGoes(st, j, sched);
      st := st.(w := ring.w);
      var error;
      if batch == [] {
        var ret, cqe;
        ret, cqe, sched := ring.WaitCqe();
        KernelGoes(st, j, sched);
        st := st.(w := ring.w);
        if ret < 0 {
          out := Errno(ret);
          return;
        }
        error, total, st := TakeOne(ring, cqe, total, j, st);
        if error.Some? {
          out, st := Errno(error.value), st.(w := ring.w);
          return;
        }
        remaining := remaining - 1;
        continue;
      }
      error, total, st := TakeBatch(ring, batch, total, j, st);
      if error.Some? {
        out, st := Errno(error.value), st.(w := ring.w);
        return;
      }
      remaining := remaining - |batch|;
    }
    out := Total(total);
  }

  /** A quiet ring, a file and a zeroed buffer. */
  ghost predicate Ready(w: World, j: Job) {
    && w.Valid() && w.reqs == map[] && w.sqLen == 0 && j.Ok() && Placed(w, j)
    && forall p | 0 <= p < |w.mem[j.buf]| :: w.mem[j.buf][p] == 0
  }

  ghost function Begin(w: World, j: Job): State {
    State(w, AllIdle(|j.offs| + 1), seq(|j.offs|, _ => 0), 0)
  }

  lemma BeginGoes(w: World, j: Job)
    requires Ready(w, j)
    ensures Inv(Begin(w, j), j) && AllQueued(Begin(w, j), j) && Sum(Begin(w, j).got) == 0
  {
    var st := Begin(w, j);
    AllIdleSums(|j.offs| + 1);
    SumOfEqual(st.got, 0);
    forall i | 0 <= i < |j.offs| ensures BlockIs(w.mem[j.buf], j.bs, i, Slice(j.file, j.offs[i], 0)) {
      BlocksApart(i, |j.offs|, j.bs);
    }
  }

  lemma Beginning(w: World, j: Job) returns (st: State)
    requires Ready(w, j)
    ensures st.w == w && st.queued == 0 && Inv(st, j) && AllQueued(st, j) && Sum(st.got) == 0
    ensures w.reqs == map[] && w.sqLen == 0
  {
    BeginGoes(w, j);
    st := Begin(w, j);
  }

  /** A good end: the ring is quiet again, and the buffer holds what the completions reported. */
  ghost predicate Ended(w: World, j: Job, got: seq<nat>) {
    && w.Valid() && w.reqs == map[] && w.sqLen == 0 && Placed(w, j) && Image(w.mem[j.buf], j, got)
    && forall i | 0 <= i < |j.offs| :: got[i] == Reported(w.trace, i + 1) <= j.Avail(i)
  }

  lemma AllReaped(st: State, j: Job)
    requires Inv(st, j) && st.queued == |j.offs| && st.w.reqs == map[] && st.w.sqLen == 0
    ensures Ended(st.w, j, st.got)
  {
    BusyBound(st.own);
    hide BlockIs, Slice, At, World.Valid, Reads;
  }

  /** Submits what is queued, waits, and reaps every completion. */
  method SubmitAndReap(ring: Ring, j: Job, ghost st0: State) returns (out: Outcome, ghost got: seq<nat>)
    requires ring.Valid() && st0.w == ring.w && Inv(st0, j) && st0.queued == |j.offs| && Sum(st0.got) == 0
    requires |ring.w.reqs| == |j.offs| > 0
    modifies ring
    ensures ring.Valid() && (out.Total? || (out.Errno? && out.errno < 0))
    ensures ring.faults == if out.Errno? then old(ring.faults) + [out.errno] else old(ring.faults)
    ensures out.Total? ==> Ended(ring.w, j, got) && out.total == Int32(Sum(got))
  {
    hide *;
    SubmitGoes(st0, j);
    got := st0.got;
    var ret, sched := ring.SubmitAndWait();
    if ret < 0 {
      out := Errno(ret);
      return;
    }
    ghost var st := st0.(w := Flush(st0.w));
    KernelGoes(st, j, sched);
    st := st.(w := ring.w);
    out, st := ReapAll(ring, j, st);
    if out.Total? {
      AllReaped(st, j);
      got := st.got;
    }
  }

  /** One turn of the enqueueing loops. */
  method Enqueue(ring: Ring, i: nat, off: nat, j: Job, ghost st0: State) returns (ok: bool, ghost st: State)
    requires ring.Valid() && st0.w == ring.w && Inv(st0, j) && AllQueued(st0, j) && st0.queued == i < |j.offs|
    requires off == j.offs[i] && ring.w.sqLen < ring.entries
    modifies ring`w
    ensures ring.Valid() && ok && st.w == ring.w && Inv(st, j) && AllQueued(st, j) && st.queued == i + 1
    ensures ring.w.sqLen == old(ring.w.sqLen) + 1 && |ring.w.reqs| == |old(ring.w.reqs)| + 1 && st.got == st0.got
  {
    QueueGoes(st0, j);
    st := Queueing(st0, j);
    hide Inv, AllQueued, World.Valid, Owns;
    ok := ring.GetSqe(Sqe(Read, j.fd, j.buf, At(i, j.bs), j.bs, off, i + 1));
  }

  /** uring_read_offsets_sync. */
  method ReadOffsetsSync(ring: Ring, entries: nat, fd: nat, buf: nat, bs: nat, offs: seq<nat>)
      returns (out: Outcome, ghost got: seq<nat>)
    requires ring.Valid() && entries <= ring.entries && bs < U32 && |offs| < U32 && fd < |ring.w.files|
    requires 0 < bs && offs != [] ==> Ready(ring.w, Job(fd, buf, bs, offs, ring.w.files[fd]))
    modifies ring
    ensures ring.Valid()
    ensures out.Invalid? <==> bs == 0 || offs == [] || |offs| > entries
    ensures !out.NoSqe? && (out.Errno? ==> out.errno < 0)
    ensures ring.faults == if out.Errno? then old(ring.faults) + [out.errno] else old(ring.faults)
    ensures out.Total? ==> && Ended(ring.w, Job(fd, buf, bs, offs, old(ring.w.files[fd])), got)
                           && out.total == Int32(Sum(got))
  {
    hide *;
    got := [];
    if bs == 0 || |offs| == 0 || |offs| > entries {
      out := Invalid;
      return;
    }
    var j := Job(fd, buf, bs, offs, ring.w.files[fd]);
    ghost var st := Beginning(ring.w, j);
    var i := 0;
    while i < |offs|
      invariant i <= |offs| && ring.Valid() && st.w == ring.w && Inv(st, j) && AllQueued(st, j) && st.queued == i
      invariant ring.w.sqLen == i == |ring.w.reqs| && Sum(st.got) == 0 && ring.faults == old(ring.faults)
    {
      var ok;
      ok, st := Enqueue(ring, i, offs[i], j, st);
      if !ok {
        assert false;  // the SQ has room for every block
      }
      i := i + 1;
    }
    out, got := SubmitAndReap(ring, j, st);
  }

  /** The offsets that uring_read_batch_sync computes. */
  function Consecutive(offset: nat, bs: nat, blocks: nat): (offs: seq<nat>)
    ensures |offs| == blocks && forall i | 0 <= i < blocks :: offs[i] == offset + At(i, bs)
  {
    seq(blocks, i requires 0 <= i < blocks => offset + At(i, bs))
  }

  /** uring_read_batch_sync. */
  method ReadBatchSync(ring: Ring, entries: nat, fd: nat, buf: nat, bs: nat, blocks: nat, offset: nat)
      returns (out: Outcome, ghost got: seq<nat>)
    requires ring.Valid() && entries <= ring.entries && bs < U32 && blocks < U32 && fd < |ring.w.files|
    requires 0 < bs && 0 < blocks ==>
               Ready(ring.w, Job(fd, buf, bs, Consecutive(offset, bs, blocks), ring.w.files[fd]))
    modifies ring
    ensures ring.Valid()
    ensures out.Invalid? <==> bs == 0 || blocks == 0 || blocks > entries
    ensures !out.NoSqe? && (out.Errno? ==> out.errno < 0)
    ensures ring.faults == if out.Errno? then old(ring.faults) + [out.errno] else old(ring.faults)
    ensures out.Total? ==>
              Ended(ring.w, Job(fd, buf, bs, Consecutive(offset, bs, blocks), old(ring.w.files[fd])), got)
              && out.total == Int32(Sum(got))
  {
    hide *;
    got := [];
    if bs == 0 || blocks == 0 || blocks > entries {
      out := Invalid;
      return;
    }
    var j := Job(fd, buf, bs, Consecutive(offset, bs, blocks), ring.w.files[fd]);
    ghost var st := Beginning(ring.w, j);
    var i := 0;
    while i < blocks
      invariant i <= blocks && ring.Valid() && st.w == ring.w && Inv(st, j) && AllQueued(st, j) && st.queued == i
      invariant ring.w.sqLen == i == |ring.w.reqs| && Sum(st.got) == 0 && ring.faults == old(ring.faults)
    {
      var ok;
      ok, st := Enqueue(ring, i, offset + At(i, bs), j, st);
      if !ok {
        assert false;  // the SQ has room for every block
      }
      i := i + 1;
    }
    out, got := SubmitAndReap(ring, j, st);
  }

  // ---------- the Python methods ----------

  /** bytes, or the exception for a negative return. */
  datatype Reply = Data(bytes: seq<Byte>) | Raised(code: int)

  /** The contents of the blocks one after the other. */
  function Concat(j: Job, got: seq<nat>): seq<Byte>
    requires |got| <= |j.offs|
  {
    if got == [] then []
    else Concat(j, got[..|got| - 1]) + Slice(j.file, j.offs[|got| - 1], got[|got| - 1])
  }

  /** Every read returned all the bytes there were. */
  ghost predicate AllFull(j: Job, got: seq<nat>) {
    |got| == |j.offs| && forall i | 0 <= i < |got| :: got[i] == j.Avail(i)
  }

  /** Only a block followed by nothing but empty blocks is not full. */
  ghost predicate Dense(got: seq<nat>, bs: nat) {
    forall i, k | 0 <= i < k < |got| && got[k] > 0 :: got[i] == bs
  }

  // ---------- what the buffer means ----------

  lemma BlockFits(n: nat, i: nat, bs: nat)
    requires i < n
    ensures At(i, bs) + bs <= At(n, bs)
  {
    BlocksApart(i, n, bs);
  }

  lemma NextBlock(n: nat, bs: nat)
    ensures At(0, bs) == 0 && At(n + 1, bs) == At(n, bs) + bs
  {
  }

  /** Consecutive blocks add up to one slice. */
  lemma {:induction false} ConsecutiveTotal(file: seq<Byte>, offset: nat, bs: nat, got: seq<nat>)
    requires forall i | 0 <= i < |got| :: got[i] == Available(file, offset + At(i, bs), bs)
    ensures Sum(got) == |Slice(file, offset, At(|got|, bs))|
  {
    hide At;
    if got == [] {
      NextBlock(0, bs);
    } else {
      var n := |got| - 1;
      ConsecutiveTotal(file, offset, bs, got[..n]);
      NextBlock(n, bs);
    }
  }

  lemma BlockOf(p: nat, n: nat, bs: nat) returns (i: nat)
    requires 0 < bs && p < At(n, bs)
    ensures i < n && At(i, bs) <= p < At(i, bs) + bs
  {
    i := p / bs;
    if i > n {
      BlocksApart(n, i, bs);
    }
  }

  /** Consecutive blocks that were read in full make up the slice, clipped at the end of the file. */
  lemma ConsecutiveBytes(m: seq<Byte>, j: Job, got: seq<nat>, offset: nat)
    requires j.Ok() && Image(m, j, got) && AllFull(j, got) && j.offs == Consecutive(offset, j.bs, |j.offs|)
    ensures Sum(got) <= |m| && m[..Sum(got)] == Slice(j.file, offset, At(|j.offs|, j.bs))
  {
    hide At, Sum, Consecutive, Job.Avail;
    FullAvail(j, got, offset);
    ConsecutiveTotal(j.file, offset, j.bs, got);
    var slice := Slice(j.file, offset, At(|j.offs|, j.bs));
    forall p | 0 <= p < |slice| ensures m[p] == slice[p] {
      var i := BlockOf(p, |j.offs|, j.bs);
      ByteOfBlock(m, j, got, offset, i, p);
    }
  }

  lemma FullAvail(j: Job, got: seq<nat>, offset: nat)
    requires AllFull(j, got) && j.offs == Consecutive(offset, j.bs, |j.offs|)
    ensures forall i | 0 <= i < |got| :: got[i] == Available(j.file, offset + At(i, j.bs), j.bs)
  {
    hide At;
  }

  /** A byte of block i. */
  lemma ByteOfBlock(m: seq<Byte>, j: Job, got: seq<nat>, offset: nat, i: nat, p: nat)
    requires |got| == |j.offs| && i < |j.offs| && At(i, j.bs) <= p < At(i, j.bs) + j.bs && offset + p < |j.file|
    requires j.offs[i] == offset + At(i, j.bs) && got[i] == Available(j.file, j.offs[i], j.bs)
    requires BlockIs(m, j.bs, i, Slice(j.file, j.offs[i], got[i]))
    ensures p < |m| && m[p] == j.file[offset + p]
  {
    hide At;
  }

  lemma {:induction false} ConcatLength(j: Job, got: seq<nat>)
    requires |got| <= |j.offs| && forall i | 0 <= i < |got| :: got[i] <= j.Avail(i)
    ensures |Concat(j, got)| == Sum(got)
  {
    if got != [] {
      ConcatLength(j, got[..|got| - 1]);
    }
  }

  lemma BlockStarts(m: seq<Byte>, bs: nat, i: nat, data: seq<Byte>)
    requires BlockIs(m, bs, i, data) && |data| <= bs
    ensures m[At(i, bs)..At(i, bs) + |data|] == data
  {
    hide At;
  }

  lemma BlocksHold(j: Job, got: seq<nat>)
    requires |got| <= |j.offs| && forall i | 0 <= i < |got| :: got[i] <= j.Avail(i)
    ensures forall i | 0 <= i < |got| :: got[i] <= j.bs && |Slice(j.file, j.offs[i], got[i])| == got[i]
  {
  }

  lemma TwoParts(m: seq<Byte>, at: nat, n: nat)
    requires at + n <= |m|
    ensures m[..at + n] == m[..at] + m[at..at + n]
  {
  }

  /** If every block before the last nonempty one is full, the blocks join without a hole. */
  lemma {:induction false} DenseJoins(m: seq<Byte>, j: Job, got: seq<nat>)
    requires |got| <= |j.offs| && |m| == At(|j.offs|, j.bs) && Dense(got, j.bs)
    requires forall i | 0 <= i < |got| :: got[i] <= j.Avail(i) && BlockIs(m, j.bs, i, Slice(j.file, j.offs[i], got[i]))
    ensures Sum(got) <= |m| && m[..Sum(got)] == Concat(j, got)
  {
    hide At, Slice, BlockIs, Job.Avail;
    if got != [] {
      var n := |got| - 1;
      BlocksHold(j, got);
      DenseJoins(m, j, got[..n]);
      if got[n] > 0 {
        AtMostBlocks(got[..n], j.bs);
        BlockFits(|j.offs|, n, j.bs);
        BlockStarts(m, j.bs, n, Slice(j.file, j.offs[n], got[n]));
        TwoParts(m, At(n, j.bs), got[n]);
      } else {
        assert Slice(j.file, j.offs[n], got[n]) == [];
      }
    }
  }

  /** Two blocks and everything before the first. */
  lemma {:induction false} SumCovers(got: seq<nat>, i: nat, k: nat)
    requires i < k < |got|
    ensures Sum(got) >= Sum(got[..i]) + got[i] + got[k]
  {
    var n := |got| - 1;
    if k < n {
      SumCovers(got[..n], i, k);
      assert got[..n][..i] == got[..i];
    } else {
      PrefixBelow(got[..n], i);
      assert got[..n][..i] == got[..i];
    }
  }

  lemma {:induction false} PrefixBelow(got: seq<nat>, i: nat)
    requires i < |got|
    ensures Sum(got) >= Sum(got[..i]) + got[i]
  {
    if i < |got| - 1 {
      PrefixBelow(got[..|got| - 1], i);
      assert got[..|got| - 1][..i] == got[..i];
    }
  }

  lemma {:induction false} ConcatNonzero(j: Job, got: seq<nat>)
    requires |got| <= |j.offs| && forall p | 0 <= p < |j.file| :: j.file[p] != 0
    ensures forall p | 0 <= p < |Concat(j, got)| :: Concat(j, got)[p] != 0
  {
    if got != [] {
      ConcatNonzero(j, got[..|got| - 1]);
    }
  }

  lemma {:induction false} FirstGap(got: seq<nat>, bs: nat, i0: nat) returns (i: nat)
    requires i0 < |got| && got[i0] < bs && forall k | 0 <= k < |got| :: got[k] <= bs
    ensures i <= i0 && got[i] < bs && forall k | 0 <= k < i :: got[k] == bs
  {
    if k :| 0 <= k < i0 && got[k] < bs {
      i := FirstGap(got, bs, k);
    } else {
      i := i0;
    }
  }

  /** Otherwise the result has a hole: with a file free of zero bytes it is not the contents asked for. */
  lemma GapShows(m: seq<Byte>, j: Job, got: seq<nat>)
    requires j.Ok() && Image(m, j, got) && (forall i | 0 <= i < |got| :: got[i] <= j.Avail(i))
    requires !Dense(got, j.bs) && forall p | 0 <= p < |j.file| :: j.file[p] != 0
    ensures Sum(got) <= |m| ==> m[..Sum(got)] != Concat(j, got)
  {
    var i0, k :| 0 <= i0 < k < |got| && got[k] > 0 && got[i0] != j.bs;
    var i := FirstGap(got, j.bs, i0);
    hide At, Sum, Slice, Concat, Job.Avail, Dense;
    SumCovers(got, i, k);
    AtMostBlocks(got[..i], j.bs);
    BlockFits(|got|, i, j.bs);
    ConcatLength(j, got);
    ConcatNonzero(j, got);
    BlocksHold(j, got);
    assert BlockIs(m, j.bs, i, Slice(j.file, j.offs[i], got[i]));
    var p := At(i, j.bs) + got[i];
    assert m[p] == 0;
    if Sum(got) <= |m| {
      assert m[..Sum(got)][p] == 0 && Concat(j, got)[p] != 0;
    }
  }

  // ---------- the Python methods ----------

  lemma SumFits(m: seq<Byte>, j: Job, got: seq<nat>)
    requires j.Ok() && Image(m, j, got) && forall i | 0 <= i < |got| :: got[i] <= j.Avail(i)
    ensures Int32(Sum(got)) <= Sum(got) <= |m|
    ensures Int32(Sum(got)) == Sum(got) <==> Sum(got) < 0x8000_0000
  {
    hide At, Slice, BlockIs, Sum;
    AtMostBlocks(got, j.bs);
    Int32Range(Sum(got));
  }

  lemma AtMostBlocks(got: seq<nat>, bs: nat)
    requires forall i | 0 <= i < |got| :: got[i] <= bs
    ensures Sum(got) <= At(|got|, bs)
    ensures (forall i | 0 <= i < |got| :: got[i] == bs) ==> Sum(got) == At(|got|, bs)
  {
    SumOfEqual(got, bs);
  }

  lemma Int32Range(n: nat)
    ensures Int32(n) <= n && (Int32(n) == n <==> n < 0x8000_0000)
  {
  }

  /** Only blocks before the end of the file count, and each but the last of them is whole. */
  predicate Joinable(offs: seq<nat>, bs: nat, size: nat) {
    forall i, k | 0 <= i < k < |offs| && offs[k] < size :: offs[i] + bs <= size
  }

  /** For full reads the results join exactly if the offsets and the size of the file allow it. */
  lemma FullIsDense(j: Job, got: seq<nat>)
    requires j.Ok() && AllFull(j, got)
    ensures Dense(got, j.bs) <==> Joinable(j.offs, j.bs, |j.file|)
  {
    forall i | 0 <= i < |got|
      ensures got[i] > 0 <==> j.offs[i] < |j.file|
      ensures got[i] == j.bs <==> j.offs[i] + j.bs <= |j.file|
    {
      assert got[i] == j.Avail(i);
    }
  }

  /** Byte p of the buffer: a byte that the read of its block brought, or a zero. */
  ghost predicate BufferByte(b: Byte, j: Job, got: seq<nat>, p: nat)
    requires 0 < j.bs
  {
    var i, k := p / j.bs, p % j.bs;
    && i < |got| == |j.offs|
    && if k < got[i] then j.offs[i] + k < |j.file| && b == j.file[j.offs[i] + k] else b == 0
  }

  /** Whatever the reads reported: as many bytes of the buffer as they add up to, in a C int. */
  ghost predicate AnswersBuffer(reply: Reply, j: Job, got: seq<nat>)
    requires 0 < j.bs
  {
    var total := Sum(got) % U32;
    if total >= 0x8000_0000 then reply == Raised(total - U32)
    else reply.Data? && |reply.bytes| == total && forall p | 0 <= p < total :: BufferByte(reply.bytes[p], j, got, p)
  }

  /** What a call whose reads all succeeded answers: the contents of the blocks, one after the
      other. With a file free of zero bytes it does so exactly if the int does not overflow and
      no block but the last nonempty one is short. */
  ghost predicate Answers(reply: Reply, j: Job, got: seq<nat>) {
    && |got| == |j.offs| && (forall i | 0 <= i < |got| :: got[i] <= j.Avail(i))
    && (Sum(got) < 0x8000_0000 && Dense(got, j.bs) ==> reply == Data(Concat(j, got)))
    && ((forall p | 0 <= p < |j.file| :: j.file[p] != 0) && reply == Data(Concat(j, got)) ==>
          Sum(got) < 0x8000_0000 && Dense(got, j.bs))
    // with full reads the offsets and the size of the file decide whether there is a hole
    && (AllFull(j, got) ==> (Dense(got, j.bs) <==> Joinable(j.offs, j.bs, |j.file|)))
  }

  /** A sequential read of the same range, clipped at the end of the file. */
  ghost predicate AnswersSlice(reply: Reply, j: Job, got: seq<nat>, offset: nat)
    requires j.Ok()
  {
    AllFull(j, got) && j.offs == Consecutive(offset, j.bs, |j.offs|) ==>
      var slice := Slice(j.file, offset, At(|j.offs|, j.bs));
      reply == Data(slice) <==> |slice| < 0x8000_0000
  }

  lemma AnsweredBuffer(reply: Reply, m: seq<Byte>, j: Job, got: seq<nat>)
    requires j.Ok() && Image(m, j, got) && forall i | 0 <= i < |got| :: got[i] <= j.Avail(i)
    requires Int32(Sum(got)) <= |m|
    requires reply == if Int32(Sum(got)) < 0 then Raised(Int32(Sum(got))) else Data(m[..Int32(Sum(got))])
    ensures AnswersBuffer(reply, j, got)
  {
    hide Image, Sum, Int32, BufferByte, Job.Avail;
    Int32Is(Sum(got));
    if reply.Data? {
      forall p | 0 <= p < |reply.bytes| ensures BufferByte(reply.bytes[p], j, got, p) {
        ByteOfBuffer(m, j, got, p);
      }
    }
  }

  lemma Int32Is(n: nat)
    ensures Int32(n) == if n % U32 >= 0x8000_0000 then n % U32 - U32 else n % U32
  {
  }

  lemma ByteOfBuffer(m: seq<Byte>, j: Job, got: seq<nat>, p: nat)
    requires j.Ok() && Image(m, j, got) && (forall i | 0 <= i < |got| :: got[i] <= j.Avail(i)) && p < |m|
    ensures BufferByte(m[p], j, got, p)
  {
    hide BlockIs, Slice, At;
    var i := BlockOf(p, |j.offs|, j.bs);
    AtIs(i, j.bs);
    DivModUnique(p, i, p - At(i, j.bs), j.bs);
    ByteOfImage(m, j.bs, i, Slice(j.file, j.offs[i], got[i]), p);
    SliceByte(j.file, j.offs[i], got[i], p % j.bs);
  }

  lemma AtIs(i: nat, bs: nat)
    ensures At(i, bs) == i * bs
  {
  }

  lemma ByteOfImage(m: seq<Byte>, bs: nat, i: nat, data: seq<Byte>, p: nat)
    requires BlockIs(m, bs, i, data) && At(i, bs) <= p < At(i, bs) + bs
    ensures p < |m| && m[p] == if p - At(i, bs) < |data| then data[p - At(i, bs)] else 0
  {
  }

  lemma SliceByte(file: seq<Byte>, off: nat, n: nat, k: nat)
    requires n == 0 || off + n <= |file|
    ensures |Slice(file, off, n)| == n
    ensures k < n ==> Slice(file, off, n)[k] == file[off + k]
  {
  }

  lemma Answered(reply: Reply, m: seq<Byte>, j: Job, got: seq<nat>)
    requires j.Ok() && Image(m, j, got) && forall i | 0 <= i < |got| :: got[i] <= j.Avail(i)
    requires Int32(Sum(got)) <= |m|
    requires reply == if Int32(Sum(got)) < 0 then Raised(Int32(Sum(got))) else Data(m[..Int32(Sum(got))])
    ensures Answers(reply, j, got)
  {
    hide Image, Job.Avail, Dense, Concat, Sum, Int32, At;
    SumFits(m, j, got);
    ImageLength(m, j, got);
    ConcatLength(j, got);
    if Dense(got, j.bs) {
      DenseJoins(m, j, got);
    } else if forall p | 0 <= p < |j.file| :: j.file[p] != 0 {
      GapShows(m, j, got);
    }
    if AllFull(j, got) {
      FullIsDense(j, got);
    }
  }

  lemma ImageLength(m: seq<Byte>, j: Job, got: seq<nat>)
    requires Image(m, j, got)
    ensures |got| == |j.offs| && |m| == At(|j.offs|, j.bs)
    ensures forall i | 0 <= i < |j.offs| :: BlockIs(m, j.bs, i, Slice(j.file, j.offs[i], got[i]))
  {
  }

  lemma AnsweredSlice(reply: Reply, m: seq<Byte>, j: Job, got: seq<nat>, offset: nat)
    requires j.Ok() && Image(m, j, got) && forall i | 0 <= i < |got| :: got[i] <= j.Avail(i)
    requires Int32(Sum(got)) <= |m|
    requires reply == if Int32(Sum(got)) < 0 then Raised(Int32(Sum(got))) else Data(m[..Int32(Sum(got))])
    ensures AnswersSlice(reply, j, got, offset)
  {
    hide Image, Job.Avail, Dense, Concat, Sum, Int32, At, AllFull, Consecutive;
    SumFits(m, j, got);
    if AllFull(j, got) && j.offs == Consecutive(offset, j.bs, |j.offs|) {
      ConsecutiveBytes(m, j, got, offset);
    }
  }

  lemma ReplyOf(w: World, j: Job, got: seq<nat>)
    requires j.Ok() && Ended(w, j, got)
    ensures j.buf < |w.mem| && Int32(Sum(got)) <= |w.mem[j.buf]|
  {
    SumFits(w.mem[j.buf], j, got);
  }

  /** UringCtx.read_batch; done says that every read was reaped without an error. */
  method ReadBatch(ring: Ring, entries: nat, fd: nat, bs: nat, blocks: nat, offset: nat)
      returns (reply: Reply, ghost done: bool, ghost got: seq<nat>)
    requires ring.Valid() && ring.w.reqs == map[] && ring.w.sqLen == 0 && entries <= ring.entries
    requires bs < U32 && blocks < U32 && fd < |ring.w.files|
    modifies ring
    ensures ring.Valid() && (!done ==> reply.Raised?)
    // done exactly if the arguments are good and nothing failed; else the exception is the failure
    ensures done <==> !(bs == 0 || blocks == 0 || blocks > entries) && ring.faults == old(ring.faults)
    ensures !done ==> if bs == 0 || blocks == 0 || blocks > entries then reply == Raised(-22)
                      else ring.faults == old(ring.faults) + [reply.code]
    ensures done ==>
              var j := Job(fd, |old(ring.w.mem)|, bs, Consecutive(offset, bs, blocks), old(ring.w.files[fd]));
              && j.Ok() && Ended(ring.w, j, got) && AnswersBuffer(reply, j, got)
              && Answers(reply, j, got) && AnswersSlice(reply, j, got, offset)
  {
    var totalLen := At(blocks, bs);
    var file := ring.w.files[fd];
    var buf := ring.Alloc(Zeros(totalLen));
    assert ring.Valid();
    var out;
    out, got := ReadBatchSync(ring, entries, fd, buf, bs, blocks, offset);
    var ret := out.Code();
    ghost var j := Job(fd, buf, bs, Consecutive(offset, bs, blocks), file);
    done := out.Total?;
    hide *;
    if ret < 0 {
      reply := Raised(ret);
    } else {
      ReplyOf(ring.w, j, got);
      reply := Data(ring.w.mem[buf][..ret]);
    }
    if done {
      Answered(reply, ring.w.mem[buf], j, got);
      AnsweredBuffer(reply, ring.w.mem[buf], j, got);
      AnsweredSlice(reply, ring.w.mem[buf], j, got, offset);
    }
  }

  /** The offsets of read_offsets: in bytes, or in blocks. */
  function ByteOffsets(offsets: seq<nat>, bs: nat, offsetBytes: bool): (offs: seq<nat>)
    ensures |offs| == |offsets|
    ensures forall i | 0 <= i < |offs| :: offs[i] == if offsetBytes then offsets[i] else At(offsets[i], bs)
  {
    if offsetBytes then offsets else seq(|offsets|, i requires 0 <= i < |offsets| => At(offsets[i], bs))
  }

  /** UringCtx.read_offsets. On consecutive blocks it answers as read_batch does. */
  method ReadOffsets(ring: Ring, entries: nat, fd: nat, bs: nat, offsets: seq<nat>, offsetBytes: bool)
      returns (reply: Reply, ghost done: bool, ghost got: seq<nat>)
    requires ring.Valid() && ring.w.reqs == map[] && ring.w.sqLen == 0 && entries <= ring.entries
    requires bs < U32 && |offsets| < U32 && fd < |ring.w.files|
    modifies ring
    ensures ring.Valid() && (!done ==> reply.Raised?)
    // done exactly if the arguments are good and nothing failed; else the exception is the failure
    ensures done <==> !(bs == 0 || offsets == [] || |offsets| > entries) && ring.faults == old(ring.faults)
    ensures !done ==> if bs == 0 || offsets == [] || |offsets| > entries then reply == Raised(-22)
                      else ring.faults == old(ring.faults) + [reply.code]
    ensures done ==>
              var j := Job(fd, |old(ring.w.mem)|, bs, ByteOffsets(offsets, bs, offsetBytes), old(ring.w.files[fd]));
              && j.Ok() && Ended(ring.w, j, got) && AnswersBuffer(reply, j, got) && Answers(reply, j, got)
              && forall offset :: AnswersSlice(reply, j, got, offset)
  {
    var totalLen := At(|offsets|, bs);
    var file := ring.w.files[fd];
    var buf := ring.Alloc(Zeros(totalLen));
    var offs := ByteOffsets(offsets, bs, offsetBytes);
    var out;
    out, got := ReadOffsetsSync(ring, entries, fd, buf, bs, offs);
    var ret := out.Code();
    ghost var j := Job(fd, buf, bs, offs, file);
    done := out.Total?;
    hide *;
    if ret < 0 {
      reply := Raised(ret);
    } else {
      ReplyOf(ring.w, j, got);
      reply := Data(ring.w.mem[buf][..ret]);
    }
    if done {
      Answered(reply, ring.w.mem[buf], j, got);
      AnsweredBuffer(reply, ring.w.mem[buf], j, got);
      forall offset ensures AnswersSlice(reply, j, got, offset) {
        AnsweredSlice(reply, ring.w.mem[buf], j, got, offset);
      }
    }
  }
}
