/**
 AsyncFile on the io_uring path: read and write on top of UringCtx and UringAsync, with the
 position kept by the object. Reads go out in slices of 256 KiB, one at a time.
 */
module AsyncFile {
  import opened IoUring
  import opened UringCtx
  import opened UringAsync
  import opened Leftovers
  import opened Sequences

  /** _READ_SLICE */
  const SLICE: nat := 256 * 1024

  // ---------- one request on a quiet ring ----------

  ghost predicate Quiet(w: World) { w.reqs == map[] && w.sqLen == 0 }

  /** While one request is alone in flight. */
  ghost predicate Alone(u: World, w: World, id: nat, q: Sqe) {
    && w.reqs.Keys == {id} && w.reqs[id].sqe == q && w.reqs[id].stage != Queued
    && u.Fits(q) && w.Fits(q) && |w.files| == |u.files| && |w.mem| == |u.mem|
    && w.sqLen == 0 && w.trace == Then(u.trace, Issued(q))
    && (forall f | 0 <= f < |u.files| && (q.dir.Read? || f != q.fd) :: w.files[f] == u.files[f])
    && (q.dir.Write? ==> w.mem == u.mem)
    && (var res := if w.reqs[id].stage.Done? then w.reqs[id].stage.res else 0;
        && res <= u.Avail(q)
        && (q.dir.Read? && res > 0 ==> w.mem[q.buf][q.at..q.at + res] == u.files[q.fd][q.off..q.off + res])
        && (q.dir.Write? ==>
              w.files[q.fd] == PWrite(u.files[q.fd], q.off, u.mem[q.buf][q.at..q.at + Max(0, res)])))
  }

  lemma SubmittedAlone(u: World, q: Sqe)
    requires Quiet(u) && u.Fits(q)
    ensures Alone(u, Flush(Push(u, q)), u.nextId, q)
  {
    assert u.mem[q.buf][q.at..q.at + 0] == [];
  }

  lemma CompletedAlone(u: World, w: World, id: nat, q: Sqe, res: int)
    requires Alone(u, w, id, q) && w.CanComplete(id, res)
    ensures Alone(u, Complete(w, id, res), id, q)
  {
    assert u.mem[q.buf][q.at..q.at + 0] == [];
  }

  lemma {:induction false} RunAlone(u: World, w: World, id: nat, q: Sqe, sched: Schedule)
    requires Alone(u, w, id, q)
    ensures Alone(u, Run(w, sched), id, q)
  {
    if sched != [] {
      var v := Run(w, sched[..|sched| - 1]);
      RunAlone(u, w, id, q, sched[..|sched| - 1]);
      var (i, res) := sched[|sched| - 1];
      hide Run;
      if v.CanComplete(i, res) {
        assert i == id;
        CompletedAlone(u, v, id, q, res);
      }
      hide Alone;
    }
  }

  /** One request has come and gone. */
  ghost predicate Transferred(u: World, v: World, q: Sqe, res: int) {
    && Quiet(v) && u.Fits(q) && |v.files| == |u.files| && q.buf < |v.mem| && q.at + q.len <= |v.mem[q.buf]|
    && v.trace == Then(Then(u.trace, Issued(q)), Reaped(q, res)) && res <= u.Avail(q)
    && (q.dir.Read? ==>
          v.files == u.files && (res > 0 ==> v.mem[q.buf][q.at..q.at + res] == u.files[q.fd][q.off..q.off + res]))
    && (q.dir.Write? ==>
          v.files == u.files[q.fd := PWrite(u.files[q.fd], q.off, u.mem[q.buf][q.at..q.at + Max(0, res)])])
  }

  /** Its completion is the only one there can be, so the tags match. */
  lemma TookAlone(u: World, w: World, v: World, id: nat, q: Sqe, pair: Pair)
    requires Alone(u, w, id, q) && TookOne(w, v, pair)
    ensures pair.ud == q.ud && Transferred(u, v, q, pair.res)
  {
    var sched, i :| Run(w, sched).IsDone(i) && v == Reap(Run(w, sched), i)
                    && pair == Pair(Run(w, sched).reqs[i].sqe.ud, Run(w, sched).reqs[i].stage.res);
    hide Run, PWrite;
    RunAlone(u, w, id, q, sched);
    assert i == id;
    if q.dir.Read? {
      assert v.files == u.files;
    } else {
      assert v.files == u.files[q.fd := v.files[q.fd]];
    }
  }

  /** Any result that the kernel may give can come back. */
  lemma EveryResultHappens(u: World, q: Sqe, res: int) returns (v: World)
    requires Quiet(u) && u.Fits(q) && res <= u.Avail(q)
    ensures TookOne(Flush(Push(u, q)), v, Pair(q.ud, res)) && Transferred(u, v, q, res)
  {
    var w, id := Flush(Push(u, q)), u.nextId;
    SubmittedAlone(u, q);
    RunStep(w, [], id, res);
    assert Run(w, [(id, res)]) == Complete(w, id, res) by {
      assert [] + [(id, res)] == [(id, res)];
    }
    v := Reap(Complete(w, id, res), id);
    assert Run(w, [(id, res)]).IsDone(id) && v == Reap(Run(w, [(id, res)]), id);
    TookAlone(u, w, v, id, q, Pair(q.ud, res));
  }

  /** What a read that has come back leaves behind. */
  lemma ReadBack(u: World, v: World, q: Sqe, res: int)
    requires Transferred(u, v, q, res) && q.dir.Read? && q.at == 0
    ensures v.files == u.files && res <= Available(u.files[q.fd], q.off, q.len) <= q.len
    ensures Results(v.trace) == Results(u.trace) + [res]
    ensures ShortReads(v.trace, u.files) ==
            ShortReads(u.trace, u.files) + if res < Available(u.files[q.fd], q.off, q.len) then 1 else 0
    ensures res >= 0 ==> q.buf < |v.mem| && res <= |v.mem[q.buf]|
                         && v.mem[q.buf][..res] == Slice(u.files[q.fd], q.off, res) && res == |v.mem[q.buf][..res]|
    ensures Slice(u.files[q.fd], q.off, 0) == []
  {
    assert Results(Then(u.trace, Issued(q))) == Results(u.trace);
    assert ShortReads(Then(u.trace, Issued(q)), u.files) == ShortReads(u.trace, u.files);
  }

  lemma LeftQuiet(u: World, v: World, q: Sqe, res: int)
    requires Transferred(u, v, q, res)
    ensures Quiet(v) && |v.files| == |u.files|
  {
  }

  // ---------- slices ----------

  /** Bytes that reach the end of the file are all there are. */
  lemma ReachesTheEnd(file: seq<Byte>, p: nat, k: nat, n: nat)
    ensures |file| <= p + k && |Slice(file, p, k)| == k && k <= n ==> Slice(file, p, k) == Slice(file, p, n)
    ensures |Slice(file, p, k)| == k && k > 0 ==> p + k <= |file|
  {
  }

  /** Reading a and then b bytes is reading a + b bytes. */
  lemma SliceJoins(file: seq<Byte>, p: nat, a: nat, b: nat)
    ensures Slice(file, p, a) + Slice(file, p + |Slice(file, p, a)|, b) == Slice(file, p, a + b)
  {
    var x, y, z := Min(p, |file|), Min(p + a, |file|), Min(p + a + b, |file|);
    var q := p + |Slice(file, p, a)|;
    assert Min(q, |file|) == y && Min(q + b, |file|) == if a <= y - x then z else y;
    assert file[x..y] + file[y..z] == file[x..z];
    if a > y - x {
      assert y == |file| == z;
    }
  }

  /** Writing a and then b behind it is writing a + b. */
  lemma PWriteJoins(file: seq<Byte>, p: nat, a: seq<Byte>, b: seq<Byte>)
    ensures PWrite(PWrite(file, p, a), p + |a|, b) == PWrite(file, p, a + b)
  {
    if a == [] {
      assert a + b == b;
    }
  }

  // ---------- a read as a run over the results of its slices ----------

  /** How far a call of read has got: moved bytes past where it began. */
  datatype Progress = Going(moved: nat) | Finished(moved: nat) | Broken(moved: nat)

  /** What the next slice asks for; n is -1 for a read to the end of the file. */
  function Chunk(n: int, moved: nat): nat {
    if n < 0 then SLICE else Min(SLICE, Max(0, n - moved))
  }

  function NextSlice(n: int, s: Progress, res: int): Progress {
    if !s.Going? then s
    else if res < 0 then Broken(s.moved)
    else if res < Chunk(n, s.moved) || (n >= 0 && s.moved + res >= n) then Finished(s.moved + res)
    else Going(s.moved + res)
  }

  /** Where a read of n bytes stands after slices with these results. */
  function ReadRun(n: int, results: seq<int>): Progress {
    if results == [] then if n == 0 then Finished(0) else Going(0)
    else NextSlice(n, ReadRun(n, results[..|results| - 1]), results[|results| - 1])
  }

  /** Results that a file of this size can give, read from p on. */
  ghost predicate CanGive(size: nat, p: nat, n: int, results: seq<int>) {
    results == [] ||
    (var (first, last) := (results[..|results| - 1], results[|results| - 1]);
     CanGive(size, p, n, first) && ReadRun(n, first).Going? &&
     last <= Min(Chunk(n, ReadRun(n, first).moved), Max(0, size - p - ReadRun(n, first).moved)))
  }

  lemma NoResults(n: int, size: nat, p: nat)
    ensures ReadRun(n, []) == (if n == 0 then Finished(0) else Going(0)) && CanGive(size, p, n, [])
  {
  }

  lemma OneMoreResult(size: nat, p: nat, n: int, results: seq<int>, res: int)
    ensures ReadRun(n, results + [res]) == NextSlice(n, ReadRun(n, results), res)
    ensures CanGive(size, p, n, results) && ReadRun(n, results).Going? &&
            res <= Min(Chunk(n, ReadRun(n, results).moved), Max(0, size - p - ReadRun(n, results).moved)) ==>
              CanGive(size, p, n, results + [res])
  {
    assert (results + [res])[..|results|] == results;
  }

  /** A read that has not ended well has moved by whole slices, all of them inside the file and, for a
      read of n bytes, by less than n; so it has not moved at all if n is at most a slice or less than
      a slice is left. */
  lemma {:induction false} MovedBySlices(size: nat, p: nat, n: int, results: seq<int>)
    requires -1 <= n && CanGive(size, p, n, results) && !ReadRun(n, results).Finished?
    ensures var moved := ReadRun(n, results).moved;
            && moved % SLICE == 0 && (n >= 0 ==> moved < n) && (moved > 0 ==> p + moved <= size)
            && ((0 <= n <= SLICE || size < p + SLICE) ==> moved == 0)
  {
    if results != [] {
      MovedBySlices(size, p, n, results[..|results| - 1]);
    }
  }

  /** A failing read can lose bytes: some results of its slices make it fail after the position has moved,
      exactly if it asks for more than a slice and a slice is left. */
  lemma CanLoseIff(size: nat, p: nat, n: int)
    requires -1 <= n
    ensures (exists results :: CanGive(size, p, n, results) && ReadRun(n, results).Broken?
                               && ReadRun(n, results).moved > 0)
            <==> !(0 <= n <= SLICE) && p + SLICE <= size
  {
    hide ReadRun, CanGive;
    if !(0 <= n <= SLICE) && p + SLICE <= size {
      var full: seq<int>, both: seq<int> := [SLICE as int], [SLICE as int, -5];
      NoResults(n, size, p);
      OneMoreResult(size, p, n, [], SLICE);
      OneMoreResult(size, p, n, full, -5);
      assert [] + full == full && full + [-5] == both;
      assert CanGive(size, p, n, both) && ReadRun(n, both) == Broken(SLICE);
    } else {
      forall results | CanGive(size, p, n, results) && ReadRun(n, results).Broken?
        ensures ReadRun(n, results).moved == 0
      {
        MovedBySlices(size, p, n, results);
      }
    }
  }

  /** And the kernel can give these: on any quiet ring the first slice can complete in full and the
      second one fail. */
  lemma SecondSliceCanFail(u: World, fd: nat, p: nat, tag: nat, len: nat, errno: int) returns (v: World, w: World)
    requires Quiet(u) && fd < |u.files| && p + SLICE <= |u.files[fd]| && errno < 0
    ensures var u1 := u.(mem := u.mem + [Zeros(SLICE)]);
            Transferred(u1, v, Sqe(Dir.Read, fd, |u.mem|, 0, SLICE, p, tag), SLICE)
    ensures var v1 := v.(mem := v.mem + [Zeros(len)]);
            Transferred(v1, w, Sqe(Dir.Read, fd, |v.mem|, 0, len, p + SLICE, tag + 1), errno)
  {
    var u1 := u.(mem := u.mem + [Zeros(SLICE)]);
    v := EveryResultHappens(u1, Sqe(Dir.Read, fd, |u.mem|, 0, SLICE, p, tag), SLICE);
    var v1 := v.(mem := v.mem + [Zeros(len)]);
    w := EveryResultHappens(v1, Sqe(Dir.Read, fd, |v.mem|, 0, len, p + SLICE, tag + 1), errno);
  }

  /** How a call of read of n bytes from p0 on ended, with the position at pos. */
  ghost predicate Tells<T>(r: Outcome<T>, n: int, size: nat, p0: nat, pos: nat, results: seq<int>) {
    && p0 <= pos && CanGive(size, p0, n, results)
    && ReadRun(n, results) == if r.Ok? then Finished(pos - p0)
                              else if r.IoError? then Broken(pos - p0) else Going(pos - p0)
  }

  lemma EndsSo<T>(r: Outcome<T>, n: int, size: nat, p0: nat, pos: nat, results: seq<int>)
    requires p0 <= pos && CanGive(size, p0, n, results)
    ensures var end := ReadRun(n, results);
            end == (if r.Ok? then Finished(pos - p0) else if r.IoError? then Broken(pos - p0) else Going(pos - p0)) ==>
              Tells(r, n, size, p0, pos, results)
  {
  }

  lemma NothingWrong<T>(r: Outcome<T>, faults: seq<int>, nextUd: nat)
    requires r.Ok?
    ensures Justified(r, faults, faults, nextUd)
  {
  }

  /** What that means for the position after a failure. */
  ghost predicate LostAtMost(n: int, size: nat, p0: nat, pos: nat) {
    && p0 <= pos && (pos - p0) % 0x4_0000 == 0
    && (n >= 0 ==> pos - p0 < Max(1, n)) && (pos > p0 ==> pos <= size)
    && ((0 <= n <= 0x4_0000 || size < p0 + 0x4_0000) ==> pos == p0)
  }

  lemma FailureLoses<T>(r: Outcome<T>, n: int, size: nat, p0: nat, pos: nat, results: seq<int>)
    requires -1 <= n && Tells(r, n, size, p0, pos, results) && !r.Ok?
    ensures LostAtMost(n, size, p0, pos)
  {
    MovedBySlices(size, p0, n, results);
  }

  /** The results consumed, in order. */
  function Results(t: Trace): seq<int> {
    match t
    case Start => []
    case Then(b, Reaped(_, res)) => Results(b) + [res]
    case Then(b, _) => Results(b)
  }

  // ---------- the class ----------

  datatype Outcome<+T> =
    | Ok(value: T)
    | IoError(errno: int)
    | NotSubmitted
    | WaitFailed
    | Interrupted
    | Mismatch
    | BadArgument
  {
    /** The same failure. */
    function As<U>(): Outcome<U>
      requires !Ok?
    {
      match this
      case IoError(e) => IoError(e)
      case NotSubmitted => NotSubmitted
      case WaitFailed => WaitFailed
      case Interrupted => Interrupted
      case Mismatch => Mismatch
      case BadArgument => BadArgument
    }
  }

  /** A call fails exactly for what has gone wrong since: the ring's failures went from before to
      after, and nextUd is the next tag. */
  ghost predicate Justified<T>(r: Outcome<T>, before: seq<int>, after: seq<int>, nextUd: nat) {
    match r
    case Ok(_) => after == before
    case IoError(e) => e < 0 && after == before + [e]
    case NotSubmitted => nextUd > INT64 || exists e :: after == before + [e]
    case WaitFailed => exists e :: after == before + [e]
    case Interrupted => after == before || exists e :: after == before + [e]
    case Mismatch => nextUd > U64
    case BadArgument => after == before
  }

  function WithBuffer(u: World, data: seq<Byte>): World { u.(mem := u.mem + [data]) }

  /** Bytes that request q, made in u, brings if it brings as many: those of the file at a moment when the
      kernel can finish it. */
  ghost predicate OwnBytes(u: World, q: Sqe, bytes: seq<Byte>)
    requires u.Fits(q)
  {
    exists x: World ::
      Moment(Flush(Push(u, q)), x, u.nextId, q, |bytes|) && bytes == Slice(x.files[q.fd], q.off, |bytes|)
  }

  /** The kernel can finish request q, made in u, by writing these bytes. */
  ghost predicate OwnWrite(u: World, q: Sqe, bytes: seq<Byte>)
    requires u.Fits(q)
  {
    exists x: World ::
      && Moment(Flush(Push(u, q)), x, u.nextId, q, |bytes|)
      && Complete(x, u.nextId, |bytes|).files[q.fd] == PWrite(x.files[q.fd], q.off, bytes)
  }

  /** A call failed as it would on a quiet ring, or because it got somebody else's completion. */
  ghost predicate JustifiedBehind<T>(r: Outcome<T>, before: seq<int>, after: seq<int>, nextUd: nat) {
    || Justified(r, before, after, nextUd)
    || (r.Mismatch? && (after == before || exists e :: after == before + [e]))
  }

  /** How request q, made in u, ended for its caller, with v left behind: the outcome is its own, or the
      tags do not match because a request left over came first. Either way as many are in flight as before. */
  ghost predicate CameBack(u: World, v: World, q: Sqe, r: Outcome<nat>) {
    match r
    case Ok(n) => OwnResult(u, v, q, n)
    case IoError(e) => OwnResult(u, v, q, e)
    case Mismatch => |v.reqs| == |u.reqs| && exists i :: i in u.reqs && v.reqs.Keys == u.reqs.Keys + {u.nextId} - {i}
    case WaitFailed => v.reqs.Keys == u.reqs.Keys + {u.nextId}
    case _ => |u.reqs| <= |v.reqs| <= |u.reqs| + 1
  }

  ghost predicate OwnResult(u: World, v: World, q: Sqe, res: int) {
    && v.reqs.Keys == u.reqs.Keys && |v.reqs| == |u.reqs| && q.buf < |v.mem|
    && Answered(Flush(Push(u, q)), u.nextId, q, res, v.mem[q.buf])
  }

  lemma TellsCount(u: World, v: World, q: Sqe, r: Outcome<nat>)
    requires !r.NotSubmitted? ==> CameBack(u, v, q, r)
    ensures r.Ok? || r.IoError? || r.Mismatch? ==> |v.reqs| == |u.reqs|
  {
    hide Answered, Push, Flush;
  }

  lemma SameFailure<T, U>(r: Outcome<T>, before: seq<int>, after: seq<int>, nextUd: nat)
    requires JustifiedBehind(r, before, after, nextUd) && !r.Ok?
    ensures JustifiedBehind<U>(r.As(), before, after, nextUd)
  {
  }

  lemma NothingWrongBehind<T, U>(r: Outcome<T>, s: Outcome<U>, before: seq<int>, after: seq<int>, nextUd: nat)
    requires JustifiedBehind(r, before, after, nextUd) && r.Ok? && s.Ok?
    ensures JustifiedBehind(s, before, after, nextUd)
  {
  }

  lemma BytesAreOwn(u: World, v: World, q: Sqe, n: nat)
    requires CameBack(u, v, q, Ok(n)) && u.Fits(q) && q.dir.Read? && q.at == 0
    ensures q.buf < |v.mem| && n <= |v.mem[q.buf]| && OwnBytes(u, q, v.mem[q.buf][..n])
  {
    var w, id := Flush(Push(u, q)), u.nextId;
    hide Run, Push, Flush;
    var x: World :| Moment(w, x, id, q, n) && Complete(x, id, n).mem[q.buf] == v.mem[q.buf];
    assert v.mem[q.buf][..n] == Slice(x.files[q.fd], q.off, n);
  }

  lemma WriteIsOwn(u: World, v: World, q: Sqe, n: nat)
    requires CameBack(u, v, q, Ok(n)) && u.Fits(q) && q.dir.Write? && q.at == 0 && q.len == |u.mem[q.buf]|
    ensures n <= q.len && OwnWrite(u, q, u.mem[q.buf][..n])
  {
    var w, id := Flush(Push(u, q)), u.nextId;
    assert w.mem == u.mem;
    hide Run, Push, Flush, PWrite;
    var x: World :| Moment(w, x, id, q, n) && Complete(x, id, n).mem[q.buf] == v.mem[q.buf];
    assert x.mem[q.buf][0..0 + n] == u.mem[q.buf][..n];
    if n == 0 {
      EmptyWrite(x.files[q.fd], q.off);
    }
  }

  /** What a call makes of its await: the tag of the completion must be its own. */
  function Told(woke: Woke, tag: nat): Outcome<nat> {
    match woke
    case WaitError => WaitFailed
    case TaskCancelled => Interrupted
    case Got(pair) => if pair.ud != tag then Mismatch else if pair.res < 0 then IoError(pair.res) else Ok(pair.res)
  }

  /** What an await has done to the ring. */
  ghost predicate Waited(w: World, v: World, before: seq<int>, after: seq<int>, woke: Woke) {
    match woke
    case WaitError => WaitFailedOnce(w, v, before, after)
    case TaskCancelled => WaitedAtMostOnce(w, v, before, after)
    case Got(pair) => WaitTook(w, v, before, after, pair)
  }

  lemma NeverSubmitted<T>(before: seq<int>, after: seq<int>, nextUd: nat)
    requires nextUd > INT64 || exists e :: after == before + [e]
    ensures Justified<T>(NotSubmitted, before, after, nextUd) && JustifiedBehind<T>(NotSubmitted, before, after, nextUd)
  {
  }

  /** A request has been made behind those left over. */
  ghost predicate Underway(u: World, w: World, q: Sqe) {
    && w == Flush(Push(u, q)) && FreshTag(u, q.ud) && u.nextId !in u.reqs
    && w.reqs.Keys == u.reqs.Keys + {u.nextId} && Left(u, w, q) && Mine(w, w, u.nextId, q)
    && (Quiet(u) ==> Alone(u, w, u.nextId, q))
  }

  lemma Entry(u: World, q: Sqe, next: nat)
    requires u.Valid() && Behind(u, next) && u.Fits(q) && q.ud == next % U64
    requires forall i | i in u.reqs :: u.reqs[i].sqe.buf != q.buf
    ensures FreshTag(u, q.ud) && Flush(Push(u, q)).Waitable() && Underway(u, Flush(Push(u, q)), q)
    ensures u.sqLen == 0 && (Quiet(u) || next < U64)
  {
    Entering(u, q, next);
    hide World.Valid, Mine, Left, Push, Flush, World.Waitable, World.Fits, Alone, FreshTag;
    if Quiet(u) {
      SubmittedAlone(u, q);
    }
  }

  /** How such a request ends. */
  lemma EndsBehind(u: World, w: World, v: World, q: Sqe, tag: nat, before: seq<int>, after: seq<int>, woke: Woke)
    requires Behind(u, tag) && q.ud == tag % U64 && Underway(u, w, q) && Waited(w, v, before, after, woke)
    ensures |v.files| == |u.files| && !Told(woke, tag).BadArgument? && !Told(woke, tag).NotSubmitted?
    ensures tag + 1 < U64 ==> Behind(v, tag + 1) && CameBack(u, v, q, Told(woke, tag))
    ensures tag + 1 < U64 ==> JustifiedBehind(Told(woke, tag), before, after, tag + 1)
  {
    hide FreshTag, Left, Mine, Alone, Push, Flush, Behind, WaitFailedOnce, WaitedAtMostOnce, WaitTook, TookOne,
         Answered;
    Counted(u, v, u.nextId);
    match woke
    case WaitError =>
      WaitFaults(w, v, before, after);
      FailedLeft(u, w, v, q, before, after);
      StaysBehind(u, v, q, tag);
    case TaskCancelled =>
      InterruptedLeft(u, w, v, q, before, after);
      StaysBehind(u, v, q, tag);
    case Got(pair) =>
      WaitResult(w, v, before, after, pair);
      TookSome(u, w, v, q, pair);
      StaysBehind(u, v, q, tag);
  }

  /** How it ends if it was alone. */
  lemma EndsAlone(u: World, w: World, v: World, q: Sqe, tag: nat, before: seq<int>, after: seq<int>, woke: Woke)
    requires Quiet(u) && q.ud == tag % U64 && Underway(u, w, q) && Waited(w, v, before, after, woke)
    ensures var r := Told(woke, tag);
            && Justified(r, before, after, tag + 1)
            && (r.Ok? || r.IoError? ==> Transferred(u, v, q, if r.Ok? then r.value else r.errno))
            && (r.Ok? || r.IoError? ==> Quiet(v) && Behind(v, tag + 1))
            && (r.Interrupted? ==> v.sqLen == 0 && |v.reqs| <= 1)
  {
    hide FreshTag, Mine, Alone, Push, Flush, WaitFailedOnce, WaitedAtMostOnce, WaitTook, TookOne, Transferred;
    match woke
    case WaitError =>
      WaitFaults(w, v, before, after);
    case TaskCancelled =>
      InterruptedLeft(u, w, v, q, before, after);
    case Got(pair) =>
      WaitResult(w, v, before, after, pair);
      TookAlone(u, w, v, u.nextId, q, pair);
      LeftQuiet(u, v, q, pair.res);
  }

  class AsyncFile {
    const ctx: Ctx
    const ua: UringAsync
    const fd: nat
    const loop: nat
    var pos: nat
    var ud: nat
    var closed: bool

    ghost predicate Valid()
      reads this, ctx, ctx.ring, ua
    {
      ua.ctx == ctx && ua.Valid() && fd < |ctx.ring.w.files|
    }

    /** No operation is under way, but requests of earlier ones may still be in flight. */
    ghost predicate Ready()
      reads this, ctx, ctx.ring, ua
    {
      && ctx.open && !ua.closed && ua.waiters == [] && (ua.loop == None || ua.loop == Some(loop))
      && Behind(ctx.ring.w, ud) && 0 < ctx.ring.entries
    }

    /** Nothing is left over from earlier operations. */
    ghost predicate Idle()
      reads this, ctx, ctx.ring, ua
    {
      Ready() && Quiet(ctx.ring.w)
    }

    ghost function Contents(): seq<Byte>
      reads ctx, ctx.ring
      requires fd < |ctx.ring.w.files|
    {
      ctx.ring.w.files[fd]
    }

    /** __aenter__ on a file that is open: a context of its own, and the position at the start, or at
        the end in an append mode. */
    constructor (ring: Ring, fd: nat, loop: nat, append: bool)
      requires ring.Valid() && Quiet(ring.w) && 0 < ring.entries && fd < |ring.w.files|
      ensures fresh(ua) && fresh(ctx) && ctx.ring == ring && this.fd == fd && this.loop == loop
      ensures Valid() && Idle() && !closed && ud == 1 && pos == if append then |Contents()| else 0
    {
      hide Pins, World.Valid, Fair, NobodyLost, Pairs, LogPairs;
      var c := new Ctx(ring);
      var a := new UringAsync(c);
      ctx, ua, this.fd, this.loop := c, a, fd, loop;
      pos, ud, closed := if append then |ring.w.files[fd]| else 0, 1, false;
    }

    /** One request: submit it, wait for it, and check the tag. */
    method Transfer(dir: Dir, buf: nat, len: nat) returns (r: Outcome<nat>)
      requires Valid() && Ready() && buf < |ctx.ring.w.mem| && len == |ctx.ring.w.mem[buf]|
      requires forall i | i in ctx.ring.w.reqs :: ctx.ring.w.reqs[i].sqe.buf != buf
      modifies this, ua, ctx, ctx.ring
      ensures pos == old(pos) && closed == old(closed) && ud == old(ud) + 1
      ensures ua.Valid() && !r.BadArgument?
      // on a quiet ring it has exactly its effect, and an interrupted call has consumed its completion, or
      // leaves it for the next one to find
      ensures old(Idle()) && (r.Ok? || r.IoError?) ==>
                && Valid() && Idle()
                && Transferred(old(ctx.ring.w), ctx.ring.w, Sqe(dir, fd, buf, 0, len, pos, old(ud) % U64),
                               if r.Ok? then r.value else r.errno)
      ensures old(Idle()) ==> Justified(r, old(ctx.ring.faults), ctx.ring.faults, ud)
      ensures old(Idle()) && r.Interrupted? ==> Valid() && |ctx.ring.w.reqs| <= 1 && ctx.ring.w.sqLen == 0
      // behind requests left over its result is still its own, or the tags do not match; what is left over
      // is no more than before, unless the call was interrupted or the wait failed
      ensures !r.NotSubmitted? && ud < U64 ==>
                && Valid() && Ready()
                && CameBack(old(ctx.ring.w), ctx.ring.w, Sqe(dir, fd, buf, 0, len, pos, old(ud)), r)
      ensures ud < U64 ==> JustifiedBehind(r, old(ctx.ring.faults), ctx.ring.faults, ud)
      ensures r.NotSubmitted? || old(Idle()) || ud < U64
    {
      hide Pins, World.Valid, Inv, LogPairs, Pairs, Flush, Push, Called, Transferred, FreshTag, Underway, Told,
           World.Waitable, WaitFailedOnce, WaitTook, WaitedAtMostOnce, CameBack, Behind, Justified, JustifiedBehind,
           Queues;
      ghost var u := ctx.ring.w;
      ghost var q := Sqe(dir, fd, buf, 0, len, pos, Tag(ud));
      var tag := ud;
      Entry(u, q, tag);
      ud := ud + 1;
      var reply, queued, submitted := ctx.Async(dir, fd, Object(buf), pos, tag);
      if !reply.Returned? {
        NeverSubmitted<nat>(old(ctx.ring.faults), ctx.ring.faults, ud);
        return NotSubmitted;
      }
      ghost var w := ctx.ring.w;
      var fut := ua.WaitCompletion(loop);
      var woke := Await(ua, fut.value);
      EndsBehind(u, w, ctx.ring.w, q, tag, old(ctx.ring.faults), ctx.ring.faults, woke);
      if Quiet(u) {
        EndsAlone(u, w, ctx.ring.w, q, tag, old(ctx.ring.faults), ctx.ring.faults, woke);
      }
      return Told(woke, tag);
    }

    lemma OlderBuffers()
      requires Valid()
      ensures ctx.Valid() && forall i | i in ctx.ring.w.reqs :: ctx.ring.w.reqs[i].sqe.buf < |ctx.ring.w.mem|
    {
    }

    /** Where the file and the position stand after reading bytes from p0 on. */
    ghost predicate ReadSoFar(files: seq<seq<Byte>>, p0: nat, bytes: seq<Byte>)
      reads this, ctx, ctx.ring, ua
    {
      && Valid() && Idle() && ctx.ring.w.files == files
      && pos == p0 + |bytes| && bytes == Slice(files[fd], p0, |bytes|)
    }

    lemma Begin()
      requires Valid() && Idle()
      ensures ReadSoFar(ctx.ring.w.files, pos, []) && ua.Valid()
      ensures fd < |ctx.ring.w.files| && Contents() == ctx.ring.w.files[fd] && Slice(Contents(), pos, 0) == []
    {
    }

    lemma SoFar(files: seq<seq<Byte>>, p0: nat, bytes: seq<Byte>)
      requires ReadSoFar(files, p0, bytes)
      ensures Valid() && Idle() && ctx.ring.w.files == files && fd < |files|
      ensures pos == p0 + |bytes| && bytes == Slice(files[fd], p0, |bytes|)
    {
    }

    lemma Extend(files: seq<seq<Byte>>, p0: nat, bytes: seq<Byte>, more: seq<Byte>)
      requires ReadSoFar(files, p0 + |bytes|, more) && fd < |files| && bytes == Slice(files[fd], p0, |bytes|)
      ensures ReadSoFar(files, p0, bytes + more) && more == Slice(files[fd], p0 + |bytes|, |more|)
      ensures pos == p0 + |bytes| + |more| && (more != [] ==> pos <= |files[fd]|)
    {
      SliceJoins(files[fd], p0, |bytes|, |more|);
    }

    ghost function Shorts(files: seq<seq<Byte>>): nat
      reads ctx, ctx.ring
    {
      ShortReads(ctx.ring.w.trace, files)
    }

    /** _read_uring_once */
    method ReadOnce(n: int) returns (r: Outcome<seq<Byte>>)
      requires Valid() && Ready()
      modifies this, ua, ctx, ctx.ring
      ensures n <= 0 ==> r == Ok([]) && ud == old(ud) && ctx.ring.w == old(ctx.ring.w)
      ensures !r.BadArgument? && ua.Valid() && closed == old(closed) && (!r.Ok? ==> pos == old(pos))
      // on a quiet ring
      ensures old(Idle()) ==> (r.Ok? ==> ctx.ring.faults == old(ctx.ring.faults)) && (r.IoError? ==> r.errno < 0)
      ensures old(Idle()) ==> Justified(r, old(ctx.ring.faults), ctx.ring.faults, ud)
      ensures old(Idle()) && r.IoError? ==> ReadSoFar(old(ctx.ring.w.files), pos, [])
      ensures old(Idle()) && r.Ok? ==>
                ReadSoFar(old(ctx.ring.w.files), old(pos), r.value) && |r.value| <= Max(0, n)
      ensures old(Idle()) && n > 0 && (r.Ok? || r.IoError?) ==>
                Results(ctx.ring.w.trace) == old(Results(ctx.ring.w.trace)) + [if r.Ok? then |r.value| else r.errno]
      ensures old(Idle()) && r.Ok? ==>
                var size := |old(Contents())|;
                Shorts(old(ctx.ring.w.files)) == old(Shorts(ctx.ring.w.files)) +
                  if |r.value| < Min(n, Max(0, size - old(pos))) then 1 else 0
      // behind requests left over: the bytes are still those of the file, at some moment of this call
      ensures ud < U64 && n > 0 && !r.NotSubmitted? ==>
                && Valid() && Ready() && JustifiedBehind(r, old(ctx.ring.faults), ctx.ring.faults, ud)
                && (r.Ok? || r.IoError? || r.Mismatch? ==> |ctx.ring.w.reqs| == |old(ctx.ring.w.reqs)|)
                && (r.Ok? ==>
                      && pos == old(pos) + |r.value|
                      && OwnBytes(WithBuffer(old(ctx.ring.w), Zeros(n)),
                                  Sqe(Dir.Read, fd, |old(ctx.ring.w.mem)|, 0, n, old(pos), old(ud)), r.value))
    {
      hide World.Valid, Ctx.Valid, Inv, LogPairs, Pairs, Transferred, ShortReads, Results, Slice, CameBack, OwnBytes,
           JustifiedBehind;
      if n <= 0 {
        if Idle() {
          Begin();
        }
        return Ok([]);
      }
      OlderBuffers();
      var buf := ctx.NewBuffer(Zeros(n));
      ghost var u, q := ctx.ring.w, Sqe(Dir.Read, fd, buf, 0, n, pos, ud % U64);
      var t := Transfer(Dir.Read, buf, n);
      if ud < U64 {
        TellsCount(u, ctx.ring.w, q, t);
      }
      if !t.Ok? {
        if t.IoError? && Quiet(u) {
          ReadBack(u, ctx.ring.w, q, t.errno);
        }
        if ud < U64 {
          SameFailure<nat, seq<Byte>>(t, old(ctx.ring.faults), ctx.ring.faults, ud);
        }
        return t.As();
      }
      if Quiet(u) {
        ReadBack(u, ctx.ring.w, q, t.value);
      }
      if ud < U64 {
        BytesAreOwn(u, ctx.ring.w, q, t.value);
      }
      pos := pos + t.value;
      r := Ok(ctx.ring.w.mem[buf][..t.value]);
      if ud < U64 {
        NothingWrongBehind(t, r, old(ctx.ring.faults), ctx.ring.faults, ud);
      }
    }

    /** One turn of the slicing loops: reads the next slice of a read of n bytes that began at p0. */
    method ReadSlice(size: int, n: int, ghost files: seq<seq<Byte>>, ghost p0: nat, ghost out: seq<Byte>,
                     ghost results0: seq<int>)
        returns (piece: Outcome<seq<Byte>>, ghost results: seq<int>)
      requires ReadSoFar(files, p0, out) && fd < |files| && CanGive(|files[fd]|, p0, n, results0)
      requires ReadRun(n, results0) == Going(|out|) && size == Chunk(n, |out|) > 0
      modifies this, ua, ctx, ctx.ring
      ensures ua.Valid() && closed == old(closed) && p0 <= pos
      ensures !piece.BadArgument? && Justified(piece, old(ctx.ring.faults), ctx.ring.faults, ud)
      ensures !piece.Ok? ==> Tells(piece, n, |files[fd]|, p0, pos, results)
      ensures piece.IoError? ==> ReadSoFar(files, pos, [])
      ensures piece.Ok? || piece.IoError? ==>
                var res := if piece.Ok? then |piece.value| else piece.errno;
                results == results0 + [res] && Results(ctx.ring.w.trace) == old(Results(ctx.ring.w.trace)) + [res]
      ensures piece.Ok? ==>
                && ReadSoFar(files, p0, out + piece.value) && ctx.ring.faults == old(ctx.ring.faults)
                && |piece.value| <= size && CanGive(|files[fd]|, p0, n, results)
                && ReadRun(n, results) == NextSlice(n, Going(|out|), |piece.value|)
                && pos == p0 + |out| + |piece.value| && (piece.value != [] ==> pos <= |files[fd]|)
      // a piece that is not whole ends the file, unless the read was short
      ensures piece.Ok? ==>
                && (|piece.value| == size ==> Shorts(files) == old(Shorts(files)))
                && (Shorts(files) == old(Shorts(files)) && |piece.value| < size ==> |files[fd]| <= pos)
    {
      hide World.Valid, Ctx.Valid, UringAsync.Valid, Valid, Idle, Contents, Shorts, Slice, ReadSoFar, ReadRun, CanGive,
           Results, Justified, Tells;
      SoFar(files, p0, out);
      Begin();
      ghost var file := files[fd];
      results := results0;
      piece := ReadOnce(size);
      if piece.Ok? {
        OneMoreResult(|file|, p0, n, results0, |piece.value|);
        Extend(files, p0, out, piece.value);
        results := results0 + [|piece.value|];
      } else {
        if piece.IoError? {
          OneMoreResult(|file|, p0, n, results0, piece.errno);
          results := results0 + [piece.errno];
        }
        EndsSo(piece, n, |file|, p0, pos, results);
      }
    }

    /** _read_uring_up_to: slices until n bytes are there, a read is short, or the file ends. */
    method ReadUpTo(n: int) returns (r: Outcome<seq<Byte>>, ghost results: seq<int>)
      requires Valid() && Idle()
      modifies this, ua, ctx, ctx.ring
      ensures ua.Valid() && closed == old(closed)
      ensures !r.BadArgument? && Justified(r, old(ctx.ring.faults), ctx.ring.faults, ud)
      ensures r.Ok? ==> ReadSoFar(old(ctx.ring.w.files), old(pos), r.value) && |r.value| <= Max(0, n)
      ensures r.Ok? && Shorts(old(ctx.ring.w.files)) == old(Shorts(ctx.ring.w.files)) ==>
                r.value == Slice(old(Contents()), old(pos), Max(0, n))
      ensures r.IoError? ==> ReadSoFar(old(ctx.ring.w.files), pos, [])
      ensures Tells(r, Max(0, n), |old(Contents())|, old(pos), pos, results)
      ensures r.Ok? || r.IoError? ==> Results(ctx.ring.w.trace) == old(Results(ctx.ring.w.trace)) + results
    {
      hide World.Valid, Ctx.Valid, UringAsync.Valid, Valid, Idle, Contents, Shorts, Slice, ReadSoFar, ReadRun, CanGive,
           Results, Justified, Tells;
      Begin();
      ghost var files, p0 := ctx.ring.w.files, pos;
      ghost var file, shorts := files[fd], Shorts(files);
      NoResults(Max(0, n), |file|, p0);
      results := [];
      var out, remaining := [], n;
      while remaining > 0
        invariant (n > 0 ==> 0 <= remaining == n - |out|) && (n <= 0 ==> out == [] && remaining == n)
        invariant ReadSoFar(files, p0, out) && ua.Valid() && closed == old(closed)
        invariant CanGive(|file|, p0, Max(0, n), results) && ctx.ring.faults == old(ctx.ring.faults)
        invariant ReadRun(Max(0, n), results) == if remaining > 0 then Going(|out|) else Finished(|out|)
        invariant Results(ctx.ring.w.trace) == old(Results(ctx.ring.w.trace)) + results && Shorts(files) == shorts
        decreases remaining
      {
        var chunkSz := if remaining < SLICE then remaining else SLICE;
        SoFar(files, p0, out);
        var piece;
        piece, results := ReadSlice(chunkSz, n, files, p0, out, results);
        if !piece.Ok? {
          return piece, results;
        }
        if |piece.value| == 0 {
          assert out + piece.value == out;
          break;
        }
        out := out + piece.value;
        remaining := remaining - |piece.value|;
        if |piece.value| < chunkSz {
          break;
        }
      }
      SoFar(files, p0, out);
      ReachesTheEnd(file, p0, |out|, Max(0, n));
      r := Ok(out);
      EndsSo(r, Max(0, n), |file|, p0, pos, results);
      NothingWrong(r, ctx.ring.faults, ud);
    }

    /** _read_uring_until_eof: slices until one is short or empty. */
    method ReadUntilEof() returns (r: Outcome<seq<Byte>>, ghost results: seq<int>)
      requires Valid() && Idle()
      modifies this, ua, ctx, ctx.ring
      ensures ua.Valid() && closed == old(closed)
      ensures !r.BadArgument? && Justified(r, old(ctx.ring.faults), ctx.ring.faults, ud)
      ensures r.Ok? ==> ReadSoFar(old(ctx.ring.w.files), old(pos), r.value)
      ensures r.Ok? && Shorts(old(ctx.ring.w.files)) == old(Shorts(ctx.ring.w.files)) ==>
                r.value == Slice(old(Contents()), old(pos), |old(Contents())|)
      ensures r.IoError? ==> ReadSoFar(old(ctx.ring.w.files), pos, [])
      ensures Tells(r, -1, |old(Contents())|, old(pos), pos, results)
      ensures r.Ok? || r.IoError? ==> Results(ctx.ring.w.trace) == old(Results(ctx.ring.w.trace)) + results
    {
      hide World.Valid, Ctx.Valid, UringAsync.Valid, Valid, Idle, Contents, Shorts, Slice, ReadSoFar, ReadRun, CanGive,
           Results, Justified, Tells, Join;
      Begin();
      JoinNone<Byte>();
      ghost var files, p0 := ctx.ring.w.files, pos;
      ghost var file, shorts := files[fd], Shorts(files);
      NoResults(-1, |file|, p0);
      results := [];
      var chunks: seq<seq<Byte>> := [];
      while true
        invariant ReadSoFar(files, p0, Join(chunks)) && ua.Valid() && closed == old(closed)
        invariant CanGive(|file|, p0, -1, results) && ReadRun(-1, results) == Going(|Join(chunks)|)
        invariant Results(ctx.ring.w.trace) == old(Results(ctx.ring.w.trace)) + results
        invariant Shorts(files) == shorts && ctx.ring.faults == old(ctx.ring.faults)
        decreases |file| - pos
      {
        SoFar(files, p0, Join(chunks));
        var piece;
        piece, results := ReadSlice(SLICE, -1, files, p0, Join(chunks), results);
        if !piece.Ok? {
          return piece, results;
        }
        if |piece.value| == 0 {
          assert Join(chunks) + piece.value == Join(chunks);
          break;
        }
        JoinSnoc(chunks, piece.value);
        chunks := chunks + [piece.value];
        if |piece.value| < SLICE {
          break;
        }
      }
      SoFar(files, p0, Join(chunks));
      ReachesTheEnd(file, p0, |Join(chunks)|, |file|);
      r := Ok(Join(chunks));
      EndsSo(r, -1, |file|, p0, pos, results);
      NothingWrong(r, ctx.ring.faults, ud);
    }

    /** read: n bytes, or everything to the end of the file when n is -1. */
    method Read(n: int) returns (r: Outcome<seq<Byte>>, ghost results: seq<int>)
      requires Valid() && Idle()
      modifies this, ua, ctx, ctx.ring
      ensures ua.Valid() && closed == old(closed)
      ensures n < -1 || closed <==> r == BadArgument
      ensures Justified(r, old(ctx.ring.faults), ctx.ring.faults, ud)
      // the bytes are consecutive, follow those of the call before, and the position moves by their number
      ensures r.Ok? ==> ReadSoFar(old(ctx.ring.w.files), old(pos), r.value) && (n >= 0 ==> |r.value| <= n)
      // when no read was short, slicing is invisible
      ensures r.Ok? && Shorts(old(ctx.ring.w.files)) == old(Shorts(ctx.ring.w.files)) ==>
                r.value == Slice(old(Contents()), old(pos), if n == -1 then |old(Contents())| else n)
      // the outcome and the position are those of a run over the results of the slices
      ensures n >= -1 && !closed ==>
                && Tells(r, n, |old(Contents())|, old(pos), pos, results)
                && (r.Ok? || r.IoError? ==> Results(ctx.ring.w.trace) == old(Results(ctx.ring.w.trace)) + results)
      // when a slice fails, the slices before it are gone, and the position has moved past them: not at all if
      // no more than a slice was asked for or less than one was left
      ensures r.IoError? ==> ReadSoFar(old(ctx.ring.w.files), pos, [])
      ensures !r.Ok? ==> LostAtMost(Max(-1, n), |old(Contents())|, old(pos), pos)
      ensures r == BadArgument ==> pos == old(pos)
    {
      hide World.Valid, Ctx.Valid, UringAsync.Valid, Valid, Idle, Contents, Shorts, ReadSoFar, CanGive, ReadRun;
      results := [];
      Begin();
      if n < -1 || closed {
        return BadArgument, results;
      }
      ghost var size, p0 := |Contents()|, pos;
      NoResults(n, size, p0);
      if n == 0 {
        return Ok([]), results;
      }
      if n < 0 {
        r, results := ReadUntilEof();
      } else {
        r, results := ReadUpTo(n);
      }
      if !r.Ok? {
        FailureLoses(r, n, size, p0, pos, results);
      }
    }

    /** write: one request, and the position moves by what was written. */
    method Write(data: seq<Byte>) returns (r: Outcome<nat>)
      requires Valid() && Ready()
      modifies this, ua, ctx, ctx.ring
      ensures ua.Valid() && closed == old(closed)
      ensures closed <==> r == BadArgument
      ensures !r.Ok? ==> pos == old(pos)
      // on a quiet ring
      ensures old(Idle()) ==> Justified(r, old(ctx.ring.faults), ctx.ring.faults, ud)
      ensures old(Idle()) && r.Ok? ==>
                && Valid() && Idle() && r.value <= |data| && pos == old(pos) + r.value
                && Contents() == PWrite(old(Contents()), old(pos), data[..r.value])
      ensures old(Idle()) && r.IoError? ==> Valid() && Idle() && Contents() == old(Contents())
      // behind requests left over: at some moment of this call the file gained the written prefix
      ensures ud < U64 && !closed && data != [] && !r.NotSubmitted? ==>
                && Valid() && Ready() && JustifiedBehind(r, old(ctx.ring.faults), ctx.ring.faults, ud)
                && (r.Ok? || r.IoError? || r.Mismatch? ==> |ctx.ring.w.reqs| == |old(ctx.ring.w.reqs)|)
                && (r.Ok? ==>
                      && r.value <= |data| && pos == old(pos) + r.value
                      && OwnWrite(WithBuffer(old(ctx.ring.w), data),
                                  Sqe(Dir.Write, fd, |old(ctx.ring.w.mem)|, 0, |data|, old(pos), old(ud)),
                                  data[..r.value]))
    {
      hide World.Valid, Ctx.Valid, Inv, LogPairs, Pairs, PWrite, CameBack, OwnWrite, JustifiedBehind;
      if closed {
        return BadArgument;
      }
      if |data| == 0 {
        return Ok(0);
      }
      OlderBuffers();
      var buf := ctx.NewBuffer(data);
      ghost var u, q := ctx.ring.w, Sqe(Dir.Write, fd, buf, 0, |data|, pos, ud % U64);
      var t := Transfer(Dir.Write, buf, |data|);
      if ud < U64 {
        TellsCount(u, ctx.ring.w, q, t);
      }
      if !t.Ok? {
        assert PWrite(u.files[fd], pos, u.mem[buf][0..0]) == u.files[fd] by { EmptyWrite(u.files[fd], pos); }
        return t.As();
      }
      if ud < U64 {
        WriteIsOwn(u, ctx.ring.w, q, t.value);
      }
      pos := pos + t.value;
      return Ok(t.value);
    }
  }

  lemma EmptyWrite(file: seq<Byte>, p: nat)
    ensures PWrite(file, p, []) == file
  {
  }

  lemma NothingInFlight(u: World, q: Sqe)
    requires Quiet(u) && u.Fits(q)
    ensures FreshTag(u, q.ud) && Flush(Push(u, q)).Waitable() && Alone(u, Flush(Push(u, q)), u.nextId, q)
  {
    SubmittedAlone(u, q);
    assert u.nextId in Flush(Push(u, q)).reqs;
  }
}
