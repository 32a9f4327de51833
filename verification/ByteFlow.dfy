/**
 Where the bytes are, for the pipelines that fill one destination file. The contents the
 file should have are exp; n is how far requests have been issued. The predicate Flow says
 that every outstanding request carries the right bytes, and InPlace that every byte below n
 is either still spanned by an outstanding request or already right in the file. Neither
 depends on the order in which the kernel works.
 */
module ByteFlow {
  import opened IoUring

  /** A request moves the right bytes, and so far has moved them right. */
  ghost predicate ReqOk(w: World, dst: nat, exp: seq<Byte>, n: nat, r: Req)
    requires dst < |w.files|
  {
    match r case Req(q, stage) =>
      && w.Fits(q) && q.at == 0 && q.off + q.len <= n <= |exp|
      && (q.dir.Read? ==>
            && q.fd != dst && w.files[q.fd] == exp
            && (stage.Done? && stage.res > 0 ==>
                  stage.res <= q.len && forall k | 0 <= k < stage.res :: w.mem[q.buf][k] == exp[q.off + k]))
      && (q.dir.Write? ==>
            && q.fd == dst
            && (forall k | 0 <= k < q.len :: w.mem[q.buf][k] == exp[q.off + k])
            && (stage.Done? && stage.res > 0 ==>
                  && stage.res <= q.len && q.off + stage.res <= |w.files[dst]|
                  && forall p | q.off <= p < q.off + stage.res :: w.files[dst][p] == exp[p]))
  }

  ghost predicate Flow(w: World, dst: nat, exp: seq<Byte>, n: nat) {
    match w case World(reqs, _, _, _, files, _) =>
      && dst < |files|
      && (forall id | id in reqs :: ReqOk(w, dst, exp, n, reqs[id]))
      && (forall i, j | i in reqs && j in reqs && i != j && reqs[i].sqe.dir.Read? ::
            reqs[i].sqe.buf != reqs[j].sqe.buf)
  }

  predicate Spans(q: Sqe, p: nat) { q.off <= p < q.off + q.len }

  ghost predicate Spanned(w: World, p: nat) {
    exists id :: id in w.reqs && Spans(w.reqs[id].sqe, p)
  }

  ghost predicate InPlace(w: World, dst: nat, exp: seq<Byte>, n: nat) {
    match w case World(_, _, _, _, files, _) =>
      && dst < |files| && |files[dst]| <= n <= |exp|
      && forall p: nat | p < n && !Spanned(w, p) :: p < |files[dst]| && files[dst][p] == exp[p]
  }

  /** Requests that are kept keep spanning what they spanned. */
  lemma SpanKept(w: World, v: World, p: nat)
    requires forall i | i in w.reqs && Spans(w.reqs[i].sqe, p) :: i in v.reqs && v.reqs[i].sqe == w.reqs[i].sqe
    ensures Spanned(w, p) ==> Spanned(v, p)
  {
    if Spanned(w, p) {
      var i :| i in w.reqs && Spans(w.reqs[i].sqe, p);
      assert Spans(v.reqs[i].sqe, p);
    }
  }

  lemma ReadKeepsOthers(w: World, dst: nat, exp: seq<Byte>, n: nat, id: nat, res: int, i: nat)
    requires Flow(w, dst, exp, n) && w.CanComplete(id, res) && w.reqs[id].sqe.dir.Read? && i in w.reqs
    ensures ReqOk(Complete(w, id, res), dst, exp, n, Complete(w, id, res).reqs[i])
  {
    assert ReqOk(w, dst, exp, n, w.reqs[id]) && ReqOk(w, dst, exp, n, w.reqs[i]);
  }

  lemma WriteKeepsOthers(w: World, dst: nat, exp: seq<Byte>, n: nat, id: nat, res: int, i: nat)
    requires Flow(w, dst, exp, n) && w.CanComplete(id, res) && w.reqs[id].sqe.dir.Write? && i in w.reqs
    ensures ReqOk(Complete(w, id, res), dst, exp, n, Complete(w, id, res).reqs[i])
  {
    hide Blit, PWrite;
    assert ReqOk(w, dst, exp, n, w.reqs[id]) && ReqOk(w, dst, exp, n, w.reqs[i]);
  }

  lemma CompleteKeepsFlow(w: World, dst: nat, exp: seq<Byte>, n: nat, id: nat, res: int)
    requires Flow(w, dst, exp, n) && w.CanComplete(id, res)
    ensures Flow(Complete(w, id, res), dst, exp, n)
  {
    hide ReqOk, Blit, PWrite;
    forall i | i in w.reqs
      ensures ReqOk(Complete(w, id, res), dst, exp, n, Complete(w, id, res).reqs[i])
    {
      if w.reqs[id].sqe.dir.Read? {
        ReadKeepsOthers(w, dst, exp, n, id, res, i);
      } else {
        WriteKeepsOthers(w, dst, exp, n, id, res, i);
      }
    }
  }

  lemma CompleteKeepsInPlace(w: World, dst: nat, exp: seq<Byte>, n: nat, id: nat, res: int)
    requires Flow(w, dst, exp, n) && w.CanComplete(id, res) && InPlace(w, dst, exp, n)
    ensures InPlace(Complete(w, id, res), dst, exp, n)
  {
    var v := Complete(w, id, res);
    assert ReqOk(w, dst, exp, n, w.reqs[id]);
    forall p: nat | p < n && !Spanned(v, p)
      ensures p < |v.files[dst]| && v.files[dst][p] == exp[p]
    {
      SpanKept(w, v, p);
    }
  }

  lemma CompleteKeepsSources(w: World, dst: nat, exp: seq<Byte>, n: nat, id: nat, res: int)
    requires Flow(w, dst, exp, n) && w.CanComplete(id, res)
    ensures |Complete(w, id, res).files| == |w.files|
    ensures forall fd | 0 <= fd < |w.files| && fd != dst :: Complete(w, id, res).files[fd] == w.files[fd]
  {
    assert ReqOk(w, dst, exp, n, w.reqs[id]);
  }

  /** Without reads in flight, memory stays as it is. */
  lemma {:induction false} RunKeepsMem(w: World, dst: nat, exp: seq<Byte>, n: nat, sched: Schedule)
    requires w.Valid() && Flow(w, dst, exp, n) && forall id | id in w.reqs :: w.reqs[id].sqe.dir.Write?
    ensures Run(w, sched).mem == w.mem
  {
    if sched != [] {
      RunKeepsMem(w, dst, exp, n, sched[..|sched| - 1]);
      RunKeepsValid(w, sched[..|sched| - 1]);
    }
  }

  /** Whatever the kernel does, and in whatever order. */
  lemma {:induction false} RunKeepsFlow(w: World, dst: nat, exp: seq<Byte>, n: nat, sched: Schedule)
    requires Flow(w, dst, exp, n)
    ensures Flow(Run(w, sched), dst, exp, n)
    ensures InPlace(w, dst, exp, n) ==> InPlace(Run(w, sched), dst, exp, n)
    ensures |Run(w, sched).files| == |w.files|
    ensures forall fd | 0 <= fd < |w.files| && fd != dst :: Run(w, sched).files[fd] == w.files[fd]
  {
    if sched != [] {
      var v := Run(w, sched[..|sched| - 1]);
      RunKeepsFlow(w, dst, exp, n, sched[..|sched| - 1]);
      var (id, res) := sched[|sched| - 1];
      if v.CanComplete(id, res) {
        CompleteKeepsFlow(v, dst, exp, n, id, res);
        CompleteKeepsSources(v, dst, exp, n, id, res);
        if InPlace(w, dst, exp, n) {
          CompleteKeepsInPlace(v, dst, exp, n, id, res);
        }
      }
    }
  }

  lemma FlushKeepsReq(w: World, dst: nat, exp: seq<Byte>, n: nat, i: nat)
    requires dst < |w.files| && i in w.reqs && ReqOk(w, dst, exp, n, w.reqs[i])
    ensures ReqOk(Flush(w), dst, exp, n, Flush(w).reqs[i])
  {
  }

  lemma FlushKeepsFlow(w: World, dst: nat, exp: seq<Byte>, n: nat)
    requires Flow(w, dst, exp, n)
    ensures Flow(Flush(w), dst, exp, n)
    ensures InPlace(w, dst, exp, n) ==> InPlace(Flush(w), dst, exp, n)
  {
    var v := Flush(w);
    forall i | i in v.reqs ensures ReqOk(v, dst, exp, n, v.reqs[i]) {
      FlushKeepsReq(w, dst, exp, n, i);
    }
    hide ReqOk;
    forall p: nat ensures Spanned(w, p) ==> Spanned(v, p) {
      SpanKept(w, v, p);
    }
  }

  /** The history plays no part in where the bytes are. */
  lemma TraceKeepsFlow(w: World, t: Trace, dst: nat, exp: seq<Byte>, n: nat)
    requires Flow(w, dst, exp, n)
    ensures Flow(w.(trace := t), dst, exp, n)
    ensures InPlace(w, dst, exp, n) ==> InPlace(w.(trace := t), dst, exp, n)
  {
    var v := w.(trace := t);
    forall i | i in v.reqs ensures ReqOk(v, dst, exp, n, v.reqs[i]) {
      assert ReqOk(w, dst, exp, n, w.reqs[i]);
    }
    hide ReqOk;
    forall p: nat ensures Spanned(w, p) ==> Spanned(v, p) {
      SpanKept(w, v, p);
    }
  }

  /** Issuing the next chunk, [n, n + len): the bytes it will deliver are spoken for. */
  lemma PushKeepsFlow(w: World, dst: nat, exp: seq<Byte>, n: nat, q: Sqe)
    requires w.Valid() && Flow(w, dst, exp, n)
    requires q.off == n && ReqOk(w, dst, exp, n + q.len, Req(q, Queued))
    requires forall i | i in w.reqs && (q.dir.Read? || w.reqs[i].sqe.dir.Read?) :: w.reqs[i].sqe.buf != q.buf
    ensures Flow(Push(w, q), dst, exp, n + q.len)
    ensures InPlace(w, dst, exp, n) ==> InPlace(Push(w, q), dst, exp, n + q.len)
  {
    var v := Push(w, q);
    forall i | i in v.reqs ensures ReqOk(v, dst, exp, n + q.len, v.reqs[i]) {
      if i != w.nextId {
        assert ReqOk(w, dst, exp, n, w.reqs[i]);
      }
    }
    if InPlace(w, dst, exp, n) {
      PushKeepsInPlace(w, dst, exp, n, q);
    }
    hide ReqOk, InPlace;
  }

  lemma PushKeepsInPlace(w: World, dst: nat, exp: seq<Byte>, n: nat, q: Sqe)
    requires w.nextId !in w.reqs && InPlace(w, dst, exp, n) && q.off == n && n + q.len <= |exp|
    ensures InPlace(Push(w, q), dst, exp, n + q.len)
  {
    var v := Push(w, q);
    assert v.reqs[w.nextId].sqe == q;
    forall p: nat | p < n + q.len && !Spanned(v, p)
      ensures p < |v.files[dst]| && v.files[dst][p] == exp[p]
    {
      assert !Spans(q, p);
      SpanKept(w, v, p);
    }
  }

  /** More of the contents becomes known: what is in flight is still right. */
  lemma ExtendKeepsFlow(w: World, dst: nat, exp: seq<Byte>, n: nat, more: seq<Byte>)
    requires Flow(w, dst, exp, n) && forall id | id in w.reqs :: w.reqs[id].sqe.dir.Write?
    ensures Flow(w, dst, exp + more, n)
    ensures InPlace(w, dst, exp, n) ==> InPlace(w, dst, exp + more, n)
  {
    forall i | i in w.reqs ensures ReqOk(w, dst, exp + more, n, w.reqs[i]) {
      assert ReqOk(w, dst, exp, n, w.reqs[i]);
    }
  }

  /** Consuming a completion keeps the requests that remain in order. */
  lemma ReapKeepsFlow(w: World, dst: nat, exp: seq<Byte>, n: nat, id: nat)
    requires Flow(w, dst, exp, n) && w.IsDone(id)
    ensures Flow(Reap(w, id), dst, exp, n)
  {
    var v := Reap(w, id);
    forall i | i in v.reqs ensures ReqOk(v, dst, exp, n, v.reqs[i]) {
      assert ReqOk(w, dst, exp, n, w.reqs[i]);
    }
  }

  /** A write that was not short leaves its whole range right. */
  lemma FullWriteLands(w: World, dst: nat, exp: seq<Byte>, n: nat, id: nat)
    requires Flow(w, dst, exp, n) && InPlace(w, dst, exp, n) && w.IsDone(id)
    requires w.reqs[id].sqe.dir.Write? && w.reqs[id].stage.res == w.reqs[id].sqe.len
    ensures InPlace(Reap(w, id), dst, exp, n)
  {
    var v := Reap(w, id);
    assert ReqOk(w, dst, exp, n, w.reqs[id]);
    forall p: nat | p < n && !Spanned(v, p)
      ensures p < |v.files[dst]| && v.files[dst][p] == exp[p]
    {
      if !Spans(w.reqs[id].sqe, p) {
        SpanKept(w, v, p);
      }
    }
  }

  /** A read that was not short hands its whole range to the write that follows it. */
  lemma FullReadBecomesWrite(w: World, dst: nat, exp: seq<Byte>, n: nat, id: nat, q: Sqe)
    requires w.Valid() && Flow(w, dst, exp, n) && w.IsDone(id)
    requires w.reqs[id].sqe.dir.Read? && w.reqs[id].stage.res > 0
    requires var r := w.reqs[id].sqe; q == Sqe(Write, dst, r.buf, 0, w.reqs[id].stage.res, r.off, q.ud)
    ensures Flow(Push(Reap(w, id), q), dst, exp, n)
    ensures InPlace(w, dst, exp, n) && q.len == w.reqs[id].sqe.len ==> InPlace(Push(Reap(w, id), q), dst, exp, n)
  {
    var u := Reap(w, id);
    var v := Push(u, q);
    assert ReqOk(w, dst, exp, n, w.reqs[id]);
    forall i | i in v.reqs ensures ReqOk(v, dst, exp, n, v.reqs[i]) {
      if i != w.nextId {
        assert ReqOk(w, dst, exp, n, w.reqs[i]);
      }
    }
    if InPlace(w, dst, exp, n) && q.len == w.reqs[id].sqe.len {
      forall p: nat | p < n && !Spanned(v, p)
        ensures p < |v.files[dst]| && v.files[dst][p] == exp[p]
      {
        assert v.reqs[w.nextId].sqe == q;
        SpanKept(w, v, p);
      }
    }
  }

  /** With nothing outstanding, the file is exactly the first n expected bytes. */
  lemma AllLanded(w: World, dst: nat, exp: seq<Byte>, n: nat)
    requires InPlace(w, dst, exp, n) && w.reqs == map[]
    ensures w.files[dst] == exp[..n]
  {
    forall p: nat | p < n ensures !Spanned(w, p) {}
    assert n > 0 ==> !Spanned(w, n - 1);
  }

  // ---------- what completed writes leave, short or not ----------

  /** What consumed completions report as written to the file is right; other bytes are right or zero. */
  ghost predicate Landed(t: Trace, fd: nat, file: seq<Byte>, exp: seq<Byte>) {
    WritesRight(t, fd, file, exp)
    && |file| <= |exp| && forall p | 0 <= p < |file| :: file[p] == exp[p] || file[p] == 0
  }

  ghost predicate WritesRight(t: Trace, fd: nat, file: seq<Byte>, exp: seq<Byte>) {
    match t
    case Start => true
    case Then(b, Reaped(q, res)) =>
      WritesRight(b, fd, file, exp) && (q.fd == fd && q.dir.Write? && res > 0 ==> RangeRight(file, exp, q.off, res))
    case Then(b, _) => WritesRight(b, fd, file, exp)
  }

  ghost predicate RangeRight(file: seq<Byte>, exp: seq<Byte>, off: nat, n: nat) {
    off + n <= |file| && off + n <= |exp| && forall p | off <= p < off + n :: file[p] == exp[p]
  }

  /** A file that only grows right. */
  lemma {:induction false} WritesStayRight(t: Trace, fd: nat, file: seq<Byte>, file': seq<Byte>, exp: seq<Byte>,
                                           exp': seq<Byte>)
    requires WritesRight(t, fd, file, exp) && |file| <= |file'| && exp <= exp'
    requires forall p | 0 <= p < |file| && p < |exp| && file[p] == exp[p] :: file'[p] == exp[p]
    ensures WritesRight(t, fd, file', exp')
  {
    if t.Then? {
      WritesStayRight(t.before, fd, file, file', exp, exp');
    }
  }

  lemma CompleteLands(w: World, t: Trace, dst: nat, exp: seq<Byte>, n: nat, id: nat, res: int)
    requires Flow(w, dst, exp, n) && w.CanComplete(id, res) && Landed(t, dst, w.files[dst], exp)
    ensures dst < |Complete(w, id, res).files| && Landed(t, dst, Complete(w, id, res).files[dst], exp)
  {
    var v, q := Complete(w, id, res), w.reqs[id].sqe;
    assert ReqOk(w, dst, exp, n, w.reqs[id]);
    WritesStayRight(t, dst, w.files[dst], v.files[dst], exp, exp);
  }

  lemma {:induction false} RunLands(w: World, t: Trace, dst: nat, exp: seq<Byte>, n: nat, sched: Schedule)
    requires Flow(w, dst, exp, n) && Landed(t, dst, w.files[dst], exp)
    ensures dst < |Run(w, sched).files| && Landed(t, dst, Run(w, sched).files[dst], exp)
  {
    hide Landed, Complete;
    if sched != [] {
      var v := Run(w, sched[..|sched| - 1]);
      RunLands(w, t, dst, exp, n, sched[..|sched| - 1]);
      RunKeepsFlow(w, dst, exp, n, sched[..|sched| - 1]);
      var (id, res) := sched[|sched| - 1];
      hide Flow;
      if v.CanComplete(id, res) {
        CompleteLands(v, t, dst, exp, n, id, res);
      }
    }
  }

  /** Consuming a completion adds what it reports. */
  lemma ReapLands(w: World, dst: nat, exp: seq<Byte>, n: nat, id: nat)
    requires Flow(w, dst, exp, n) && w.IsDone(id) && Landed(w.trace, dst, w.files[dst], exp)
    ensures Landed(Reap(w, id).trace, dst, w.files[dst], exp)
  {
    assert ReqOk(w, dst, exp, n, w.reqs[id]);
  }

  /** More of the contents becomes known. */
  lemma ExtendLands(t: Trace, fd: nat, file: seq<Byte>, exp: seq<Byte>, more: seq<Byte>)
    requires Landed(t, fd, file, exp)
    ensures Landed(t, fd, file, exp + more)
  {
    WritesStayRight(t, fd, file, file, exp, exp + more);
  }
}
