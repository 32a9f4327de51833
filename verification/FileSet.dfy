/**
 What ends up in several files when every request is a write from a slot buffer full of letters, the
 ranges of each file follow each other, and completions come in any order and may be short.
 */
module FileSet {
  import opened IoUring
  import opened ByteFlow

  /** The letters that a write from this buffer carries: small ones, going round from the buffer's own on. */
  function Letters(buf: nat, len: nat): (s: seq<Byte>)
    ensures |s| == len && forall k | 0 <= k < len :: s[k] as int == 97 + (buf + k) % U32 % 26
  {
    seq(len, k => (97 + (buf + k) % U32 % 26) as Byte)
  }

  /** What the writes issued so far give a file. */
  function Expected(t: Trace, fd: nat): seq<Byte> {
    match t
    case Start => []
    case Then(b, Issued(q)) => Expected(b, fd) + if q.dir.Write? && q.fd == fd then Letters(q.buf, q.len) else []
    case Then(b, _) => Expected(b, fd)
  }

  ghost predicate Carries(mem: seq<seq<Byte>>, q: Sqe, exp: seq<Byte>) {
    && q.dir.Write? && q.at == 0 && q.buf < |mem| && q.len <= |mem[q.buf]| && q.off + q.len <= |exp|
    && forall k | 0 <= k < q.len :: mem[q.buf][k] == exp[q.off + k]
  }

  /** A write carries the right letters, and has put them where they belong as far as it reports. */
  ghost predicate WriteOk(w: World, t: Trace, r: Req) {
    && r.sqe.fd < |w.files| && Carries(w.mem, r.sqe, Expected(t, r.sqe.fd))
    && (r.stage.Done? && r.stage.res > 0 ==>
          r.stage.res <= r.sqe.len && RangeRight(w.files[r.sqe.fd], Expected(t, r.sqe.fd), r.sqe.off, r.stage.res))
  }

  ghost predicate AllLand(w: World, t: Trace) {
    forall f | 0 <= f < |w.files| :: Landed(t, f, w.files[f], Expected(t, f))
  }

  ghost predicate Writing(w: World) {
    (forall id | id in w.reqs :: WriteOk(w, w.trace, w.reqs[id])) && AllLand(w, w.trace)
  }

  /** A write that the kernel carries out adds right bytes to its file. */
  lemma PutsRight(file: seq<Byte>, exp: seq<Byte>, off: nat, data: seq<Byte>, t: Trace, fd: nat)
    requires Landed(t, fd, file, exp) && data != [] && off + |data| <= |exp|
    requires forall k | 0 <= k < |data| :: data[k] == exp[off + k]
    ensures var g := PWrite(file, off, data);
            && Landed(t, fd, g, exp) && RangeRight(g, exp, off, |data|)
            && forall o, n | RangeRight(file, exp, o, n) :: RangeRight(g, exp, o, n)
  {
    var g := PWrite(file, off, data);
    forall p | off <= p < off + |data| ensures g[p] == exp[p] {
      assert data[p - off] == exp[off + (p - off)];
    }
    WritesStayRight(t, fd, file, g, exp, exp);
  }

  lemma CompleteWriteOk(w: World, id: nat, res: int)
    requires Writing(w) && w.CanComplete(id, res)
    ensures var v := Complete(w, id, res);
            v.mem == w.mem && v.trace == w.trace && |v.files| == |w.files| && AllLand(v, w.trace)
    ensures forall i | i in w.reqs :: WriteOk(Complete(w, id, res), w.trace, Complete(w, id, res).reqs[i])
  {
    var q, v := w.reqs[id].sqe, Complete(w, id, res);
    assert WriteOk(w, w.trace, w.reqs[id]);
    hide PWrite, Landed, Expected, RangeRight;
    if res > 0 {
      var data := w.mem[q.buf][q.at..q.at + res];
      PutsRight(w.files[q.fd], Expected(w.trace, q.fd), q.off, data, w.trace, q.fd);
      assert v.files == w.files[q.fd := PWrite(w.files[q.fd], q.off, data)];
    }
    forall i | i in w.reqs ensures WriteOk(v, w.trace, v.reqs[i]) {
      assert WriteOk(w, w.trace, w.reqs[i]);
    }
  }

  /** Whatever the kernel does, and in whatever order. */
  lemma {:induction false} RunWrites(w: World, sched: Schedule)
    requires Writing(w)
    ensures Writing(Run(w, sched)) && Run(w, sched).mem == w.mem && Run(w, sched).trace == w.trace
  {
    hide WriteOk, AllLand, Complete;
    if sched != [] {
      var v := Run(w, sched[..|sched| - 1]);
      RunWrites(w, sched[..|sched| - 1]);
      var (id, res) := sched[|sched| - 1];
      if v.CanComplete(id, res) {
        CompleteWriteOk(v, id, res);
        CompleteKeys(v, id, res);
      }
    }
  }

  lemma CompleteKeys(w: World, id: nat, res: int)
    requires w.CanComplete(id, res)
    ensures Complete(w, id, res).reqs.Keys == w.reqs.Keys
  {
  }

  lemma FlushWrites(w: World)
    requires Writing(w)
    ensures Writing(Flush(w)) && Flush(w).mem == w.mem
  {
    hide Landed, Carries;
    forall i | i in Flush(w).reqs ensures WriteOk(Flush(w), w.trace, Flush(w).reqs[i]) {
      assert WriteOk(w, w.trace, w.reqs[i]);
    }
  }

  /** The next write of a file adds its letters to what the file should hold. */
  lemma PushWrites(w: World, q: Sqe)
    requires Writing(w) && q.dir.Write? && q.fd < |w.files| && q.at == 0 && q.off == |Expected(w.trace, q.fd)|
    requires q.buf < |w.mem| && q.len <= |w.mem[q.buf]| && w.mem[q.buf][..q.len] == Letters(q.buf, q.len)
    ensures Writing(Push(w, q))
  {
    var v, t := Push(w, q), Then(w.trace, Issued(q));
    forall f ensures Expected(w.trace, f) <= Expected(t, f) {}
    hide Letters, Landed, RangeRight;
    forall i | i in v.reqs ensures WriteOk(v, t, v.reqs[i]) {
      if i == w.nextId {
        NewCarries(w, q);
      } else {
        assert WriteOk(w, w.trace, w.reqs[i]);
        StillOk(w, v, t, w.reqs[i]);
      }
    }
    forall f | 0 <= f < |w.files| ensures Landed(t, f, w.files[f], Expected(t, f)) {
      IssueLands(w.trace, f, w.files[f], Expected(w.trace, f), Expected(t, f), q);
    }
  }

  lemma NewCarries(w: World, q: Sqe)
    requires q.dir.Write? && q.at == 0 && q.off == |Expected(w.trace, q.fd)|
    requires q.buf < |w.mem| && q.len <= |w.mem[q.buf]| && w.mem[q.buf][..q.len] == Letters(q.buf, q.len)
    ensures Carries(w.mem, q, Expected(Then(w.trace, Issued(q)), q.fd))
  {
    var exp, more := Expected(w.trace, q.fd), Letters(q.buf, q.len);
    assert Expected(Then(w.trace, Issued(q)), q.fd) == exp + more;
    forall k | 0 <= k < q.len ensures w.mem[q.buf][k] == (exp + more)[q.off + k] {
      assert w.mem[q.buf][..q.len][k] == more[k];
    }
  }

  lemma StillOk(w: World, v: World, t: Trace, r: Req)
    requires WriteOk(w, w.trace, r) && v.mem == w.mem && v.files == w.files
    requires Expected(w.trace, r.sqe.fd) <= Expected(t, r.sqe.fd)
    ensures WriteOk(v, t, r)
  {
    hide Expected;
  }

  lemma IssueLands(t: Trace, fd: nat, file: seq<Byte>, exp: seq<Byte>, exp': seq<Byte>, q: Sqe)
    requires Landed(t, fd, file, exp) && exp <= exp'
    ensures Landed(Then(t, Issued(q)), fd, file, exp')
  {
    WritesStayRight(t, fd, file, file, exp, exp');
  }

  lemma ReapWrites(w: World, id: nat)
    requires Writing(w) && w.IsDone(id)
    ensures Writing(Reap(w, id)) && Reap(w, id).mem == w.mem
  {
    var v, r := Reap(w, id), w.reqs[id];
    assert WriteOk(w, w.trace, r);
    assert forall f :: Expected(v.trace, f) == Expected(w.trace, f);
    forall i | i in v.reqs ensures WriteOk(v, v.trace, v.reqs[i]) {
      assert WriteOk(w, w.trace, w.reqs[i]);
    }
    forall f | 0 <= f < |w.files| ensures Landed(v.trace, f, v.files[f], Expected(v.trace, f)) {
      assert Landed(w.trace, f, w.files[f], Expected(w.trace, f));
    }
  }

  // ---------- at the end ----------

  /** Byte k that a write puts into its file. */
  ghost predicate LetterAt(whole: seq<Byte>, q: Sqe, k: nat)
    requires q.off + k < |whole|
  {
    whole[q.off + k] as int == 97 + (q.buf + k) % U32 % 26
  }

  /** Every write issued carries the letters of its buffer to its place. */
  ghost predicate LettersOf(t: Trace, wholes: seq<seq<Byte>>) {
    match t
    case Start => true
    case Then(b, Issued(q)) =>
      LettersOf(b, wholes)
      && (q.dir.Write? ==>
            && q.fd < |wholes| && q.off + q.len <= |wholes[q.fd]|
            && forall k | 0 <= k < q.len :: LetterAt(wholes[q.fd], q, k))
    case Then(b, _) => LettersOf(b, wholes)
  }

  /** The ranges written of every file follow each other; each write is tagged with its kind and its buffer. */
  ghost predicate InRows(t: Trace, n: nat) {
    match t
    case Start => true
    case Then(b, Issued(q)) =>
      && InRows(b, n) && q.dir.Write? && q.fd < n && q.off == |Expected(b, q.fd)|
      && q.at == 0 && q.ud == 0x1_0000_0000 + q.buf
    case Then(b, _) => InRows(b, n)
  }

  lemma IssuedLetters(b: Trace, q: Sqe, whole: seq<Byte>)
    requires q.dir.Write? && q.off == |Expected(b, q.fd)| && Expected(Then(b, Issued(q)), q.fd) <= whole
    ensures q.off + q.len <= |whole| && forall k | 0 <= k < q.len :: LetterAt(whole, q, k)
  {
    var more := Letters(q.buf, q.len);
    hide LetterAt, Letters;
    LettersAt(Expected(b, q.fd), more, whole);
    forall k | 0 <= k < q.len ensures LetterAt(whole, q, k) {
      LetterIs(whole, q, k);
    }
  }

  lemma LetterIs(whole: seq<Byte>, q: Sqe, k: nat)
    requires k < q.len && q.off + k < |whole| && whole[q.off + k] == Letters(q.buf, q.len)[k]
    ensures LetterAt(whole, q, k)
  {
  }

  lemma ExpectedGrows(t: Trace, f: nat)
    requires t.Then?
    ensures Expected(t.before, f) <= Expected(t, f)
  {
  }

  lemma {:induction false} ExpectedLetters(t: Trace, wholes: seq<seq<Byte>>)
    requires InRows(t, |wholes|) && forall f | 0 <= f < |wholes| :: Expected(t, f) <= wholes[f]
    ensures LettersOf(t, wholes)
  {
    hide Expected, LetterAt;
    if t.Then? {
      forall f | 0 <= f < |wholes| ensures Expected(t.before, f) <= wholes[f] {
        ExpectedGrows(t, f);
      }
      ExpectedLetters(t.before, wholes);
      if t.event.Issued? {
        IssuedLetters(t.before, t.event.sqe, wholes[t.event.sqe.fd]);
      }
    }
  }

  lemma LettersAt(front: seq<Byte>, more: seq<Byte>, whole: seq<Byte>)
    requires front + more <= whole
    ensures forall k {:trigger more[k]} | 0 <= k < |more| :: whole[|front| + k] == more[k]
  {
    forall k | 0 <= k < |more| ensures whole[|front| + k] == more[k] {
      assert (front + more)[|front| + k] == more[k];
    }
  }

  /** Each byte is in the range of some write. */
  lemma {:induction false} WriteAt(t: Trace, n: nat, f: nat, p: nat) returns (q: Sqe)
    requires InRows(t, n) && p < |Expected(t, f)|
    ensures q in IssuedOps(t) && q.dir.Write? && q.fd == f && q.off <= p < q.off + q.len
  {
    if t.event.Issued? && t.event.sqe.fd == f && p >= |Expected(t.before, f)| {
      q := t.event.sqe;
    } else {
      q := WriteAt(t.before, n, f, p);
    }
  }

  /** Without loss a write consumed is right from end to end. */
  lemma {:induction false} ConsumedRight(t: Trace, file: seq<Byte>, exp: seq<Byte>, q: Sqe)
    requires q in ReapedOps(t) && Lost(t) == 0 && WritesRight(t, q.fd, file, exp) && q.dir.Write? && q.len > 0
    requires NothingOver(t)
    ensures RangeRight(file, exp, q.off, q.len)
  {
    if !(t.event.Reaped? && t.event.sqe == q) {
      ConsumedRight(t.before, file, exp, q);
    }
  }

  /** No completion reports an error, or more than was asked for. */
  ghost predicate NothingOver(t: Trace) {
    t.Then? ==> NothingOver(t.before) && (t.event.Reaped? ==> 0 <= t.event.res <= t.event.sqe.len)
  }

  lemma ByteArrived(t: Trace, n: nat, f: nat, file: seq<Byte>, p: nat)
    requires InRows(t, n) && IssuedOps(t) == ReapedOps(t) && Lost(t) == 0 && NothingOver(t)
    requires Landed(t, f, file, Expected(t, f)) && p < |Expected(t, f)|
    ensures p < |file| && file[p] == Expected(t, f)[p]
  {
    hide Expected, IssuedOps, ReapedOps, Lost;
    var q := WriteAt(t, n, f, p);
    ConsumedRight(t, file, Expected(t, f), q);
  }

  /** When everything issued has been consumed without loss, the files are as expected. */
  lemma WholeFile(t: Trace, n: nat, f: nat, file: seq<Byte>)
    requires InRows(t, n) && IssuedOps(t) == ReapedOps(t) && Lost(t) == 0 && NothingOver(t)
    requires Landed(t, f, file, Expected(t, f))
    ensures file == Expected(t, f)
  {
    var exp := Expected(t, f);
    hide Expected, IssuedOps, ReapedOps, Lost;
    if exp != [] {
      ByteArrived(t, n, f, file, |exp| - 1);
    }
    forall p | 0 <= p < |exp| ensures file[p] == exp[p] {
      ByteArrived(t, n, f, file, p);
    }
  }
}
