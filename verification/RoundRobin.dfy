/**
 The scheduler of uring_write_manyfiles, without the ring: which file gets the next chunk.
 The counter rr is an unsigned int and wraps; a file that is done is skipped.
 */
module RoundRobin {
  import opened IoUring
  import opened Arithmetic
  import opened Sequences

  /** nfiles files of perFile bytes, written in blocks of bs. */
  datatype Shape = Shape(n: nat, perFile: nat, bs: nat)
  {
    predicate Ok() { 0 < n < U32 && 0 < perFile && 0 < bs < U32 }

    /** Chunks of one file. */
    function Rounds(): nat
      requires 0 < bs
    {
      (perFile + bs - 1) / bs
    }

    /** Chunks in all. */
    function Chunks(): nat
      requires 0 < bs
    {
      Rounds() * n
    }

    function ChunkLen(off: nat): nat
      requires off <= perFile
    {
      Min(bs, perFile - off)
    }
  }

  /** The counter and file_off; file_done[i] says that file i has reached perFile. */
  datatype Sched = Sched(rr: nat, offs: seq<nat>)

  ghost predicate Sane(s: Sched, c: Shape) {
    s.rr < U32 && |s.offs| == c.n && forall i | 0 <= i < c.n :: s.offs[i] <= c.perFile
  }

  /** The file the counter points at. */
  function Pointed(s: Sched, c: Shape): nat
    requires 0 < c.n
  {
    s.rr % c.n
  }

  function Advance(s: Sched): Sched { s.(rr := (s.rr + 1) % U32) }

  /** Gives the file pointed at its next chunk. */
  function Serve(s: Sched, c: Shape): Sched
    requires 0 < c.n && Sane(s, c)
  {
    var f := Pointed(s, c);
    Sched((s.rr + 1) % U32, s.offs[f := s.offs[f] + c.ChunkLen(s.offs[f])])
  }

  /** How many of the first t turns fall to file i when turns go round. */
  function Turns(i: nat, t: nat, n: nat): nat
    requires 0 < n
  {
    t / n + if i < t % n then 1 else 0
  }

  /** After t chunks dealt out in turn. */
  ghost predicate Exact(s: Sched, t: nat, c: Shape) {
    && Sane(s, c) && 0 < c.n && s.rr == t % U32
    && forall i | 0 <= i < c.n :: s.offs[i] == Min(c.perFile, Turns(i, t, c.n) * c.bs)
  }

  // ---------- arithmetic ----------

  lemma NextTurn(t: nat, n: nat)
    requires 0 < n
    ensures t % n + 1 < n ==> (t + 1) / n == t / n && (t + 1) % n == t % n + 1
    ensures t % n + 1 == n ==> (t + 1) / n == t / n + 1 && (t + 1) % n == 0
  {
    var q, r := t / n, t % n;
    assert t == q * n + r;
    if r + 1 < n {
      DivModUnique(t + 1, q, r + 1, n);
    } else {
      assert (q + 1) * n == q * n + n;
      DivModUnique(t + 1, q + 1, 0, n);
    }
  }

  lemma TurnsStep(i: nat, t: nat, n: nat)
    requires i < n
    ensures Turns(i, t + 1, n) == Turns(i, t, n) + if i == t % n then 1 else 0
  {
    NextTurn(t, n);
  }

  lemma TurnsNone(i: nat, n: nat)
    requires 0 < n
    ensures Turns(i, 0, n) == 0
  {
    DivModUnique(0, 0, 0, n);
  }

  lemma TurnBelowRounds(t: nat, n: nat, m: nat)
    requires 0 < n && t < m * n
    ensures t / n < m
  {
    var q := t / n;
    assert q * n <= t;
    if q > m {
      Times(m, q, n);
    }
  }

  /** Before the last chunk, the file whose turn it is has room. */
  lemma RoomLeft(t: nat, c: Shape)
    requires c.Ok() && t < c.Chunks()
    ensures (t / c.n) * c.bs < c.perFile
  {
    var q, m := t / c.n, c.Rounds();
    TurnBelowRounds(t, c.n, m);
    assert m * c.bs <= c.perFile + c.bs - 1;
    Times(q, m, c.bs);
  }

  // ---------- one pick ----------

  /** The for loop over tries: skips done files, serves the first other one. */
  function Pick(s: Sched, tries: nat, c: Shape): (Option<nat>, Sched)
    requires 0 < c.n && Sane(s, c)
    decreases tries
  {
    if tries == 0 then (None, s)
    else if s.offs[Pointed(s, c)] >= c.perFile then Pick(Advance(s), tries - 1, c)
    else (Some(Pointed(s, c)), Serve(s, c))
  }

  lemma {:induction false} PickSane(s: Sched, tries: nat, c: Shape)
    requires 0 < c.n && Sane(s, c)
    ensures Sane(Pick(s, tries, c).1, c)
    ensures var found := Pick(s, tries, c).0; found.Some? ==> found.value < c.n && s.offs[found.value] < c.perFile
    decreases tries
  {
    if tries > 0 && s.offs[Pointed(s, c)] >= c.perFile {
      PickSane(Advance(s), tries - 1, c);
    }
  }

  /** The scheduler after t picks. */
  ghost function After(t: nat, c: Shape): (s: Sched)
    requires 0 < c.n
    ensures Sane(s, c)
  {
    if t == 0 then Sched(0, seq(c.n, _ => 0))
    else
      PickSane(After(t - 1, c), c.n, c);
      Pick(After(t - 1, c), c.n, c).1
  }

  /** Dealing in turn: no pick skips a file or comes back empty, and pick t goes to file t mod n. */
  ghost predicate InTurn(c: Shape)
    requires c.Ok()
  {
    forall t | 0 <= t < c.Chunks() ::
      Pointed(After(t, c), c) == t % c.n && After(t, c).offs[t % c.n] < c.perFile
  }

  /** The counter does not wrap within the run, or wraps between two rounds. */
  predicate Aligned(c: Shape)
    requires c.Ok()
  {
    c.Chunks() <= U32 || U32 % c.n == 0
  }

  lemma TurnCovers(s: Sched, t: nat, c: Shape, i: nat)
    requires c.Ok() && Exact(s, t, c) && i < c.n && Pointed(s, c) == t % c.n
    requires (t / c.n) * c.bs < c.perFile
    ensures Serve(s, c).offs[i] == Min(c.perFile, Turns(i, t + 1, c.n) * c.bs)
  {
    TurnsStep(i, t, c.n);
    assert (t / c.n + 1) * c.bs == (t / c.n) * c.bs + c.bs;
  }

  lemma PickServes(s: Sched, c: Shape)
    requires 0 < c.n && Sane(s, c) && s.offs[Pointed(s, c)] < c.perFile
    ensures Pick(s, c.n, c) == (Some(Pointed(s, c)), Serve(s, c)) && Sane(Serve(s, c), c)
  {
  }

  lemma CounterStep(rr: nat, t: nat)
    requires rr == t % U32
    ensures (rr + 1) % U32 == (t + 1) % U32
  {
  }

  lemma ServeCovers(s: Sched, t: nat, c: Shape)
    requires c.Ok() && Exact(s, t, c) && Pointed(s, c) == t % c.n && (t / c.n) * c.bs < c.perFile
    ensures forall i | 0 <= i < c.n :: Serve(s, c).offs[i] == Min(c.perFile, Turns(i, t + 1, c.n) * c.bs)
  {
    forall i | 0 <= i < c.n
      ensures Serve(s, c).offs[i] == Min(c.perFile, Turns(i, t + 1, c.n) * c.bs)
    {
      TurnCovers(s, t, c, i);
    }
  }

  lemma ServeExact(s: Sched, t: nat, c: Shape)
    requires c.Ok() && Exact(s, t, c) && t < c.Chunks() && Pointed(s, c) == t % c.n
    ensures s.offs[t % c.n] == (t / c.n) * c.bs < c.perFile
    ensures Exact(Serve(s, c), t + 1, c) && Pick(s, c.n, c) == (Some(t % c.n), Serve(s, c))
  {
    RoomLeft(t, c);
    assert Turns(t % c.n, t, c.n) == t / c.n;
    hide Turns, Pick, Shape.Chunks, Shape.Rounds;
    PickServes(s, c);
    CounterStep(s.rr, t);
    ServeCovers(s, t, c);
  }

  lemma MultipleOfDivisor(t: nat, m: nat, n: nat)
    requires 0 < n && 0 < m && m % n == 0
    ensures (t % m) % n == t % n
  {
    var k, j, u := m / n, t / m, t % m;
    var q := u / n;
    assert m == k * n && t == j * m + u && u == q * n + u % n;
    Linear(j, k, n, q);
    DivModUnique(t, j * k + q, u % n, n);
  }

  lemma Linear(j: nat, k: nat, n: nat, q: nat)
    ensures (j * k + q) * n == j * (k * n) + q * n
  {
    assert (j * k) * n == j * (k * n);
  }

  lemma PointsInTurn(t: nat, c: Shape)
    requires c.Ok() && Aligned(c) && t < c.Chunks()
    ensures (t % U32) % c.n == t % c.n
  {
    if c.Chunks() > U32 {
      hide *;
      MultipleOfDivisor(t, U32, c.n);
    }
  }

  /** With an aligned counter every state is exact. */
  lemma {:induction false} AlignedExact(t: nat, c: Shape)
    requires c.Ok() && Aligned(c) && t <= c.Chunks()
    ensures Exact(After(t, c), t, c)
  {
    if t == 0 {
      ZeroTurns(c);
    } else {
      AlignedExact(t - 1, c);
      PointsInTurn(t - 1, c);
      ServeExact(After(t - 1, c), t - 1, c);
    }
  }

  lemma ZeroTurns(c: Shape)
    requires c.Ok()
    ensures forall i | 0 <= i < c.n :: Turns(i, 0, c.n) * c.bs == 0
  {
    DivModUnique(0, 0, 0, c.n);
  }

  lemma {:induction false} InTurnExact(t: nat, c: Shape)
    requires c.Ok() && InTurn(c) && t <= c.Chunks()
    ensures Exact(After(t, c), t, c)
  {
    if t == 0 {
      ZeroTurns(c);
    } else {
      InTurnExact(t - 1, c);
      ServeExact(After(t - 1, c), t - 1, c);
    }
  }

  /** The chunks are dealt exactly in turn if and only if the counter is aligned. */
  lemma InTurnIffAligned(c: Shape)
    requires c.Ok()
    ensures InTurn(c) <==> Aligned(c)
  {
    if Aligned(c) {
      forall t | 0 <= t < c.Chunks()
        ensures Pointed(After(t, c), c) == t % c.n && After(t, c).offs[t % c.n] < c.perFile
      {
        AlignedExact(t, c);
        PointsInTurn(t, c);
        ServeExact(After(t, c), t, c);
      }
    } else if InTurn(c) {
      // when the counter wraps, file 0 comes up where file 2^32 mod n should
      InTurnExact(U32, c);
      DivModUnique(0, 0, 0, c.n);
      assert Pointed(After(U32, c), c) == 0;
      assert false;
    }
  }

  /** Three files of 4096 MiB in blocks of one byte: the counter wraps within the first third of the
      run, and the chunks are no longer dealt in turn. */
  lemma ThreeBigFilesGetOutOfTurn()
    ensures var c := Shape(3, 4096 * 1024 * 1024, 1); c.Ok() && !InTurn(c)
  {
    var c := Shape(3, 4096 * 1024 * 1024, 1);
    assert c.Chunks() == 3 * U32;
    InTurnIffAligned(c);
  }

  // ---------- the chunks that searches deal out ----------

  /** A chunk for a file. */
  datatype Deal = Deal(file: nat, off: nat, len: nat)

  /** The chunks found by the first p searches. */
  ghost function DealtBy(p: nat, c: Shape): seq<Deal>
    requires 0 < c.n
  {
    if p == 0 then []
    else DealtBy(p - 1, c) + match DealAt(p - 1, c) case None => [] case Some(d) => [d]
  }

  function DealBytes(deals: seq<Deal>): nat {
    if deals == [] then 0 else DealBytes(deals[..|deals| - 1]) + deals[|deals| - 1].len
  }

  /** A pick adds its chunk to one file. */
  lemma {:induction false} PickAdds(s: Sched, tries: nat, c: Shape)
    requires 0 < c.n && Sane(s, c)
    ensures var (found, s1) := Pick(s, tries, c);
            match found
            case None => s1.offs == s.offs
            case Some(f) =>
              f < c.n && s.offs[f] <= c.perFile && s1.offs == s.offs[f := s.offs[f] + c.ChunkLen(s.offs[f])]
    decreases tries
  {
    if tries > 0 && s.offs[Pointed(s, c)] >= c.perFile {
      PickAdds(Advance(s), tries - 1, c);
    }
  }

  /** The chunk that search p deals out, if any. */
  ghost function DealAt(p: nat, c: Shape): (d: Option<Deal>)
    requires 0 < c.n
    ensures d.Some? ==> d.value.file < c.n
  {
    var s := After(p, c);
    PickSane(s, c.n, c);
    match Pick(s, c.n, c).0
    case None => None
    case Some(f) => Some(Deal(f, s.offs[f], c.ChunkLen(s.offs[f])))
  }

  lemma DealtNext(p: nat, c: Shape)
    requires 0 < c.n
    ensures match DealAt(p, c)
            case None => After(p + 1, c).offs == After(p, c).offs && DealtBy(p + 1, c) == DealtBy(p, c)
            case Some(d) =>
              && d.off == After(p, c).offs[d.file] && DealtBy(p + 1, c) == DealtBy(p, c) + [d]
              && After(p + 1, c).offs == After(p, c).offs[d.file := d.off + d.len]
  {
    PickAdds(After(p, c), c.n, c);
    hide Pick, Shape.ChunkLen;
  }

  /** The files hold what has been dealt out. */
  lemma {:induction false} DealtBytes(p: nat, c: Shape)
    requires 0 < c.n
    ensures DealBytes(DealtBy(p, c)) == Sum(After(p, c).offs)
  {
    hide Pick, Sum, After, DealtBy, DealBytes, DealAt;
    if p == 0 {
      NothingDealt(c);
    } else {
      DealtBytes(p - 1, c);
      DealtNext(p - 1, c);
      if DealAt(p - 1, c).Some? {
        var d := DealAt(p - 1, c).value;
        SumUpdate(After(p - 1, c).offs, d.file, d.off + d.len);
        DealSnoc(DealtBy(p - 1, c), d);
      }
    }
  }

  lemma NothingDealt(c: Shape)
    requires 0 < c.n
    ensures DealBytes(DealtBy(0, c)) == 0 == Sum(After(0, c).offs)
  {
    SumOfEqual(After(0, c).offs, 0);
  }

  lemma DealSnoc(deals: seq<Deal>, d: Deal)
    ensures DealBytes(deals + [d]) == DealBytes(deals) + d.len
  {
    assert (deals + [d])[..|deals|] == deals;
  }

  // ---------- searches that come back empty ----------

  /** Searches a..b all find a file. */
  ghost predicate FoundAll(a: nat, b: nat, c: Shape)
    requires 0 < c.n
  {
    forall p | a <= p < b :: Found(p, c)
  }

  /** Search p, counted from 0, finds a file. */
  ghost predicate Found(p: nat, c: Shape)
    requires 0 < c.n
  {
    Pick(After(p, c), c.n, c).0.Some?
  }

  /** The file that the counter points at k tries on. */
  function TryAt(rr: nat, k: nat, n: nat): (f: nat)
    requires 0 < n
    ensures f < n
  {
    (rr + k) % U32 % n
  }

  lemma NextTry(rr: nat, k: nat, n: nat)
    requires 0 < n
    ensures TryAt((rr + 1) % U32, k, n) == TryAt(rr, k + 1, n)
  {
    var q, r := (rr + 1) / U32, (rr + 1) % U32;
    ModAdd(r + k, q, U32);
    assert rr + (k + 1) == r + k + q * U32;
  }

  /** A search comes back empty exactly if all files it tries are done. */
  lemma {:induction false} EmptyIff(s: Sched, tries: nat, c: Shape)
    requires 0 < c.n && Sane(s, c)
    ensures Pick(s, tries, c).0.None? <==> forall k | 0 <= k < tries :: s.offs[TryAt(s.rr, k, c.n)] >= c.perFile
    decreases tries
  {
    hide TryAt;
    if tries > 0 {
      assert TryAt(s.rr, 0, c.n) == Pointed(s, c) by { FirstTry(s, c); }
      if s.offs[Pointed(s, c)] >= c.perFile {
        var s1 := Advance(s);
        EmptyIff(s1, tries - 1, c);
        forall k | 0 <= k < tries - 1 ensures TryAt(s1.rr, k, c.n) == TryAt(s.rr, k + 1, c.n) {
          NextTry(s.rr, k, c.n);
        }
        if Pick(s, tries, c).0.None? {
          forall k | 0 <= k < tries ensures s.offs[TryAt(s.rr, k, c.n)] >= c.perFile {
            if k > 0 {
              assert TryAt(s1.rr, k - 1, c.n) == TryAt(s.rr, k, c.n);
            }
          }
        }
      }
    }
  }

  lemma FirstTry(s: Sched, c: Shape)
    requires 0 < c.n && Sane(s, c)
    ensures TryAt(s.rr, 0, c.n) == Pointed(s, c)
  {
  }

  /** Unless the counter wraps on the way, a search tries every file. */
  lemma TriesCover(rr: nat, n: nat, f: nat) returns (k: nat)
    requires f < n && rr + n <= U32
    ensures k < n && TryAt(rr, k, n) == f
  {
    var q, r := rr / n, rr % n;
    assert rr == q * n + r;
    k := if f >= r then f - r else f + n - r;
    hide *;
    ShiftWithin(q, r, n, f);
    TryWithout(rr, k, n);
  }

  lemma ShiftWithin(q: nat, r: nat, n: nat, f: nat)
    requires r < n && f < n
    ensures (q * n + r + if f >= r then f - r else f + n - r) % n == f
  {
    if f >= r {
      DivModUnique(q * n + f, q, f, n);
    } else {
      assert (q + 1) * n == q * n + n;
      DivModUnique((q + 1) * n + f, q + 1, f, n);
    }
  }

  lemma TryWithout(rr: nat, k: nat, n: nat)
    requires 0 < n && rr + k < U32
    ensures TryAt(rr, k, n) == (rr + k) % n
  {
  }

  /** A search that misses an unfinished file crosses the wrap of the counter. */
  lemma EmptyCrossesTheWrap(s: Sched, c: Shape, f: nat)
    requires 0 < c.n && Sane(s, c) && f < c.n && s.offs[f] < c.perFile && Pick(s, c.n, c).0.None?
    ensures s.rr + c.n > U32
  {
    EmptyIff(s, c.n, c);
    if s.rr + c.n <= U32 {
      var _ := TriesCover(s.rr, c.n, f);
      assert false;  // f would have been tried
    }
  }
}
