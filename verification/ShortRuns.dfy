/**
 Which runs of uring_write_manyfiles end with chunks unqueued. A tick is one value of the counter
 used up, whether the file it names is served or skipped; the file offsets depend on the number of
 ticks alone.
 */
module ShortRuns {
  import opened IoUring
  import opened Arithmetic
  import opened Sequences
  import opened RoundRobin

  // ---------- ticks ----------

  /** How many of the first ticks name file i. */
  function Hits(i: nat, ticks: nat, n: nat): nat
    requires 0 < n
  {
    (ticks / U32) * Turns(i, U32, n) + Turns(i, ticks % U32, n)
  }

  lemma HitsStep(i: nat, x: nat, n: nat)
    requires i < n
    ensures Hits(i, x + 1, n) == Hits(i, x, n) + if i == x % U32 % n then 1 else 0
  {
    hide Turns;
    var k, turns := x / U32, Turns(i, U32, n);
    NextTurn(x, U32);
    TurnsStep(i, x % U32, n);
    TurnsNone(i, n);
    assert (k + 1) * turns == k * turns + turns;
  }

  /** Bytes of a file that has been named so often. */
  function Held(hits: nat, c: Shape): (h: nat)
    ensures h <= c.perFile
  {
    Min(c.perFile, hits * c.bs)
  }

  lemma HeldStep(hits: nat, c: Shape)
    requires c.Ok()
    ensures var h := Held(hits, c);
            Held(hits + 1, c) == if h < c.perFile then h + c.ChunkLen(h) else h
  {
    assert (hits + 1) * c.bs == hits * c.bs + c.bs;
  }

  /** A file is full exactly when it has been named once for each of its chunks. */
  lemma FullIff(hits: nat, c: Shape)
    requires c.Ok()
    ensures Held(hits, c) < c.perFile <==> hits < c.Rounds()
  {
    var m := c.Rounds();
    assert m * c.bs <= c.perFile + c.bs - 1 < m * c.bs + c.bs;
    if hits < m {
      Times(hits, m, c.bs);
    } else if hits > m {
      Times(m, hits, c.bs);
    }
  }

  /** The scheduler after x ticks. */
  ghost predicate Ticked(s: Sched, x: nat, c: Shape) {
    && c.Ok() && Sane(s, c) && s.rr == x % U32
    && forall i | 0 <= i < c.n :: s.offs[i] == Held(Hits(i, x, c.n), c)
  }

  ghost predicate Full(s: Sched, i: nat, c: Shape)
    requires Sane(s, c) && i < c.n
  {
    s.offs[i] >= c.perFile
  }

  /** One try. */
  ghost function Tick(s: Sched, c: Shape): Sched
    requires 0 < c.n && Sane(s, c)
  {
    if Full(s, Pointed(s, c), c) then Advance(s) else Serve(s, c)
  }

  lemma TickKeeps(s: Sched, x: nat, c: Shape)
    requires Ticked(s, x, c)
    ensures Ticked(Tick(s, c), x + 1, c)
  {
    hide Hits, Held, Shape.ChunkLen;
    CounterStep(s.rr, x);
    forall i | 0 <= i < c.n ensures Tick(s, c).offs[i] == Held(Hits(i, x + 1, c.n), c) {
      HitsStep(i, x, c.n);
      HeldStep(Hits(i, x, c.n), c);
    }
  }

  /** The ticks of one search. */
  ghost function Used(s: Sched, tries: nat, c: Shape): nat
    requires 0 < c.n && Sane(s, c)
    decreases tries
  {
    if tries == 0 then 0
    else if Full(s, Pointed(s, c), c) then 1 + Used(Advance(s), tries - 1, c)
    else 1
  }

  lemma {:induction false} PickTicked(s: Sched, x: nat, tries: nat, c: Shape)
    requires Ticked(s, x, c)
    ensures Ticked(Pick(s, tries, c).1, x + Used(s, tries, c), c)
    ensures (tries > 0 ==> Used(s, tries, c) > 0) && (Pick(s, tries, c).0.None? ==> Used(s, tries, c) == tries)
    decreases tries
  {
    hide Ticked;
    TickedSane(s, x, c);
    if tries > 0 {
      TickKeeps(s, x, c);
      if Full(s, Pointed(s, c), c) {
        PickTicked(Advance(s), x + 1, tries - 1, c);
      }
    }
  }

  lemma TickedSane(s: Sched, x: nat, c: Shape)
    requires Ticked(s, x, c)
    ensures c.Ok() && Sane(s, c)
  {
  }

  /** The ticks of the first p searches. */
  ghost function TickOf(p: nat, c: Shape): nat
    requires 0 < c.n
  {
    if p == 0 then 0 else TickOf(p - 1, c) + Used(After(p - 1, c), c.n, c)
  }

  /** Whatever the searches found, their ticks tell what the files hold. */
  lemma {:induction false} AfterTicked(p: nat, c: Shape)
    requires c.Ok()
    ensures Ticked(After(p, c), TickOf(p, c), c)
    ensures TickOf(p, c) < TickOf(p + 1, c) && (!Found(p, c) ==> TickOf(p + 1, c) == TickOf(p, c) + c.n)
  {
    hide Ticked, Used, Pick;
    if p == 0 {
      NoTicks(c);
    } else {
      AfterTicked(p - 1, c);
      PickTicked(After(p - 1, c), TickOf(p - 1, c), c.n, c);
    }
    PickTicked(After(p, c), TickOf(p, c), c.n, c);
  }

  lemma NoTicks(c: Shape)
    requires c.Ok()
    ensures Ticked(After(0, c), 0, c)
  {
    forall i | 0 <= i < c.n ensures Hits(i, 0, c.n) == 0 {
      TurnsNone(i, c.n);
    }
  }

  /** A file holds all its bytes exactly when its chunks have all been named. */
  lemma UnfinishedIff(p: nat, f: nat, c: Shape)
    requires c.Ok() && f < c.n
    ensures After(p, c).offs[f] < c.perFile <==> Hits(f, TickOf(p, c), c.n) < c.Rounds()
  {
    AfterTicked(p, c);
    hide Hits, Held, After, TickOf, Shape.Rounds;
    FullIff(Hits(f, TickOf(p, c), c.n), c);
  }

  /** A tick that names an unfinished file is the last one of its search. */
  lemma {:induction false} ServedLast(s: Sched, x0: nat, tries: nat, x: nat, c: Shape)
    requires Ticked(s, x0, c) && x0 <= x < x0 + Used(s, tries, c) && Hits(x % U32 % c.n, x, c.n) < c.Rounds()
    ensures x0 + Used(s, tries, c) == x + 1
    decreases tries
  {
    hide Hits, Held, Shape.Rounds, Serve;
    TickKeeps(s, x0, c);
    FullIff(Hits(Pointed(s, c), x0, c.n), c);
    if Full(s, Pointed(s, c), c) {
      ServedLast(Advance(s), x0 + 1, tries - 1, x, c);
    }
  }

  /** So a search ends there. */
  lemma EndsWithTick(x: nat, c: Shape) returns (p: nat)
    requires c.Ok() && Hits(x % U32 % c.n, x, c.n) < c.Rounds()
    ensures TickOf(p, c) == x + 1
  {
    hide Hits, Shape.Rounds, Ticked;
    p := SearchAt(x, c);
    AfterTicked(p, c);
    ServedLast(After(p, c), TickOf(p, c), c.n, x, c);
    p := p + 1;
  }

  /** The search that tick x belongs to. */
  lemma {:induction false} SearchAt(x: nat, c: Shape) returns (p: nat)
    requires c.Ok()
    ensures TickOf(p, c) <= x < TickOf(p + 1, c)
  {
    hide TickOf;
    if x == 0 {
      p := 0;
      TickZero(c);
      AfterTicked(p, c);
    } else {
      p := SearchAt(x - 1, c);
      AfterTicked(p + 1, c);
      if x == TickOf(p + 1, c) {
        p := p + 1;
      }
    }
  }

  lemma TickZero(c: Shape)
    requires 0 < c.n
    ensures TickOf(0, c) == 0
  {
  }

  // ---------- shapes ----------

  /** After p searches some file has room. */
  ghost predicate Unfinished(p: nat, c: Shape)
    requires 0 < c.n
  {
    exists f | 0 <= f < c.n :: After(p, c).offs[f] < c.perFile
  }

  /** Some search misses an unfinished file. */
  ghost predicate Stalls(c: Shape)
    requires 0 < c.n
  {
    exists p: nat :: !Found(p, c) && Unfinished(p, c)
  }

  /** m lies between k and k (q + 1), exclusive, for q whole rounds under 2^32. */
  predicate Between(m: nat, k: nat, q: nat) { k * q < m < k * (q + 1) }

  /** 2^32 leaves a remainder of at least half the number of files, and the chunks of a file lie
      between q and q + 1 times the same number, q being the whole rounds that fit under 2^32. */
  predicate EndsShort(c: Shape)
  {
    && c.Ok() && c.n <= 2 * (U32 % c.n)
    && var q := U32 / c.n; 0 < q && Between(c.Rounds(), (c.Rounds() - 1) / q, q)
  }

  /** Any such number will do. */
  lemma EndsShortIff(c: Shape)
    requires c.Ok()
    ensures EndsShort(c) <==> c.n <= 2 * (U32 % c.n) && exists k: nat :: Between(c.Rounds(), k, U32 / c.n)
  {
    WholeRounds(c.n);
    var m, q := c.Rounds(), U32 / c.n;
    hide Shape.Rounds;
    SomeChunk(c);
    if k: nat :| Between(m, k, q) {
      LargestFits(m, k, q);
    }
  }

  lemma SomeChunk(c: Shape)
    requires c.Ok()
    ensures 0 < c.Rounds()
  {
  }

  lemma WholeRounds(n: nat)
    requires 0 < n < U32
    ensures 0 < U32 / n && U32 == U32 / n * n + U32 % n
  {
    if U32 / n == 0 {
      assert false;
    }
  }

  lemma LargestFits(m: nat, k: nat, q: nat)
    requires 0 < q && Between(m, k, q)
    ensures Between(m, (m - 1) / q, q)
  {
    var top, e := (m - 1) / q, (m - 1) % q;
    assert m - 1 == top * q + e;
    if top < k {
      Times(top, k, q);
    } else if k < top {
      Times(k, top, q + 1);
      assert (top + 1) * q == top * q + q;
    }
  }

  /** The hits within whole periods of the counter and some ticks more. */
  lemma HitsAt(i: nat, k: nat, t: nat, n: nat)
    requires i < n < U32 && t < U32
    ensures Hits(i, k * U32 + t, n) == k * (U32 / n + if i < U32 % n then 1 else 0) + Turns(i, t, n)
  {
    DivModUnique(k * U32 + t, k, t, U32);
  }

  /** What a try names, before and after the wrap. */
  lemma TryNames(rr: nat, k: nat, n: nat)
    requires 0 < n && rr < U32 && k < U32
    ensures TryAt(rr, k, n) == if rr + k < U32 then (rr + k) % n else (rr + k - U32) % n
  {
  }

  // ---------- every such shape stalls ----------

  /** The hits when the counter has come round k - 1 times and then through q whole rounds. */
  lemma HitsBeforeStall(i: nat, k: nat, n: nat)
    requires i < n < U32 && 0 < k && 0 < U32 % n
    ensures var q, r := U32 / n, U32 % n;
            Hits(i, (k - 1) * U32 + q * n, n) == if i < r then k * (q + 1) - 1 else k * q
  {
    var q, r := U32 / n, U32 % n;
    WholeRounds(n);
    hide Hits;
    HitsAt(i, k - 1, q * n, n);
    DivModUnique(q * n, q, 0, n);
    assert (k - 1) * q == k * q - q && (k - 1) * (q + 1) == k * (q + 1) - (q + 1);
  }

  /** The tick before names the last file. */
  lemma TickBeforeStall(k: nat, n: nat) returns (x: nat)
    requires 0 < n < U32 && 0 < k && 0 < U32 % n
    ensures x + 1 == (k - 1) * U32 + U32 / n * n && x % U32 % n == n - 1
    ensures Hits(n - 1, x, n) + 1 == k * (U32 / n)
  {
    var q := U32 / n;
    WholeRounds(n);
    Times(0, q, n);
    var t := q * n - 1;
    x := (k - 1) * U32 + t;
    hide Hits;
    HitsBeforeStall(n - 1, k, n);
    HitsStep(n - 1, x, n);
    DivModUnique(x, k - 1, t, U32);
    assert t == (q - 1) * n + (n - 1);
    DivModUnique(t, q - 1, n - 1, n);
  }

  /** From there a search tries only files below the remainder: those up to the wrap, then from file 0. */
  lemma TriesFirstFiles(j: nat, n: nat)
    requires j < n < U32 && n <= 2 * (U32 % n)
    ensures TryAt(U32 / n * n, j, n) < U32 % n
  {
    var q, r := U32 / n, U32 % n;
    WholeRounds(n);
    TryNames(q * n, j, n);
    if j < r {
      DivModUnique(q * n + j, q, j, n);
    } else {
      DivModUnique(j - r, 0, j - r, n);
    }
  }

  /** The search that starts there misses the last file. */
  lemma EndsShortStalls(c: Shape) returns (p: nat)
    requires EndsShort(c)
    ensures !Found(p, c) && Unfinished(p, c)
  {
    var n, m, q := c.n, c.Rounds(), U32 / c.n;
    var k := (m - 1) / q;
    hide Hits, TryAt, After, TickOf, Found, Shape.Rounds;
    var x := TickBeforeStall(k, n);
    p := EndsWithTick(x, c);
    StallsAt(p, k, c);
  }

  lemma StallsAt(p: nat, k: nat, c: Shape)
    requires c.Ok() && c.n <= 2 * (U32 % c.n) && Between(c.Rounds(), k, U32 / c.n) && 0 < k
    requires TickOf(p, c) == (k - 1) * U32 + U32 / c.n * c.n
    ensures !Found(p, c) && Unfinished(p, c)
  {
    var n, s := c.n, After(p, c);
    hide Hits, TryAt, After, TickOf, Shape.Rounds;
    WholeRounds(n);
    AfterTicked(p, c);
    DivModUnique(TickOf(p, c), k - 1, U32 / n * n, U32);
    forall j | 0 <= j < n ensures s.offs[TryAt(s.rr, j, n)] >= c.perFile {
      TriesFirstFiles(j, n);
      HitsBeforeStall(TryAt(s.rr, j, n), k, n);
      UnfinishedIff(p, TryAt(s.rr, j, n), c);
    }
    EmptyIff(s, n, c);
    HitsBeforeStall(n - 1, k, n);
    UnfinishedIff(p, n - 1, c);
  }

  // ---------- no other shape does ----------

  /** All files that an empty search tries have had all their chunks. */
  ghost predicate Missed(x: nat, n: nat, m: nat)
    requires 0 < n
  {
    forall j | 0 <= j < n :: Hits(TryAt(x % U32, j, n), x, n) >= m
  }

  lemma EmptyMisses(p: nat, c: Shape)
    requires c.Ok() && !Found(p, c)
    ensures Missed(TickOf(p, c), c.n, c.Rounds())
  {
    var n, s := c.n, After(p, c);
    hide Hits, TryAt, After, TickOf, Shape.Rounds;
    AfterTicked(p, c);
    EmptyIff(s, n, c);
    forall j | 0 <= j < n ensures Hits(TryAt(s.rr, j, n), TickOf(p, c), n) >= c.Rounds() {
      UnfinishedIff(p, TryAt(s.rr, j, n), c);
    }
  }

  lemma HitsNow(i: nat, x: nat, n: nat)
    requires i < n < U32
    ensures var k, t, q, r := x / U32, x % U32, U32 / n, U32 % n;
            && Hits(i, x, n) == k * (if i < r then q + 1 else q) + Turns(i, t, n)
            && Hits(i, x, n) >= k * q + t / n
  {
    HitsAt(i, x / U32, x % U32, n);
  }

  /** A search that does not start behind the last whole round before the wrap tries the last file. */
  lemma TriesLastFile(t: nat, n: nat) returns (j: nat)
    requires 0 < n < U32 && t < U32 && t / n != U32 / n
    ensures j < n && TryAt(t, j, n) == n - 1
  {
    var d, q := t / n, U32 / n;
    WholeRounds(n);
    assert t == d * n + t % n;
    hide *;
    j := n - 1 - t % n;
    if q < d {
      Times(q, d, n);
      assert false;
    }
    Times(d, q, n);
    TryNames(t, j, n);
    DivModUnique(d * n + (n - 1), d, n - 1, n);
  }

  /** No file has fewer hits than the last. */
  lemma LastHasFewest(x: nat, n: nat, g: nat)
    requires g < n < U32
    ensures Hits(n - 1, x, n) <= Hits(g, x, n)
  {
    hide Hits;
    HitsNow(n - 1, x, n);
    HitsNow(g, x, n);
    WholeRounds(n);
    assert Turns(n - 1, x % U32, n) == x % U32 / n;
  }

  /** So an empty search that misses a file starts there. */
  lemma MissesAtTail(x: nat, n: nat, m: nat, g: nat)
    requires g < n < U32 && Missed(x, n, m) && Hits(g, x, n) < m
    ensures x % U32 / n == U32 / n
  {
    hide Hits, TryAt;
    if x % U32 / n != U32 / n {
      var j := TriesLastFile(x % U32, n);
      assert Hits(TryAt(x % U32, j, n), x, n) >= m;
      LastHasFewest(x, n, g);
      assert false;
    }
  }

  /** It tries the files up to the remainder before the wrap, then from file 0. */
  lemma TriesAround(t: nat, n: nat)
    requires 0 < n < U32 && t < U32 && t / n == U32 / n
    ensures var r, u := U32 % n, t % n;
            && u < r < n && TryAt(t, r - 1 - u, n) == r - 1
            && u + n - 1 >= r && TryAt(t, n - 1, n) == u + n - 1 - r
  {
    var q, r, u := U32 / n, U32 % n, t % n;
    WholeRounds(n);
    assert t == q * n + u;
    hide *;
    TryNames(t, r - 1 - u, n);
    DivModUnique(q * n + (r - 1), q, r - 1, n);
    TryNames(t, n - 1, n);
    DivModUnique(u + n - 1 - r, 0, u + n - 1 - r, n);
  }

  lemma HitsAtTail(i: nat, x: nat, n: nat)
    requires i < n < U32 && x % U32 / n == U32 / n
    ensures var k, q := x / U32 + 1, U32 / n;
            Hits(i, x, n) == (if i < U32 % n then k * (q + 1) - 1 else k * q) + if i < x % U32 % n then 1 else 0
  {
    var k, q := x / U32, U32 / n;
    assert (k + 1) * q == k * q + q && (k + 1) * (q + 1) == k * (q + 1) + q + 1;
    hide Hits;
    HitsNow(i, x, n);
  }

  /** That bounds the chunks of a file, and the remainder. */
  lemma MissesBetween(x: nat, n: nat, m: nat, g: nat)
    requires g < n < U32 && Missed(x, n, m) && Hits(g, x, n) < m
    ensures n <= 2 * (U32 % n) && Between(m, x / U32 + 1, U32 / n)
  {
    var t, r := x % U32, U32 % n;
    var last := t % n + n - 1 - r;
    MissesAtTail(x, n, m, g);
    TriesAround(t, n);
    assert Hits(TryAt(t, r - 1 - t % n, n), x, n) >= m && Hits(TryAt(t, n - 1, n), x, n) >= m;
    hide Hits, TryAt, Missed;
    HitsAtTail(g, x, n);
    HitsAtTail(r - 1, x, n);
    HitsAtTail(last, x, n);
  }

  /** A search can come back empty before all files are done if and only if the shape is such. */
  lemma StallsIffEndsShort(c: Shape)
    requires c.Ok()
    ensures Stalls(c) <==> EndsShort(c)
  {
    hide Found, Unfinished, EndsShort;
    if EndsShort(c) {
      var _ := EndsShortStalls(c);
    }
    if p: nat :| !Found(p, c) && Unfinished(p, c) {
      EmptyEndsShort(p, c);
    }
  }

  lemma EmptyEndsShort(p: nat, c: Shape)
    requires c.Ok() && !Found(p, c) && Unfinished(p, c)
    ensures EndsShort(c) && TickOf(p, c) % U32 / c.n == U32 / c.n
  {
    var f :| 0 <= f < c.n && After(p, c).offs[f] < c.perFile;
    var x := TickOf(p, c);
    hide Hits, After, Found, TickOf, Missed, EndsShort, Shape.Rounds;
    EmptyMisses(p, c);
    UnfinishedIff(p, f, c);
    MissesAtTail(x, c.n, c.Rounds(), f);
    MissesBetween(x, c.n, c.Rounds(), f);
    EndsShortIff(c);
  }

  /** The counter wraps within the run over such a shape, and not between rounds. */
  lemma EndsShortWraps(c: Shape)
    requires EndsShort(c)
    ensures c.Ok() && c.Chunks() > U32 && U32 % c.n > 0
  {
    var n, m, q, r := c.n, c.Rounds(), U32 / c.n, U32 % c.n;
    assert n <= 2 * r && c.Chunks() == m * n;
    ManyChunks(c);
    WholeRounds(n);
    hide *;
    Times(2 * q, m, n);
    Linear(1, q, n, q);
  }

  /** An aligned counter is not one of those. */
  lemma AlignedNeverShort(c: Shape)
    requires c.Ok() && Aligned(c)
    ensures !EndsShort(c)
  {
    hide EndsShort, Shape.Chunks;
    if EndsShort(c) {
      EndsShortWraps(c);
    }
  }

  /** Six files of 1431655765 MiB in blocks of one MiB are such a shape. */
  lemma SixFilesEndShort()
    ensures var c := Shape(6, 1431655765 * 1024 * 1024, 1024 * 1024); EndsShort(c) && c.n * c.perFile < U64
  {
  }

  // ---------- searches up to the first empty one ----------

  /** Such a file has more chunks than twice the whole rounds under 2^32. */
  lemma ManyChunks(c: Shape)
    requires EndsShort(c)
    ensures 2 * (U32 / c.n) < c.Rounds()
  {
    var m, q := c.Rounds(), U32 / c.n;
    var k := (m - 1) / q;
    hide Shape.Rounds;
    if k == 0 {
      assert false;
    }
    if k == 1 {
      assert false;
    }
    if k > 2 {
      Times(2, k, q);
    }
  }

  /** Before the counter has wrapped, no file of such a shape is skipped. */
  lemma {:induction false} EarlyTicks(p: nat, c: Shape)
    requires EndsShort(c) && p <= U32
    ensures TickOf(p, c) == p && (p < U32 ==> Found(p, c))
  {
    hide EndsShort, Ticked, Hits, After, Pick;
    ShapeOk(c);
    if p > 0 {
      EarlyTicks(p - 1, c);
      EarlyTick(p - 1, c);
    }
    if p < U32 {
      EarlyTick(p, c);
    }
  }

  lemma ShapeOk(c: Shape)
    requires EndsShort(c)
    ensures c.Ok()
  {
  }

  lemma EarlyTick(p: nat, c: Shape)
    requires EndsShort(c) && p < U32 && TickOf(p, c) == p
    ensures Found(p, c) && TickOf(p + 1, c) == p + 1
  {
    var s, f := After(p, c), p % c.n;
    hide EndsShort, TickOf, After, Shape.Rounds, Pick, Found;
    ShapeOk(c);
    ManyChunks(c);
    AfterTicked(p, c);
    hide Hits;
    HitsSoFar(p, c.n);
    UnfinishedIff(p, f, c);
    TickFound(p, c);
  }

  lemma HitsSoFar(p: nat, n: nat)
    requires 0 < n && p < U32
    ensures Hits(p % n, p, n) == p / n <= U32 / n
  {
    var d, q := p / n, U32 / n;
    DivModUnique(p, 0, p, U32);
    if d > q {
      Times(q, d, n);
    }
  }

  lemma TickFound(p: nat, c: Shape)
    requires 0 < c.n && !Full(After(p, c), Pointed(After(p, c), c), c)
    ensures Found(p, c) && TickOf(p + 1, c) == TickOf(p, c) + 1
  {
  }

  /** Offsets only grow. */
  lemma {:induction false} OffsGrow(p: nat, p1: nat, f: nat, c: Shape)
    requires c.Ok() && p <= p1 && f < c.n
    ensures After(p, c).offs[f] <= After(p1, c).offs[f]
  {
    hide After, DealtBy, DealAt;
    if p < p1 {
      OffsGrow(p, p1 - 1, f, c);
      DealtNext(p1 - 1, c);
    }
  }

  lemma StaysUnfinished(p: nat, p1: nat, c: Shape)
    requires c.Ok() && p <= p1 && Unfinished(p1, c)
    ensures Unfinished(p, c)
  {
    var f :| 0 <= f < c.n && After(p1, c).offs[f] < c.perFile;
    OffsGrow(p, p1, f, c);
  }

  /** A search that finds a file finds it unfinished. */
  lemma FoundUnfinished(p: nat, c: Shape)
    requires c.Ok() && Found(p, c)
    ensures Unfinished(p, c)
  {
    PickSane(After(p, c), c.n, c);
  }

  /** The searches have dealt out less than all exactly as long as a file is unfinished. */
  lemma DealtLessIff(p: nat, c: Shape)
    requires c.Ok()
    ensures DealBytes(DealtBy(p, c)) <= c.n * c.perFile
    ensures DealBytes(DealtBy(p, c)) < c.n * c.perFile <==> Unfinished(p, c)
  {
    DealtBytes(p, c);
    SumOfEqual(After(p, c).offs, c.perFile);
    hide After, DealtBy, DealBytes, Sum;
  }

  /** The first empty search comes no later than any other. */
  lemma {:induction false} FirstEmpty(p: nat, c: Shape) returns (p0: nat)
    requires c.Ok() && !Found(p, c)
    ensures p0 <= p && !Found(p0, c) && FoundAll(0, p0, c)
  {
    hide Found;
    if FoundAll(0, p, c) {
      p0 := p;
    } else {
      var e :| 0 <= e < p && !Found(e, c);
      p0 := FirstEmpty(e, c);
    }
  }

  /** Two empty searches in a row do not miss an unfinished file. */
  lemma EmptyOnce(p: nat, c: Shape)
    requires c.Ok() && !Found(p, c) && !Found(p + 1, c)
    ensures !Unfinished(p + 1, c)
  {
    hide Found, Unfinished, TickOf, EndsShort;
    if Unfinished(p + 1, c) {
      StaysUnfinished(p, p + 1, c);
      EmptyEndsShort(p, c);
      EmptyEndsShort(p + 1, c);
      AfterTicked(p, c);
      NotAtTailAgain(TickOf(p, c), c.n);
      assert false;
    }
  }

  lemma NotAtTailAgain(x: nat, n: nat)
    requires 0 < n < U32 && x % U32 / n == U32 / n
    ensures (x + n) % U32 / n != U32 / n
  {
    var k, t, q := x / U32, x % U32, U32 / n;
    WholeRounds(n);
    assert t == q * n + t % n;
    DivModUnique(x + n, k + 1, t + n - U32, U32);
    DivModUnique(t + n - U32, 0, t + n - U32, n);
  }

  // ---------- the rounds of a run ----------

  /** Where a run stands between two rounds. */
  datatype Loop = Loop(searches: nat, inflight: nat)

  /** The queueing loop of a round: it searches while a slot is free and a file unfinished. The flag
      says that the last search came back empty. */
  ghost function Fill(l: Loop, c: Shape, qd: nat): (Loop, bool)
    requires 0 < c.n
    decreases qd - l.inflight
  {
    if l.inflight >= qd || !Unfinished(l.searches, c) then (l, false)
    else if Found(l.searches, c) then Fill(Loop(l.searches + 1, l.inflight + 1), c, qd)
    else (Loop(l.searches + 1, l.inflight), true)
  }

  /** Where the run stands after rounds that reaped batches of these sizes, if it can: a round reaps
      between one completion and the 256 that its array of completions holds. */
  ghost function Played(batches: seq<nat>, c: Shape, qd: nat): Option<Loop>
    requires 0 < c.n
  {
    if batches == [] then Some(Loop(0, 0))
    else
      var b := batches[|batches| - 1];
      match Played(batches[..|batches| - 1], c, qd)
      case None => None
      case Some(l) =>
        var l1 := Fill(l, c, qd).0;
        if 0 < b <= Min(256, l1.inflight) then Some(Loop(l1.searches, l1.inflight - b)) else None
  }

  /** These are all the batches of a run: the next round finds nothing in flight. */
  ghost predicate Ends(batches: seq<nat>, c: Shape, qd: nat)
    requires 0 < c.n
  {
    var l := Played(batches, c, qd);
    l.Some? && Fill(l.value, c, qd).0.inflight == 0
  }

  /** And it leaves chunks unqueued. */
  ghost predicate GivesUp(batches: seq<nat>, c: Shape, qd: nat)
    requires 0 < c.n
  {
    Ends(batches, c, qd) && Unfinished(Fill(Played(batches, c, qd).value, c, qd).0.searches, c)
  }

  lemma PlayedSnoc(batches: seq<nat>, b: nat, c: Shape, qd: nat)
    requires 0 < c.n && Played(batches, c, qd).Some?
    ensures var l := Fill(Played(batches, c, qd).value, c, qd).0;
            Played(batches + [b], c, qd) ==
            if 0 < b <= Min(256, l.inflight) then Some(Loop(l.searches, l.inflight - b)) else None
  {
    assert (batches + [b])[..|batches|] == batches;
  }

  lemma FillStep(l: Loop, c: Shape, qd: nat)
    requires 0 < c.n && l.inflight < qd && Unfinished(l.searches, c)
    ensures Fill(l, c, qd) == if Found(l.searches, c) then Fill(Loop(l.searches + 1, l.inflight + 1), c, qd)
                              else (Loop(l.searches + 1, l.inflight), true)
  {
    hide Found, Unfinished;
  }

  lemma FillStops(l: Loop, c: Shape, qd: nat)
    requires 0 < c.n && (l.inflight >= qd || !Unfinished(l.searches, c))
    ensures Fill(l, c, qd) == (l, false)
  {
    hide Found, Unfinished;
  }

  /** The queueing loop stops for want of slots or of files, or after an empty search. */
  lemma {:induction false} FillFacts(l: Loop, c: Shape, qd: nat)
    requires c.Ok() && l.inflight <= qd
    ensures var (l1, empty) := Fill(l, c, qd);
            && l.inflight <= l1.inflight <= qd && l.searches <= l1.searches
            && (l1.inflight == l.inflight ==> if empty then l1.searches == l.searches + 1 else l1 == l)
            && if empty
               then l.searches < l1.searches && !Found(l1.searches - 1, c) && Unfinished(l1.searches, c)
               else l1.inflight == qd || !Unfinished(l1.searches, c)
    decreases qd - l.inflight
  {
    hide Found, Unfinished;
    if l.inflight < qd && Unfinished(l.searches, c) {
      if Found(l.searches, c) {
        FillFacts(Loop(l.searches + 1, l.inflight + 1), c, qd);
      } else {
        EmptyKeeps(l.searches, c);
      }
    }
  }

  lemma EmptyKeeps(p: nat, c: Shape)
    requires c.Ok() && !Found(p, c)
    ensures Unfinished(p + 1, c) <==> Unfinished(p, c)
  {
    DealtNext(p, c);
    hide DealtBy, After;
  }

  lemma PlayedSome(batches: seq<nat>, c: Shape, qd: nat)
    requires 0 < c.n && Played(batches, c, qd).Some? && batches != []
    ensures var front, b := batches[..|batches| - 1], batches[|batches| - 1];
            && Played(front, c, qd).Some?
            && var l := Fill(Played(front, c, qd).value, c, qd).0;
               0 < b <= 256 && b <= l.inflight && Played(batches, c, qd) == Some(Loop(l.searches, l.inflight - b))
  {
    hide Fill;
  }

  lemma {:induction false} PlayedFits(batches: seq<nat>, c: Shape, qd: nat)
    requires c.Ok() && Played(batches, c, qd).Some?
    ensures Played(batches, c, qd).value.inflight <= qd
  {
    hide Fill, Played;
    if batches == [] {
      NoBatches(c, qd);
    } else {
      PlayedSome(batches, c, qd);
      PlayedFits(batches[..|batches| - 1], c, qd);
      FillFacts(Played(batches[..|batches| - 1], c, qd).value, c, qd);
    }
  }

  lemma NoBatches(c: Shape, qd: nat)
    requires 0 < c.n
    ensures Played([], c, qd) == Some(Loop(0, 0))
  {
  }

  /** A run gives up after an empty search with nothing in flight. */
  lemma GivesUpAfterEmpty(batches: seq<nat>, c: Shape, qd: nat)
    requires c.Ok() && 0 < qd && GivesUp(batches, c, qd)
    ensures var l := Played(batches, c, qd).value;
            l.inflight == 0 && !Found(l.searches, c) && Unfinished(l.searches, c)
  {
    hide Fill, Played, Found, Unfinished;
    PlayedFits(batches, c, qd);
    var l := Played(batches, c, qd).value;
    FillFacts(l, c, qd);
    StaysUnfinished(l.searches, Fill(l, c, qd).0.searches, c);
  }

  /** The batch before took everything in flight. */
  lemma LastBatchIsAll(batches: seq<nat>, c: Shape, qd: nat)
    requires c.Ok() && batches != [] && Played(batches, c, qd).Some?
    requires var l := Played(batches, c, qd).value;
             l.inflight == 0 && !Found(l.searches, c) && Unfinished(l.searches, c)
    ensures qd <= 256
  {
    hide Fill, Played, Found, Unfinished;
    var front, p := batches[..|batches| - 1], Played(batches, c, qd).value.searches;
    PlayedSome(batches, c, qd);
    PlayedFits(front, c, qd);
    FillFacts(Played(front, c, qd).value, c, qd);
    if p > 0 && !Found(p - 1, c) {
      EmptyOnce(p - 1, c);
    }
  }

  /** That takes such a shape, and at most as many slots as a batch can hold. */
  lemma GivesUpOnly(batches: seq<nat>, c: Shape, qd: nat)
    requires c.Ok() && 0 < qd && GivesUp(batches, c, qd)
    ensures EndsShort(c) && qd <= 256
  {
    GivesUpAfterEmpty(batches, c, qd);
    hide Fill, Played, Found, Unfinished, TickOf, GivesUp, EndsShort;
    EmptyEndsShort(Played(batches, c, qd).value.searches, c);
    if batches == [] {
      NoBatches(c, qd);
      EarlyTicks(0, c);
    } else {
      LastBatchIsAll(batches, c, qd);
    }
  }

  /** Searches that find a file fill the slots. */
  lemma {:induction false} FillAll(l: Loop, c: Shape, qd: nat)
    requires c.Ok() && l.inflight <= qd && FoundAll(0, l.searches + (qd - l.inflight), c)
    ensures Fill(l, c, qd) == (Loop(l.searches + (qd - l.inflight), qd), false)
    decreases qd - l.inflight
  {
    hide Found, Unfinished;
    if l.inflight < qd {
      assert Found(l.searches, c);
      FoundUnfinished(l.searches, c);
      FillAll(Loop(l.searches + 1, l.inflight + 1), c, qd);
    }
  }

  /** With one completion reaped in each round, every round queues one chunk. */
  lemma {:induction false} Steady(k: nat, c: Shape, qd: nat) returns (batches: seq<nat>)
    requires c.Ok() && 0 < qd && FoundAll(0, qd + k, c)
    ensures Played(batches, c, qd).Some?
    ensures Fill(Played(batches, c, qd).value, c, qd) == (Loop(qd + k, qd), false)
  {
    hide Fill, Played, Found;
    if k == 0 {
      batches := [];
      NoBatches(c, qd);
      FillAll(Loop(0, 0), c, qd);
    } else {
      var front := Steady(k - 1, c, qd);
      batches := front + [1];
      PlayedSnoc(front, 1, c, qd);
      FillAll(Loop(qd + k - 1, qd - 1), c, qd);
    }
  }

  /** If a batch can hold all that is in flight, it can come just before the empty search. */
  lemma CanGiveUp(c: Shape, qd: nat) returns (batches: seq<nat>)
    requires EndsShort(c) && 0 < qd <= 256
    ensures GivesUp(batches, c, qd)
  {
    hide Found, Unfinished, EndsShort, TickOf, Played, Fill;
    ShapeOk(c);
    var p := EndsShortStalls(c);
    var p0 := FirstEmpty(p, c);
    StaysUnfinished(p0, p, c);
    if p0 < 256 {
      EarlyTicks(p0, c);
      assert false;
    }
    var ones := Steady(p0 - qd, c, qd);
    batches := ones + [qd];
    PlayedSnoc(ones, qd, c, qd);
    FillEmpty(p0, c, qd);
  }

  lemma FillEmpty(p: nat, c: Shape, qd: nat)
    requires c.Ok() && 0 < qd && !Found(p, c) && Unfinished(p, c)
    ensures Fill(Loop(p, 0), c, qd) == (Loop(p + 1, 0), true) && Unfinished(p + 1, c)
  {
    EmptyKeeps(p, c);
    hide Found, Unfinished;
  }

  /** Some run over a shape leaves chunks unqueued if and only if the shape is such and at most 256
      slots are used. */
  lemma SomeRunGivesUpIff(c: Shape, qd: nat)
    requires c.Ok() && 0 < qd
    ensures (exists batches: seq<nat> :: GivesUp(batches, c, qd)) <==> EndsShort(c) && qd <= 256
  {
    hide GivesUp, EndsShort;
    if EndsShort(c) && qd <= 256 {
      var _ := CanGiveUp(c, qd);
    }
    if batches: seq<nat> :| GivesUp(batches, c, qd) {
      GivesUpOnly(batches, c, qd);
    }
  }

  /** With a single slot every search but the last finds a file. */
  lemma {:induction false} SingleSlot(batches: seq<nat>, c: Shape)
    requires c.Ok() && Played(batches, c, 1).Some?
    ensures var l := Played(batches, c, 1).value; l.inflight == 0 && FoundAll(0, l.searches, c)
  {
    hide Played, Found, Unfinished;
    if batches == [] {
      NoBatches(c, 1);
    } else {
      var front := batches[..|batches| - 1];
      PlayedSome(batches, c, 1);
      SingleSlot(front, c);
      FillOne(Played(front, c, 1).value.searches, c);
    }
  }

  lemma FillOne(p: nat, c: Shape)
    requires c.Ok()
    ensures Fill(Loop(p, 0), c, 1).0.inflight > 0 ==> Found(p, c) && Fill(Loop(p, 0), c, 1).0 == Loop(p + 1, 1)
  {
    assert Fill(Loop(p + 1, 1), c, 1) == (Loop(p + 1, 1), false);
    hide Found, Unfinished;
  }

  /** So then every run over such a shape leaves chunks unqueued, and no other does. */
  lemma SingleSlotGivesUpIff(batches: seq<nat>, c: Shape)
    requires c.Ok() && Ends(batches, c, 1)
    ensures GivesUp(batches, c, 1) <==> EndsShort(c)
  {
    hide Played, Found, Unfinished, EndsShort, Fill;
    var l := Played(batches, c, 1).value;
    SingleSlot(batches, c);
    if EndsShort(c) {
      var p := EndsShortStalls(c);
      assert l.searches <= p;
      StaysUnfinished(l.searches, p, c);
      FillFacts(l, c, 1);
      if !GivesUp(batches, c, 1) {
        assert false;
      }
    }
    if GivesUp(batches, c, 1) {
      GivesUpOnly(batches, c, 1);
    }
  }

  /** A good end of a run: everything has been dealt out, unless it gave up. */
  lemma CompleteDeals(batches: seq<nat>, c: Shape, qd: nat)
    requires c.Ok() && 0 < qd && Ends(batches, c, qd)
    ensures var p := Fill(Played(batches, c, qd).value, c, qd).0.searches;
            DealBytes(DealtBy(p, c)) < c.n * c.perFile <==> GivesUp(batches, c, qd)
  {
    var p := Fill(Played(batches, c, qd).value, c, qd).0.searches;
    hide Played, Unfinished, Fill;
    DealtLessIff(p, c);
  }
}
