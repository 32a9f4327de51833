/**
 gen_offsets of bench_direct.c: block-aligned offsets from a 64-bit linear congruential
 generator, and the proof that the generator visits all 2^64 states before it repeats.
 */
module Lcg {
  import opened IoUring
  import opened Arithmetic

  const MULTIPLIER: nat := 6364136223846793005

  /** One step of the generator, in uint64_t. */
  function Step(s: nat): (t: nat)
    ensures t < U64
  {
    (s * MULTIPLIER + 1) % U64
  }

  function State(s: nat, n: nat): nat {
    if n == 0 then s else Step(State(s, n - 1))
  }

  /** The offset of a whole block of the file. */
  predicate BlockInside(off: nat, fileSize: nat, bs: nat)
    requires 0 < bs
  {
    off % bs == 0 && off + bs <= fileSize
  }

  /** Fills out with offsets. If the file has not a whole block, all are zero and the state stays. */
  method GenOffsets(out: array<nat>, fileSize: nat, bs: nat, state0: nat) returns (state: nat, ghost states: seq<nat>)
    requires 0 < bs && fileSize < U64
    modifies out
    ensures fileSize < bs ==> state == state0 && forall i | 0 <= i < out.Length :: out[i] == 0
    ensures bs <= fileSize ==>
              && state == State(state0, out.Length)
              && forall i | 0 <= i < out.Length ::
                   && out[i] == (State(state0, i + 1) % (fileSize / bs)) * bs
                   && BlockInside(out[i], fileSize, bs)
    // one step of the generator for each offset
    ensures bs <= fileSize ==>
              && |states| == out.Length + 1 && states[0] == state0 && states[out.Length] == state
              && (forall i | 0 < i < |states| :: Follows(states[i - 1], states[i]))
              && forall i | 0 <= i < out.Length :: out[i] == (states[i + 1] % (fileSize / bs)) * bs
  {
    state, states := state0, [];
    var maxBlocks := fileSize / bs;
    BlocksIn(fileSize, bs);
    if maxBlocks == 0 {
      var i := 0;
      while i < out.Length
        invariant i <= out.Length && forall k | 0 <= k < i :: out[k] == 0
      {
        out[i] := 0;
        i := i + 1;
      }
      return;
    }
    hide Step, BlockInside, Follows;
    var i := 0;
    while i < out.Length
      invariant i <= out.Length && state == State(state0, i)
      invariant forall k | 0 <= k < i :: out[k] == (State(state0, k + 1) % maxBlocks) * bs
      invariant forall k | 0 <= k < i :: BlockInside(out[k], fileSize, bs)
    {
      state := Step(state);
      var b := state % maxBlocks;
      BlockInFile(b, fileSize, bs);
      out[i] := b * bs;
      i := i + 1;
    }
    states := StatesFrom(state0, out.Length);
  }

  lemma StatesFrom(s: nat, n: nat) returns (states: seq<nat>)
    ensures |states| == n + 1 && states[0] == s && states[n] == State(s, n)
    ensures forall i | 0 <= i < |states| :: states[i] == State(s, i)
    ensures forall i | 0 < i < |states| :: Follows(states[i - 1], states[i])
  {
    hide Step, Follows;
    states := seq(n + 1, i requires 0 <= i <= n => State(s, i));
    forall i | 0 < i < |states| ensures Follows(states[i - 1], states[i]) {
      StepFollows(states[i - 1]);
    }
  }

  /** The next state of the generator, in numbers. */
  predicate Follows(s: nat, t: nat) { t == (s * 6364136223846793005 + 1) % 0x1_0000_0000_0000_0000 }

  lemma StepFollows(s: nat)
    ensures Follows(s, Step(s))
  {
  }

  lemma BlocksIn(fileSize: nat, bs: nat)
    requires 0 < bs
    ensures fileSize / bs == 0 <==> fileSize < bs
  {
  }

  lemma BlockInFile(b: nat, fileSize: nat, bs: nat)
    requires 0 < bs && b < fileSize / bs
    ensures BlockInside(b * bs, fileSize, bs)
  {
    var n := fileSize / bs;
    assert n * bs <= fileSize;
    Times(b, n, bs);
    DivModUnique(b * bs, b, 0, bs);
  }

  // ---------- powers and geometric sums ----------

  function Pow(a: nat, n: nat): nat {
    if n == 0 then 1 else a * Pow(a, n - 1)
  }

  /** 1 + a + ... + a^(n-1) */
  function Geo(a: nat, n: nat): nat {
    if n == 0 then 0 else a * Geo(a, n - 1) + 1
  }

  lemma PowStep(a: nat, n: nat)
    ensures Pow(a, 0) == 1 && Pow(a, n + 1) == a * Pow(a, n)
  {
  }

  lemma GeoStep(a: nat, n: nat)
    ensures Geo(a, 0) == 0 && Geo(a, n + 1) == a * Geo(a, n) + 1
  {
  }

  lemma {:induction false} GeoPow(a: nat, n: nat)
    requires 0 < a
    ensures (a - 1) * Geo(a, n) + 1 == Pow(a, n)
  {
    hide *;
    if n == 0 {
      PowStep(a, 0);
      GeoStep(a, 0);
    } else {
      GeoPow(a, n - 1);
      PowStep(a, n - 1);
      GeoStep(a, n - 1);
      NextPower(a, Geo(a, n - 1));
    }
  }

  lemma NextPower(a: nat, g: nat)
    requires 0 < a
    ensures a * ((a - 1) * g + 1) == (a - 1) * (a * g + 1) + 1
  {
    var e, x := a - 1, (a - 1) * g;
    assert a * (x + 1) == a * x + a;
    assert e * (a * g + 1) == e * (a * g) + e;
    assert a * (e * g) == e * (a * g);
  }

  lemma {:induction false} GeoAdd(a: nat, m: nat, n: nat)
    ensures Geo(a, m + n) == Pow(a, n) * Geo(a, m) + Geo(a, n)
  {
    hide *;
    if n == 0 {
      PowStep(a, 0);
      GeoStep(a, 0);
      assert m + n == m;
    } else {
      GeoAdd(a, m, n - 1);
      PowStep(a, n - 1);
      GeoStep(a, n - 1);
      assert m + (n - 1) + 1 == m + n;
      GeoStep(a, m + (n - 1));
      NextSum(a, Pow(a, n - 1), Geo(a, m), Geo(a, n - 1));
    }
  }

  lemma NextSum(a: nat, p: nat, g: nat, h: nat)
    ensures a * (p * g + h) + 1 == (a * p) * g + (a * h + 1)
  {
    var x := p * g;
    assert a * (x + h) == a * x + a * h;
    assert a * (p * g) == (a * p) * g;
  }

  lemma {:induction false} StateClosed(s: nat, n: nat)
    requires s < U64
    ensures State(s, n) == (Pow(MULTIPLIER, n) * s + Geo(MULTIPLIER, n)) % U64
  {
    hide *;
    if n == 0 {
      PowStep(MULTIPLIER, 0);
      GeoStep(MULTIPLIER, 0);
      StateStep(s, 0);
      SeedIsSmall(s);
    } else {
      StateClosed(s, n - 1);
      PowStep(MULTIPLIER, n - 1);
      GeoStep(MULTIPLIER, n - 1);
      StateStep(s, n - 1);
      StepOfSum(Pow(MULTIPLIER, n - 1), s, Geo(MULTIPLIER, n - 1), Pow(MULTIPLIER, n), Geo(MULTIPLIER, n));
    }
  }

  lemma StateStep(s: nat, n: nat)
    ensures State(s, 0) == s && State(s, n + 1) == Step(State(s, n))
  {
  }

  lemma SeedIsSmall(s: nat)
    requires s < U64
    ensures (1 * s + 0) % U64 == s
  {
  }

  lemma StepOfSum(p: nat, s: nat, g: nat, p1: nat, g1: nat)
    requires p1 == MULTIPLIER * p && g1 == MULTIPLIER * g + 1
    ensures Step((p * s + g) % U64) == (p1 * s + g1) % U64
  {
    hide *;
    StepOfRemainder(p * s + g);
    SumTimes(MULTIPLIER, p, s, g);
  }

  lemma SumTimes(a: nat, p: nat, s: nat, g: nat)
    ensures (p * s + g) * a == (a * p) * s + a * g
  {
    var x := p * s;
    assert (x + g) * a == x * a + g * a;
    assert (p * s) * a == (a * p) * s;
  }

  lemma StepOfRemainder(x: nat)
    ensures Step(x % U64) == (x * MULTIPLIER + 1) % U64
  {
    var q, r, a := x / U64, x % U64, MULTIPLIER;
    assert x == q * U64 + r;
    hide *;
    RemainderTimes(q, r, a, U64);
    StepIs(r);
  }

  lemma StepIs(s: nat)
    ensures Step(s) == (s * MULTIPLIER + 1) % U64
  {
  }

  lemma RemainderTimes(q: nat, r: nat, a: nat, m: nat)
    requires 0 < m
    ensures ((q * m + r) * a + 1) % m == (r * a + 1) % m
  {
    var y := q * m;
    assert (y + r) * a == y * a + r * a;
    assert (q * m) * a == (q * a) * m;
    ModAdd(r * a + 1, q * a, m);
  }

  // ---------- divisibility by powers of two ----------

  /** 2^k divides x. */
  predicate TwoDivides(k: nat, x: nat) {
    k == 0 || (x % 2 == 0 && TwoDivides(k - 1, x / 2))
  }

  lemma {:induction false} TwoDividesIsMod(k: nat, x: nat)
    ensures Pow(2, k) > 0
    ensures TwoDivides(k, x) <==> x % Pow(2, k) == 0
  {
    if k > 0 {
      TwoDividesIsMod(k - 1, x / 2);
      var p := Pow(2, k - 1);
      HalfMod(x, p);
    }
  }

  lemma HalfMod(x: nat, p: nat)
    requires 0 < p
    ensures x % (2 * p) == 0 <==> x % 2 == 0 && (x / 2) % p == 0
  {
    if x % (2 * p) == 0 {
      var q := x / (2 * p);
      assert x == q * (2 * p) == 2 * (q * p);
      DivModUnique(q * p, q, 0, p);
    }
    if x % 2 == 0 && (x / 2) % p == 0 {
      var q := (x / 2) / p;
      assert x == 2 * (q * p) == q * (2 * p);
      DivModUnique(x, q, 0, 2 * p);
    }
  }

  lemma {:induction false} OddFactor(k: nat, x: nat, u: nat)
    requires u % 2 == 1
    ensures TwoDivides(k, x * u) <==> TwoDivides(k, x)
  {
    if k > 0 {
      ProductParity(x, u);
      if x % 2 == 0 {
        OddFactor(k - 1, x / 2, u);
      }
    }
  }

  lemma ProductParity(x: nat, u: nat)
    requires u % 2 == 1
    ensures (x * u) % 2 == x % 2 && (x % 2 == 0 ==> x * u / 2 == x / 2 * u)
  {
    var v, y := u / 2, x / 2;
    var (p, w, z) := (x * u, x * v, y * u);
    assert p == 2 * w + x by { TwiceAndOne(x, v, u); }
    if x % 2 == 0 {
      assert p == 2 * z by { TwiceLeft(x, y, u); }
    }
  }

  lemma TwiceAndOne(x: nat, v: nat, u: nat)
    requires u == 2 * v + 1
    ensures x * u == 2 * (x * v) + x
  {
  }

  lemma TwiceLeft(x: nat, y: nat, u: nat)
    requires x == 2 * y
    ensures x * u == 2 * (y * u)
  {
  }

  lemma OneModFourTimes(b: nat, c: nat)
    ensures ((4 * b + 1) * (4 * c + 1)) % 4 == 1
  {
    var y := 4 * c + 1;
    assert (4 * b + 1) * y == 4 * (b * y) + y;
  }

  lemma {:induction false} PowOneModFour(a: nat, n: nat)
    requires a % 4 == 1
    ensures Pow(a, n) % 4 == 1
  {
    hide *;
    if n == 0 {
      PowStep(a, 0);
    } else {
      PowOneModFour(a, n - 1);
      PowStep(a, n - 1);
      OneModFour(a, Pow(a, n - 1));
    }
  }

  lemma OneModFour(a: nat, p: nat)
    requires a % 4 == 1 && p % 4 == 1
    ensures (a * p) % 4 == 1
  {
    assert a == 4 * (a / 4) + 1 && p == 4 * (p / 4) + 1;
    OneModFourTimes(a / 4, p / 4);
  }

  lemma {:induction false} GeoParity(a: nat, n: nat)
    requires a % 2 == 1
    ensures Geo(a, n) % 2 == n % 2
  {
    hide *;
    if n == 0 {
      GeoStep(a, 0);
    } else {
      GeoParity(a, n - 1);
      GeoStep(a, n - 1);
      OddTimes(a, Geo(a, n - 1));
    }
  }

  lemma OddTimes(a: nat, g: nat)
    requires a % 2 == 1
    ensures (a * g) % 2 == g % 2
  {
    ProductParity(g, a);
    assert a * g == g * a;
  }

  /** Doubling the length brings in one factor 2. */
  lemma GeoDouble(a: nat, m: nat) returns (u: nat)
    requires a % 4 == 1
    ensures u % 2 == 1 && Geo(a, 2 * m) == 2 * (Geo(a, m) * u)
  {
    hide *;
    PowOneModFour(a, m);
    var p := Pow(a, m);
    u := HalfOdd(p);
    GeoAdd(a, m, m);
    Double(p, Geo(a, m), u);
    assert m + m == 2 * m;
  }

  lemma HalfOdd(p: nat) returns (u: nat)
    requires p % 4 == 1
    ensures u % 2 == 1 && p + 1 == 2 * u
  {
    u := 2 * (p / 4) + 1;
  }

  lemma Double(p: nat, g: nat, u: nat)
    requires p + 1 == 2 * u
    ensures p * g + g == 2 * (g * u)
  {
    assert (p + 1) * g == p * g + g;
    assert (2 * u) * g == 2 * (g * u);
  }

  /** For a multiplier that is 1 mod 4, the geometric sum has as many factors 2 as its length. */
  lemma {:induction false} GeoTwos(a: nat, k: nat, d: nat)
    requires a % 4 == 1
    ensures TwoDivides(k, Geo(a, d)) <==> TwoDivides(k, d)
  {
    if k > 0 {
      GeoParity(a, d);
      if d % 2 == 0 {
        var m := d / 2;
        var u := GeoDouble(a, m);
        OddFactor(k - 1, Geo(a, m), u);
        GeoTwos(a, k - 1, m);
        hide Geo;
        var x := Geo(a, m) * u;
        assert Geo(a, d) / 2 == x;
      }
    }
  }

  // ---------- the period ----------

  lemma PowTwo64()
    ensures Pow(2, 64) == U64
  {
    assert Pow(2, 8) == 256;
    PowAdd(8, 8);
    PowAdd(16, 16);
    PowAdd(32, 32);
  }

  lemma {:induction false} PowAdd(m: nat, n: nat)
    ensures Pow(2, m + n) == Pow(2, m) * Pow(2, n)
  {
    hide *;
    if n == 0 {
      PowStep(2, 0);
      assert m + n == m;
    } else {
      PowAdd(m, n - 1);
      assert m + (n - 1) + 1 == m + n;
      PowStep(2, n - 1);
      PowStep(2, m + (n - 1));
      Twice(Pow(2, m), Pow(2, n - 1));
    }
  }

  lemma Twice(x: nat, y: nat)
    ensures 2 * (x * y) == x * (2 * y)
  {
  }

  /** After d steps the generator is back where it was if and only if 2^64 divides d. */
  lemma ReturnsIff(t: nat, d: nat)
    requires t < U64
    ensures State(t, d) == t <==> d % U64 == 0
  {
    hide *;
    var (a, p, g) := (MULTIPLIER, Pow(MULTIPLIER, d), Geo(MULTIPLIER, d));
    StateClosed(t, d);
    MultiplierForm();
    GeoPow(a, d);
    var u := (a - 1) * t + 1;
    Regroup(a, p, g, t);
    ReturnMod(g * u, t);
    OddFactor(64, g, u);
    GeoTwos(a, 64, d);
    PowTwo64();
    TwoDividesIsMod(64, g * u);
    TwoDividesIsMod(64, d);
  }

  lemma MultiplierForm()
    ensures MULTIPLIER % 4 == 1
  {
  }

  lemma Regroup(a: nat, p: nat, g: nat, t: nat)
    requires a % 4 == 1 && (a - 1) * g + 1 == p
    ensures p * t + g == g * ((a - 1) * t + 1) + t
    ensures ((a - 1) * t + 1) % 2 == 1
  {
    var e := a - 1;
    assert p * t == (e * g) * t + t;
    assert (e * g) * t == g * (e * t);
    assert g * (e * t + 1) == g * (e * t) + g;
    EvenTimes(e, t);
  }

  lemma EvenTimes(e: nat, t: nat)
    requires e % 2 == 0
    ensures (e * t) % 2 == 0
  {
    var b := e / 2;
    assert e * t == 2 * (b * t);
  }

  lemma ReturnMod(x: nat, t: nat)
    requires t < U64
    ensures (x + t) % U64 == t <==> x % U64 == 0
  {
  }

  lemma {:induction false} StateAdd(s: nat, i: nat, d: nat)
    ensures State(s, i + d) == State(State(s, i), d)
  {
    if d > 0 {
      StateAdd(s, i, d - 1);
    }
  }

  lemma StateRange(s: nat, i: nat)
    requires s < U64
    ensures State(s, i) < U64
  {
  }

  /** Within a period no state occurs twice. */
  lemma StatesDistinct(s: nat, i: nat, j: nat)
    requires s < U64 && i < j < i + U64
    ensures State(s, i) != State(s, j)
  {
    hide *;
    StateRange(s, i);
    StateAdd(s, i, j - i);
    ReturnsIff(State(s, i), j - i);
  }

  ghost function Visited(s: nat, n: nat): set<nat> {
    set i | 0 <= i < n :: State(s, i)
  }

  lemma {:induction false} VisitedCount(s: nat, n: nat)
    requires s < U64 && n <= U64
    ensures |Visited(s, n)| == n
  {
    hide State;
    if n == 0 {
      assert Visited(s, 0) == {};
    } else {
      VisitedCount(s, n - 1);
      assert Visited(s, n) == Visited(s, n - 1) + {State(s, n - 1)};
      forall i | 0 <= i < n - 1 ensures State(s, i) != State(s, n - 1) {
        StatesDistinct(s, i, n - 1);
      }
    }
  }

  ghost function Below(m: nat): set<nat> {
    if m == 0 then {} else Below(m - 1) + {m - 1}
  }

  lemma {:induction false} BelowMeans(m: nat)
    ensures |Below(m)| == m && forall x: nat :: x in Below(m) <==> x < m
  {
    if m > 0 {
      BelowMeans(m - 1);
    }
  }

  lemma SameSize(a: set<nat>, b: set<nat>)
    requires a <= b && |a| == |b|
    ensures a == b
  {
    assert |b - a| == |b| - |a|;
    assert b - a == {};
  }

  /** From any seed every state is reached within 2^64 steps, and then the seed again. */
  lemma FullPeriod(s: nat, t: nat)
    requires s < U64 && t < U64
    ensures exists i :: 0 <= i < U64 && State(s, i) == t
    ensures State(s, U64) == s
  {
    ReturnsIff(s, U64);
    VisitedCount(s, U64);
    BelowMeans(U64);
    forall i | 0 <= i < U64 ensures State(s, i) in Below(U64) {
      StateRange(s, i);
    }
    SameSize(Visited(s, U64), Below(U64));
    assert t in Below(U64);
  }

  lemma SeedAgain(s: nat, b: nat)
    requires s < U64 && State(s, 0) == b
    ensures State(s, U64) == b
  {
    FullPeriod(s, b);
  }

  /** So every block of the file comes up. */
  lemma EveryBlockDrawn(s: nat, maxBlocks: nat, b: nat)
    requires s < U64 && b < maxBlocks < U64
    ensures exists i :: 0 < i <= U64 && State(s, i) % maxBlocks == b
  {
    hide *;
    FullPeriod(s, b);
    SmallMod(b, maxBlocks);
    var i :| 0 <= i < U64 && State(s, i) == b;
    if i == 0 {
      SeedAgain(s, b);
      var k := U64;
      assert 0 < k && State(s, k) % maxBlocks == b;
    } else {
      assert State(s, i) % maxBlocks == b;
    }
  }

  lemma SmallMod(b: nat, m: nat)
    requires b < m
    ensures b % m == b
  {
  }
}
