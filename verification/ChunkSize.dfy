/**
 How long each chunk is: the buffer-size callback, the probe that sizes the buffers, the
 clamp applied at every use, and the built-in adaptive callback.
 */
module ChunkSize {
  import opened IoUring

  /** C's unsigned int. */
  type Unsigned = x: nat | x < 0x1_0000_0000

  /** buffer_size_callback_t: offset, total, default. The first argument differs from call to call,
      so a callback that keeps state of its own is one of these functions too. */
  type SizeCb = (nat, nat, nat, nat) -> Unsigned

  /** The 64 MiB limit on a slot buffer. */
  const CAP: nat := 64 * 1024 * 1024

  datatype Chunk = Chunk(off: nat, len: nat)

  /** Size of the chunk at off, as computed before every queued request. */
  function Want(cb: Option<SizeCb>, call: nat, off: nat, total: nat, bs: nat, maxBuf: nat): (want: nat)
    requires off < total && 0 < bs
    ensures 0 < want <= total - off
    ensures want <= Max(bs, maxBuf)
  {
    var size := if cb.Some? then cb.value(call, off, total, bs) else 0;
    Min(total - off, if 0 < size <= maxBuf then size else bs)
  }

  /** All chunks from off on. */
  function Plan(cb: Option<SizeCb>, call: nat, off: nat, total: nat, bs: nat, maxBuf: nat): seq<Chunk>
    requires off <= total && 0 < bs
    decreases total - off
  {
    if off == total then []
    else
      var want := Want(cb, call, off, total, bs, maxBuf);
      [Chunk(off, want)] + Plan(cb, call + 1, off + want, total, bs, maxBuf)
  }

  /** The chunks queued so far in one direction, in order. */
  function ChunksOf(t: Trace, dir: Dir): seq<Chunk> {
    match t
    case Start => []
    case Then(b, Issued(q)) => ChunksOf(b, dir) + if q.dir == dir then [Chunk(q.off, q.len)] else []
    case Then(b, _) => ChunksOf(b, dir)
  }

  /** The chunks of a run. */
  function WholePlan(cb: Option<SizeCb>, total: nat, bs: nat): seq<Chunk>
    requires 0 < bs
  {
    var (maxBuf, calls) := Sizing(cb, total, bs);
    Plan(cb, calls, 0, total, bs, maxBuf)
  }

  /** What has been queued, followed by what is planned from off on, is the whole plan. */
  ghost predicate OnPlan(t: Trace, dir: Dir, cb: Option<SizeCb>, call: nat, off: nat, total: nat, bs: nat) {
    0 < bs && off <= total
    && ChunksOf(t, dir) + Plan(cb, call, off, total, bs, Sizing(cb, total, bs).0) == WholePlan(cb, total, bs)
  }

  lemma PlanStep(t: Trace, q: Sqe, cb: Option<SizeCb>, call: nat, off: nat, total: nat, bs: nat)
    requires OnPlan(t, q.dir, cb, call, off, total, bs) && off < total
    requires q.off == off && q.len == Want(cb, call, off, total, bs, Sizing(cb, total, bs).0)
    ensures OnPlan(Then(t, Issued(q)), q.dir, cb, call + 1, off + q.len, total, bs)
  {
    var maxBuf := Sizing(cb, total, bs).0;
    var rest := Plan(cb, call + 1, off + q.len, total, bs, maxBuf);
    assert ChunksOf(t, q.dir) + ([Chunk(off, q.len)] + rest) == ChunksOf(t, q.dir) + [Chunk(off, q.len)] + rest;
  }

  /** What the probe loop arrives at from testOff with cur so far: a size and a call count. */
  function Probe(cb: SizeCb, call: nat, testOff: nat, total: nat, bs: nat, cur: nat): (nat, nat)
    requires 0 < bs
    decreases Max(0, total - testOff)
  {
    if testOff >= total then (cur, call)
    else
      var m := Max(cur, cb(call, testOff, total, bs));
      if m > CAP then (CAP, call + 1) else Probe(cb, call + 1, testOff + bs, total, bs, m)
  }

  /** Buffer size and number of probe calls for a run. */
  function Sizing(cb: Option<SizeCb>, total: nat, bs: nat): (nat, nat)
    requires 0 < bs
  {
    if cb.Some? then Probe(cb.value, 0, 0, total, bs, bs) else (bs, 0)
  }

  /** The probe loop of both dynamic pipelines. */
  method ProbeBuffers(cb: Option<SizeCb>, total: nat, bs: nat) returns (maxBuf: nat, calls: nat)
    requires 0 < bs < U32 && total < U64 - U32
    ensures (maxBuf, calls) == Sizing(cb, total, bs)
    ensures if cb.None? then maxBuf == bs && calls == 0
            else Asked(cb.value, calls, total, bs) && Largest(maxBuf, cb.value, calls, total, bs)
  {
    SizingIs(cb, total, bs);
    maxBuf, calls := bs, 0;
    if cb.Some? {
      var testOff := 0;
      while testOff < total
        invariant Probe(cb.value, calls, testOff, total, bs, maxBuf) == Sizing(cb, total, bs)
        decreases total - testOff
      {
        var size := cb.value(calls, testOff, total, bs);
        calls := calls + 1;
        if size > maxBuf {
          maxBuf := size;
        }
        if maxBuf > CAP {
          maxBuf := CAP;
          break;
        }
        assert testOff + bs < U64;
        testOff := testOff + bs;
      }
    }
  }

  lemma {:induction false} ProbeBounds(cb: SizeCb, call: nat, testOff: nat, total: nat, bs: nat, cur: nat)
    requires 0 < bs && cur <= CAP
    ensures cur <= Probe(cb, call, testOff, total, bs, cur).0 <= CAP
    decreases Max(0, total - testOff)
  {
    if testOff < total {
      var m := Max(cur, cb(call, testOff, total, bs));
      if m <= CAP {
        ProbeBounds(cb, call + 1, testOff + bs, total, bs, m);
      }
    }
  }

  /** What the callback is asked on call k of the probe. */
  function Answer(cb: SizeCb, k: nat, total: nat, bs: nat): nat { cb(k, k * bs, total, bs) }

  /** The probe asks at 0, bs, 2 bs and so on, up to the end of the file or the first answer above the limit. */
  ghost predicate Asked(cb: SizeCb, calls: nat, total: nat, bs: nat) {
    && (calls > 0 ==> (calls - 1) * bs < total)
    && (forall k | 0 <= k < calls - 1 :: Max(bs, Answer(cb, k, total, bs)) <= 0x400_0000)
    && (calls * bs >= total || (calls > 0 && Max(bs, Answer(cb, calls - 1, total, bs)) > 0x400_0000))
  }

  /** m is the largest of the default block and the first answers. */
  ghost predicate Top(m: nat, cb: SizeCb, calls: nat, total: nat, bs: nat) {
    && bs <= m && (forall k | 0 <= k < calls :: Answer(cb, k, total, bs) <= m)
    && (m == bs || exists k | 0 <= k < calls :: m == Answer(cb, k, total, bs))
  }

  /** That, cut to the limit if the callback was asked at all. */
  ghost predicate Largest(size: nat, cb: SizeCb, calls: nat, total: nat, bs: nat) {
    exists m: nat :: Top(m, cb, calls, total, bs) && size == if calls == 0 then m else Min(0x400_0000, m)
  }

  lemma TopStep(m: nat, cb: SizeCb, calls: nat, total: nat, bs: nat)
    requires Top(m, cb, calls, total, bs)
    ensures Top(Max(m, Answer(cb, calls, total, bs)), cb, calls + 1, total, bs)
  {
  }

  lemma NextProbe(call: nat, bs: nat)
    ensures (call + 1) * bs == call * bs + bs
  {
  }

  lemma {:induction false} ProbeIs(cb: SizeCb, call: nat, testOff: nat, total: nat, bs: nat, cur: nat)
    requires 0 < bs && testOff == call * bs && Top(cur, cb, call, total, bs)
    requires (call > 0 ==> cur <= CAP && (call - 1) * bs < total)
    ensures var (size, calls) := Probe(cb, call, testOff, total, bs, cur);
            Asked(cb, calls, total, bs) && Largest(size, cb, calls, total, bs)
    decreases Max(0, total - testOff)
  {
    if testOff < total {
      var answer := Answer(cb, call, total, bs);
      var m := Max(cur, answer);
      TopStep(cur, cb, call, total, bs);
      NextProbe(call, bs);
      if m <= CAP {
        ProbeIs(cb, call + 1, testOff + bs, total, bs, m);
      } else {
        assert Asked(cb, call + 1, total, bs) by { StopsThere(cb, call, total, bs, cur); }
      }
    }
  }

  lemma StopsThere(cb: SizeCb, call: nat, total: nat, bs: nat, cur: nat)
    requires Top(cur, cb, call, total, bs) && call * bs < total && (call > 0 ==> cur <= CAP)
    requires Max(cur, Answer(cb, call, total, bs)) > CAP
    ensures Asked(cb, call + 1, total, bs)
  {
  }

  /** Buffer size and number of probe calls, told without the loop. */
  lemma SizingIs(cb: Option<SizeCb>, total: nat, bs: nat)
    requires 0 < bs
    ensures var (size, calls) := Sizing(cb, total, bs);
            if cb.None? then size == bs && calls == 0
            else Asked(cb.value, calls, total, bs) && Largest(size, cb.value, calls, total, bs)
  {
    if cb.Some? {
      ProbeIs(cb.value, 0, 0, total, bs, bs);
    }
  }

  /** Every chunk fits its slot buffer when the default block does. */
  lemma SizingFits(cb: Option<SizeCb>, total: nat, bs: nat)
    requires 0 < bs && (cb.Some? ==> bs <= CAP)
    ensures bs <= Sizing(cb, total, bs).0
  {
    if cb.Some? {
      ProbeBounds(cb.value, 0, 0, total, bs, bs);
    }
  }

  ghost predicate AlwaysFits(bs: nat)
    requires 0 < bs
  {
    forall cb: SizeCb, call: nat, off: nat, total: nat | off < total ::
      Want(Some(cb), call, off, total, bs, Sizing(Some(cb), total, bs).0) <= Sizing(Some(cb), total, bs).0
  }

  /** With a callback, no chunk is ever longer than its buffer exactly when the default block
      is at most 64 MiB: the limit is applied to the buffer but not to the fallback size. */
  lemma FitsIffDefaultUnderCap(bs: nat)
    requires 0 < bs < U32
    ensures AlwaysFits(bs) <==> bs <= 0x400_0000
  {
    if bs <= CAP {
      forall cb: SizeCb, call: nat, off: nat, total: nat | off < total
        ensures Want(Some(cb), call, off, total, bs, Sizing(Some(cb), total, bs).0) <= Sizing(Some(cb), total, bs).0
      {
        SizingFits(Some(cb), total, bs);
      }
    } else {
      var zero: SizeCb := (_, _, _, _) => 0;
      assert Sizing(Some(zero), bs, bs) == (CAP, 1);
      assert Want(Some(zero), 1, 0, bs, bs, CAP) == bs;
    }
  }

  /** The clamp has no effect: what the callback asks for is what is queued, up to the remainder. */
  ghost predicate Honoured(cb: SizeCb, call: nat, off: nat, total: nat, bs: nat)
    requires off < total && 0 < bs
  {
    var want := Want(Some(cb), call, off, total, bs, Sizing(Some(cb), total, bs).0);
    want == Min(total - off, cb(call, off, total, bs))
  }

  /** The callback's answer about chunk i, which is asked right after those about the probe and the chunks before. */
  function AnswerFor(cb: SizeCb, calls: nat, plan: seq<Chunk>, i: nat, total: nat, bs: nat): nat
    requires i < |plan|
  {
    cb(calls + i, plan[i].off, total, bs)
  }

  /** Chunk sizes for any callback: an answer from 1 up to the size of the buffers is honoured, any other one gives
      way to the default block; the last chunk takes what is left. */
  ghost predicate Sized(plan: seq<Chunk>, cb: SizeCb, calls: nat, total: nat, bs: nat, maxBuf: nat) {
    forall i | 0 <= i < |plan| ::
      var answer := AnswerFor(cb, calls, plan, i, total, bs);
      && plan[i].off < total
      && plan[i].len == Min(total - plan[i].off, if 1 <= answer <= maxBuf then answer else bs)
  }

  lemma {:induction false} PlanIsSized(cb: SizeCb, call: nat, off: nat, total: nat, bs: nat, maxBuf: nat)
    requires 0 < bs && off <= total
    ensures Sized(Plan(Some(cb), call, off, total, bs, maxBuf), cb, call, total, bs, maxBuf)
    decreases total - off
  {
    if off < total {
      var want := Want(Some(cb), call, off, total, bs, maxBuf);
      var rest := Plan(Some(cb), call + 1, off + want, total, bs, maxBuf);
      PlanIsSized(cb, call + 1, off + want, total, bs, maxBuf);
      var plan := [Chunk(off, want)] + rest;
      forall i | 0 < i < |plan|
        ensures AnswerFor(cb, call, plan, i, total, bs) == AnswerFor(cb, call + 1, rest, i - 1, total, bs)
        ensures plan[i] == rest[i - 1]
      {
      }
    }
  }

  /** The chunks of every run with a callback, whatever it answers. */
  lemma EveryAnswerHonoured(cb: SizeCb, total: nat, bs: nat)
    requires 0 < bs
    ensures var (maxBuf, calls) := Sizing(Some(cb), total, bs);
            && Sized(WholePlan(Some(cb), total, bs), cb, calls, total, bs, maxBuf)
            && Asked(cb, calls, total, bs) && Largest(maxBuf, cb, calls, total, bs)
  {
    var (maxBuf, calls) := Sizing(Some(cb), total, bs);
    SizingIs(Some(cb), total, bs);
    PlanIsSized(cb, calls, 0, total, bs, maxBuf);
  }

  /** _fixed_block_cb */
  function Fixed(bs: Unsigned): SizeCb { (_, _, _, _) => bs }

  /** A callback that always answers the default block changes no chunk. */
  lemma {:induction false} FixedIsPlain(bs: Unsigned, call: nat, call': nat, off: nat, total: nat, m: nat, m': nat)
    requires off <= total && 0 < bs
    ensures Plan(Some(Fixed(bs)), call, off, total, bs, m) == Plan(None, call', off, total, bs, m')
    decreases total - off
  {
    if off < total {
      var want := Min(total - off, bs);
      FixedIsPlain(bs, call + 1, call' + 1, off + want, total, m, m');
    }
  }

  // ---------- the adaptive callback ----------

  /** Conversion of a Python int to c_uint. */
  function ToUnsigned(x: nat): Unsigned { if x < U32 then x else x % U32 }

  /** _adaptive_buffer_size: the default times 1, 2, 4 or 8 by quarter of the file. The
      progress fraction is exact here. */
  function Adaptive(off: nat, total: nat, bs: nat): Unsigned {
    ToUnsigned(if total == 0 || 4 * off < total then bs
               else if 2 * off < total then bs * 2
               else if 4 * off < 3 * total then bs * 4
               else bs * 8)
  }

  /** The same with the fraction that the program computes, a floating-point number. */
  function AdaptiveBy(progress: real, bs: nat): nat {
    if progress < 0.25 then bs
    else if progress < 0.5 then bs * 2
    else if progress < 0.75 then bs * 4
    else bs * 8
  }

  /** A quotient rounded to 53 bits: off by at most half a unit in the last place below 1, and never
      pushed below a quarter that the exact quotient reaches. */
  ghost predicate Quotient(progress: real, off: nat, total: nat) {
    var (x, t) := (off as real, total as real);
    && x - t / 18014398509481984.0 <= progress * t <= x + t / 18014398509481984.0
    && (4 * off >= total ==> progress >= 0.25) && (2 * off >= total ==> progress >= 0.5)
    && (4 * off >= 3 * total ==> progress >= 0.75)
  }

  /** Rounding changes no answer for files of less than 2^52 bytes. */
  lemma RoundingChangesNothing(progress: real, off: nat, total: nat, bs: nat)
    requires off < total < 0x10_0000_0000_0000 && Quotient(progress, off, total)
    ensures ToUnsigned(AdaptiveBy(progress, bs)) == Adaptive(off, total, bs)
  {
    var t := total as real;
    assert t / 18014398509481984.0 < 0.25;
    BelowQuarter(progress, off, total, 1);
    BelowQuarter(progress, off, total, 2);
    BelowQuarter(progress, off, total, 3);
    hide Quotient;
  }

  lemma BelowQuarter(progress: real, off: nat, total: nat, k: nat)
    requires 0 < total && progress * total as real < off as real + 0.25
    ensures 4 * off < k * total ==> progress < k as real / 4.0
  {
    var t := total as real;
    if 4 * off < k * total {
      assert (k * total) as real == k as real * t;
      assert progress * t < (k as real / 4.0) * t;
      CancelFactor(progress, k as real / 4.0, t);
    }
  }

  lemma CancelFactor(x: real, y: real, t: real)
    requires 0.0 < t && x * t < y * t
    ensures x < y
  {
    var d := y - x;
    assert d * t == y * t - x * t;
  }

  const ADAPTIVE: SizeCb := (_, off, total, bs) => Adaptive(off, total, bs)

  lemma AdaptiveRange(off: nat, total: nat, bs: nat)
    requires 0 < bs && 8 * bs <= CAP
    ensures Adaptive(off, total, bs) in {bs, bs * 2, bs * 4, bs * 8}
  {
  }

  lemma AdaptiveGrows(off: nat, off': nat, total: nat, bs: nat)
    requires off <= off' && 8 * bs <= CAP
    ensures Adaptive(off, total, bs) <= Adaptive(off', total, bs)
  {
  }

  /** off is one of the offsets the probe visits from a on. */
  ghost predicate Probed(a: nat, off: nat, bs: nat)
    requires 0 < bs
    decreases Max(0, off - a)
  {
    a == off || (a < off && Probed(a + bs, off, bs))
  }

  lemma {:induction false} ProbedNext(a: nat, off: nat, bs: nat)
    requires 0 < bs && Probed(a, off, bs)
    ensures Probed(a, off + bs, bs)
    decreases Max(0, off - a)
  {
    if a == off {
      assert Probed(a + bs, off + bs, bs);
    } else {
      ProbedNext(a + bs, off, bs);
    }
  }

  lemma ProbedAfter(off: nat, total: nat, bs: nat)
    requires 0 < bs && 8 * bs <= CAP && Probed(0, off, bs)
    ensures Probed(0, off + Adaptive(off, total, bs), bs)
  {
    AdaptiveRange(off, total, bs);
    ProbedNext(0, off, bs);
    ProbedNext(0, off + bs, bs);
    ProbedNext(0, off + 2 * bs, bs);
    ProbedNext(0, off + 3 * bs, bs);
    ProbedNext(0, off + 4 * bs, bs);
    ProbedNext(0, off + 5 * bs, bs);
    ProbedNext(0, off + 6 * bs, bs);
    ProbedNext(0, off + 7 * bs, bs);
  }

  /** The buffers are at least as long as some answer the callback gave at every probed offset. */
  lemma {:induction false} ProbeSees(cb: SizeCb, call: nat, testOff: nat, total: nat, bs: nat, cur: nat, off: nat)
      returns (seen: nat)
    requires 0 < bs && cur <= CAP && off < total && Probed(testOff, off, bs)
    requires forall c: nat, o: nat :: cb(c, o, total, bs) <= CAP
    ensures cb(seen, off, total, bs) <= Probe(cb, call, testOff, total, bs, cur).0
    decreases Max(0, off - testOff)
  {
    var m := Max(cur, cb(call, testOff, total, bs));
    if testOff == off {
      ProbeBounds(cb, call + 1, testOff + bs, total, bs, m);
      seen := call;
    } else {
      seen := ProbeSees(cb, call + 1, testOff + bs, total, bs, m, off);
    }
  }

  lemma AdaptiveHonoured(call: nat, off: nat, total: nat, bs: nat)
    requires 0 < bs && 8 * bs <= CAP && off < total && Probed(0, off, bs)
    ensures Honoured(ADAPTIVE, call, off, total, bs)
  {
    AdaptiveRange(off, total, bs);
    var _ := ProbeSees(ADAPTIVE, 0, 0, total, bs, bs, off);
  }

  /** Every chunk but the last has the adaptive size, and chunk sizes never shrink before the last. */
  ghost predicate Ramp(plan: seq<Chunk>, total: nat, bs: nat) {
    && (forall i | 0 <= i < |plan| - 1 :: plan[i].len == Adaptive(plan[i].off, total, bs))
    && (forall i | 0 <= i < |plan| - 2 :: plan[i].len <= plan[i + 1].len)
    && (plan != [] ==> var last := plan[|plan| - 1];
                       last.off < total && last.len == Min(total - last.off, Adaptive(last.off, total, bs)))
  }

  lemma RampCons(c: Chunk, rest: seq<Chunk>, total: nat, bs: nat)
    requires 8 * bs <= CAP && Ramp(rest, total, bs) && rest != []
    requires c.len == Adaptive(c.off, total, bs) && rest[0].off == c.off + c.len
    ensures Ramp([c] + rest, total, bs)
  {
    var plan := [c] + rest;
    assert forall i | 1 <= i < |plan| :: plan[i] == rest[i - 1];
    AdaptiveGrows(c.off, c.off + c.len, total, bs);
    forall i | 0 <= i < |plan| - 2 ensures plan[i].len <= plan[i + 1].len {
      assert plan[i + 1] == rest[i];
    }
  }

  /** With the adaptive callback and 8 blocks within the limit, the fallback never fires. */
  lemma {:induction false} AdaptivePlan(call: nat, off: nat, total: nat, bs: nat)
    requires 0 < bs && 8 * bs <= CAP && off <= total && (off < total ==> Probed(0, off, bs))
    ensures Ramp(Plan(Some(ADAPTIVE), call, off, total, bs, Sizing(Some(ADAPTIVE), total, bs).0), total, bs)
    decreases total - off
  {
    hide Sizing, Adaptive, Probed;
    var maxBuf := Sizing(Some(ADAPTIVE), total, bs).0;
    if off < total {
      AdaptiveHonoured(call, off, total, bs);
      var want := Want(Some(ADAPTIVE), call, off, total, bs, maxBuf);
      if off + want < total {
        ProbedAfter(off, total, bs);
      }
      var rest := Plan(Some(ADAPTIVE), call + 1, off + want, total, bs, maxBuf);
      AdaptivePlan(call + 1, off + want, total, bs);
      if off + want < total {
        RampCons(Chunk(off, want), rest, total, bs);
      }
    }
  }

  lemma RampTail(call: nat, off: nat, next: nat, total: nat, bs: nat, maxBuf: nat)
    requires 0 < bs && next == off + Adaptive(off, total, bs) < total
    requires Ramp(Plan(Some(ADAPTIVE), call, off, total, bs, maxBuf), total, bs)
    ensures Ramp(Plan(Some(ADAPTIVE), call + 1, next, total, bs, maxBuf), total, bs)
  {
    hide Adaptive, Sizing;
    var plan := Plan(Some(ADAPTIVE), call, off, total, bs, maxBuf);
    assert plan[0].off == off && plan[0].len == Adaptive(off, total, bs);
    var rest := Plan(Some(ADAPTIVE), call + 1, off + plan[0].len, total, bs, maxBuf);
    assert plan == [plan[0]] + rest;
    assert forall i | 0 <= i < |rest| :: rest[i] == plan[i + 1];
  }

  /** Where the first chunks of a file of sixteen blocks start. */
  function Stop(i: nat, bs: nat): nat {
    if i == 0 then 0 else if i == 1 then bs else if i == 2 then 2 * bs else if i == 3 then 3 * bs
    else if i == 4 then 4 * bs else if i == 5 then 6 * bs else if i == 6 then 8 * bs else 12 * bs
  }

  lemma StopAfterStop(i: nat, bs: nat)
    requires 0 < bs <= CAP && i < 7
    ensures Stop(i, bs) + Adaptive(Stop(i, bs), 16 * bs, bs) == Stop(i + 1, bs) < 16 * bs
  {
  }

  lemma {:induction false} RampReaches(call: nat, i: nat, bs: nat, maxBuf: nat)
    requires 0 < bs <= CAP && i <= 7
    requires Ramp(Plan(Some(ADAPTIVE), call, 0, 16 * bs, bs, maxBuf), 16 * bs, bs)
    ensures Stop(i, bs) <= 16 * bs
    ensures Ramp(Plan(Some(ADAPTIVE), call + i, Stop(i, bs), 16 * bs, bs, maxBuf), 16 * bs, bs)
  {
    hide Ramp, Plan, Adaptive;
    if i > 0 {
      RampReaches(call, i - 1, bs, maxBuf);
      StopAfterStop(i - 1, bs);
      RampTail(call + i - 1, Stop(i - 1, bs), Stop(i, bs), 16 * bs, bs, maxBuf);
    }
  }

  lemma TooBigFallsBack(call: nat, bs: nat, maxBuf: nat)
    requires 0 < bs <= maxBuf <= CAP < 8 * bs
    ensures !Ramp(Plan(Some(ADAPTIVE), call, 12 * bs, 16 * bs, bs, maxBuf), 16 * bs, bs)
  {
    assert Adaptive(12 * bs, 16 * bs, bs) == 8 * bs;
    var plan := Plan(Some(ADAPTIVE), call, 12 * bs, 16 * bs, bs, maxBuf);
    assert plan[0] == Chunk(12 * bs, bs);
    assert plan[0].len != Min(4 * bs, 8 * bs);
  }

  /** Sixteen blocks of which eight do not fit the limit: if nothing falls back earlier, the
      chunk at block 12 does. */
  lemma LateChunkFallsBack(bs: nat)
    requires 0 < bs <= CAP < 8 * bs
    ensures !Ramp(WholePlan(Some(ADAPTIVE), 16 * bs, bs), 16 * bs, bs)
  {
    hide Ramp, Plan, Probe, Adaptive;
    var (maxBuf, calls) := Sizing(Some(ADAPTIVE), 16 * bs, bs);
    ProbeBounds(ADAPTIVE, 0, 0, 16 * bs, bs, bs);
    if Ramp(WholePlan(Some(ADAPTIVE), 16 * bs, bs), 16 * bs, bs) {
      RampReaches(calls, 7, bs, maxBuf);
      TooBigFallsBack(calls + 7, bs, maxBuf);
      assert false;
    }
  }

  /** The adaptive callback is honoured on every file exactly when 8 blocks are within the
      limit (for blocks that fit at all). */
  lemma AdaptiveRampIff(bs: nat)
    requires 0 < bs <= CAP
    ensures (forall total: nat :: Ramp(WholePlan(Some(ADAPTIVE), total, bs), total, bs)) <==> 8 * bs <= CAP
  {
    if 8 * bs <= CAP {
      forall total: nat ensures Ramp(WholePlan(Some(ADAPTIVE), total, bs), total, bs) {
        AdaptivePlan(Sizing(Some(ADAPTIVE), total, bs).1, 0, total, bs);
      }
    } else {
      LateChunkFallsBack(bs);
    }
  }
}
