/**
 UringAsync: completions of a ring handed to asyncio futures through a reader callback on
 the ring's file descriptor. The event loop runs one callback at a time; between callbacks
 waits begin, tasks are cancelled, and the kernel completes requests.
 */
module UringAsync {
  import opened IoUring
  import opened UringCtx

  /** A future of the event loop. */
  datatype Fut = Pending | Result(pair: Pair) | Failed | Cancelled

  /** A completion was taken for a waiter; dropped if its future was already done. */
  datatype Delivery = Delivery(fut: nat, pair: Pair, dropped: bool)

  /** Futures are numbered in the order of creation; log is the history of deliveries. */
  datatype State = State(waiters: seq<nat>, futs: seq<Fut>, armed: bool, loop: Option<nat>, closed: bool,
                         log: seq<Delivery>)
  {
    ghost predicate Known() { forall k | 0 <= k < |waiters| :: waiters[k] < |futs| }
  }

  const Initial := State([], [], false, None, false, [])

  // ---------- the steps ----------

  /** _remove_reader */
  function Unarmed(s: State): State {
    if !s.armed || s.loop.None? then s else s.(armed := false)
  }

  /** _arm_reader */
  function Armed(s: State): State {
    if s.closed || s.waiters == [] || s.armed || s.loop.None? then s else s.(armed := true)
  }

  /** The first waiter leaves the queue with a completion. */
  function Delivered(s: State, pair: Pair): State
    requires s.waiters != [] && s.waiters[0] < |s.futs|
  {
    var f := s.waiters[0];
    var done := !s.futs[f].Pending?;
    s.(waiters := s.waiters[1..], futs := if done then s.futs else s.futs[f := Result(pair)],
       log := s.log + [Delivery(f, pair, done)])
  }

  /** Several completions, one after the other. */
  ghost function DeliveredAll(s: State, pairs: seq<Pair>): (r: State)
    requires s.Known() && |pairs| <= |s.waiters|
    ensures r.Known() && r.waiters == s.waiters[|pairs|..]
    ensures r.armed == s.armed && r.loop == s.loop && r.closed == s.closed
  {
    if pairs == [] then s
    else Delivered(DeliveredAll(s, pairs[..|pairs| - 1]), pairs[|pairs| - 1])
  }

  /** Every waiter leaves with the same bad news, unless its future is already done. */
  ghost function Dismissed(s: State, news: Fut): (r: State)
    requires s.Known()
    ensures r.waiters == [] && |r.futs| == |s.futs| && r.log == s.log
    ensures r.armed == s.armed && r.loop == s.loop && r.closed == s.closed
    decreases |s.waiters|
  {
    if s.waiters == [] then s
    else
      var f := s.waiters[0];
      Dismissed(s.(waiters := s.waiters[1..], futs := if s.futs[f].Pending? then s.futs[f := news] else s.futs), news)
  }

  /** wait_completion up to its await, on an open instance whose loop is this one or not yet bound. */
  function Waiting(s: State, loop: nat): State {
    Armed(s.(loop := Some(loop), waiters := s.waiters + [|s.futs|], futs := s.futs + [Pending]))
  }

  /** A task awaiting future f is cancelled: a pending future is, a done one stays as it is. */
  function CancelRequested(s: State, f: nat): State
    requires f < |s.futs|
  {
    if s.futs[f].Pending? then s.(futs := s.futs[f := Cancelled]) else s
  }

  function Without(xs: seq<nat>, f: nat): (r: seq<nat>)
    ensures f !in xs ==> r == xs
  {
    if xs == [] then [] else if xs[0] == f then xs[1..] else [xs[0]] + Without(xs[1..], f)
  }

  /** The handler of CancelledError in wait_completion. */
  function Awoken(s: State, f: nat): State {
    var s1 := s.(waiters := Without(s.waiters, f));
    if s1.waiters == [] then Unarmed(s1) else s1
  }

  ghost function Shut(s: State): State
    requires s.Known()
  {
    if s.closed then s else Dismissed(Unarmed(s.(closed := true)), Cancelled)
  }

  // ---------- the invariant ----------

  /** The failures among completions, in order. */
  function Negatives(pairs: seq<Pair>): seq<int> {
    if pairs == [] then []
    else Negatives(pairs[..|pairs| - 1]) + if pairs[|pairs| - 1].res < 0 then [pairs[|pairs| - 1].res] else []
  }

  lemma {:induction false} NegativesFirst(pair: Pair, rest: seq<Pair>)
    ensures Negatives([pair] + rest) == (if pair.res < 0 then [pair.res] else []) + Negatives(rest)
  {
    var all := [pair] + rest;
    if rest == [] {
      assert all[..0] == [] && Negatives([]) == [];
    } else {
      NegativesFirst(pair, rest[..|rest| - 1]);
      assert all[..|all| - 1] == [pair] + rest[..|rest| - 1];
    }
  }

  lemma NothingMore(s: State)
    ensures Negatives([]) == [] && (s.Known() ==> DeliveredAll(s, []) == s)
  {
  }

  lemma OneMore(s: State, pairs: seq<Pair>, pair: Pair)
    requires s.Known() && |pairs| < |s.waiters|
    ensures DeliveredAll(s, pairs + [pair]) == Delivered(DeliveredAll(s, pairs), pair)
    ensures Negatives(pairs + [pair]) == Negatives(pairs) + if pair.res < 0 then [pair.res] else []
  {
    assert (pairs + [pair])[..|pairs|] == pairs;
  }

  /** Whoever waits is pending or cancelled, and queues behind everyone served. Whoever was
      served holds the completion taken for it, unless it had been cancelled before. */
  ghost predicate Fair(s: State) {
    && s.Known()
    && (forall j, k | 0 <= j < k < |s.waiters| :: s.waiters[j] < s.waiters[k])
    && (forall k | 0 <= k < |s.waiters| :: s.futs[s.waiters[k]].Pending? || s.futs[s.waiters[k]].Cancelled?)
    && (forall j, k | 0 <= j < k < |s.log| :: s.log[j].fut < s.log[k].fut)
    && (forall j, k | 0 <= j < |s.log| && 0 <= k < |s.waiters| :: s.log[j].fut < s.waiters[k])
    && (forall k | 0 <= k < |s.log| :: s.log[k].fut < |s.futs|
          && s.futs[s.log[k].fut] == if s.log[k].dropped then Cancelled else Result(s.log[k].pair))
  }

  /** Nobody pending is forgotten, and nobody has a result that was not taken for it. */
  ghost predicate NobodyLost(s: State) {
    && (forall f | 0 <= f < |s.futs| && s.futs[f].Pending? :: f in s.waiters)
    && (forall f | 0 <= f < |s.futs| && s.futs[f].Result? :: exists k :: 0 <= k < |s.log| && s.log[k].fut == f)
  }

  /** The reader is armed exactly when someone waits; a closed instance has neither. */
  ghost predicate Listening(s: State) {
    && (s.armed <==> s.waiters != []) && (s.armed ==> s.loop.Some?) && (s.closed ==> !s.armed)
  }

  ghost predicate Inv(s: State) { Fair(s) && NobodyLost(s) && Listening(s) }

  // ---------- every step keeps it ----------

  lemma DeliveredKeeps(s: State, pair: Pair)
    requires Fair(s) && NobodyLost(s) && s.waiters != []
    ensures Fair(Delivered(s, pair)) && NobodyLost(Delivered(s, pair))
    ensures LogPairs(Delivered(s, pair).log) == LogPairs(s.log) + [pair]
  {
    assert LogPairs(Delivered(s, pair).log) == LogPairs(s.log) + [pair];
    hide Fair, NobodyLost, Delivered, LogPairs;
    DeliveredIsFair(s, pair);
    DeliveredLosesNobody(s, pair);
  }

  lemma DeliveredIsFair(s: State, pair: Pair)
    requires Fair(s) && s.waiters != []
    ensures Fair(Delivered(s, pair))
  {
  }

  lemma DeliveredLosesNobody(s: State, pair: Pair)
    requires Fair(s) && NobodyLost(s) && s.waiters != []
    ensures NobodyLost(Delivered(s, pair))
  {
    var r := Delivered(s, pair);
    assert r.log[|s.log|].fut == s.waiters[0];
    forall f | 0 <= f < |r.futs| && r.futs[f].Result?
      ensures exists k :: 0 <= k < |r.log| && r.log[k].fut == f
    {
      if f != s.waiters[0] {
        var k :| 0 <= k < |s.log| && s.log[k].fut == f;
        assert r.log[k].fut == f;
      }
    }
    forall f | 0 <= f < |r.futs| && r.futs[f].Pending? ensures f in r.waiters {
      assert f in s.waiters && f != s.waiters[0];
    }
    hide Fair;
  }

  lemma {:induction false} DeliveredAllKeeps(s: State, pairs: seq<Pair>)
    requires Fair(s) && NobodyLost(s) && |pairs| <= |s.waiters|
    ensures Fair(DeliveredAll(s, pairs)) && NobodyLost(DeliveredAll(s, pairs))
    ensures LogPairs(DeliveredAll(s, pairs).log) == LogPairs(s.log) + pairs
  {
    hide *;
    FairKnows(s);
    NothingMore(s);
    if pairs == [] {
      assert LogPairs(s.log) + pairs == LogPairs(s.log);
    } else {
      var first, last := pairs[..|pairs| - 1], pairs[|pairs| - 1];
      DeliveredAllKeeps(s, first);
      DeliveredKeeps(DeliveredAll(s, first), last);
      OneMore(s, first, last);
      assert first + [last] == pairs;
      assert LogPairs(s.log) + pairs == LogPairs(s.log) + first + [last];
    }
  }

  lemma FairKnows(s: State)
    requires Fair(s)
    ensures s.Known()
  {
  }

  function LogPairs(log: seq<Delivery>): seq<Pair> {
    seq(|log|, k requires 0 <= k < |log| => log[k].pair)
  }

  lemma OneDismissed(s: State, r: State, news: Fut)
    requires Fair(s) && NobodyLost(s) && s.waiters != [] && (news.Failed? || news.Cancelled?)
    requires var f := s.waiters[0];
             r == s.(waiters := s.waiters[1..], futs := if s.futs[f].Pending? then s.futs[f := news] else s.futs)
    ensures Fair(r) && NobodyLost(r)
  {
    forall i | 0 <= i < |r.futs| && r.futs[i].Pending? ensures i in r.waiters {
      assert i in s.waiters && i != s.waiters[0];
    }
  }

  lemma {:induction false} DismissedKeeps(s: State, news: Fut)
    requires Fair(s) && NobodyLost(s) && (news.Failed? || news.Cancelled?)
    ensures Fair(Dismissed(s, news)) && NobodyLost(Dismissed(s, news))
    decreases |s.waiters|
  {
    if s.waiters != [] {
      var f := s.waiters[0];
      var r := s.(waiters := s.waiters[1..], futs := if s.futs[f].Pending? then s.futs[f := news] else s.futs);
      OneDismissed(s, r, news);
      hide Fair, NobodyLost;
      DismissedKeeps(r, news);
    }
  }

  lemma WaitingKeeps(s: State, loop: nat)
    requires Inv(s) && !s.closed && (s.loop == None || s.loop == Some(loop))
    ensures Inv(Waiting(s, loop))
  {
    var r := Waiting(s, loop);
    assert Fair(r);
    WaitingLosesNobody(s, loop);
    hide Fair, NobodyLost;
  }

  lemma WaitingLosesNobody(s: State, loop: nat)
    requires NobodyLost(s)
    ensures NobodyLost(Waiting(s, loop))
  {
    var r := Waiting(s, loop);
    forall f | 0 <= f < |r.futs| && r.futs[f].Pending? ensures f in r.waiters {
      if f < |s.futs| {
        assert f in s.waiters;
      } else {
        assert r.waiters[|s.waiters|] == f;
      }
    }
    forall f | 0 <= f < |r.futs| && r.futs[f].Result?
      ensures exists k :: 0 <= k < |r.log| && r.log[k].fut == f
    {
      assert s.futs[f].Result?;
    }
  }

  lemma CancelRequestedKeeps(s: State, f: nat)
    requires Inv(s) && f < |s.futs|
    ensures Inv(CancelRequested(s, f))
  {
    var r := CancelRequested(s, f);
    forall i | 0 <= i < |r.futs| && r.futs[i].Result?
      ensures exists k :: 0 <= k < |r.log| && r.log[k].fut == i
    {
      assert s.futs[i].Result?;
    }
  }

  /** Removing one waiter keeps the order of the others. */
  lemma {:induction false} WithoutKeeps(xs: seq<nat>, f: nat)
    requires forall j, k | 0 <= j < k < |xs| :: xs[j] < xs[k]
    ensures forall j, k | 0 <= j < k < |Without(xs, f)| :: Without(xs, f)[j] < Without(xs, f)[k]
    ensures forall x :: x in Without(xs, f) <==> x in xs && x != f
  {
    if xs != [] {
      WithoutKeeps(xs[1..], f);
      assert xs == [xs[0]] + xs[1..];
      if xs[0] == f {
        assert f !in xs[1..];
      } else {
        var rest := Without(xs[1..], f);
        forall k | 0 <= k < |rest| ensures xs[0] < rest[k] {
          assert rest[k] in xs[1..];
        }
      }
    }
  }

  /** ys is xs with f taken out, if it was there. */
  ghost predicate Minus(xs: seq<nat>, f: nat, ys: seq<nat>) {
    f !in ys
    && if f in xs then exists k :: 0 <= k < |xs| && xs[k] == f && ys == xs[..k] + xs[k + 1..] else ys == xs
  }

  lemma {:induction false} WithoutAt(xs: seq<nat>, f: nat) returns (k: nat)
    requires f in xs
    ensures k < |xs| && xs[k] == f && Without(xs, f) == xs[..k] + xs[k + 1..]
  {
    if xs[0] == f {
      k := 0;
    } else {
      assert xs == [xs[0]] + xs[1..];
      k := WithoutAt(xs[1..], f);
      assert [xs[0]] + xs[1..][..k] == xs[..k + 1] && xs[1..][k + 1..] == xs[k + 2..];
      k := k + 1;
    }
  }

  lemma WithoutMinus(xs: seq<nat>, f: nat)
    requires forall j, k | 0 <= j < k < |xs| :: xs[j] < xs[k]
    ensures Minus(xs, f, Without(xs, f))
  {
    WithoutKeeps(xs, f);
    hide Without;
    if f in xs {
      var _ := WithoutAt(xs, f);
    }
  }

  /** Only that waiter leaves, and nothing happens to any future. */
  lemma AwokenLeaves(s: State, f: nat)
    requires Fair(s)
    ensures var r := Awoken(s, f);
            && Minus(s.waiters, f, r.waiters)
            && r.futs == s.futs && r.log == s.log && r.loop == s.loop && r.closed == s.closed
  {
    WithoutMinus(s.waiters, f);
    hide Without, Minus;
  }

  lemma AwokenInv(s: State, f: nat)
    requires Inv(s) && f < |s.futs| && !s.futs[f].Pending?
    ensures Inv(Awoken(s, f))
  {
    var r := Awoken(s, f);
    WithoutKeeps(s.waiters, f);
    forall k | 0 <= k < |r.waiters|
      ensures r.waiters[k] < |r.futs| && (r.futs[r.waiters[k]].Pending? || r.futs[r.waiters[k]].Cancelled?)
      ensures forall j | 0 <= j < |r.log| :: r.log[j].fut < r.waiters[k]
    {
      assert r.waiters[k] in s.waiters;
    }
  }

  /** The handler keeps the invariant, and only its own waiter leaves. */
  lemma AwokenKeeps(s: State, f: nat)
    requires Inv(s) && f < |s.futs| && !s.futs[f].Pending?
    ensures var r := Awoken(s, f);
            && Inv(r) && Minus(s.waiters, f, r.waiters) && (r.armed <==> r.waiters != [])
            && r.futs == s.futs && r.log == s.log && r.loop == s.loop && r.closed == s.closed
  {
    hide Fair, NobodyLost, Awoken, Minus;
    AwokenInv(s, f);
    AwokenLeaves(s, f);
  }

  /** _on_readable when the completions taken are pairs. */
  ghost function Readable(s: State, pairs: seq<Pair>): State
    requires s.Known() && |pairs| <= |s.waiters|
  {
    Armed(DeliveredAll(Unarmed(s), pairs))
  }

  lemma FlagsAside(s: State, s1: State)
    requires Fair(s) && NobodyLost(s) && s1.waiters == s.waiters && s1.futs == s.futs && s1.log == s.log
    ensures Fair(s1) && NobodyLost(s1)
  {
  }

  lemma ReadableKeeps(s: State, pairs: seq<Pair>)
    requires Inv(s) && !s.closed && |pairs| <= |s.waiters|
    ensures Inv(Readable(s, pairs))
    ensures LogPairs(Readable(s, pairs).log) == LogPairs(s.log) + pairs
  {
    assert s.Known();
    hide Fair, NobodyLost, LogPairs;
    var s1 := Unarmed(s);
    FlagsAside(s, s1);
    DeliveredAllKeeps(s1, pairs);
    var s2 := DeliveredAll(s1, pairs);
    FlagsAside(s2, Armed(s2));
  }

  lemma DismissedAllKeeps(s: State, news: Fut, closing: bool)
    requires Inv(s) && (if closing then news.Cancelled? else news.Failed?)
    ensures var s1 := if closing then s.(closed := true) else s;
            Inv(Dismissed(Unarmed(s1), news)) && s1.Known()
  {
    var s1 := Unarmed(if closing then s.(closed := true) else s);
    assert Fair(s1) && NobodyLost(s1);
    DismissedKeeps(s1, news);
    hide Fair, NobodyLost;
  }

  lemma {:induction false} FirstThenRest(s: State, pair: Pair, rest: seq<Pair>)
    requires s.Known() && |rest| < |s.waiters|
    ensures DeliveredAll(s, [pair] + rest) == DeliveredAll(Delivered(s, pair), rest)
  {
    var all := [pair] + rest;
    if rest == [] {
      assert all[..0] == [];
      assert DeliveredAll(s, []) == s;
    } else {
      FirstThenRest(s, pair, rest[..|rest| - 1]);
      assert all[..|all| - 1] == [pair] + rest[..|rest| - 1];
    }
  }

  lemma ClosingKeeps(s: State)
    requires Inv(s)
    ensures s.Known() && Inv(Shut(s)) && Shut(s).closed && Shut(s).waiters == [] && !Shut(s).armed
    ensures Shut(s).log == s.log && Shut(s).loop == s.loop && AllHeard(s.futs, Shut(s).futs, Cancelled)
    ensures if s.closed then Shut(s) == s
            else var s1 := Unarmed(s.(closed := true)); s1.Known() && Shut(s) == Dismissed(s1, Cancelled)
  {
    if !s.closed {
      DismissedAllKeeps(s, Cancelled, true);
      DismissedAllHear(Unarmed(s.(closed := true)), Cancelled);
    }
  }

  /** Every pending future has got the bad news, and the others are as they were. */
  ghost predicate AllHeard(was: seq<Fut>, now: seq<Fut>, news: Fut) {
    |now| == |was| && forall f | 0 <= f < |was| :: now[f] == if was[f].Pending? then news else was[f]
  }

  lemma {:induction false} DismissedOnes(s: State, news: Fut)
    requires s.Known() && !news.Pending?
    ensures var r := Dismissed(s, news);
            forall f | 0 <= f < |s.futs| ::
              r.futs[f] == if s.futs[f].Pending? && f in s.waiters then news else s.futs[f]
    decreases |s.waiters|
  {
    if s.waiters != [] {
      var f := s.waiters[0];
      var s1 := s.(waiters := s.waiters[1..], futs := if s.futs[f].Pending? then s.futs[f := news] else s.futs);
      DismissedOnes(s1, news);
      assert s.waiters == [f] + s.waiters[1..];
    }
  }

  lemma DismissedAllHear(s: State, news: Fut)
    requires s.Known() && NobodyLost(s) && !news.Pending?
    ensures AllHeard(s.futs, Dismissed(s, news).futs, news)
  {
    DismissedOnes(s, news);
  }

  /** The first waiters have got these completions, one each, if they were still pending; the log says so. */
  ghost predicate Served(s: State, r: State, pairs: seq<Pair>) {
    && |pairs| <= |s.waiters| && r.waiters == s.waiters[|pairs|..] && |r.futs| == |s.futs| && s.Known()
    && |r.log| == |s.log| + |pairs| && r.log[..|s.log|] == s.log
    && (forall k | 0 <= k < |pairs| ::
          && r.log[|s.log| + k] == Delivery(s.waiters[k], pairs[k], !s.futs[s.waiters[k]].Pending?)
          && (s.futs[s.waiters[k]].Pending? ==> r.futs[s.waiters[k]] == Result(pairs[k])))
    && (forall f | 0 <= f < |s.futs| && (!s.futs[f].Pending? || f !in s.waiters[..|pairs|]) :: r.futs[f] == s.futs[f])
  }

  lemma ServedOneMore(s: State, r: State, pairs: seq<Pair>, pair: Pair)
    requires Served(s, r, pairs) && |pairs| < |s.waiters|
    requires forall j, k | 0 <= j < k < |s.waiters| :: s.waiters[j] < s.waiters[k]
    ensures r.waiters[0] < |r.futs| && Served(s, Delivered(r, pair), pairs + [pair])
  {
    var n, all := |pairs|, pairs + [pair];
    var r1, w := Delivered(r, pair), s.waiters[n];
    assert r.waiters[0] == w && w !in s.waiters[..n] && s.waiters[..n + 1] == s.waiters[..n] + [w];
    assert r.futs[w] == s.futs[w];
    assert r1.log[..|s.log|] == r.log[..|s.log|];
    forall k | 0 <= k < |all|
      ensures r1.log[|s.log| + k] == Delivery(s.waiters[k], all[k], !s.futs[s.waiters[k]].Pending?)
      ensures s.futs[s.waiters[k]].Pending? ==> r1.futs[s.waiters[k]] == Result(all[k])
    {
      if k < n {
        assert r1.log[|s.log| + k] == r.log[|s.log| + k];
      }
    }
  }

  lemma NobodyServed(s: State)
    requires s.Known()
    ensures Served(s, s, []) && DeliveredAll(s, []) == s
  {
  }

  lemma FairOrder(s: State)
    requires Fair(s)
    ensures s.Known() && forall j, k | 0 <= j < k < |s.waiters| :: s.waiters[j] < s.waiters[k]
  {
  }

  lemma {:induction false} DeliveredOnes(s: State, pairs: seq<Pair>)
    requires Fair(s) && |pairs| <= |s.waiters|
    ensures s.Known() && Served(s, DeliveredAll(s, pairs), pairs)
  {
    hide *;
    FairOrder(s);
    if pairs == [] {
      NobodyServed(s);
    } else {
      var first, last := pairs[..|pairs| - 1], pairs[|pairs| - 1];
      DeliveredOnes(s, first);
      ServedOneMore(s, DeliveredAll(s, first), first, last);
      OneMore(s, first, last);
      assert first + [last] == pairs;
    }
  }

  // ---------- runs ----------

  /** What can happen between and in callbacks. */
  datatype Step =
    | Wait(loop: nat)
    | Cancel(fut: nat)
    | Wake(fut: nat)
    | Read(pairs: seq<Pair>)
    | ReadFails
    | Close

  /** A wait is refused on a closed instance or a second loop; the reader callback runs only
      when armed; the handler of a cancelled task finds its future done. */
  ghost predicate Enabled(s: State, step: Step) {
    match step
    case Wait(loop) => !s.closed && (s.loop == None || s.loop == Some(loop))
    case Cancel(f) => f < |s.futs|
    case Wake(f) => f < |s.futs| && !s.futs[f].Pending?
    case Read(pairs) => s.armed && s.Known() && |pairs| <= |s.waiters|
    case ReadFails => s.armed && s.Known()
    case Close => s.Known()
  }

  ghost function Next(s: State, step: Step): State
    requires Enabled(s, step)
  {
    match step
    case Wait(loop) => Waiting(s, loop)
    case Cancel(f) => CancelRequested(s, f)
    case Wake(f) => Awoken(s, f)
    case Read(pairs) => Readable(s, pairs)
    case ReadFails => Dismissed(Unarmed(s), Failed)
    case Close => Shut(s)
  }

  /** The completions a step takes from the ring. */
  function Taken(step: Step): seq<Pair> {
    if step.Read? then step.pairs else []
  }

  lemma StepKeeps(s: State, step: Step)
    requires Inv(s) && Enabled(s, step)
    ensures Inv(Next(s, step)) && LogPairs(Next(s, step).log) == LogPairs(s.log) + Taken(step)
  {
    hide Fair, NobodyLost;
    match step
    case Wait(loop) => WaitingKeeps(s, loop);
    case Cancel(f) => CancelRequestedKeeps(s, f);
    case Wake(f) => AwokenKeeps(s, f);
    case Read(pairs) => ReadableKeeps(s, pairs);
    case ReadFails => DismissedAllKeeps(s, Failed, false);
    case Close => DismissedAllKeeps(s, Cancelled, true);
  }

  ghost predicate Possible(s: State, steps: seq<Step>)
    decreases steps
  {
    steps == [] || (Enabled(s, steps[0]) && Possible(Next(s, steps[0]), steps[1..]))
  }

  ghost function After(s: State, steps: seq<Step>): State
    requires Possible(s, steps)
    decreases steps
  {
    if steps == [] then s else After(Next(s, steps[0]), steps[1..])
  }

  /** The completions a run takes from the ring, in order. */
  function TakenIn(steps: seq<Step>): seq<Pair> {
    if steps == [] then [] else Taken(steps[0]) + TakenIn(steps[1..])
  }

  lemma {:induction false} RunKeeps(s: State, steps: seq<Step>)
    requires Inv(s) && Possible(s, steps)
    ensures Inv(After(s, steps)) && LogPairs(After(s, steps).log) == LogPairs(s.log) + TakenIn(steps)
    decreases steps
  {
    hide Inv;
    if steps != [] {
      StepKeeps(s, steps[0]);
      RunKeeps(Next(s, steps[0]), steps[1..]);
    }
  }

  /** The completions taken so far went to the waiters one for one. */
  ghost predicate OneForOne(s: State, taken: seq<Pair>) {
    && |s.log| == |taken|
    // the k-th one is the k-th waiter's, who has it unless cancelled before
    && (forall k | 0 <= k < |taken| ::
          && s.log[k].pair == taken[k] && s.log[k].fut < |s.futs|
          && s.futs[s.log[k].fut] == if s.log[k].dropped then Cancelled else Result(taken[k]))
    // waiters are served in the order in which they came, and each once
    && (forall j, k | 0 <= j < k < |taken| :: s.log[j].fut < s.log[k].fut)
    // a future with a result has one that was taken for it
    && (forall f | 0 <= f < |s.futs| && s.futs[f].Result? ::
          exists k :: 0 <= k < |taken| && s.log[k] == Delivery(f, s.futs[f].pair, false))
  }

  lemma InvIsOneForOne(s: State)
    requires Inv(s)
    ensures OneForOne(s, LogPairs(s.log))
  {
    forall f | 0 <= f < |s.futs| && s.futs[f].Result?
      ensures exists k :: 0 <= k < |s.log| && s.log[k] == Delivery(f, s.futs[f].pair, false)
    {
      var k :| 0 <= k < |s.log| && s.log[k].fut == f;
      assert s.log[k] == Delivery(f, s.futs[f].pair, false);
    }
  }

  /** In every run, whatever the order of waits, completions, cancellations and callbacks. */
  lemma DeliveryIsFair(steps: seq<Step>)
    requires Possible(Initial, steps)
    ensures OneForOne(After(Initial, steps), TakenIn(steps))
  {
    hide *;
    InitialInv();
    RunKeeps(Initial, steps);
    InvIsOneForOne(After(Initial, steps));
  }

  lemma {:induction false} AfterSnoc(s: State, steps: seq<Step>, last: Step)
    requires Possible(s, steps + [last])
    ensures Possible(s, steps) && Enabled(After(s, steps), last)
    ensures After(s, steps + [last]) == Next(After(s, steps), last)
    decreases steps
  {
    hide Enabled, Next;
    var all := steps + [last];
    if steps == [] {
      assert all[0] == last && all[1..] == [];
    } else {
      assert all[0] == steps[0] && all[1..] == steps[1..] + [last];
      AfterSnoc(Next(s, steps[0]), steps[1..], last);
    }
  }

  /** Whoever queues has not woken, and is pending unless its task has been cancelled. */
  ghost predicate Asleep(s: State, steps: seq<Step>) {
    forall k | 0 <= k < |s.waiters| ::
      && s.waiters[k] < |s.futs| && Wake(s.waiters[k]) !in steps
      && (!s.futs[s.waiters[k]].Pending? ==> Cancel(s.waiters[k]) in steps)
  }

  /** Future f was cancelled before some reader callback, and its task had not woken by then. */
  ghost predicate CancelledAsleep(f: nat, steps: seq<Step>) {
    exists i :: 0 <= i < |steps| && steps[i].Read? && Cancel(f) in steps[..i] && Wake(f) !in steps[..i]
  }

  ghost predicate DroppedAsleep(s: State, steps: seq<Step>) {
    && (forall step | step in steps && step.Wake? :: step.fut < |s.futs|)
    && forall k | 0 <= k < |s.log| && s.log[k].dropped :: CancelledAsleep(s.log[k].fut, steps)
  }

  lemma StillCancelledAsleep(f: nat, steps: seq<Step>, last: Step)
    requires CancelledAsleep(f, steps)
    ensures CancelledAsleep(f, steps + [last])
  {
    var i :| 0 <= i < |steps| && steps[i].Read? && Cancel(f) in steps[..i] && Wake(f) !in steps[..i];
    assert (steps + [last])[..i] == steps[..i] && (steps + [last])[i] == steps[i];
  }

  lemma NowCancelledAsleep(f: nat, steps: seq<Step>, last: Step)
    requires last.Read? && Cancel(f) in steps && Wake(f) !in steps
    ensures CancelledAsleep(f, steps + [last])
  {
    assert (steps + [last])[..|steps|] == steps && (steps + [last])[|steps|] == last;
  }

  lemma WaitAsleep(s: State, steps: seq<Step>, loop: nat)
    requires Asleep(s, steps) && DroppedAsleep(s, steps)
    ensures Asleep(Waiting(s, loop), steps + [Wait(loop)])
  {
    var r := Waiting(s, loop);
    forall k | 0 <= k < |r.waiters| ensures Wake(r.waiters[k]) !in steps + [Wait(loop)] {
      if k == |s.waiters| {
        assert r.waiters[k] == |s.futs|;
      }
    }
  }

  /** Whoever stays in the queue with its future untouched stays asleep, unless it is what wakes. */
  lemma StaysAsleep(s: State, r: State, steps: seq<Step>, step: Step)
    requires Asleep(s, steps) && |r.futs| == |s.futs|
    requires forall k | 0 <= k < |r.waiters| ::
               && r.waiters[k] in s.waiters && r.futs[r.waiters[k]] == s.futs[r.waiters[k]]
               && step != Wake(r.waiters[k])
    ensures Asleep(r, steps + [step])
  {
    forall k | 0 <= k < |r.waiters|
      ensures Wake(r.waiters[k]) !in steps + [step]
      ensures !r.futs[r.waiters[k]].Pending? ==> Cancel(r.waiters[k]) in steps + [step]
    {
      var j :| 0 <= j < |s.waiters| && s.waiters[j] == r.waiters[k];
    }
  }

  lemma ReadAsleep(s: State, steps: seq<Step>, pairs: seq<Pair>)
    requires Inv(s) && |pairs| <= |s.waiters| && Asleep(s, steps)
    ensures Asleep(Readable(s, pairs), steps + [Step.Read(pairs)])
  {
    ReadableServes(s, pairs);
    var r := Readable(s, pairs);
    forall k | 0 <= k < |r.waiters|
      ensures r.waiters[k] in s.waiters && r.futs[r.waiters[k]] == s.futs[r.waiters[k]]
    {
      assert r.waiters[k] == s.waiters[|pairs| + k];
    }
    hide Fair, NobodyLost, Readable, Asleep;
    StaysAsleep(s, r, steps, Step.Read(pairs));
  }

  lemma StepAsleep(s: State, steps: seq<Step>, step: Step)
    requires Inv(s) && Enabled(s, step) && Asleep(s, steps) && DroppedAsleep(s, steps)
    ensures Asleep(Next(s, step), steps + [step])
  {
    hide NobodyLost, Fair, Readable;
    match step
    case Wait(loop) => WaitAsleep(s, steps, loop);
    case Cancel(f) => CancelAsleep(s, steps, f);
    case Wake(f) => WakeAsleep(s, steps, f);
    case Read(pairs) => ReadAsleep(s, steps, pairs);
    case ReadFails =>
    case Close => StaysAsleep(s, Shut(s), steps, Close);
  }

  lemma CancelAsleep(s: State, steps: seq<Step>, f: nat)
    requires Asleep(s, steps) && f < |s.futs|
    ensures Asleep(CancelRequested(s, f), steps + [Cancel(f)])
  {
  }

  lemma WakeAsleep(s: State, steps: seq<Step>, f: nat)
    requires Inv(s) && Asleep(s, steps)
    ensures Asleep(Awoken(s, f), steps + [Wake(f)])
  {
    var r := Awoken(s, f);
    AwokenLeaves(s, f);
    hide Fair, NobodyLost, Awoken, Asleep;
    forall k | 0 <= k < |r.waiters| ensures r.waiters[k] in s.waiters && r.waiters[k] != f {
      assert r.waiters[k] in r.waiters;
    }
    InFutures(s, steps);
    StaysAsleep(s, r, steps, Wake(f));
  }

  lemma InFutures(s: State, steps: seq<Step>)
    requires Asleep(s, steps)
    ensures forall f | f in s.waiters :: f < |s.futs|
  {
  }

  lemma StepDropped(s: State, steps: seq<Step>, step: Step)
    requires Inv(s) && Enabled(s, step) && Asleep(s, steps) && DroppedAsleep(s, steps)
    ensures DroppedAsleep(Next(s, step), steps + [step])
  {
    hide NobodyLost, CancelledAsleep;
    var r := Next(s, step);
    if step.Read? {
      ReadDropped(s, steps, step.pairs);
    } else {
      assert |r.futs| >= |s.futs| && r.log == s.log;
      forall k | 0 <= k < |r.log| && r.log[k].dropped ensures CancelledAsleep(r.log[k].fut, steps + [step]) {
        StillCancelledAsleep(s.log[k].fut, steps, step);
      }
    }
  }

  lemma ReadDropped(s: State, steps: seq<Step>, pairs: seq<Pair>)
    requires Inv(s) && |pairs| <= |s.waiters| && Asleep(s, steps) && DroppedAsleep(s, steps)
    ensures DroppedAsleep(Readable(s, pairs), steps + [Step.Read(pairs)])
  {
    hide Inv, CancelledAsleep, Asleep, Readable;
    var step := Step.Read(pairs);
    ReadableServes(s, pairs);
    var r := Readable(s, pairs);
    forall k | 0 <= k < |r.log| && r.log[k].dropped ensures CancelledAsleep(r.log[k].fut, steps + [step]) {
      if k < |s.log| {
        assert r.log[..|s.log|][k] == s.log[k];
        StillCancelledAsleep(s.log[k].fut, steps, step);
      } else {
        var i := k - |s.log|;
        assert r.log[|s.log| + i] == Delivery(s.waiters[i], pairs[i], !s.futs[s.waiters[i]].Pending?);
        DroppedNow(s, steps, i, step);
      }
    }
  }

  lemma DroppedNow(s: State, steps: seq<Step>, i: nat, step: Step)
    requires Asleep(s, steps) && step.Read? && i < |s.waiters|
    ensures s.waiters[i] < |s.futs|
    ensures !s.futs[s.waiters[i]].Pending? ==> CancelledAsleep(s.waiters[i], steps + [step])
  {
    hide CancelledAsleep;
    if !s.futs[s.waiters[i]].Pending? {
      NowCancelledAsleep(s.waiters[i], steps, step);
    }
  }

  /** A completion is dropped only for a waiter whose task has been cancelled and has not yet woken; a task
      that has woken is no longer queued. */
  lemma {:induction false} DroppedOnlyAsleep(steps: seq<Step>)
    requires Possible(Initial, steps)
    ensures Asleep(After(Initial, steps), steps) && DroppedAsleep(After(Initial, steps), steps)
  {
    if steps != [] {
      var first, last := steps[..|steps| - 1], steps[|steps| - 1];
      assert steps == first + [last];
      hide *;
      AfterSnoc(Initial, first, last);
      DroppedOnlyAsleep(first);
      InitialInv();
      RunKeeps(Initial, first);
      StepAsleep(After(Initial, first), first, last);
      StepDropped(After(Initial, first), first, last);
    }
  }

  lemma InitialInv()
    ensures Inv(Initial) && forall pairs :: LogPairs(Initial.log) + pairs == pairs
  {
  }

  /** In every run the reader is armed exactly when someone waits, every pending future is
      queued, and a closed instance has no reader and no waiter. */
  lemma NeverStuck(steps: seq<Step>)
    requires Possible(Initial, steps)
    ensures var s := After(Initial, steps);
            && (s.armed <==> s.waiters != [])
            && (forall f | 0 <= f < |s.futs| && s.futs[f].Pending? :: f in s.waiters && s.armed)
            && (s.closed ==> !s.armed && s.waiters == [] && forall f | 0 <= f < |s.futs| :: !s.futs[f].Pending?)
  {
    RunKeeps(Initial, steps);
  }

  // ---------- the class ----------

  class UringAsync {
    const ctx: Ctx
    var waiters: seq<nat>
    var readerActive: bool
    var loop: Option<nat>
    var closed: bool
    // the futures this instance has created, as the event loop knows them
    var futs: seq<Fut>
    ghost var log: seq<Delivery>
    ghost const before: seq<Pair>

    ghost function S(): State
      reads this
    {
      State(waiters, futs, readerActive, loop, closed, log)
    }

    /** Holds between callbacks. */
    ghost predicate Valid()
      reads this, ctx, ctx.ring
    {
      ctx.Valid() && Inv(S()) && Ledger()
    }

    /** Every completion consumed since the start went through a delivery. */
    ghost predicate Ledger()
      reads this, ctx, ctx.ring
    {
      Pairs(ctx.ring.w.trace) == before + LogPairs(log)
    }

    constructor (ctx: Ctx)
      requires ctx.Valid() && ctx.open
      ensures Valid() && this.ctx == ctx && S() == Initial
    {
      this.ctx, waiters, readerActive, loop, closed := ctx, [], false, None, false;
      futs, log, before := [], [], Pairs(ctx.ring.w.trace);
    }

    method RemoveReader()
      modifies this
      ensures S() == Unarmed(old(S()))
    {
      if !readerActive || loop.None? {
        return;
      }
      readerActive := false;
    }

    method ArmReader()
      modifies this
      ensures S() == Armed(old(S()))
    {
      if closed || waiters == [] || readerActive || loop.None? {
        return;
      }
      readerActive := true;
    }

    /** futures leave the queue with an exception, or cancelled. */
    method Dismiss(news: Fut)
      requires S().Known()
      modifies this
      ensures S() == Dismissed(old(S()), news)
    {
      while waiters != []
        invariant S().Known() && Dismissed(S(), news) == Dismissed(old(S()), news)
        decreases |waiters|
      {
        var fut := waiters[0];
        waiters := waiters[1..];
        if futs[fut].Pending? {
          futs := futs[fut := news];
        }
      }
    }

    method FailAll()
      requires S().Known()
      modifies this
      ensures S() == Unarmed(Dismissed(old(S()), Failed))
    {
      Dismiss(Failed);
      RemoveReader();
    }

    /** Hands the completion to the first waiter. */
    method PopAndSet(pair: Pair)
      requires S().Known() && waiters != []
      modifies this
      ensures S() == Delivered(old(S()), pair)
    {
      var fut := waiters[0];
      waiters := waiters[1..];
      log := log + [Delivery(fut, pair, !futs[fut].Pending?)];
      if futs[fut].Pending? {
        futs := futs[fut := Result(pair)];
      }
    }

    /** _deliver_peek_chain: stops when nobody waits or nothing is ready. */
    method DeliverPeekChain() returns (ghost pairs: seq<Pair>)
      requires ctx.Valid() && ctx.open && S().Known()
      modifies this, ctx, ctx.ring
      ensures ctx.Valid() && ctx.open && |pairs| <= |old(waiters)|
      ensures old(S()).Known() && S() == DeliveredAll(old(S()), pairs)
      ensures Pairs(ctx.ring.w.trace) == old(Pairs(ctx.ring.w.trace)) + pairs
      ensures waiters == [] || forall id :: !ctx.ring.w.IsDone(id)
      ensures old(waiters) == [] ==> ctx.ring.w == old(ctx.ring.w) && pairs == []
      ensures ctx.ring.faults == old(ctx.ring.faults) + Negatives(pairs)
    {
      hide Pairs, Pins, Ctx.Valid, World.Valid, Reaping, Negatives, DeliveredAll;
      pairs := [];
      NothingMore(S());
      while waiters != []
        invariant ctx.Valid() && ctx.open && |pairs| <= |old(waiters)|
        invariant S() == DeliveredAll(old(S()), pairs)
        invariant Pairs(ctx.ring.w.trace) == old(Pairs(ctx.ring.w.trace)) + pairs
        invariant old(waiters) == [] ==> ctx.ring.w == old(ctx.ring.w) && pairs == []
        invariant ctx.ring.faults == old(ctx.ring.faults) + Negatives(pairs)
        decreases |waiters|
      {
        var pair, sched, id := ctx.PeekCompletion();
        if pair.None? {
          return;
        }
        PopAndSet(pair.value);
        OneMore(old(S()), pairs, pair.value);
        pairs := pairs + [pair.value];
      }
    }

    /** The part of _on_readable after its checks: one blocking wait, then what else is ready. */
    method TakeReady() returns (ghost pairs: seq<Pair>, failed: bool)
      requires ctx.Valid() && ctx.open && ctx.ring.w.Waitable() && S().Known() && waiters != []
      modifies this, ctx, ctx.ring
      ensures ctx.Valid() && ctx.open && |pairs| <= |old(waiters)| && (failed <==> pairs == [])
      ensures old(S()).Known()
      ensures S() == if failed then Unarmed(Dismissed(old(S()), Failed)) else DeliveredAll(old(S()), pairs)
      ensures Pairs(ctx.ring.w.trace) == old(Pairs(ctx.ring.w.trace)) + pairs
      ensures waiters == [] || forall id :: !ctx.ring.w.IsDone(id)
      ensures !failed && |old(waiters)| == 1 ==> TookOne(old(ctx.ring.w), ctx.ring.w, pairs[0])
      ensures failed ==> exists sched: Schedule :: ctx.ring.w == Run(old(ctx.ring.w), sched)
      ensures if failed then exists e :: ctx.ring.faults == old(ctx.ring.faults) + [e]
              else ctx.ring.faults == old(ctx.ring.faults) + Negatives(pairs)
    {
      hide Pairs, DeliveredAll, Dismissed, Ctx.Valid, World.Waitable, Reaping, Run, Negatives, TookOne;
      pairs, failed := [], true;
      var reply, sched, id := ctx.WaitCompletion();
      if !reply.Returned? {
        FailAll();
        return;
      }
      assert TookOne(old(ctx.ring.w), ctx.ring.w, reply.value);
      ghost var s0 := S();
      PopAndSet(reply.value);
      failed := false;
      pairs := DeliverPeekChain();
      FirstThenRest(s0, reply.value, pairs);
      NegativesFirst(reply.value, pairs);
      pairs := [reply.value] + pairs;
    }

    /** _on_readable, the reader callback. It takes a completion for every waiter as long as
        completions are ready. */
    method OnReadable() returns (ghost pairs: seq<Pair>, failed: bool)
      requires Valid() && (ctx.open && !closed && waiters != [] ==> ctx.ring.w.Waitable())
      modifies this, ctx, ctx.ring
      ensures Valid() && ctx.open == old(ctx.open)
      ensures old(S()).Known() && |pairs| <= |old(waiters)| && (failed ==> pairs == [])
      ensures S() == if failed then Dismissed(Unarmed(old(S())), Failed) else Readable(old(S()), pairs)
      // the first waiters have got the completions taken, one each in their order; or all have heard of the failure
      ensures if failed then AllHeard(old(futs), futs, Failed) && log == old(log) else Served(old(S()), S(), pairs)
      ensures loop == old(loop) && closed == old(closed) && (readerActive <==> waiters != [])
      // afterwards nobody waits, or nothing is ready
      ensures waiters == [] || forall id :: !ctx.ring.w.IsDone(id)
      ensures old(waiters) != [] ==> failed || pairs != []
      ensures !failed && |old(waiters)| == 1 ==> TookOne(old(ctx.ring.w), ctx.ring.w, pairs[0])
      ensures failed && !old(closed) && ctx.open ==> exists sched: Schedule :: ctx.ring.w == Run(old(ctx.ring.w), sched)
      // waiters are failed only when the instance or its context is closed, or when the wait failed
      ensures if failed && !old(closed) && ctx.open then exists e :: ctx.ring.faults == old(ctx.ring.faults) + [e]
              else ctx.ring.faults == old(ctx.ring.faults) + Negatives(pairs)
      ensures old(closed) || !old(ctx.open) ==> failed
    {
      hide Inv, Pairs, DeliveredAll, Delivered, Dismissed, LogPairs, Ctx.Valid, World.Waitable, TookOne, Served,
           AllHeard;
      ghost var s0 := S();
      CallbackKeeps(s0);
      pairs, failed := [], true;
      RemoveReader();
      if closed || !ctx.open {
        FailAll();
        return;
      }
      if waiters == [] {
        failed := false;
        EmptyRead(s0);
        ReadableServes(s0, []);
        return;
      }
      pairs, failed := TakeReady();
      if !failed {
        ArmReader();
        ReadableKeeps(s0, pairs);
        ReadableServes(s0, pairs);
      }
      ArmedIffWaiting(S());
    }

    /** wait_completion up to its await: the number of the future it waits for. */
    method WaitCompletion(running: nat) returns (reply: Reply<nat>)
      requires Valid()
      modifies this
      ensures Valid()
      ensures reply.Returned? <==> !old(closed) && ctx.open && (old(loop) == None || old(loop) == Some(running))
      ensures !reply.Returned? ==> S() == old(S())
      ensures reply.Returned? ==> reply.value == |old(futs)| && S() == Waiting(old(S()), running)
      // a new pending future, behind all others
      ensures reply.Returned? ==>
                && waiters == old(waiters) + [reply.value] && futs == old(futs) + [Pending] && readerActive
                && loop == Some(running) && closed == old(closed) && log == old(log)
    {
      if closed || !ctx.open {
        reply := Closed;
        return;
      }
      if loop.Some? && loop.value != running {
        reply := WrongLoop;
        return;
      }
      WaitingKeeps(S(), running);
      hide Inv, Pairs, LogPairs, Ctx.Valid;
      loop := Some(running);
      var fut := |futs|;
      futs := futs + [Pending];
      waiters := waiters + [fut];
      ArmReader();
      reply := Returned(fut);
    }

    /** Cancelling a task that awaits future fut. */
    method Cancel(fut: nat)
      requires Valid() && fut < |futs|
      modifies this
      ensures Valid() && S() == CancelRequested(old(S()), fut)
      ensures futs == if old(futs[fut]).Pending? then old(futs)[fut := Cancelled] else old(futs)
      ensures waiters == old(waiters) && log == old(log) && readerActive == old(readerActive)
    {
      CancelRequestedKeeps(S(), fut);
      hide Inv, Pairs, LogPairs, Ctx.Valid;
      if futs[fut].Pending? {
        futs := futs[fut := Cancelled];
      }
    }

    /** The task resumes with CancelledError: its waiter, if still queued, leaves the queue. */
    method OnCancelled(fut: nat)
      requires Valid() && fut < |futs| && !futs[fut].Pending?
      modifies this
      ensures Valid() && S() == Awoken(old(S()), fut)
      // it leaves the queue, and nothing else changes but perhaps the reader
      ensures Minus(old(waiters), fut, waiters) && (readerActive <==> waiters != [])
      ensures futs == old(futs) && log == old(log) && loop == old(loop) && closed == old(closed)
    {
      hide Minus, Inv, Pairs, LogPairs, Ctx.Valid, Without;
      AwokenKeeps(S(), fut);
      waiters := Without(waiters, fut);
      if waiters == [] {
        RemoveReader();
      }
    }

    method Close()
      requires Valid()
      modifies this
      ensures Valid() && old(S()).Known() && S() == Shut(old(S()))
      ensures closed && waiters == [] && !readerActive && log == old(log) && loop == old(loop)
      // every pending future is cancelled, and no other changes
      ensures AllHeard(old(futs), futs, Cancelled)
    {
      hide Pairs, LogPairs, Ctx.Valid, Inv, Dismissed, State.Known, Shut, Unarmed, AllHeard;
      ClosingKeeps(S());
      if closed {
        return;
      }
      closed := true;
      RemoveReader();
      Dismiss(Cancelled);
    }
  }

  lemma ServedAside(s: State, r: State, pairs: seq<Pair>)
    requires Served(Unarmed(s), r, pairs)
    ensures s.Known() && Served(s, Armed(r), pairs)
  {
  }

  lemma ReadableServes(s: State, pairs: seq<Pair>)
    requires Inv(s) && |pairs| <= |s.waiters|
    ensures s.Known() && Served(s, Readable(s, pairs), pairs)
  {
    hide Fair, NobodyLost, DeliveredAll, Served, Listening;
    FairKnows(s);
    UnarmedFair(s);
    DeliveredOnes(Unarmed(s), pairs);
    ServedAside(s, DeliveredAll(Unarmed(s), pairs), pairs);
  }

  lemma UnarmedFair(s: State)
    requires Fair(s)
    ensures Fair(Unarmed(s)) && Unarmed(s).waiters == s.waiters
  {
  }

  lemma ArmedIffWaiting(s: State)
    requires Inv(s)
    ensures s.armed <==> s.waiters != []
  {
  }

  lemma EmptyRead(s: State)
    requires s.Known() && s.waiters == []
    ensures Readable(s, []) == Unarmed(s)
  {
  }

  /** What a reader callback needs to know of the state it finds. */
  lemma CallbackKeeps(s: State)
    requires Inv(s)
    ensures Unarmed(s).Known() && !Unarmed(s).armed && Unarmed(s).waiters == s.waiters
    ensures Inv(Dismissed(Unarmed(s), Failed)) && AllHeard(s.futs, Dismissed(Unarmed(s), Failed).futs, Failed)
    ensures Unarmed(Dismissed(Unarmed(s), Failed)) == Dismissed(Unarmed(s), Failed)
    ensures LogPairs(s.log) + [] == LogPairs(s.log)
    ensures s.waiters == [] && !s.closed ==> Inv(Readable(s, []))
  {
    DismissedAllKeeps(s, Failed, false);
    DismissedAllHear(Unarmed(s), Failed);
    hide Fair, NobodyLost;
    if s.waiters == [] && !s.closed {
      ReadableKeeps(s, []);
    }
  }

  /** A callback that finds one waiter serves it, or drops the completion if it has been cancelled. */
  lemma OneServed(s: State, fut: nat, pair: Pair)
    requires s.waiters == [fut] && fut < |s.futs|
    ensures s.Known() && Readable(s, [pair]).waiters == [] && Readable(s, [pair]).closed == s.closed
    ensures Readable(s, [pair]).loop == s.loop
    ensures Readable(s, [pair]).futs == if s.futs[fut].Pending? then s.futs[fut := Result(pair)] else s.futs
  {
    var s1 := Unarmed(s);
    assert [pair][..0] == [] && DeliveredAll(s1, []) == s1;
    assert DeliveredAll(s1, [pair]) == Delivered(s1, pair);
  }

  /** A callback whose wait fails leaves nobody pending. */
  lemma OneFailed(s: State, fut: nat)
    requires s.waiters == [fut] && fut < |s.futs|
    ensures s.Known() && !Dismissed(Unarmed(s), Failed).futs[fut].Pending?
  {
    var s1 := Unarmed(s);
    var s2 := s1.(waiters := [], futs := if s.futs[fut].Pending? then s.futs[fut := Failed] else s.futs);
    assert s1.waiters[1..] == [];
    assert Dismissed(s1, Failed) == Dismissed(s2, Failed) == s2;
  }

  // ---------- awaiting ----------

  /** How an await ends. A cancelled task may leave its completion in the ring or consumed. */
  datatype Woke = Got(pair: Pair) | WaitError | TaskCancelled

  /** A wait that failed: the kernel may have run, and one fault is noted. */
  ghost predicate WaitFailedOnce(w: World, v: World, before: seq<int>, after: seq<int>) {
    (exists sched: Schedule :: v == Run(w, sched)) && exists e :: after == before + [e]
  }

  /** A wait that took this completion. */
  ghost predicate WaitTook(w: World, v: World, before: seq<int>, after: seq<int>, pair: Pair) {
    TookOne(w, v, pair) && after == before + Negatives([pair])
  }

  /** At most one callback has waited. */
  ghost predicate WaitedAtMostOnce(w: World, v: World, before: seq<int>, after: seq<int>) {
    || (v == w && after == before)
    || WaitFailedOnce(w, v, before, after)
    || exists pair :: WaitTook(w, v, before, after, pair)
  }

  lemma OneNegative(pair: Pair)
    ensures Negatives([pair]) == if pair.res < 0 then [pair.res] else []
  {
    assert [pair][..0] == [];
  }

  /** One callback notes at most one fault. */
  lemma WaitFaults(w: World, v: World, before: seq<int>, after: seq<int>)
    ensures WaitFailedOnce(w, v, before, after) ==> exists e :: after == before + [e]
    ensures WaitedAtMostOnce(w, v, before, after) ==> after == before || exists e :: after == before + [e]
  {
    if pair :| WaitTook(w, v, before, after, pair) {
      OneNegative(pair);
      assert pair.res < 0 ==> after == before + [pair.res];
    }
  }

  lemma WaitResult(w: World, v: World, before: seq<int>, after: seq<int>, pair: Pair)
    requires WaitTook(w, v, before, after, pair)
    ensures TookOne(w, v, pair) && after == if pair.res < 0 then before + [pair.res] else before
  {
    OneNegative(pair);
  }

  /** The reader callback for a lone waiter, pending or cancelled. */
  method Callback(ua: UringAsync, fut: nat) returns (failed: bool, ghost pair: Pair)
    requires ua.Valid() && ua.ctx.open && !ua.closed && ua.waiters == [fut] && fut < |ua.futs|
    requires ua.ctx.ring.w.Waitable()
    modifies ua, ua.ctx, ua.ctx.ring
    ensures ua.Valid() && ua.ctx.open && !ua.closed && ua.waiters == [] && ua.loop == old(ua.loop)
    ensures |ua.futs| == |old(ua.futs)| && !ua.futs[fut].Pending?
    ensures if failed
            then WaitFailedOnce(old(ua.ctx.ring.w), ua.ctx.ring.w, old(ua.ctx.ring.faults), ua.ctx.ring.faults)
            else WaitTook(old(ua.ctx.ring.w), ua.ctx.ring.w, old(ua.ctx.ring.faults), ua.ctx.ring.faults, pair)
    ensures !failed && old(ua.futs[fut]).Pending? ==> ua.futs[fut] == Result(pair)
  {
    hide Pins, World.Valid, Inv, LogPairs, Pairs, DeliveredAll, TookOne, Negatives, Readable, Dismissed;
    ghost var s0 := ua.S();
    pair := Pair(0, 0);
    ghost var pairs;
    pairs, failed := ua.OnReadable();
    if failed {
      OneFailed(s0, fut);
    } else {
      pair := pairs[0];
      OneServed(s0, fut, pair);
      assert pairs == [pair];
    }
  }

  /** The event loop runs until the task resumes: with a completion, with the failure of the wait, or
      cancelled. The cancellation can come before or after the reader callback, and the callback can still
      run between the cancellation and the task's wake-up. */
  method Await(ua: UringAsync, fut: nat) returns (woke: Woke)
    requires ua.Valid() && ua.ctx.open && !ua.closed && ua.waiters == [fut] && fut < |ua.futs| && ua.futs[fut].Pending?
    requires ua.ctx.ring.w.Waitable()
    modifies ua, ua.ctx, ua.ctx.ring
    ensures ua.Valid() && ua.ctx.open && !ua.closed && ua.waiters == [] && ua.loop == old(ua.loop)
    ensures woke.WaitError? ==>
              WaitFailedOnce(old(ua.ctx.ring.w), ua.ctx.ring.w, old(ua.ctx.ring.faults), ua.ctx.ring.faults)
    ensures woke.Got? ==>
              WaitTook(old(ua.ctx.ring.w), ua.ctx.ring.w, old(ua.ctx.ring.faults), ua.ctx.ring.faults, woke.pair)
    ensures woke.TaskCancelled? ==>
              WaitedAtMostOnce(old(ua.ctx.ring.w), ua.ctx.ring.w, old(ua.ctx.ring.faults), ua.ctx.ring.faults)
  {
    hide Pins, World.Valid, Inv, LogPairs, Pairs, TookOne, WaitFailedOnce, WaitTook;
    if * {
      ua.Cancel(fut);
      if * {
        var _, _ := Callback(ua, fut);
      }
      AloneLeaves(ua.S(), fut);
      ua.OnCancelled(fut);
      return TaskCancelled;
    }
    ghost var pair;
    var failed;
    failed, pair := Callback(ua, fut);
    if * {
      ua.Cancel(fut);  // too late for the future, but the task still gets the exception
      AloneLeaves(ua.S(), fut);
      ua.OnCancelled(fut);
      return TaskCancelled;
    }
    woke := if failed then WaitError else Got(ua.futs[fut].pair);
  }

  lemma AloneLeaves(s: State, fut: nat)
    requires s.waiters == [] || s.waiters == [fut]
    ensures Awoken(s, fut).waiters == [] && Awoken(s, fut).closed == s.closed && Awoken(s, fut).loop == s.loop
  {
  }
}
