/**
 The asynchronous operations of UringCtx: submission, completion, and the table that keeps
 the buffer objects of operations in flight alive.
 */
module UringCtx {
  import opened IoUring

  const INT64: nat := 0x8000_0000_0000_0000

  /** What ctypes makes of a Python int passed as uint64_t. */
  function Tag(userData: int): nat { userData % U64 }

  /** What it makes of a uint64_t that comes back as long long. */
  function Signed(tag: nat): int { if tag < INT64 then tag else tag - U64 }

  datatype Reply<+T> = Returned(value: T) | Raised(errno: int) | TagInUse | WrongLoop | Closed

  /** A bytes-like object, or a raw pointer the caller looks after. */
  datatype Target = Object(buf: nat) | Pointer(buf: nat, len: nat)

  datatype Pair = Pair(ud: nat, res: int)

  /** The completions consumed, in order. */
  function Pairs(t: Trace): seq<Pair> {
    match t
    case Start => []
    case Then(b, Reaped(q, res)) => Pairs(b) + [Pair(q.ud, res)]
    case Then(b, _) => Pairs(b)
  }

  /** The ring, _async_io_keepalive, and two groups of requests: those made through raw
      pointers, and those whose call did not end with the buffer pinned under its tag. */
  datatype PinState = PinState(w: World, keepalive: map<int, nat>, raw: set<nat>, orphans: set<nat>)
  {
    predicate Pinned(id: nat) { id in w.reqs && id !in raw && id !in orphans }
  }

  ghost predicate FreshTag(w: World, tag: nat) {
    forall id | id in w.reqs :: w.reqs[id].sqe.ud != tag
  }

  ghost predicate UniqueTags(w: World) {
    forall i, k | i in w.reqs && k in w.reqs && i != k :: w.reqs[i].sqe.ud != w.reqs[k].sqe.ud
  }

  /** Requests the user has no completion for keep their buffers: each is pinned under its tag,
      and no tag is pinned for anything else. */
  ghost predicate Pins(s: PinState) {
    && UniqueTags(s.w) && (forall id | id in s.w.reqs :: s.w.reqs[id].sqe.ud < U64)
    && (forall id | s.Pinned(id) ::
          s.w.reqs[id].sqe.ud in s.keepalive && s.keepalive[s.w.reqs[id].sqe.ud] == s.w.reqs[id].sqe.buf)
    && (forall id | s.Pinned(id) :: s.w.reqs[id].sqe.ud < INT64)
    && (forall t | t in s.keepalive && 0 <= t < INT64 :: exists id :: s.Pinned(id) && s.w.reqs[id].sqe.ud == t)
    && (forall t | t in s.keepalive :: t < INT64 || t >= U64)
    && (forall id | id in s.raw || id in s.orphans :: id < s.w.nextId)
  }

  /** The keys are the tags of the unreaped non-pointer operations, each with its buffer. */
  ghost predicate Exact(s: PinState) {
    && (forall id | id in s.w.reqs && id !in s.raw ::
          s.w.reqs[id].sqe.ud in s.keepalive && s.keepalive[s.w.reqs[id].sqe.ud] == s.w.reqs[id].sqe.buf)
    && (forall t | t in s.keepalive :: exists id :: id in s.w.reqs && id !in s.raw && s.w.reqs[id].sqe.ud == t)
  }

  /** No unreaped request is an orphan, and nothing is pinned under a key that is no tag. */
  ghost predicate Clean(s: PinState) {
    && (forall id | id in s.w.reqs && id !in s.raw :: id !in s.orphans)
    && (forall t | t in s.keepalive :: 0 <= t < U64)
  }

  /** The table is exact if and only if that is so. */
  lemma ExactIffClean(s: PinState)
    requires Pins(s) && s.w.Valid()
    ensures Exact(s) <==> Clean(s)
  {
    hide World.Valid;
    if Clean(s) {
      forall t | t in s.keepalive ensures exists id :: id in s.w.reqs && id !in s.raw && s.w.reqs[id].sqe.ud == t {
        var id :| s.Pinned(id) && s.w.reqs[id].sqe.ud == t;
      }
    } else if Exact(s) {
      if id :| id in s.w.reqs && id !in s.raw && id in s.orphans {
        assert false;  // its tag would be pinned for another request with the same tag
      }
    }
  }

  // ---------- what each step does to the pins ----------

  lemma SameRequestsKeepPins(s: PinState, v: World)
    requires Pins(s) && SameRequests(s.w, v)
    ensures Pins(s.(w := v))
  {
    var s1 := s.(w := v);
    forall t | t in s1.keepalive && 0 <= t < INT64 ensures exists id :: s1.Pinned(id) && v.reqs[id].sqe.ud == t {
      var id :| s.Pinned(id) && s.w.reqs[id].sqe.ud == t;
      assert s1.Pinned(id);
    }
  }

  /** The state after a call of read_async or write_async, or of their pointer forms. */
  function Called(s: PinState, v: World, q: Sqe, userData: int, pointer: bool, submitted: bool): PinState {
    var pin := !pointer && submitted && Signed(q.ud) >= 0 && userData !in s.keepalive;
    PinState(v,
          if pin then s.keepalive[userData := q.buf] else s.keepalive,
          if pointer then s.raw + {s.w.nextId} else s.raw,
          if pointer || (pin && userData == q.ud) then s.orphans else s.orphans + {s.w.nextId})
  }

  lemma CallAddsRequest(w: World, v: World, q: Sqe, submitted: bool)
    requires w.Valid() && v == (if submitted then Flush(Push(w, q)) else Push(w, q))
    ensures v.reqs.Keys == w.reqs.Keys + {w.nextId} && w.nextId !in w.reqs && v.nextId == w.nextId + 1
    ensures (forall id | id in w.reqs :: v.reqs[id].sqe == w.reqs[id].sqe) && v.reqs[w.nextId].sqe == q
  {
  }

  lemma CallKeepsPins(s: PinState, v: World, q: Sqe, userData: int, pointer: bool, submitted: bool)
    requires Pins(s) && s.w.Valid() && FreshTag(s.w, q.ud) && q.ud == Tag(userData)
    requires v == (if submitted then Flush(Push(s.w, q)) else Push(s.w, q))
    ensures Pins(Called(s, v, q, userData, pointer, submitted))
  {
    hide Flush, Push, World.Valid, Tag, Called, Signed, PinState.Pinned;
    var s1 := Called(s, v, q, userData, pointer, submitted);
    CallAddsRequest(s.w, v, q, submitted);
    TagFacts(userData);
    CalledOld(s, v, q, userData, pointer, submitted);
    CalledNew(s, v, q, userData, pointer, submitted);
    forall t | t in s1.keepalive && 0 <= t < INT64 ensures exists id :: s1.Pinned(id) && v.reqs[id].sqe.ud == t {
      if t in s.keepalive {
        var id :| s.Pinned(id) && s.w.reqs[id].sqe.ud == t;
        assert s1.Pinned(id);
      } else {
        assert s1.Pinned(s.w.nextId);
      }
    }
  }

  /** The earlier requests in the new table. */
  lemma CalledOld(s: PinState, v: World, q: Sqe, userData: int, pointer: bool, submitted: bool)
    requires v.reqs.Keys == s.w.reqs.Keys + {s.w.nextId} && s.w.nextId !in s.w.reqs
    ensures var s1 := Called(s, v, q, userData, pointer, submitted);
            && (forall id | id != s.w.nextId :: s1.Pinned(id) <==> s.Pinned(id))
            && (forall id | s1.Pinned(id) :: id in v.reqs) && (forall id | s.Pinned(id) :: id in s.w.reqs)
  {
  }

  /** The new request in the new table. */
  lemma CalledNew(s: PinState, v: World, q: Sqe, userData: int, pointer: bool, submitted: bool)
    requires q.ud == Tag(userData) && s.w.nextId in v.reqs && s.w.nextId !in s.raw && s.w.nextId !in s.orphans
    ensures var (s1, id) := (Called(s, v, q, userData, pointer, submitted), s.w.nextId);
            && s1.w == v && (forall t | t in s.keepalive :: t in s1.keepalive && s1.keepalive[t] == s.keepalive[t])
            && (forall t | t in s1.keepalive && t !in s.keepalive ::
                  t == userData && (0 <= t < INT64 ==> s1.Pinned(id) && t == q.ud)
                  && (t < INT64 || t >= U64))
            && (s1.Pinned(id) ==> q.ud < INT64 && q.ud in s1.keepalive && s1.keepalive[q.ud] == q.buf)
            && (forall i | i in s1.raw || i in s1.orphans :: i in s.raw || i in s.orphans || i == id)
  {
  }

  function Reaping(s: PinState, id: nat): PinState
    requires s.w.IsDone(id)
  {
    s.(w := Reap(s.w, id), keepalive := s.keepalive - {s.w.reqs[id].sqe.ud as int})
  }

  lemma ReapKeepsPins(s: PinState, id: nat)
    requires Pins(s) && s.w.IsDone(id)
    ensures Pins(Reaping(s, id))
  {
    var s1, ud := Reaping(s, id), s.w.reqs[id].sqe.ud;
    forall t | t in s1.keepalive && 0 <= t < INT64 ensures exists i :: s1.Pinned(i) && s1.w.reqs[i].sqe.ud == t {
      var i :| s.Pinned(i) && s.w.reqs[i].sqe.ud == t;
      assert s1.Pinned(i);
    }
  }

  /** The exact condition, as a caller can check it: right after a call with a fresh tag the table is
      still exact if and only if the call uses a raw pointer, or submits and has a tag below 2^63. */
  lemma CallExactIff(s: PinState, v: World, q: Sqe, userData: int, pointer: bool, submitted: bool)
    requires Pins(s) && s.w.Valid() && v.Valid() && Exact(s) && FreshTag(s.w, q.ud) && q.ud == Tag(userData)
    requires v == (if submitted then Flush(Push(s.w, q)) else Push(s.w, q))
    ensures Exact(Called(s, v, q, userData, pointer, submitted)) <==> pointer || (submitted && 0 <= userData < INT64)
  {
    hide Pins, World.Valid, Flush, Push, FreshTag, Exact, PinState.Pinned;
    var s1 := Called(s, v, q, userData, pointer, submitted);
    CallKeepsPins(s, v, q, userData, pointer, submitted);
    PinFacts(s, q, userData, pointer, submitted);
    ExactIffClean(s);
    ExactIffClean(s1);
  }

  // ---------- runs ----------

  /** What can happen to a context: calls of any kind, also ones that the ring refuses to submit. */
  datatype Step =
    | Call(q: Sqe, userData: int, pointer: bool, submitted: bool)
    | Kernel(sched: Schedule)
    | Take(id: nat)
  {
    /** A raw pointer, or a submitted call with a tag below 2^63. */
    predicate Good() { Call? ==> pointer || (submitted && 0 <= userData < INT64) }
  }

  /** The tags of calls are not in flight. */
  ghost predicate Enabled(s: PinState, step: Step) {
    match step
    case Call(q, userData, _, _) => s.w.Fits(q) && q.ud == Tag(userData) && FreshTag(s.w, q.ud)
    case Kernel(_) => true
    case Take(id) => s.w.IsDone(id)
  }

  /** The ring after a call. */
  function Entered(w: World, q: Sqe, submitted: bool): World {
    if submitted then Flush(Push(w, q)) else Push(w, q)
  }

  ghost function Next(s: PinState, step: Step): PinState
    requires Enabled(s, step)
  {
    match step
    case Call(q, userData, pointer, submitted) =>
      Called(s, Entered(s.w, q, submitted), q, userData, pointer, submitted)
    case Kernel(sched) => s.(w := Run(s.w, sched))
    case Take(id) => Reaping(s, id)
  }

  ghost predicate Possible(s: PinState, steps: seq<Step>)
    decreases steps
  {
    steps == [] || (Enabled(s, steps[0]) && Possible(Next(s, steps[0]), steps[1..]))
  }

  /** The keys are the tags of the unreaped non-pointer operations at every moment of the run. */
  ghost predicate AlwaysExact(s: PinState, steps: seq<Step>)
    requires Possible(s, steps)
    decreases steps
  {
    Exact(s) && (steps != [] ==> AlwaysExact(Next(s, steps[0]), steps[1..]))
  }

  lemma EnteredIsValid(w: World, q: Sqe, submitted: bool)
    requires w.Valid() && w.Fits(q)
    ensures Entered(w, q, submitted).Valid()
  {
    PushKeepsValid(w, q);
    FlushKeepsValid(Push(w, q));
  }

  lemma StepExactIff(s: PinState, step: Step)
    requires s.w.Valid() && Pins(s) && Exact(s) && Enabled(s, step)
    ensures var s1 := Next(s, step); s1.w.Valid() && Pins(s1) && (Exact(s1) <==> step.Good())
  {
    hide Pins, World.Valid, Flush, Push, FreshTag, Exact, Tag;
    match step
    case Call(q, userData, pointer, submitted) =>
      EnteredIsValid(s.w, q, submitted);
      CallKeepsPins(s, Entered(s.w, q, submitted), q, userData, pointer, submitted);
      CallExactIff(s, Entered(s.w, q, submitted), q, userData, pointer, submitted);
    case Kernel(sched) =>
      RunKeepsPins(s, sched);
      RunKeepsValid(s.w, sched);
      KernelKeepsExact(s, sched);
    case Take(id) =>
      ReapKeepsPins(s, id);
      ReapKeepsValid(s.w, id);
      TakeKeepsExact(s, id);
  }

  lemma KernelKeepsExact(s: PinState, sched: Schedule)
    requires s.w.Valid() && Pins(s) && Exact(s)
    ensures Exact(s.(w := Run(s.w, sched)))
  {
    hide Pins, World.Valid, Exact, Run;
    RunKeepsPins(s, sched);
    RunKeepsValid(s.w, sched);
    ExactIffClean(s);
    ExactIffClean(s.(w := Run(s.w, sched)));
  }

  lemma TakeKeepsExact(s: PinState, id: nat)
    requires s.w.Valid() && Pins(s) && Exact(s) && s.w.IsDone(id)
    ensures Exact(Reaping(s, id))
  {
    hide Pins, World.Valid, Exact;
    ReapKeepsPins(s, id);
    ReapKeepsValid(s.w, id);
    ExactIffClean(s);
    ExactIffClean(Reaping(s, id));
  }

  /** In every run of calls with fresh tags the table is exact throughout if and only if every call is good. */
  lemma {:induction false} EveryRunExactIff(s: PinState, steps: seq<Step>)
    requires s.w.Valid() && Pins(s) && Exact(s) && Possible(s, steps)
    ensures AlwaysExact(s, steps) <==> forall step | step in steps :: step.Good()
    decreases steps
  {
    hide Pins, World.Valid, Exact, Next, Enabled;
    if steps != [] {
      StepExactIff(s, steps[0]);
      var rest := steps[1..];
      if Exact(Next(s, steps[0])) {
        EveryRunExactIff(Next(s, steps[0]), rest);
      }
      assert steps == [steps[0]] + rest;
    }
  }

  /** One more request is in flight, the transfer asked for. */
  ghost predicate Queues(w: World, v: World, dir: Dir, fd: nat, target: Target, off: nat, userData: int,
                         submitted: bool)
  {
    && w.nextId !in w.reqs && v.reqs.Keys == w.reqs.Keys + {w.nextId} && target.buf < |w.mem|
    && (submitted ==> v.reqs[w.nextId].stage == Running)
    && var q := v.reqs[w.nextId].sqe;
       && q.dir == dir && q.fd == fd && q.buf == target.buf && q.at == 0 && q.off == off
       && q.ud == userData % 0x1_0000_0000_0000_0000
       && q.len == if target.Pointer? then target.len else |w.mem[target.buf]|
  }

  // ---------- the class ----------

  class Ctx {
    const ring: Ring
    var open: bool
    var keepalive: map<int, nat>
    ghost var raw: set<nat>
    ghost var orphans: set<nat>

    ghost function S(): PinState
      reads this, ring
    {
      PinState(ring.w, keepalive, raw, orphans)
    }

    ghost predicate Valid()
      reads this, ring
    {
      ring.Valid() && Pins(S())
    }

    constructor (ring: Ring)
      requires ring.Valid() && ring.w.reqs == map[]
      ensures Valid() && this.ring == ring && open && S() == PinState(ring.w, map[], {}, {})
    {
      this.ring, open, keepalive := ring, true, map[];
      raw, orphans := {}, {};
    }

    /** The request that a call makes. */
    function Request(dir: Dir, fd: nat, target: Target, off: nat, userData: int): (q: Sqe)
      reads ring
      requires target.buf < |ring.w.mem|
      ensures target.Object? ==> q == Sqe(dir, fd, target.buf, 0, |ring.w.mem[target.buf]|, off, Tag(userData))
    {
      var len := if target.Pointer? then target.len else |ring.w.mem[target.buf]|;
      Sqe(dir, fd, target.buf, 0, len, off, Tag(userData))
    }

    /** uring_read_async and uring_write_async: queue one request and submit. */
    method SubmitOne(q: Sqe) returns (ret: int, ghost queued: bool, ghost submitted: bool)
      requires ring.Valid() && ring.w.Fits(q) && q.ud < U64
      modifies ring
      ensures ring.Valid()
      ensures queued <==> old(ring.w.sqLen) < ring.entries
      ensures ring.w == (if submitted then Flush(Push(old(ring.w), q)) else if queued then Push(old(ring.w), q)
                         else old(ring.w))
      ensures submitted ==> queued && ret == Signed(q.ud)
      ensures !submitted ==> ret < 0 && (!queued ==> ret == -11)
      ensures ring.faults == if queued && !submitted then old(ring.faults) + [ret] else old(ring.faults)
    {
      submitted := false;
      var ok := ring.GetSqe(q);
      queued := ok;
      if !ok {
        ret := -11;
        return;
      }
      ret := ring.Submit();
      if ret < 0 {
        return;
      }
      submitted := true;
      ret := Signed(q.ud);
    }

    /** A new buffer object of the program. */
    method NewBuffer(contents: seq<Byte>) returns (buf: nat)
      requires Valid()
      modifies ring`w
      ensures Valid() && buf == |old(ring.w.mem)|
      ensures ring.w == old(ring.w).(mem := old(ring.w.mem) + [contents])
    {
      buf := ring.Alloc(contents);
      hide World.Valid;
      OnlyRequestsPin(old(S()), S());
    }

    /** read_async, write_async and their pointer forms; the tag must not be in flight. */
    method Async(dir: Dir, fd: nat, target: Target, off: nat, userData: int)
        returns (reply: Reply<int>, ghost queued: bool, ghost submitted: bool)
      requires Valid() && target.buf < |ring.w.mem| && FreshTag(ring.w, Tag(userData))
      requires ring.w.Fits(Request(dir, fd, target, off, userData))
      modifies this, ring
      ensures Valid() && open == old(open)
      ensures Pairs(ring.w.trace) == old(Pairs(ring.w.trace))
      ensures !open ==> reply == Closed && S() == old(S())
      ensures open && !queued ==> reply == Raised(-11) && S() == old(S()) && old(ring.w.sqLen) == ring.entries
      ensures open && queued ==>
                var q := old(Request(dir, fd, target, off, userData));
                && ring.w == (if submitted then Flush(Push(old(ring.w), q)) else Push(old(ring.w), q))
                && S() == Called(old(S()), ring.w, q, userData, target.Pointer?, submitted)
      // what is queued is the transfer asked for: a pointer's own length, or all of an object
      ensures open && queued ==> Queues(old(ring.w), ring.w, dir, fd, target, off, userData, submitted)
      ensures keepalive == if open && submitted && target.Object? && userData % U64 < INT64
                              && userData !in old(keepalive)
                           then old(keepalive)[userData := target.buf] else old(keepalive)
      ensures reply.Returned? ==> open && queued && submitted && reply.value == Signed(Tag(userData)) >= 0
      // it fails to submit only when the SQ is full or the ring refuses
      ensures open && queued && !submitted ==> reply.Raised? && ring.faults == old(ring.faults) + [reply.errno]
      ensures !(open && queued && !submitted) ==> ring.faults == old(ring.faults)
      // the call returns its tag, pinned if it is not a raw pointer, exactly if the tag is below 2^63
      ensures open && submitted && 0 <= userData < U64 ==>
                && (reply == Returned(userData) <==> userData < INT64)
                && (target.Object? ==> (S().Pinned(old(ring.w.nextId)) <==> userData < INT64))
      // a request whose call raised is in flight and not pinned
      ensures open && queued && reply.Raised? && target.Object? ==>
                old(ring.w.nextId) in ring.w.reqs && !S().Pinned(old(ring.w.nextId))
    {
      hide Pins, World.Valid, Flush, Push, Called, Signed, Tag, Pairs, FreshTag, PinState.Pinned;
      queued, submitted := false, false;
      if !open {
        reply := Closed;
        return;
      }
      var q := Request(dir, fd, target, off, userData);
      ghost var s0 := S();
      TagFacts(userData);
      var ret;
      ret, queued, submitted := SubmitOne(q);
      if queued {
        NewRequest(s0.w, q, submitted);
        CallFacts(s0, ring.w, q, userData, target.Pointer?, submitted);
        raw := Called(s0, ring.w, q, userData, target.Pointer?, submitted).raw;
        orphans := Called(s0, ring.w, q, userData, target.Pointer?, submitted).orphans;
      }
      if ret < 0 {
        reply := Raised(ret);
        return;
      }
      if target.Object? {
        if userData in keepalive {
          reply := TagInUse;
          return;
        }
        keepalive := keepalive[userData := target.buf];
      }
      reply := Returned(ret);
    }

    /** submit, when nothing is queued: read_async has already submitted its request. */
    method SubmitNothing() returns (ret: int)
      requires Valid() && ring.w.sqLen == 0
      modifies ring
      ensures Valid() && ring.w == old(ring.w)
      ensures ring.faults == if ret < 0 then old(ring.faults) + [ret] else old(ring.faults)
    {
      FlushNothing(ring.w);
      ret := ring.Submit();
    }

    /** wait_completion: blocks until there is a completion, hands it over and drops its pin. */
    method WaitCompletion() returns (reply: Reply<Pair>, ghost sched: Schedule, ghost id: nat)
      requires Valid() && (open ==> ring.w.Waitable())
      modifies this, ring
      ensures Valid() && open == old(open)
      ensures !open ==> reply == Closed && S() == old(S())
      ensures open ==> reply.Returned? || reply.Raised?
      ensures ring.faults == if reply.Raised? then old(ring.faults) + [reply.errno]
                             else if reply.Returned? && reply.value.res < 0 then old(ring.faults) + [reply.value.res]
                             else old(ring.faults)
      ensures reply.Raised? ==> S() == old(S()).(w := Run(old(ring.w), sched))
      ensures reply.Returned? ==>
                var s1 := old(S()).(w := Run(old(ring.w), sched));
                && s1.w.IsDone(id) && S() == Reaping(s1, id)
                && reply.value == Pair(s1.w.reqs[id].sqe.ud, s1.w.reqs[id].stage.res)
                && TookOne(old(ring.w), ring.w, reply.value)
      ensures Pairs(ring.w.trace) == old(Pairs(ring.w.trace)) + if reply.Returned? then [reply.value] else []
      ensures keepalive == if reply.Returned? then old(keepalive) - {reply.value.ud as int} else old(keepalive)
    {
      hide Pins, World.Valid, Run, World.Waitable, Pairs;
      sched, id := [], 0;
      if !open {
        reply := Closed;
        return;
      }
      ghost var s0 := S();
      var ret, cqe;
      ret, cqe, sched := ring.WaitCqe();
      RunKeepsPins(s0, sched);
      id := cqe.id;
      if ret < 0 {
        reply := Raised(ret);
        return;
      }
      ReapKeepsPins(S(), id);
      ReapPairs(ring.w, id);
      ring.Seen(cqe);
      keepalive := keepalive - {cqe.ud as int};
      reply := Returned(Pair(cqe.ud, cqe.res));
    }

    /** peek_completion: None only if nothing is ready. Assumed not to fail on an open context. */
    method PeekCompletion() returns (pair: Option<Pair>, ghost sched: Schedule, ghost id: nat)
      requires Valid() && open
      modifies this, ring
      ensures Valid() && open
      ensures pair.None? ==> S() == old(S()).(w := Run(old(ring.w), sched)) && forall i :: !ring.w.IsDone(i)
      ensures ring.faults == if pair.Some? && pair.value.res < 0 then old(ring.faults) + [pair.value.res]
                             else old(ring.faults)
      ensures pair.Some? ==>
                var s1 := old(S()).(w := Run(old(ring.w), sched));
                && s1.w.IsDone(id) && S() == Reaping(s1, id)
                && pair.value == Pair(s1.w.reqs[id].sqe.ud, s1.w.reqs[id].stage.res)
      ensures Pairs(ring.w.trace) == old(Pairs(ring.w.trace)) + if pair.Some? then [pair.value] else []
      ensures keepalive == if pair.Some? then old(keepalive) - {pair.value.ud as int} else old(keepalive)
    {
      hide Pins, World.Valid, Run, Pairs;
      ghost var s0 := S();
      var batch;
      batch, sched := ring.PeekBatch(1);
      RunKeepsPins(s0, sched);
      id := 0;
      if |batch| == 0 {
        pair := None;
        return;
      }
      var cqe := batch[0];
      id := cqe.id;
      ReapKeepsPins(S(), id);
      ReapPairs(ring.w, id);
      ring.Seen(cqe);
      keepalive := keepalive - {cqe.ud as int};
      pair := Some(Pair(cqe.ud, cqe.res));
    }
  }

  lemma FlushNothing(w: World)
    requires w.Valid() && w.sqLen == 0
    ensures Flush(w) == w
  {
    assert Flush(w).reqs == w.reqs;
  }

  lemma OnlyRequestsPin(s: PinState, s1: PinState)
    requires Pins(s) && s1 == s.(w := s1.w) && s1.w.reqs == s.w.reqs && s1.w.nextId == s.w.nextId
    ensures Pins(s1)
  {
    forall t | t in s1.keepalive && 0 <= t < INT64 ensures exists id :: s1.Pinned(id) && s1.w.reqs[id].sqe.ud == t {
      var id :| s.Pinned(id) && s.w.reqs[id].sqe.ud == t;
      assert s1.Pinned(id);
    }
  }

  /** A wait took exactly this completion, and nothing else. */
  ghost predicate TookOne(w: World, v: World, pair: Pair) {
    exists sched: Schedule, id ::
      && Run(w, sched).IsDone(id) && v == Reap(Run(w, sched), id)
      && pair == Pair(Run(w, sched).reqs[id].sqe.ud, Run(w, sched).reqs[id].stage.res)
  }

  lemma ReapPairs(w: World, id: nat)
    requires w.IsDone(id)
    ensures Pairs(Reap(w, id).trace) == Pairs(w.trace) + [Pair(w.reqs[id].sqe.ud, w.reqs[id].stage.res)]
  {
  }

  lemma RunKeepsPins(s: PinState, sched: Schedule)
    requires Pins(s) && s.w.Valid()
    ensures Pins(s.(w := Run(s.w, sched))) && Run(s.w, sched).trace == s.w.trace
  {
    RunKeepsValid(s.w, sched);
    SameRequestsKeepPins(s, Run(s.w, sched));
  }

  lemma TagFacts(userData: int)
    ensures Tag(userData) == userData % U64 < U64 && (Signed(Tag(userData)) >= 0 <==> userData % U64 < INT64)
  {
  }

  lemma NewRequest(w: World, q: Sqe, submitted: bool)
    requires w.Valid()
    ensures var v := if submitted then Flush(Push(w, q)) else Push(w, q);
            && w.nextId !in w.reqs && v.reqs.Keys == w.reqs.Keys + {w.nextId} && v.reqs[w.nextId].sqe == q
            && (submitted ==> v.reqs[w.nextId].stage == Running)
  {
    CallAddsRequest(w, if submitted then Flush(Push(w, q)) else Push(w, q), q, submitted);
  }

  /** What a call does, seen from outside. */
  lemma CallFacts(s: PinState, v: World, q: Sqe, userData: int, pointer: bool, submitted: bool)
    requires Pins(s) && s.w.Valid() && FreshTag(s.w, q.ud) && q.ud == Tag(userData)
    requires v == (if submitted then Flush(Push(s.w, q)) else Push(s.w, q))
    ensures var s1 := Called(s, v, q, userData, pointer, submitted);
            && Pins(s1) && s1.w == v && Pairs(v.trace) == Pairs(s.w.trace)
            && s1.keepalive == (if !pointer && submitted && Signed(q.ud) >= 0 && userData !in s.keepalive
                                then s.keepalive[userData := q.buf] else s.keepalive)
            && (submitted && 0 <= userData < U64 ==>
                  && (Signed(q.ud) == userData <==> userData < INT64) && (Signed(q.ud) >= 0 <==> userData < INT64)
                  && (userData < INT64 ==> userData !in s.keepalive)
                  && (!pointer ==> (s1.Pinned(s.w.nextId) <==> userData < INT64)))
            && s.w.nextId in v.reqs
            && (!pointer && (!submitted || Signed(q.ud) < 0) ==> !s1.Pinned(s.w.nextId))
  {
    hide Pins, World.Valid, Flush, Push, FreshTag, Pairs;
    CallKeepsPins(s, v, q, userData, pointer, submitted);
    PinFacts(s, q, userData, pointer, submitted);
  }

  lemma PinFacts(s: PinState, q: Sqe, userData: int, pointer: bool, submitted: bool)
    requires Pins(s) && FreshTag(s.w, q.ud) && q.ud == Tag(userData)
    ensures 0 <= userData < INT64 ==> userData !in s.keepalive
    ensures Flush(Push(s.w, q)).reqs.Keys == Push(s.w, q).reqs.Keys == s.w.reqs.Keys + {s.w.nextId}
    ensures Pairs(Flush(Push(s.w, q)).trace) == Pairs(Push(s.w, q).trace) == Pairs(s.w.trace)
    ensures s.w.nextId !in s.raw && s.w.nextId !in s.orphans
  {
  }
}