/**
 Requests left over on a ring: calls that were cancelled, or whose wait failed, leave theirs in flight.
 What a later request on the same ring can still rely on.
 */
module Leftovers {
  import opened IoUring
  import opened UringCtx
  import opened UringAsync

  /** Every request in flight has a tag below the next one, which has not passed 64 bits. */
  ghost predicate Behind(w: World, next: nat) {
    w.sqLen == 0 && forall id | id in w.reqs :: w.reqs[id].sqe.ud < next < U64
  }

  /** A moment at which the kernel can finish request id with this result, its buffer still as it was. */
  ghost predicate Moment(w: World, x: World, id: nat, q: Sqe, res: int) {
    && (exists sched: Schedule :: x == Run(w, sched))
    && x.CanComplete(id, res) && x.reqs[id].sqe == q && q.buf < |w.mem| && x.mem[q.buf] == w.mem[q.buf]
  }

  /** The request was finished with this result at some such moment; buffer is what it left there. */
  ghost predicate Answered(w: World, id: nat, q: Sqe, res: int, buffer: seq<Byte>) {
    exists x: World :: Moment(w, x, id, q, res) && Complete(x, id, res).mem[q.buf] == buffer
  }

  /** How request id stands: its buffer is its own. */
  ghost predicate Mine(w: World, v: World, id: nat, q: Sqe) {
    && v.Valid() && id in v.reqs && v.reqs[id].sqe == q && v.reqs[id].stage != Queued
    && q.buf < |w.mem| == |v.mem|
    && (forall i | i in v.reqs && i != id :: v.reqs[i].sqe.buf != q.buf)
    && if v.IsDone(id) then Answered(w, id, q, v.reqs[id].stage.res, v.mem[q.buf]) else v.mem[q.buf] == w.mem[q.buf]
  }

  /** Only requests of u are in flight, and perhaps the new one. */
  ghost predicate Left(u: World, v: World, q: Sqe) {
    && v.Valid() && v.sqLen == 0 && |v.files| == |u.files| && |v.mem| == |u.mem|
    && forall i | i in v.reqs ::
         (i == u.nextId && v.reqs[i].sqe == q) || (i in u.reqs && v.reqs[i].sqe == u.reqs[i].sqe)
  }

  lemma SentLeft(u: World, q: Sqe)
    requires u.Valid() && u.Fits(q)
    ensures var w := Flush(Push(u, q)); w.Valid() && Left(u, w, q) && w.reqs.Keys == u.reqs.Keys + {u.nextId}
    ensures u.nextId !in u.reqs && u.nextId in Flush(Push(u, q)).reqs
  {
    hide World.Valid;
    var p := Push(u, q);
    assert p.reqs == u.reqs[u.nextId := Req(q, Queued)] && |p.files| == |u.files| && |p.mem| == |u.mem|;
    PushKeepsValid(u, q);
    hide Push;
    FlushKeepsValid(p);
    assert Flush(p).sqLen == 0;
    hide Flush;
  }

  lemma SentMine(u: World, q: Sqe)
    requires u.Valid() && u.Fits(q) && forall i | i in u.reqs :: u.reqs[i].sqe.buf != q.buf
    ensures Mine(Flush(Push(u, q)), Flush(Push(u, q)), u.nextId, q) && Flush(Push(u, q)).Waitable()
  {
    SentLeft(u, q);
    hide World.Valid;
    var w := Flush(Push(u, q));
    assert w.reqs[u.nextId] == Req(q, Running);
  }

  lemma StepMine(w: World, v: World, id: nat, q: Sqe, i: nat, res: int)
    requires Mine(w, v, id, q) && v.CanComplete(i, res) && exists sched: Schedule :: v == Run(w, sched)
    ensures Mine(w, Complete(v, i, res), id, q)
  {
    hide Blit, PWrite, Run;
    CompleteKeepsValid(v, i, res);
    var v1 := Complete(v, i, res);
    if i == id {
      assert Moment(w, v, id, q, res);
      assert Answered(w, id, q, res, v1.mem[q.buf]);
    } else {
      assert v1.mem[q.buf] == v.mem[q.buf];
    }
  }

  /** Whatever the kernel does, it finishes the request on the data of its buffer, and the buffer keeps
      what that left in it. */
  lemma {:induction false} RunMine(w: World, sched: Schedule, id: nat, q: Sqe)
    requires Mine(w, w, id, q)
    ensures Mine(w, Run(w, sched), id, q)
  {
    hide Mine, Complete, World.CanComplete;
    if sched != [] {
      var before := sched[..|sched| - 1];
      RunMine(w, before, id, q);
      var (i, res) := sched[|sched| - 1];
      if Run(w, before).CanComplete(i, res) {
        StepMine(w, Run(w, before), id, q, i, res);
      }
    }
  }

  lemma RunLeft(u: World, w: World, sched: Schedule, q: Sqe)
    requires Left(u, w, q)
    ensures Left(u, Run(w, sched), q) && Run(w, sched).reqs.Keys == w.reqs.Keys
  {
    RunKeepsValid(w, sched);
    hide World.Valid, Run;
  }

  /** A completion taken is the new request's own, or that of a request left over. */
  ghost predicate TookFor(u: World, w: World, v: World, q: Sqe, pair: Pair) {
    && Left(u, v, q)
    && if pair.ud == q.ud
       then v.reqs.Keys == u.reqs.Keys && q.buf < |v.mem| && Answered(w, u.nextId, q, pair.res, v.mem[q.buf])
       else exists i :: i in u.reqs && u.reqs[i].sqe.ud == pair.ud && v.reqs.Keys == u.reqs.Keys + {u.nextId} - {i}
  }

  lemma ReapLeft(u: World, v: World, i: nat, q: Sqe)
    requires Left(u, v, q) && v.IsDone(i)
    ensures Left(u, Reap(v, i), q) && Reap(v, i).reqs.Keys == v.reqs.Keys - {i} && Reap(v, i).mem == v.mem
  {
    ReapKeepsValid(v, i);
    hide World.Valid;
  }

  lemma ReapTaken(u: World, w: World, v: World, i: nat, q: Sqe)
    requires u.nextId !in u.reqs && Left(u, v, q) && v.reqs.Keys == u.reqs.Keys + {u.nextId}
    requires FreshTag(u, q.ud) && Mine(w, v, u.nextId, q) && v.IsDone(i)
    ensures TookFor(u, w, Reap(v, i), q, Pair(v.reqs[i].sqe.ud, v.reqs[i].stage.res))
  {
    ReapLeft(u, v, i, q);
    hide World.Valid, Answered, Reap;
    if i == u.nextId {
      assert u.reqs.Keys + {i} - {i} == u.reqs.Keys;
    } else {
      assert i in u.reqs;
    }
  }

  lemma TookSome(u: World, w: World, v: World, q: Sqe, pair: Pair)
    requires u.nextId !in u.reqs && Left(u, w, q) && w.reqs.Keys == u.reqs.Keys + {u.nextId}
    requires FreshTag(u, q.ud) && Mine(w, w, u.nextId, q) && TookOne(w, v, pair)
    ensures TookFor(u, w, v, q, pair) && Left(u, v, q)
  {
    hide Left, Mine, FreshTag, TookFor, Run;
    var sched, i :| Run(w, sched).IsDone(i) && v == Reap(Run(w, sched), i)
                    && pair == Pair(Run(w, sched).reqs[i].sqe.ud, Run(w, sched).reqs[i].stage.res);
    RunMine(w, sched, u.nextId, q);
    RunLeft(u, w, sched, q);
    ReapTaken(u, w, Run(w, sched), i, q);
    ReapLeft(u, Run(w, sched), i, q);
  }

  /** After any wait, what is left over is again behind the next tag. */
  lemma StaysBehind(u: World, v: World, q: Sqe, next: nat)
    requires Behind(u, next) && Left(u, v, q) && (next + 1 < U64 ==> q.ud == next)
    ensures |v.files| == |u.files| && v.sqLen == 0 && (next + 1 < U64 ==> Behind(v, next + 1))
  {
  }

  lemma Counted(u: World, v: World, id: nat)
    requires id !in u.reqs
    ensures v.reqs.Keys == u.reqs.Keys ==> |v.reqs| == |u.reqs|
    ensures v.reqs.Keys == u.reqs.Keys + {id} ==> |v.reqs| == |u.reqs| + 1
    ensures forall i | i in u.reqs && v.reqs.Keys == u.reqs.Keys + {id} - {i} :: |v.reqs| == |u.reqs|
  {
    assert |u.reqs.Keys| == |u.reqs| && |v.reqs.Keys| == |v.reqs|;
  }

  /** The request can be made, and then waited for. */
  lemma Entering(u: World, q: Sqe, next: nat)
    requires u.Valid() && Behind(u, next) && u.Fits(q) && q.ud == next % U64
    requires forall i | i in u.reqs :: u.reqs[i].sqe.buf != q.buf
    ensures var w := Flush(Push(u, q));
            && FreshTag(u, q.ud) && w.Waitable() && u.nextId !in u.reqs && w.reqs.Keys == u.reqs.Keys + {u.nextId}
            && Left(u, w, q) && Mine(w, w, u.nextId, q)
  {
    hide World.Valid, Mine, Left, Push, Flush, World.Waitable, World.Fits;
    SentLeft(u, q);
    SentMine(u, q);
  }

  /** A wait that failed has taken nothing. */
  lemma FailedLeft(u: World, w: World, v: World, q: Sqe, before: seq<int>, after: seq<int>)
    requires Left(u, w, q) && WaitFailedOnce(w, v, before, after)
    ensures Left(u, v, q) && v.reqs.Keys == w.reqs.Keys
  {
    var sched: Schedule :| v == Run(w, sched);
    RunLeft(u, w, sched, q);
  }

  /** However an interrupted wait ends, at most one completion was taken. */
  lemma InterruptedLeft(u: World, w: World, v: World, q: Sqe, before: seq<int>, after: seq<int>)
    requires u.nextId !in u.reqs && Left(u, w, q) && w.reqs.Keys == u.reqs.Keys + {u.nextId}
    requires FreshTag(u, q.ud) && Mine(w, w, u.nextId, q) && WaitedAtMostOnce(w, v, before, after)
    ensures Left(u, v, q) && |u.reqs| <= |v.reqs| <= |u.reqs| + 1
    ensures after == before || exists e :: after == before + [e]
  {
    hide Left, Mine, FreshTag, TookOne, Run, Negatives;
    WaitFaults(w, v, before, after);
    Counted(u, v, u.nextId);
    if !(v == w && after == before) {
      if WaitFailedOnce(w, v, before, after) {
        FailedLeft(u, w, v, q, before, after);
      } else {
        var pair :| WaitTook(w, v, before, after, pair);
        TookSome(u, w, v, q, pair);
        hide WaitTook;
      }
    }
  }
}
