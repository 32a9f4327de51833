/**
 Several reads in flight at once, each into a buffer of its own and tagged with its number:
 what the user has in the buffers, whatever the order of the completions.
 */
module Gather {
  import opened IoUring
  import opened UringCtx

  /** plan[k] is the read tagged k; got[k] is what its completion reported. */
  datatype State = State(w: World, plan: seq<Sqe>, got: map<nat, nat>, files: seq<seq<Byte>>)

  /** The start of the read's buffer holds the first n bytes it asks for. */
  ghost predicate Holds(w: World, files: seq<seq<Byte>>, q: Sqe, n: nat) {
    && w.Fits(q) && q.at == 0 && q.fd < |files| && n <= Available(files[q.fd], q.off, q.len)
    && (n > 0 ==> w.mem[q.buf][..n] == files[q.fd][q.off..q.off + n])
  }

  /** How many bytes a request has brought. */
  function Brought(stage: Stage): nat {
    if stage.Done? then Max(0, stage.res) else 0
  }

  ghost predicate Planned(w: World, plan: seq<Sqe>) {
    && (forall k | 0 <= k < |plan| :: w.Fits(plan[k]) && plan[k].dir.Read? && plan[k].ud == k && plan[k].at == 0)
    && (forall j, k | 0 <= j < k < |plan| :: plan[j].buf != plan[k].buf)
  }

  /** Every request is one of the plan, not yet reaped, and has brought what it reports. */
  ghost predicate Flying(st: State) {
    forall id | id in st.w.reqs ::
      var r := st.w.reqs[id];
      && r.sqe.ud < |st.plan| && r.sqe == st.plan[r.sqe.ud] && r.sqe.ud !in st.got
      && Holds(st.w, st.files, r.sqe, Brought(r.stage))
  }

  ghost predicate Landed(st: State) {
    && (forall k | k in st.got :: k < |st.plan| && Holds(st.w, st.files, st.plan[k], st.got[k]))
    && (forall k | 0 <= k < |st.plan| && k !in st.got :: exists id :: id in st.w.reqs && st.w.reqs[id].sqe.ud == k)
  }

  ghost predicate Inv(st: State) {
    st.w.Valid() && st.w.files == st.files && UniqueTags(st.w) && Planned(st.w, st.plan) && Flying(st) && Landed(st)
  }

  /** Filling one buffer leaves what the others hold. */
  lemma CompleteKeepsHolds(st: State, id: nat, res: int, q: Sqe, n: nat)
    requires Inv(st) && st.w.CanComplete(id, res) && Holds(st.w, st.files, q, n) && q.buf != st.w.reqs[id].sqe.buf
    ensures Holds(Complete(st.w, id, res), st.files, q, n)
  {
    hide World.Valid, Landed, UniqueTags, Blit, Slice;
    assert st.w.reqs[id].sqe.dir.Read?;
  }

  /** A completed read puts what it reports into its buffer. */
  lemma CompleteHolds(st: State, id: nat, res: int)
    requires Inv(st) && st.w.CanComplete(id, res)
    ensures var (v, q) := (Complete(st.w, id, res), st.w.reqs[id].sqe);
            && v.files == st.files && v.reqs == st.w.reqs[id := Req(q, Done(res))]
            && Holds(v, st.files, q, Max(0, res))
  {
    hide World.Valid, Landed, UniqueTags, Slice;
    var q := st.w.reqs[id].sqe;
    assert q.dir.Read? && q.at == 0 && st.w.files == st.files;
    if res > 0 {
      FilledBuffer(st.w.mem[q.buf], st.files[q.fd][q.off..q.off + res]);
    }
  }

  lemma FilledBuffer(m: seq<Byte>, data: seq<Byte>)
    requires |data| <= |m|
    ensures Blit(m, 0, data)[..|data|] == data
  {
  }

  lemma CompleteFlying(st: State, id: nat, res: int)
    requires Inv(st) && st.w.CanComplete(id, res)
    ensures Flying(st.(w := Complete(st.w, id, res))) && Complete(st.w, id, res).files == st.files
  {
    hide World.Valid, Landed, Holds, Complete;
    var v := Complete(st.w, id, res);
    CompleteHolds(st, id, res);
    forall i | i in v.reqs && i != id
      ensures Holds(v, st.files, v.reqs[i].sqe, Brought(v.reqs[i].stage))
    {
      OtherBuffer(st, id, i);
      CompleteKeepsHolds(st, id, res, v.reqs[i].sqe, Brought(v.reqs[i].stage));
    }
  }

  lemma OtherBuffer(st: State, id: nat, i: nat)
    requires Inv(st) && id in st.w.reqs && i in st.w.reqs && i != id
    ensures st.w.reqs[i].sqe.buf != st.w.reqs[id].sqe.buf
    ensures Holds(st.w, st.files, st.w.reqs[i].sqe, Brought(st.w.reqs[i].stage))
  {
    hide World.Valid, Landed, Holds;
    var (a, b) := (st.w.reqs[i].sqe.ud, st.w.reqs[id].sqe.ud);
    if a < b {
      assert st.plan[a].buf != st.plan[b].buf;
    } else {
      assert st.plan[b].buf != st.plan[a].buf;
    }
  }

  lemma CompleteLanded(st: State, id: nat, res: int)
    requires Inv(st) && st.w.CanComplete(id, res)
    ensures Landed(st.(w := Complete(st.w, id, res)))
  {
    hide World.Valid, Holds, Complete;
    var v := Complete(st.w, id, res);
    CompleteHolds(st, id, res);
    forall k | k in st.got ensures k < |st.plan| && Holds(v, st.files, st.plan[k], st.got[k]) {
      OtherPlan(st, id, k);
      CompleteKeepsHolds(st, id, res, st.plan[k], st.got[k]);
    }
    forall k | 0 <= k < |st.plan| && k !in st.got ensures exists i :: i in v.reqs && v.reqs[i].sqe.ud == k {
      var i :| i in st.w.reqs && st.w.reqs[i].sqe.ud == k;
      assert v.reqs[i].sqe.ud == k;
    }
  }

  lemma OtherPlan(st: State, id: nat, k: nat)
    requires Inv(st) && id in st.w.reqs && k in st.got
    ensures k < |st.plan| && st.plan[k].buf != st.w.reqs[id].sqe.buf && Holds(st.w, st.files, st.plan[k], st.got[k])
  {
    hide World.Valid, Holds, UniqueTags;
    var b := st.w.reqs[id].sqe.ud;
    if k < b {
      assert st.plan[k].buf != st.plan[b].buf;
    } else {
      assert st.plan[b].buf != st.plan[k].buf;
    }
  }

  lemma CompleteGoes(st: State, id: nat, res: int)
    requires Inv(st) && st.w.CanComplete(id, res)
    ensures Inv(st.(w := Complete(st.w, id, res)))
  {
    hide World.Valid, Holds, Complete, Flying, Landed;
    CompleteKeepsValid(st.w, id, res);
    CompleteFlying(st, id, res);
    CompleteLanded(st, id, res);
  }

  /** Whatever the kernel does, and in whatever order. */
  lemma {:induction false} KernelGoes(st: State, sched: Schedule)
    requires Inv(st)
    ensures Inv(st.(w := Run(st.w, sched)))
  {
    hide Inv;
    if sched != [] {
      var before := sched[..|sched| - 1];
      KernelGoes(st, before);
      var v := Run(st.w, before);
      var (id, res) := sched[|sched| - 1];
      if v.CanComplete(id, res) {
        CompleteGoes(st.(w := v), id, res);
      }
    }
  }

  /** A new buffer, and the read into it. */
  ghost function Issuing(st: State, v: World, q: Sqe): State {
    State(v, st.plan + [q], st.got, st.files)
  }

  /** v is w with the request q, tagged with the next number, and its buffer added. */
  ghost predicate Extends(w: World, v: World, q: Sqe) {
    && v.files == w.files && |v.mem| == |w.mem| + 1 && v.mem[..|w.mem|] == w.mem && v.Fits(q)
    && v.reqs.Keys == w.reqs.Keys + {w.nextId} && w.nextId !in w.reqs && v.reqs[w.nextId] == Req(q, Running)
    && forall i | i in w.reqs :: v.reqs[i].sqe == w.reqs[i].sqe && (v.reqs[i].stage.Done? <==> w.reqs[i].stage.Done?)
                                 && (v.reqs[i].stage.Done? ==> v.reqs[i] == w.reqs[i])
  }

  lemma SubmittedExtends(w: World, u: World, q: Sqe, contents: seq<Byte>)
    requires w.Valid() && u == w.(mem := w.mem + [contents]) && u.Fits(q)
    ensures Flush(Push(u, q)).Valid() && Extends(w, Flush(Push(u, q)), q)
  {
    hide World.Valid, Push, Flush;
    MoreMemory(w, contents);
    PushKeepsValid(u, q);
    FlushKeepsValid(Push(u, q));
    SubmittedRequests(u, q);
    SubmittedRest(u, q);
  }

  lemma SubmittedRequests(u: World, q: Sqe)
    requires u.nextId !in u.reqs
    ensures var v := Flush(Push(u, q));
            && v.reqs.Keys == u.reqs.Keys + {u.nextId} && v.reqs[u.nextId] == Req(q, Running)
            && forall i | i in u.reqs ::
                 && v.reqs[i].sqe == u.reqs[i].sqe && (v.reqs[i].stage.Done? <==> u.reqs[i].stage.Done?)
                 && (v.reqs[i].stage.Done? ==> v.reqs[i] == u.reqs[i])
  {
  }

  lemma SubmittedRest(u: World, q: Sqe)
    ensures var v := Flush(Push(u, q)); v.files == u.files && v.mem == u.mem
  {
  }

  lemma MoreMemory(w: World, contents: seq<Byte>)
    requires w.Valid()
    ensures w.(mem := w.mem + [contents]).Valid() && w.nextId !in w.reqs
  {
  }

  lemma ExtendsKeepsHolds(w: World, v: World, q: Sqe, files: seq<seq<Byte>>, r: Sqe, n: nat)
    requires Extends(w, v, q) && Holds(w, files, r, n)
    ensures Holds(v, files, r, n)
  {
    assert v.mem[r.buf] == v.mem[..|w.mem|][r.buf];
  }

  lemma HoldsNothing(w: World, files: seq<seq<Byte>>, q: Sqe)
    requires w.Fits(q) && q.at == 0 && q.fd < |files|
    ensures Holds(w, files, q, 0)
  {
  }

  lemma IssueFlying(st: State, v: World, q: Sqe)
    requires Inv(st) && Extends(st.w, v, q) && q.ud == |st.plan| && q.at == 0 && v.Fits(q)
    ensures Flying(Issuing(st, v, q)) && UniqueTags(v)
  {
    hide Planned, World.Valid, Holds;
    var st1 := Issuing(st, v, q);
    HoldsNothing(v, st.files, q);
    forall id | id in st.w.reqs
      ensures Holds(v, st.files, v.reqs[id].sqe, Brought(v.reqs[id].stage))
    {
      ExtendsKeepsHolds(st.w, v, q, st.files, v.reqs[id].sqe, Brought(v.reqs[id].stage));
    }
  }

  lemma IssueLanded(st: State, v: World, q: Sqe)
    requires Inv(st) && Extends(st.w, v, q) && q.dir.Read? && q.ud == |st.plan| && q.at == 0 && v.Fits(q)
    requires q.buf == |st.w.mem|
    ensures Landed(Issuing(st, v, q)) && Planned(v, st.plan + [q])
  {
    hide Holds, World.Valid, Flying, UniqueTags;
    var st1 := Issuing(st, v, q);
    forall k | 0 <= k < |st.plan| ensures v.Fits(st.plan[k]) {
      assert v.mem[st.plan[k].buf] == v.mem[..|st.w.mem|][st.plan[k].buf];
    }
    forall k | k in st.got ensures Holds(v, st.files, st.plan[k], st.got[k]) {
      ExtendsKeepsHolds(st.w, v, q, st.files, st.plan[k], st.got[k]);
    }
    forall k | 0 <= k < |st1.plan| && k !in st.got ensures exists i :: i in v.reqs && v.reqs[i].sqe.ud == k {
      if k < |st.plan| {
        var i :| i in st.w.reqs && st.w.reqs[i].sqe.ud == k;
        assert v.reqs[i].sqe.ud == k;
      } else {
        assert v.reqs[st.w.nextId].sqe.ud == k;
      }
    }
  }

  lemma IssueGoes(st: State, u: World, q: Sqe, contents: seq<Byte>)
    requires Inv(st) && u == st.w.(mem := st.w.mem + [contents])
    requires q.dir.Read? && q.ud == |st.plan| && q.at == 0 && q.buf == |st.w.mem| && u.Fits(q)
    ensures FreshTag(u, q.ud) && Inv(Issuing(st, Flush(Push(u, q)), q))
    ensures |Flush(Push(u, q)).reqs| == |st.w.reqs| + 1
  {
    hide Flush, Push, Holds, Planned, World.Valid, Landed;
    var v := Flush(Push(u, q));
    SubmittedExtends(st.w, u, q, contents);
    assert FreshTag(u, q.ud);
    hide Flying;
    assert |v.reqs.Keys| == |st.w.reqs.Keys| + 1;
    IssueFlying(st, v, q);
    IssueLanded(st, v, q);
  }

  // ---------- taking a completion ----------

  ghost function Taken(st: State, v: World, pair: Pair): State
    requires pair.res >= 0
  {
    st.(w := v, got := st.got[pair.ud := pair.res])
  }

  lemma ReapKeepsHolds(w: World, id: nat, files: seq<seq<Byte>>, r: Sqe, n: nat)
    requires w.IsDone(id) && Holds(w, files, r, n)
    ensures Holds(Reap(w, id), files, r, n)
  {
  }

  lemma ReapFlying(st: State, id: nat)
    requires Inv(st) && st.w.IsDone(id) && st.w.reqs[id].stage.res >= 0
    ensures var q, res := st.w.reqs[id].sqe, st.w.reqs[id].stage.res;
            && q.ud < |st.plan| && q == st.plan[q.ud] && q.ud !in st.got && Holds(st.w, st.files, q, res)
            && Flying(Taken(st, Reap(st.w, id), Pair(q.ud, res))) && UniqueTags(Reap(st.w, id))
  {
    hide Holds, World.Valid, Planned, Landed;
    var v := Reap(st.w, id);
    assert v.reqs == st.w.reqs - {id};
    forall i | i in v.reqs
      ensures Holds(v, st.files, v.reqs[i].sqe, Brought(v.reqs[i].stage))
    {
      ReapKeepsHolds(st.w, id, st.files, v.reqs[i].sqe, Brought(v.reqs[i].stage));
    }
  }

  lemma ReapLanded(st: State, id: nat, q: Sqe, res: nat)
    requires Inv(st) && st.w.IsDone(id) && st.w.reqs[id] == Req(q, Done(res))
    requires q.ud < |st.plan| && q == st.plan[q.ud] && q.ud !in st.got && Holds(st.w, st.files, q, res)
    ensures Landed(Taken(st, Reap(st.w, id), Pair(q.ud, res))) && Planned(Reap(st.w, id), st.plan)
  {
    var st1 := Taken(st, Reap(st.w, id), Pair(q.ud, res));
    assert Planned(st1.w, st.plan);
    hide Holds, World.Valid, Planned, Flying;
    forall k | k in st1.got ensures k < |st.plan| && Holds(st1.w, st.files, st.plan[k], st1.got[k]) {
      ReapKeepsHolds(st.w, id, st.files, st.plan[k], st1.got[k]);
    }
    forall k | 0 <= k < |st.plan| && k !in st1.got ensures exists i :: i in st1.w.reqs && st1.w.reqs[i].sqe.ud == k {
      var i :| i in st.w.reqs && st.w.reqs[i].sqe.ud == k;
      assert st1.w.reqs[i].sqe.ud == k;
    }
  }

  lemma ReapGoes(st: State, id: nat)
    requires Inv(st) && st.w.IsDone(id) && st.w.reqs[id].stage.res >= 0
    ensures var q, res := st.w.reqs[id].sqe, st.w.reqs[id].stage.res;
            && q.ud < |st.plan| && q == st.plan[q.ud] && q.ud !in st.got && q.fd < |st.files|
            && Inv(Taken(st, Reap(st.w, id), Pair(q.ud, res)))
            && res <= Available(st.files[q.fd], q.off, q.len) && q.dir.Read?
  {
    var q, res := st.w.reqs[id].sqe, st.w.reqs[id].stage.res;
    ReapFlying(st, id);
    assert q.fd < |st.files| && res <= Available(st.files[q.fd], q.off, q.len) && q.dir.Read?;
    hide Holds, World.Valid, Planned, Flying, Landed, UniqueTags;
    ReapKeepsValid(st.w, id);
    ReapLanded(st, id, q, res);
  }

  /** The books over the short reads of a run that began at trace t0. */
  ghost predicate Full(t: Trace, plan: seq<Sqe>, got: map<nat, nat>, files: seq<seq<Byte>>, t0: Trace) {
    && ShortReads(t, files) >= ShortReads(t0, files)
    && (ShortReads(t, files) == ShortReads(t0, files) ==>
          forall k | k in got ::
            k < |plan| && plan[k].fd < |files| && got[k] == Available(files[plan[k].fd], plan[k].off, plan[k].len))
  }

  /** got is what the trace says about the reads of the plan; nothing else has been consumed since t0. */
  ghost predicate Heard(t: Trace, plan: seq<Sqe>, got: map<nat, nat>, t0: Trace) {
    && (forall k | k in got :: k < |plan| && ResultOf(t, plan[k]) == got[k])
    && (forall q | q !in plan :: ResultOf(t, q) == ResultOf(t0, q))
  }

  lemma ReapHeard(t: Trace, st: State, t0: Trace, q: Sqe, res: nat)
    requires Heard(t, st.plan, st.got, t0) && Planned(st.w, st.plan)
    requires q.ud < |st.plan| && q == st.plan[q.ud]
    ensures Heard(Then(t, Reaped(q, res)), st.plan, st.got[q.ud := res], t0)
  {
    var t1 := Then(t, Reaped(q, res));
    forall k | k in st.got[q.ud := res]
      ensures k < |st.plan| && ResultOf(t1, st.plan[k]) == st.got[q.ud := res][k]
    {
      if k != q.ud {
        assert st.plan[k].ud == k;
      }
    }
  }

  lemma ReapFull(t: Trace, st: State, t0: Trace, q: Sqe, res: nat)
    requires Full(t, st.plan, st.got, st.files, t0) && q.dir.Read? && q.fd < |st.files|
    requires res <= Available(st.files[q.fd], q.off, q.len)
    requires q.ud < |st.plan| && q == st.plan[q.ud] && q.ud !in st.got
    ensures Full(Then(t, Reaped(q, res)), st.plan, st.got[q.ud := res], st.files, t0)
  {
  }

  lemma TakeGoes(st: State, v: World, pair: Pair, t0: Trace)
    requires Inv(st) && Full(st.w.trace, st.plan, st.got, st.files, t0) && TookOne(st.w, v, pair)
    requires Heard(st.w.trace, st.plan, st.got, t0)
    ensures v.Valid() && |v.reqs| == |st.w.reqs| - 1 && v.sqLen == st.w.sqLen
    ensures pair.res >= 0 ==>
              && pair.ud < |st.plan| && pair.ud !in st.got && Inv(Taken(st, v, pair))
              && Full(v.trace, st.plan, st.got[pair.ud := pair.res], st.files, t0)
              && Heard(v.trace, st.plan, st.got[pair.ud := pair.res], t0)
  {
    var sched, id :| Run(st.w, sched).IsDone(id) && v == Reap(Run(st.w, sched), id)
                     && pair == Pair(Run(st.w, sched).reqs[id].sqe.ud, Run(st.w, sched).reqs[id].stage.res);
    var w1 := Run(st.w, sched);
    assert st.w.Valid() && Planned(st.w, st.plan);
    hide Run, Inv, World.Valid, Full, Heard, Planned;
    RunKeepsValid(st.w, sched);
    KernelGoes(st, sched);
    ReapKeepsValid(w1, id);
    assert v.sqLen == st.w.sqLen && v.trace == Then(st.w.trace, Reaped(w1.reqs[id].sqe, w1.reqs[id].stage.res));
    hide Reap;
    if pair.res >= 0 {
      var st1 := st.(w := w1);
      ReapGoes(st1, id);
      ReapFull(st.w.trace, st, t0, w1.reqs[id].sqe, pair.res);
      ReapHeard(st.w.trace, st, t0, w1.reqs[id].sqe, pair.res);
    }
  }
}
