/**
 Slot ownership, shared by the pipelines whose requests carry their slot number in the
 low half of user_data. A slot is idle or busy with exactly one outstanding request, and
 every outstanding request belongs to the slot it names.
 */
module Slots {
  import opened IoUring

  datatype Owner = Idle | Busy(id: nat, sqe: Sqe)

  ghost predicate Owns(w: World, own: seq<Owner>) {
    match w case World(reqs, _, _, _, _, _) =>
      && |reqs| == BusyCount(own)
      && (forall id | id in reqs ::
            UdSlot(reqs[id].sqe.ud) < |own| && own[UdSlot(reqs[id].sqe.ud)] == Busy(id, reqs[id].sqe))
      && (forall s | 0 <= s < |own| && own[s].Busy? ::
            own[s].id in reqs && reqs[own[s].id].sqe == own[s].sqe && UdSlot(own[s].sqe.ud) == s)
  }

  function AllIdle(n: nat): (own: seq<Owner>)
    ensures |own| == n
  {
    seq(n, _ => Idle)
  }

  function BusyCount(own: seq<Owner>): nat {
    if own == [] then 0 else BusyCount(own[..|own| - 1]) + if own[|own| - 1].Busy? then 1 else 0
  }

  /** Bytes that the outstanding requests still have to deliver. */
  function Owed(own: seq<Owner>): nat {
    if own == [] then 0
    else Owed(own[..|own| - 1]) + if own[|own| - 1].Busy? then own[|own| - 1].sqe.len else 0
  }

  function Steps(o: Owner): nat {
    if o.Idle? then 0 else if o.sqe.dir.Read? then 2 else 1
  }

  /** Completions still to come: a read is followed by a write. */
  function StepsLeft(own: seq<Owner>): nat {
    if own == [] then 0 else StepsLeft(own[..|own| - 1]) + Steps(own[|own| - 1])
  }

  lemma {:induction false} AllIdleSums(n: nat)
    ensures BusyCount(AllIdle(n)) == 0 && Owed(AllIdle(n)) == 0 && StepsLeft(AllIdle(n)) == 0
  {
    if n > 0 {
      AllIdleSums(n - 1);
      assert AllIdle(n)[..n - 1] == AllIdle(n - 1);
    }
  }

  lemma {:induction false} UpdateSums(own: seq<Owner>, s: nat, o: Owner)
    requires s < |own|
    ensures BusyCount(own[s := o]) == BusyCount(own) - (if own[s].Busy? then 1 else 0) + if o.Busy? then 1 else 0
    ensures Owed(own[s := o]) ==
            Owed(own) - (if own[s].Busy? then own[s].sqe.len else 0) + if o.Busy? then o.sqe.len else 0
    ensures StepsLeft(own[s := o]) == StepsLeft(own) - Steps(own[s]) + Steps(o)
  {
    var n := |own| - 1;
    if s == n {
      assert own[s := o][..n] == own[..n];
    } else {
      UpdateSums(own[..n], s, o);
      assert own[s := o][..n] == own[..n][s := o];
    }
  }

  lemma {:induction false} BusyBound(own: seq<Owner>)
    ensures BusyCount(own) <= |own|
    ensures BusyCount(own) == |own| <==> forall s | 0 <= s < |own| :: own[s].Busy?
    ensures BusyCount(own) == 0 <==> forall s | 0 <= s < |own| :: own[s].Idle?
    ensures BusyCount(own) == 0 ==> Owed(own) == 0 && StepsLeft(own) == 0
  {
    if own != [] {
      BusyBound(own[..|own| - 1]);
      assert forall s | 0 <= s < |own| - 1 :: own[s] == own[..|own| - 1][s];
    }
  }

  /** What the kernel does cannot change who owns what. */
  lemma SameRequestsKeepOwners(w: World, v: World, own: seq<Owner>)
    requires Owns(w, own) && SameRequests(w, v)
    ensures Owns(v, own)
  {
    assert |v.reqs.Keys| == |w.reqs.Keys|;
  }

  lemma TraceKeepsOwners(w: World, t: Trace, own: seq<Owner>)
    requires Owns(w, own)
    ensures Owns(w.(trace := t), own)
  {
  }

  /** Giving an idle slot a request tagged with it. */
  lemma PushKeepsOwners(w: World, own: seq<Owner>, s: nat, sqe: Sqe)
    requires w.Valid() && w.Fits(sqe) && Owns(w, own)
    requires s < |own| && own[s].Idle? && UdSlot(sqe.ud) == s
    ensures Owns(Push(w, sqe), own[s := Busy(w.nextId, sqe)])
  {
    hide World.Valid;
    UpdateSums(own, s, Busy(w.nextId, sqe));
    PushKeepsValid(w, sqe);
  }

  /** Consuming a completion frees exactly the slot its tag names. */
  lemma ReapKeepsOwners(w: World, own: seq<Owner>, id: nat)
    requires w.Valid() && w.IsDone(id) && Owns(w, own)
    ensures UdSlot(w.reqs[id].sqe.ud) < |own| && own[UdSlot(w.reqs[id].sqe.ud)] == Busy(id, w.reqs[id].sqe)
    ensures Owns(Reap(w, id), own[UdSlot(w.reqs[id].sqe.ud) := Idle])
  {
    hide World.Valid, UdSlot;
    UpdateSums(own, UdSlot(w.reqs[id].sqe.ud), Idle);
    ReapKeepsValid(w, id);
  }
}
