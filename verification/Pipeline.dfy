/** What the pipelines of uring_wrap.c have in common: their exits and their progress reports. */
module Pipeline {
  import opened IoUring

  /** copy_slot; its buf is the memory buffer with the slot's number. */
  datatype CopySlot = CopySlot(off: nat, len: nat, active: bool)

  /** One buffer of the same size for every slot. */
  ghost predicate Buffers(mem: seq<seq<Byte>>, qd: nat, maxBuf: nat) {
    |mem| == qd && forall s | 0 <= s < |mem| :: |mem[s]| == maxBuf
  }

  /** One of 26 letters from first on; the sum of the two unsigned ints may wrap. */
  function Letter(first: nat, i: nat, k: nat): Byte
    requires first <= 230
  {
    (first + (i + k) % U32 % 26) as Byte
  }

  /** Allocates the slot buffers and fills each with its letters, once. */
  method FillPatterns(first: nat, qd: nat, maxBuf: nat) returns (mem: seq<seq<Byte>>)
    requires first <= 230
    ensures Buffers(mem, qd, maxBuf)
    ensures forall i, k | 0 <= i < qd && 0 <= k < maxBuf :: mem[i][k] as int == first + (i + k) % U32 % 26
  {
    mem := [];
    var i := 0;
    while i < qd
      invariant i <= qd && Buffers(mem, i, maxBuf)
      invariant forall j, k | 0 <= j < i && 0 <= k < maxBuf :: mem[j][k] == Letter(first, j, k)
    {
      var buf := new Byte[maxBuf];
      var k := 0;
      while k < maxBuf
        invariant k <= maxBuf && forall j | 0 <= j < k :: buf[j] == Letter(first, i, j)
      {
        buf[k] := Letter(first, i, k);
        k := k + 1;
      }
      mem, i := mem + [buf[..]], i + 1;
    }
  }

  /** pipeline_progress_callback_t: done, total. The first argument differs from call to call,
      so a callback with state of its own is one of these functions too. Zero means go on. */
  type ProgressCb = (nat, nat, nat) -> int

  /** How many reports there have been. */
  function ReportCount(t: Trace): nat {
    match t
    case Start => 0
    case Then(b, e) => ReportCount(b) + if e.Progress? then 1 else 0
  }

  /** Progress reports follow completed writes one for one, carry the running sum, never pass total,
      and record what the callback answers; nothing at all happens after the first nonzero answer. */
  ghost predicate Reports(t: Trace, total: nat, cb: Option<ProgressCb>) {
    match t
    case Start => true
    case Then(b, Progress(done, answer)) =>
      Reports(b, total, cb) && !Canceled(b) && cb.Some?
      && WriteReaped(b) && done == Moved(b, Write) <= total && answer == cb.value(ReportCount(b), done, total)
    case Then(b, _) =>
      Reports(b, total, cb) && !Canceled(b) && (cb.Some? ==> !WriteReaped(b))
  }

  /** Nothing waits for a report. */
  ghost predicate AllReported(t: Trace, cb: Option<ProgressCb>) { cb.Some? ==> !WriteReaped(t) }

  /** How many writes have completed without an error. */
  function WritesDone(t: Trace): nat {
    match t
    case Start => 0
    case Then(b, e) => WritesDone(b) + if e.Reaped? && e.sqe.dir.Write? && e.res >= 0 then 1 else 0
  }

  /** The callback, asked after every completed write with the bytes written so far, wants to stop
      after one of them. The reports themselves play no part in this. */
  ghost predicate WantsStop(t: Trace, total: nat, cb: Option<ProgressCb>) {
    match t
    case Start => false
    case Then(b, _) =>
      WantsStop(b, total, cb)
      || (cb.Some? && WriteReaped(t) && cb.value(WritesDone(b), Moved(t, Write), total) != 0)
  }

  lemma {:induction false} ReportPerWrite(t: Trace, total: nat, cb: Option<ProgressCb>)
    requires Reports(t, total, cb) && cb.Some?
    ensures WritesDone(t) == ReportCount(t) + if WriteReaped(t) then 1 else 0
  {
    if t.Then? {
      ReportPerWrite(t.before, total, cb);
    }
  }

  /** A run is cancelled exactly when the callback wants to stop. */
  lemma {:induction false} CanceledIff(t: Trace, total: nat, cb: Option<ProgressCb>)
    requires Reports(t, total, cb) && AllReported(t, cb)
    ensures Canceled(t) <==> WantsStop(t, total, cb)
  {
    if t.Then? {
      var b := t.before;
      if t.event.Progress? {
        // a report: the write before it is the one the callback is asked about
        ReportPerWrite(b.before, total, cb);
        CanceledIff(b.before, total, cb);
      } else {
        CanceledIff(b, total, cb);
      }
    }
  }

  /** The ways out of a pipeline; Code gives the C return value. */
  datatype Outcome =
    | Finished(bytes: nat)
    | KernelError(errno: int)
    | BadSlot
    | NoSqe
    | Aborted
    | Invalid
  {
    function Code(): int {
      match this
      case Finished(n) => n
      case KernelError(e) => e
      case BadSlot => -5
      case NoSqe => -11
      case Aborted => -125
      case Invalid => -22
    }
  }

  /** The sign of the return value tells a good end from any other, and its value which. */
  lemma CodeTells(o: Outcome)
    requires o.KernelError? ==> o.errno < 0
    ensures o.Code() >= 0 <==> o.Finished?
    ensures o.Finished? ==> o.Code() == o.bytes
    ensures o.Code() == -125 <==> o.Aborted? || o == KernelError(-125)
    ensures o.Code() == -22 <==> o.Invalid? || o == KernelError(-22)
  {
  }

  /** The done value of the last report, 0 if there is none. */
  function LastReport(t: Trace): nat {
    match t
    case Start => 0
    case Then(_, Progress(done, _)) => done
    case Then(b, _) => LastReport(b)
  }

  ghost predicate ReportsGrow(t: Trace) {
    match t
    case Start => true
    case Then(b, Progress(done, _)) => ReportsGrow(b) && LastReport(b) <= done
    case Then(b, _) => ReportsGrow(b)
  }

  /** Reports never go down, and the last one covers everything written unless a completed
      write is still waiting to be reported. */
  lemma {:induction false} ReportsAreRunningSums(t: Trace, total: nat, cb: Option<ProgressCb>)
    requires Reports(t, total, cb) && cb.Some?
    ensures ReportsGrow(t)
    ensures LastReport(t) <= Moved(t, Write)
    ensures !WriteReaped(t) ==> LastReport(t) == Moved(t, Write)
  {
    if t.Then? {
      ReportsAreRunningSums(t.before, total, cb);
    }
  }

  ghost predicate NoEventAfter(t: Trace, cancel: Trace)
  {
    t == cancel || (t.Then? && NoEventAfter(t.before, cancel))
  }

  /** A cancelling answer is the last event of a run. */
  lemma {:induction false} CancelIsLast(t: Trace, total: nat, cb: Option<ProgressCb>, prefix: Trace)
    requires Reports(t, total, cb) && NoEventAfter(t, prefix) && Canceled(prefix)
    ensures t == prefix
  {
    if t != prefix {
      CancelIsLast(t.before, total, cb, prefix);
      assert false;
    }
  }
}
