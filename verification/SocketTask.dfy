/**
 The socket task's wake-up protocol. A read task and any number of callers share a connection
 under a mutex and wake the read task through two one-slot channels. Every critical section, wake-up
 and return from the peer manager is one step; steps interleave arbitrarily.
 */
module SocketTask {
  // ---------- The shared connection ----------

  /** The fields under the mutex; a channel of depth one is whether it holds a token. */
  datatype Shared = Shared(writer: bool, writeAvail: bool, readWaker: bool, readPaused: bool, disconnect: bool)

  const NEW := Shared(true, false, false, false, false)

  /** `send_data`: `nonEmpty` is whether there is data and `blocked` whether the kernel buffer filled up. */
  function AfterSend(c: Shared, resume: bool, nonEmpty: bool, blocked: bool): Shared {
    if !c.writer then c
    else
      var c1 := if resume && c.readPaused then c.(readPaused := false, readWaker := true) else c;
      if nonEmpty && blocked then c1.(readPaused := true, readWaker := true) else c1
  }

  function AfterDisconnect(c: Shared): Shared { c.(disconnect := true, writeAvail := true) }

  /** What the kernel answers to a write of `offered` bytes. */
  datatype Poll = Wrote(len: nat) | WriteError(wouldBlock: bool) | Blocked

  datatype SendResult = Written(len: nat) | Panicked

  class Connection {
    var writer: bool
    var writeAvail: bool
    var readWaker: bool
    var readPaused: bool
    var disconnect: bool
    /** Bytes the kernel has accepted. */
    var sent: seq<int>

    ghost function View(): Shared
      reads this
    {
      Shared(writer, writeAvail, readWaker, readPaused, disconnect)
    }

    constructor ()
      ensures View() == NEW && sent == []
    {
      writer, writeAvail, readWaker, readPaused, disconnect, sent := true, false, false, false, false, [];
    }

    /**
     `send_data`. The kernel's answer to the k-th write is `kernel(k)`, the last one asked for is
     number `last`, and all before it accepted something; a count beyond what was
     offered cannot happen. Zero bytes or a would-block error is one of the source's failed assertions.
     */
    method SendData(data: seq<int>, resume: bool, kernel: nat -> Poll)
      returns (r: SendResult, ghost blocked: bool, ghost last: nat)
      modifies this
      ensures View() == AfterSend(old(View()), resume, data != [], blocked)
      ensures old(!writer) || data == [] ==> r == Written(0) && !blocked && sent == old(sent)
      ensures old(!writer) ==> View() == old(View())
      ensures blocked ==> readPaused && readWaker
      ensures old(writer) && !blocked && resume ==> !readPaused
      ensures !blocked && !resume ==> readPaused == old(readPaused)
      ensures readPaused != old(readPaused) ==> readWaker
      ensures r.Written? ==> r.len <= |data| && sent == old(sent) + data[..r.len]
      ensures old(writer) && data != [] ==>
        && (forall j: nat :: j < last ==> kernel(j).Wrote? && kernel(j).len > 0)
        && (r.Panicked? <==> kernel(last) in {Wrote(0), WriteError(true)})
        && (blocked <==> kernel(last) == Blocked)
        && (r.Written? ==> (r.len < |data| <==> kernel(last) in {Blocked, WriteError(false)}))
    {
      blocked, last := false, 0;
      if !writer { return Written(0), blocked, last; }
      if resume && readPaused { readPaused, readWaker := false, true; }
      if |data| == 0 { return Written(0), blocked, last; }
      var written, k := 0, 0;
      ghost var c := View();
      while true
        invariant written < |data| && sent == old(sent) + data[..written] && View() == c && !blocked
        invariant forall j: nat :: j < k ==> kernel(j).Wrote? && kernel(j).len > 0
        decreases |data| - written
      {
        last := k;
        match kernel(k) {
          case Wrote(len) =>
            if len == 0 { return Panicked, blocked, last; }
            var n := if len <= |data| - written then len else |data| - written;
            sent := sent + data[written..written + n];
            assert data[..written] + data[written..written + n] == data[..written + n];
            written, k := written + n, k + 1;
            if written == |data| { return Written(written), blocked, last; }
          case WriteError(wouldBlock) =>
            if wouldBlock { return Panicked, blocked, last; }
            return Written(written), blocked, last;
          case Blocked =>
            readPaused, readWaker := true, true;
            return Written(written), true, last;
        }
      }
    }

    method DisconnectSocket()
      modifies this
      ensures View() == AfterDisconnect(old(View())) && sent == old(sent)
    {
      disconnect, writeAvail := true, true;
    }
  }

  // ---------- The read task among its callers ----------

  datatype Ending = CloseConnection | PeerDisconnected

  /** Where the read task is; `Parked(p)` is inside `select!` after sampling `read_paused == p`. */
  datatype Task =
    | FirstWrite
    | Top
    | Parked(paused: bool)
    | ServingWrite
    | ServingRead
    | Closing(ending: Ending)
    | Done

  datatype State = State(shared: Shared, task: Task)

  datatype Step =
    // the read task
    | FirstWriteWait | FirstWriteDone(ok: bool)
    | Sample
    | WakeForWrite | WriteServed(ok: bool)
    | WakeForPause
    | Read(open: bool) | ReadServed(ok: bool, pause: bool)
    | Close
    // everybody else
    | Send(resume: bool, nonEmpty: bool, blocked: bool)
    | Disconnect
    | KernelWake

  predicate OfReader(step: Step) { !(step.Send? || step.Disconnect? || step.KernelWake?) }

  predicate Enabled(s: State, step: Step) {
    match step
    case FirstWriteWait => s.task.FirstWrite? && s.shared.writeAvail
    case FirstWriteDone(_) => s.task.FirstWrite?
    case Sample => s.task.Top?
    case WakeForWrite => s.task.Parked? && s.shared.writeAvail
    case WriteServed(_) => s.task.ServingWrite?
    case WakeForPause => s.task.Parked? && s.shared.readWaker
    case Read(_) => s.task.Parked? && !s.task.paused
    case ReadServed(_, _) => s.task.ServingRead?
    case Close => s.task.Closing?
    case Send(_, _, _) => true
    case Disconnect => true
    case KernelWake => true
  }

  function Apply(s: State, step: Step): State
    requires Enabled(s, step)
  {
    var c := s.shared;
    match step
    case FirstWriteWait => s.(shared := c.(writeAvail := false))
    case FirstWriteDone(ok) => s.(task := if ok then Top else Done)
    case Sample => s.(task := if c.disconnect then Closing(CloseConnection) else Parked(c.readPaused))
    case WakeForWrite => State(c.(writeAvail := false), ServingWrite)
    case WriteServed(ok) => s.(task := if ok then Top else Closing(CloseConnection))
    case WakeForPause => State(c.(readWaker := false), Top)
    case Read(open) => s.(task := if open then ServingRead else Closing(PeerDisconnected))
    case ReadServed(ok, pause) =>
      if !ok then s.(task := Closing(CloseConnection)) else State(if pause then c.(readPaused := true) else c, Top)
    case Close => State(c.(writer := false), Done)
    case Send(resume, nonEmpty, blocked) => s.(shared := AfterSend(c, resume, nonEmpty, blocked))
    case Disconnect => s.(shared := AfterDisconnect(c))
    case KernelWake => s.(shared := c.(writeAvail := true))
  }

  predicate Runs(s: State, steps: seq<Step>)
    decreases |steps|, 0
  {
    steps == [] || (Runs(s, steps[..|steps| - 1]) && Enabled(After(s, steps[..|steps| - 1]), steps[|steps| - 1]))
  }

  function After(s: State, steps: seq<Step>): State
    requires Runs(s, steps)
    decreases |steps|, 1
  {
    if steps == [] then s else Apply(After(s, steps[..|steps| - 1]), steps[|steps| - 1])
  }

  /** Inbound connections start reading at once, outbound ones first write their opening message. */
  predicate Initial(s: State) { s.shared == NEW && (s.task.Top? || s.task.FirstWrite?) }

  // ---------- No wake-up is lost ----------

  predicate NoLostWakeup(s: State) {
    && (s.task.Parked? && s.shared.disconnect ==> s.shared.writeAvail)
    && (s.task.Parked? && s.task.paused != s.shared.readPaused ==> s.shared.readWaker)
    && (s.shared.writer || s.task.Done?)
  }

  lemma StepKeepsWakeups(s: State, step: Step)
    requires Enabled(s, step) && NoLostWakeup(s)
    ensures NoLostWakeup(Apply(s, step))
  {
  }

  lemma {:induction false} WakeupsKept(s: State, steps: seq<Step>)
    requires Runs(s, steps) && NoLostWakeup(s)
    ensures NoLostWakeup(After(s, steps))
  {
    if steps != [] {
      WakeupsKept(s, steps[..|steps| - 1]);
      StepKeepsWakeups(After(s, steps[..|steps| - 1]), steps[|steps| - 1]);
    }
  }

  /**
   In every interleaving: a parked task that should act, because a disconnect was requested or the
   pause flag is no longer what it sampled, can be woken without waiting for the peer.
   */
  lemma {:induction false} NeverParkedInVain(s: State, steps: seq<Step>)
    requires Initial(s) && Runs(s, steps) && After(s, steps).task.Parked?
    ensures var r := After(s, steps);
      && (r.shared.disconnect ==> Enabled(r, WakeForWrite))
      && (r.task.paused && !r.shared.readPaused ==> Enabled(r, WakeForPause))
      && (!r.task.paused && r.shared.readPaused ==> Enabled(r, WakeForPause))
  {
    WakeupsKept(s, steps);
  }

  // ---------- A requested disconnect is carried out ----------

  function ReaderSteps(steps: seq<Step>): nat {
    if steps == [] then 0 else ReaderSteps(steps[..|steps| - 1]) + if OfReader(steps[|steps| - 1]) then 1 else 0
  }

  /** Waits of an outbound task that is still writing its first message; each uses up a token. */
  function Waits(steps: seq<Step>): nat {
    if steps == [] then 0 else Waits(steps[..|steps| - 1]) + if steps[|steps| - 1].FirstWriteWait? then 1 else 0
  }

  function Tokens(steps: seq<Step>): nat {
    if steps == [] then 0
    else
      var last := steps[|steps| - 1];
      Tokens(steps[..|steps| - 1]) + if last.KernelWake? || last.Disconnect? then 1 else 0
  }

  lemma {:induction false} WaitsUseTokens(s: State, steps: seq<Step>)
    requires Runs(s, steps)
    ensures Waits(steps) + (if After(s, steps).shared.writeAvail then 1 else 0) <=
      Tokens(steps) + (if s.shared.writeAvail then 1 else 0)
    ensures !s.task.FirstWrite? ==> Waits(steps) == 0 && !After(s, steps).task.FirstWrite?
  {
    if steps != [] { WaitsUseTokens(s, steps[..|steps| - 1]); }
  }

  /** Own steps, besides such waits, that the read task can still take once a disconnect has been requested. */
  function ToGo(task: Task): nat {
    match task
    case FirstWrite => 3
    case Parked(_) => 4
    case ServingWrite => 3
    case ServingRead => 3
    case Top => 2
    case Closing(_) => 1
    case Done => 0
  }

  lemma StepCountsDown(s: State, step: Step)
    requires Enabled(s, step) && s.shared.disconnect
    ensures Apply(s, step).shared.disconnect
    ensures ToGo(Apply(s, step).task) + (if OfReader(step) then 1 else 0) <=
      ToGo(s.task) + (if step.FirstWriteWait? then 1 else 0)
  {
  }

  lemma {:induction false} DisconnectCountsDown(s: State, steps: seq<Step>)
    requires Runs(s, steps) && s.shared.disconnect
    ensures var r := After(s, steps);
      r.shared.disconnect && ToGo(r.task) + ReaderSteps(steps) <= ToGo(s.task) + Waits(steps)
  {
    if steps != [] {
      DisconnectCountsDown(s, steps[..|steps| - 1]);
      StepCountsDown(After(s, steps[..|steps| - 1]), steps[|steps| - 1]);
    }
  }

  /**
   Once a disconnect is requested, whatever everybody else does, the read task ends after at most
   four steps of its own, and until then one that does not wait for the peer is always possible.
   A task still writing its first message also wakes once for each token it is given.
   */
  lemma DisconnectIsCarriedOut(s: State, before: seq<Step>, after: seq<Step>)
    requires Initial(s) && Runs(s, before) && After(s, before).shared.disconnect
    requires Runs(After(s, before), after)
    ensures ReaderSteps(after) <= 4 + Waits(after) && Waits(after) <= 1 + Tokens(after)
    ensures !After(s, before).task.FirstWrite? ==> Waits(after) == 0
    ensures var r := After(After(s, before), after);
      r.task.Done? || exists step :: OfReader(step) && !step.Read? && Enabled(r, step)
  {
    WakeupsKept(s, before);
    WakeupsKept(After(s, before), after);
    WaitsUseTokens(After(s, before), after);
    DisconnectCountsDown(After(s, before), after);
    var r := After(After(s, before), after);
    match r.task
    case FirstWrite => assert Enabled(r, FirstWriteDone(false));
    case Parked(_) => assert Enabled(r, WakeForWrite);
    case ServingWrite => assert Enabled(r, WriteServed(true));
    case ServingRead => assert Enabled(r, ReadServed(true, false));
    case Top => assert Enabled(r, Sample);
    case Closing(_) => assert Enabled(r, Close);
    case Done =>
  }

  // ---------- Pausing takes effect ----------

  function Reads(steps: seq<Step>): nat {
    if steps == [] then 0 else Reads(steps[..|steps| - 1]) + if steps[|steps| - 1].Read? then 1 else 0
  }

  lemma StepPausedRead(s: State, step: Step)
    requires Enabled(s, step) && s.shared.readPaused && (step.Send? ==> !step.resume)
    ensures Apply(s, step).shared.readPaused
    ensures (if step.Read? then 1 else 0) + (if Apply(s, step).task == Parked(false) then 1 else 0) <=
      if s.task == Parked(false) then 1 else 0
  {
  }

  lemma {:induction false} PausedReads(s: State, steps: seq<Step>)
    requires Runs(s, steps) && s.shared.readPaused
    requires forall i :: 0 <= i < |steps| && steps[i].Send? ==> !steps[i].resume
    ensures After(s, steps).shared.readPaused
    ensures Reads(steps) + (if After(s, steps).task == Parked(false) then 1 else 0) <=
      if s.task == Parked(false) then 1 else 0
  {
    if steps != [] {
      PausedReads(s, steps[..|steps| - 1]);
      StepPausedRead(After(s, steps[..|steps| - 1]), steps[|steps| - 1]);
    }
  }

  /** While reading stays paused, at most the one read that was already waiting gets through. */
  lemma AtMostOneReadWhilePaused(s: State, steps: seq<Step>)
    requires Runs(s, steps) && s.shared.readPaused
    requires forall i :: 0 <= i < |steps| && steps[i].Send? ==> !steps[i].resume
    ensures Reads(steps) <= 1
    ensures s.task != Parked(false) ==> Reads(steps) == 0
  {
    PausedReads(s, steps);
  }

  /**
   A full kernel buffer pauses reading: whatever the read task had sampled, it can be woken at once,
   and until a resume at most the read already waiting gets through.
   */
  lemma BlockedSendPauses(s: State, resume: bool, steps: seq<Step>)
    requires s.shared.writer && Runs(Apply(s, Send(resume, true, true)), steps)
    requires forall i :: 0 <= i < |steps| && steps[i].Send? ==> !steps[i].resume
    ensures s.task.Parked? ==> Enabled(Apply(s, Send(resume, true, true)), WakeForPause)
    ensures After(Apply(s, Send(resume, true, true)), steps).shared.readPaused
    ensures Reads(steps) <= if s.task == Parked(false) then 1 else 0
  {
    PausedReads(Apply(s, Send(resume, true, true)), steps);
  }

  // ---------- No busy loop, and how it ends ----------

  function WriteWakes(steps: seq<Step>): nat {
    if steps == [] then 0
    else
      var last := steps[|steps| - 1];
      WriteWakes(steps[..|steps| - 1]) + if last.WakeForWrite? || last.FirstWriteWait? then 1 else 0
  }

  function PauseWakes(steps: seq<Step>): nat {
    if steps == [] then 0 else PauseWakes(steps[..|steps| - 1]) + if steps[|steps| - 1].WakeForPause? then 1 else 0
  }

  /** Sends that resume, or that fill the kernel's buffer. */
  function PauseTokens(steps: seq<Step>): nat {
    if steps == [] then 0
    else
      var last := steps[|steps| - 1];
      PauseTokens(steps[..|steps| - 1])
      + if last.Send? && (last.resume || (last.nonEmpty && last.blocked)) then 1 else 0
  }

  lemma StepUsesTokens(s: State, step: Step)
    requires Enabled(s, step)
    ensures (if step.WakeForWrite? || step.FirstWriteWait? then 1 else 0)
      + (if Apply(s, step).shared.writeAvail then 1 else 0) <=
      (if step.KernelWake? || step.Disconnect? then 1 else 0) + (if s.shared.writeAvail then 1 else 0)
    ensures (if step.WakeForPause? then 1 else 0) + (if Apply(s, step).shared.readWaker then 1 else 0) <=
      (if step.Send? && (step.resume || (step.nonEmpty && step.blocked)) then 1 else 0)
      + (if s.shared.readWaker then 1 else 0)
  {
  }

  /** The read task wakes at most once for each time somebody woke it: it never spins. */
  lemma {:induction false} WakesUseTokens(s: State, steps: seq<Step>)
    requires Runs(s, steps)
    ensures WriteWakes(steps) + (if After(s, steps).shared.writeAvail then 1 else 0) <=
      Tokens(steps) + (if s.shared.writeAvail then 1 else 0)
    ensures PauseWakes(steps) + (if After(s, steps).shared.readWaker then 1 else 0) <=
      PauseTokens(steps) + (if s.shared.readWaker then 1 else 0)
  {
    if steps != [] {
      WakesUseTokens(s, steps[..|steps| - 1]);
      StepUsesTokens(After(s, steps[..|steps| - 1]), steps[|steps| - 1]);
    }
  }

  /** Why the read task is closing: the peer is reported gone exactly when the socket said so. */
  ghost predicate ClosesFor(s: State, steps: seq<Step>) {
    && (s.task == Closing(PeerDisconnected) ==> Read(false) in steps)
    && (s.task == Closing(CloseConnection) ==>
        s.shared.disconnect || WriteServed(false) in steps || ReadServed(false, true) in steps
        || ReadServed(false, false) in steps)
  }

  lemma {:induction false} EndingIsRight(s: State, steps: seq<Step>)
    requires Initial(s) && Runs(s, steps)
    ensures ClosesFor(After(s, steps), steps)
  {
    if steps != [] {
      var front, last := steps[..|steps| - 1], steps[|steps| - 1];
      EndingIsRight(s, front);
      assert steps == front + [last];
    }
  }

  /** From then on the ending stands, and once closed the connection has no writer left: sends do nothing. */
  lemma {:induction false} ClosedForGood(s: State, steps: seq<Step>)
    requires Runs(s, steps) && s.task.Closing?
    ensures var r := After(s, steps);
      r.task == s.task || (r.task.Done? && !r.shared.writer && Close in steps)
  {
    if steps != [] {
      var front, last := steps[..|steps| - 1], steps[|steps| - 1];
      ClosedForGood(s, front);
      assert steps == front + [last];
    }
  }

  // ---------- A resume that comes too early ----------

  lemma OneMore(s: State, steps: seq<Step>, step: Step)
    requires Runs(s, steps) && Enabled(After(s, steps), step)
    ensures Runs(s, steps + [step]) && After(s, steps + [step]) == Apply(After(s, steps), step)
  {
    assert (steps + [step])[..|steps|] == steps;
  }

  /** A step that neither reads, nor resumes, nor fills the kernel's buffer. */
  predicate Quiet(step: Step) { !step.Read? && !(step.Send? && (step.resume || (step.nonEmpty && step.blocked))) }

  lemma StepQuiet(s: State, step: Step)
    requires Enabled(s, step) && Quiet(step)
    ensures Apply(s, step).shared.readPaused <==> s.shared.readPaused || step == ReadServed(true, true)
    ensures step == ReadServed(true, true) || Apply(s, step).task.ServingRead? ==> s.task.ServingRead?
  {
  }

  lemma {:induction false} QuietPause(s: State, steps: seq<Step>)
    requires Runs(s, steps) && !s.shared.readPaused && forall i :: 0 <= i < |steps| ==> Quiet(steps[i])
    ensures After(s, steps).shared.readPaused <==> ReadServed(true, true) in steps
    ensures ReadServed(true, true) in steps || After(s, steps).task.ServingRead? ==> s.task.ServingRead?
  {
    if steps != [] {
      var front, last := steps[..|steps| - 1], steps[|steps| - 1];
      QuietPause(s, front);
      StepQuiet(After(s, front), last);
      assert steps == front + [last];
    }
  }

  /**
   The pause that the peer manager asks for is set in a later critical section than the call that
   asked for it. A resume is lost exactly when such a pause follows it, and that can only happen
   if the read task was inside that call when the resume came.
   */
  lemma ResumeLostIff(s: State, nonEmpty: bool, blocked: bool, steps: seq<Step>)
    requires s.shared.writer && !(nonEmpty && blocked)
    requires Runs(Apply(s, Send(true, nonEmpty, blocked)), steps) && forall i :: 0 <= i < |steps| ==> Quiet(steps[i])
    ensures var r := After(Apply(s, Send(true, nonEmpty, blocked)), steps);
      && (r.shared.readPaused <==> ReadServed(true, true) in steps)
      && (r.shared.readPaused ==> s.task.ServingRead?)
  {
    QuietPause(Apply(s, Send(true, nonEmpty, blocked)), steps);
  }

  ghost predicate QuietRun(s: State, steps: seq<Step>) {
    Runs(s, steps) && forall i :: 0 <= i < |steps| ==> Quiet(steps[i])
  }

  /** A resume can be lost at all exactly when it comes while the read task is inside `read_event`. */
  lemma ResumeCanBeLostIff(s: State, nonEmpty: bool, blocked: bool)
    requires s.shared.writer && !(nonEmpty && blocked)
    ensures var r := Apply(s, Send(true, nonEmpty, blocked));
      (exists steps :: QuietRun(r, steps) && After(r, steps).shared.readPaused) <==> s.task.ServingRead?
  {
    var r := Apply(s, Send(true, nonEmpty, blocked));
    if steps :| QuietRun(r, steps) && After(r, steps).shared.readPaused { ResumeLostIff(s, nonEmpty, blocked, steps); }
    if s.task.ServingRead? {
      OneMore(r, [], ReadServed(true, true));
      var steps := [] + [ReadServed(true, true)];
      assert QuietRun(r, steps) && After(r, steps).shared.readPaused;
    }
  }

  /** Such a run: the read task parks with reading paused and no token. */
  lemma EarlyResumeIsOverwritten(s: State) returns (steps: seq<Step>)
    requires Initial(s) && s.task.Top?
    ensures Runs(s, steps) && Send(true, false, false) in steps
    ensures After(s, steps) == State(NEW.(readPaused := true), Parked(true))
  {
    steps := [];
    OneMore(s, steps, Sample); steps := steps + [Sample];
    OneMore(s, steps, Read(true)); steps := steps + [Read(true)];
    OneMore(s, steps, Send(true, false, false)); steps := steps + [Send(true, false, false)];
    OneMore(s, steps, ReadServed(true, true)); steps := steps + [ReadServed(true, true)];
    OneMore(s, steps, Sample); steps := steps + [Sample];
  }
}
