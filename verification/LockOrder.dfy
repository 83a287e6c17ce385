/**
 The lock-order checker: before a thread waits for a lock, every lock it holds is recorded as
 locked-before that lock, and an order already recorded the other way round is a panic. Threads
 interleave arbitrarily; each pre-lock check, acquisition and guard drop is one step.
 */
module LockOrder {
  datatype Verdict = Recursive | Inserted | Panic

  /** What the pre-lock check decides about `lock` for a thread holding `held`. */
  ghost function Judge<L>(deps: map<L, set<L>>, held: set<L>, lock: L, read: bool): Verdict
    requires held <= deps.Keys
  {
    if lock in held then (if read then Recursive else Panic)
    else if exists l :: l in held && lock in deps[l] then Panic
    else Inserted
  }

  // ---------- The check itself ----------

  /** A lock's metadata; identity of the object stands for equality of the lock index. */
  class LockMetadata {
    var lockedBefore: set<LockMetadata>

    constructor ()
      ensures lockedBefore == {}
    {
      lockedBefore := {};
    }

    /** `_pre_lock`, with the thread-local held set as a parameter and a result. */
    method PreLock(held: set<LockMetadata>, read: bool) returns (verdict: Verdict, heldAfter: set<LockMetadata>)
      modifies this`lockedBefore
      ensures verdict == Judge(old(map l | l in held :: l.lockedBefore), held, this, read)
      ensures verdict == Inserted ==> lockedBefore == old(lockedBefore) + held && heldAfter == held + {this}
      ensures verdict == Recursive ==> lockedBefore == old(lockedBefore)
      ensures verdict == Panic ==> old(lockedBefore) <= lockedBefore <= old(lockedBefore) + held
      ensures verdict != Inserted ==> heldAfter == held
    {
      heldAfter := held;
      var todo := held;
      while todo != {}
        invariant todo <= held
        invariant read ==> this !in held - todo
      {
        var locked :| locked in todo;
        if read && locked == this { return Recursive, held; }
        todo := todo - {locked};
      }
      todo := held;
      while todo != {}
        invariant todo <= held && this !in held - todo && (read ==> this !in held)
        invariant forall l :: l in held && l != this ==> l.lockedBefore == old(l.lockedBefore)
        invariant forall l :: l in held - todo ==> this !in old(l.lockedBefore)
        invariant lockedBefore == old(lockedBefore) + (held - todo)
      {
        var locked :| locked in todo;
        if !read && locked == this { return Panic, held; }
        var deps := locked.lockedBefore;
        while deps != {}
          invariant deps <= locked.lockedBefore && this !in locked.lockedBefore - deps
        {
          var dep :| dep in deps;
          if dep == this { return Panic, held; }
          deps := deps - {dep};
        }
        lockedBefore := lockedBefore + {locked};
        todo := todo - {locked};
      }
      verdict, heldAfter := Inserted, held + {this};
    }
  }

  // ---------- All threads together ----------

  type Lock = int
  type Thread = int

  /** A mutex or write guard, a thread's first read guard, or a read guard taken recursively. */
  datatype Mode = Exclusive | FirstRead | ReadAgain

  datatype Guard = Guard(lock: Lock, mode: Mode)

  /** What a thread is blocked on, if anything. */
  datatype Want = Nothing | Want(lock: Lock, read: bool, recursive: bool)

  datatype State = State(
    before: Lock -> set<Lock>, held: Thread -> set<Lock>, guards: Thread -> seq<Guard>, want: Thread -> Want)

  const INITIAL := State(_ => {}, _ => {}, _ => [], _ => Nothing)

  datatype Step =
    | Request(thread: Thread, lock: Lock, read: bool)
    | Acquire(thread: Thread)
    | Drop(thread: Thread, index: nat)

  function Update<V>(f: int -> V, at: int, v: V): int -> V { x => if x == at then v else f(x) }

  /** Live guards of a thread on a lock: those that keep it in the held set, recursive reads, and all. */
  function Owning(s: State, t: Thread, l: Lock): nat {
    multiset(s.guards(t))[Guard(l, Exclusive)] + multiset(s.guards(t))[Guard(l, FirstRead)]
  }

  function Again(s: State, t: Thread, l: Lock): nat { multiset(s.guards(t))[Guard(l, ReadAgain)] }

  function Writing(s: State, t: Thread, l: Lock): nat { multiset(s.guards(t))[Guard(l, Exclusive)] }

  function Live(s: State, t: Thread, l: Lock): nat { Owning(s, t, l) + Again(s, t, l) }

  /** A guard of thread `u` keeps thread `t` from getting what it wants. */
  predicate BlockedBy(s: State, t: Thread, l: Lock, u: Thread) {
    var w := s.want(t);
    w.Want? && w.lock == l && (if w.read then Writing(s, u, l) > 0 else Live(s, u, l) > 0)
  }

  ghost predicate Enabled(s: State, step: Step) {
    match step
    case Request(t, l, read) =>
      s.want(t).Nothing? && Judge(map x | x in s.held(t) :: s.before(x), s.held(t), l, read) != Panic
    case Acquire(t) => s.want(t).Want? && forall u :: !BlockedBy(s, t, s.want(t).lock, u)
    case Drop(t, i) => s.want(t).Nothing? && i < |s.guards(t)|
  }

  function Granted(w: Want): Guard
    requires w.Want?
  {
    Guard(w.lock, if !w.read then Exclusive else if w.recursive then ReadAgain else FirstRead)
  }

  function Without(g: seq<Guard>, i: nat): seq<Guard>
    requires i < |g|
  {
    g[..i] + g[i + 1..]
  }

  ghost function Apply(s: State, step: Step): State
    requires Enabled(s, step)
  {
    match step
    case Request(t, l, read) =>
      if l in s.held(t) then s.(want := Update(s.want, t, Want(l, read, true)))
      else s.(before := Update(s.before, l, s.before(l) + s.held(t)),
              held := Update(s.held, t, s.held(t) + {l}),
              want := Update(s.want, t, Want(l, read, false)))
    case Acquire(t) =>
      s.(guards := Update(s.guards, t, s.guards(t) + [Granted(s.want(t))]), want := Update(s.want, t, Nothing))
    case Drop(t, i) =>
      var g := s.guards(t)[i];
      s.(guards := Update(s.guards, t, Without(s.guards(t), i)),
         held := if g.mode == ReadAgain then s.held else Update(s.held, t, s.held(t) - {g.lock}))
  }

  /** A panic-free run. */
  ghost predicate Runs(steps: seq<Step>)
    decreases |steps|, 0
  {
    steps == [] || (Runs(steps[..|steps| - 1]) && Enabled(After(steps[..|steps| - 1]), steps[|steps| - 1]))
  }

  ghost function After(steps: seq<Step>): State
    requires Runs(steps)
    decreases |steps|, 1
  {
    if steps == [] then INITIAL else Apply(After(steps[..|steps| - 1]), steps[|steps| - 1])
  }

  // ---------- What every step keeps ----------

  /** The recorded order has no two-cycle through these locks, and no self-loop. */
  predicate Ordered(s: State, l: Lock, m: Lock) { !(l in s.before(m) && m in s.before(l)) }

  /** A waiting thread's other held locks are recorded before the one it waits for. */
  predicate Recorded(s: State, t: Thread, m: Lock) {
    var w := s.want(t);
    w.Want? && !w.recursive && m in s.held(t) && m != w.lock ==> m in s.before(w.lock)
  }

  predicate Pending(s: State, t: Thread, l: Lock) { s.want(t).Want? && !s.want(t).recursive && s.want(t).lock == l }

  /** The held set is the locks with an owning guard, plus the one being waited for. */
  predicate HeldIs(s: State, t: Thread, l: Lock) {
    && (l in s.held(t) <==> Owning(s, t, l) > 0 || Pending(s, t, l))
    && Owning(s, t, l) <= 1
    && (Pending(s, t, l) ==> Owning(s, t, l) == 0)
    && (s.want(t).Want? && s.want(t).recursive && s.want(t).lock == l ==> s.want(t).read && l in s.held(t))
  }

  /** An exclusive guard is the only guard on its lock. */
  predicate Excludes(s: State, t: Thread, u: Thread, l: Lock) {
    Writing(s, t, l) > 0 ==> Live(s, u, l) == if u == t then 1 else 0
  }

  lemma StepOrdered(s: State, step: Step, l: Lock, m: Lock)
    requires Enabled(s, step) && Ordered(s, l, m)
    ensures Ordered(Apply(s, step), l, m)
  {
    if step.Request? {
      var deps := map x | x in s.held(step.thread) :: s.before(x);
      assert step.lock == l && m in deps ==> m in deps;
      assert forall x :: x in s.held(step.thread) ==> deps[x] == s.before(x);
    }
  }

  lemma StepRecorded(s: State, step: Step, t: Thread, m: Lock)
    requires Enabled(s, step) && Recorded(s, t, m)
    ensures Recorded(Apply(s, step), t, m)
  {
  }

  lemma GuardsAfterDrop(g: seq<Guard>, i: nat)
    requires i < |g|
    ensures multiset(Without(g, i)) == multiset(g) - multiset{g[i]}
  {
    assert g == g[..i] + [g[i]] + g[i + 1..];
  }

  lemma RequestHeld(s: State, step: Step, t: Thread, l: Lock)
    requires Enabled(s, step) && step.Request? && HeldIs(s, t, l)
    ensures HeldIs(Apply(s, step), t, l)
  {
    assert Owning(Apply(s, step), t, l) == Owning(s, t, l);
  }

  lemma AcquireHeld(s: State, step: Step, t: Thread, l: Lock)
    requires Enabled(s, step) && step.Acquire? && HeldIs(s, t, l)
    ensures HeldIs(Apply(s, step), t, l)
  {
    if step.thread != t || s.want(t).lock != l { assert Owning(Apply(s, step), t, l) == Owning(s, t, l); }
  }

  lemma DropHeld(s: State, step: Step, t: Thread, l: Lock)
    requires Enabled(s, step) && step.Drop? && HeldIs(s, t, l)
    ensures HeldIs(Apply(s, step), t, l)
  {
    if step.thread == t {
      var g := s.guards(t)[step.index];
      GuardsAfterDrop(s.guards(t), step.index);
      assert Owning(Apply(s, step), t, l) == Owning(s, t, l) - if g.lock == l && g.mode != ReadAgain then 1 else 0;
    }
  }

  lemma StepHeld(s: State, step: Step, t: Thread, l: Lock)
    requires Enabled(s, step) && HeldIs(s, t, l)
    ensures HeldIs(Apply(s, step), t, l)
  {
    match step
    case Request(_, _, _) => RequestHeld(s, step, t, l);
    case Acquire(_) => AcquireHeld(s, step, t, l);
    case Drop(_, _) => DropHeld(s, step, t, l);
  }

  lemma DropExcludes(s: State, step: Step, t: Thread, u: Thread, l: Lock)
    requires Enabled(s, step) && step.Drop? && Excludes(s, t, u, l)
    ensures Excludes(Apply(s, step), t, u, l)
  {
    GuardsAfterDrop(s.guards(step.thread), step.index);
    if step.thread != t {
      assert Writing(Apply(s, step), t, l) == Writing(s, t, l);
    } else if step.thread != u {
      assert Live(Apply(s, step), u, l) == Live(s, u, l);
    }
  }

  lemma AcquireExcludes(s: State, step: Step, t: Thread, u: Thread, l: Lock)
    requires Enabled(s, step) && step.Acquire? && Excludes(s, t, u, l)
    ensures Excludes(Apply(s, step), t, u, l)
  {
    var r := Apply(s, step);
    if s.want(step.thread).lock == l {
      assert !BlockedBy(s, step.thread, l, t) && !BlockedBy(s, step.thread, l, u);
    } else {
      assert Writing(r, t, l) == Writing(s, t, l) && Live(r, u, l) == Live(s, u, l);
    }
  }

  lemma StepExcludes(s: State, step: Step, t: Thread, u: Thread, l: Lock)
    requires Enabled(s, step) && Excludes(s, t, u, l)
    ensures Excludes(Apply(s, step), t, u, l)
  {
    match step
    case Request(_, _, _) =>
    case Acquire(_) => AcquireExcludes(s, step, t, u, l);
    case Drop(_, _) => DropExcludes(s, step, t, u, l);
  }

  // ---------- Every panic-free run ----------

  lemma {:induction false} RunOrdered(steps: seq<Step>, l: Lock, m: Lock)
    requires Runs(steps)
    ensures Ordered(After(steps), l, m)
  {
    if steps != [] {
      RunOrdered(steps[..|steps| - 1], l, m);
      StepOrdered(After(steps[..|steps| - 1]), steps[|steps| - 1], l, m);
    }
  }

  lemma {:induction false} RunRecorded(steps: seq<Step>, t: Thread, m: Lock)
    requires Runs(steps)
    ensures Recorded(After(steps), t, m)
  {
    if steps != [] {
      RunRecorded(steps[..|steps| - 1], t, m);
      StepRecorded(After(steps[..|steps| - 1]), steps[|steps| - 1], t, m);
    }
  }

  lemma {:induction false} RunHeld(steps: seq<Step>, t: Thread, l: Lock)
    requires Runs(steps)
    ensures HeldIs(After(steps), t, l)
  {
    if steps != [] {
      RunHeld(steps[..|steps| - 1], t, l);
      StepHeld(After(steps[..|steps| - 1]), steps[|steps| - 1], t, l);
    }
  }

  lemma {:induction false} RunExcludes(steps: seq<Step>, t: Thread, u: Thread, l: Lock)
    requires Runs(steps)
    ensures Excludes(After(steps), t, u, l)
  {
    if steps != [] {
      RunExcludes(steps[..|steps| - 1], t, u, l);
      StepExcludes(After(steps[..|steps| - 1]), steps[|steps| - 1], t, u, l);
    }
  }

  /** Locks with a live guard, or being waited for by their first request, are the held ones. */
  ghost predicate HeldIsLive(s: State) {
    forall t, l :: l in s.held(t) <==> Live(s, t, l) > 0 || Pending(s, t, l)
  }

  /** A thread's first read guard on a lock is dropped only after its recursive ones. */
  predicate DropsInOrder(s: State, step: Step) {
    step.Drop? && step.index < |s.guards(step.thread)| && s.guards(step.thread)[step.index].mode == FirstRead
    ==> Again(s, step.thread, s.guards(step.thread)[step.index].lock) == 0
  }

  ghost predicate Orderly(steps: seq<Step>)
    requires Runs(steps)
  {
    steps == [] || (Orderly(steps[..|steps| - 1]) && DropsInOrder(After(steps[..|steps| - 1]), steps[|steps| - 1]))
  }

  /** Recursive reads are covered by an owning guard. */
  predicate Covered(s: State, t: Thread, l: Lock) { Again(s, t, l) > 0 ==> Owning(s, t, l) > 0 }

  lemma DropCovered(s: State, step: Step, t: Thread, l: Lock)
    requires Enabled(s, step) && step.Drop? && Excludes(s, t, t, l) && Covered(s, t, l) && DropsInOrder(s, step)
    ensures Covered(Apply(s, step), t, l)
  {
    if step.thread == t {
      GuardsAfterDrop(s.guards(t), step.index);
      assert s.guards(t)[step.index] in multiset(s.guards(t));
    }
  }

  lemma StepCovered(s: State, step: Step, t: Thread, l: Lock)
    requires Enabled(s, step) && HeldIs(s, t, l) && Excludes(s, t, t, l) && Covered(s, t, l) && DropsInOrder(s, step)
    ensures Covered(Apply(s, step), t, l)
  {
    match step
    case Request(_, _, _) =>
    case Acquire(_) =>
      if step.thread != t || s.want(t).lock != l { assert Live(Apply(s, step), t, l) == Live(s, t, l); }
    case Drop(_, _) => DropCovered(s, step, t, l);
  }

  lemma {:induction false} RunCovered(steps: seq<Step>, t: Thread, l: Lock)
    requires Runs(steps) && Orderly(steps)
    ensures Covered(After(steps), t, l)
  {
    if steps != [] {
      var front := steps[..|steps| - 1];
      RunHeld(front, t, l);
      RunExcludes(front, t, t, l);
      RunCovered(front, t, l);
      StepCovered(After(front), steps[|steps| - 1], t, l);
    }
  }

  lemma DisorderLosesALock(steps: seq<Step>)
    requires Runs(steps) && steps != [] && !DropsInOrder(After(steps[..|steps| - 1]), steps[|steps| - 1])
    ensures !HeldIsLive(After(steps))
  {
    var s, step := After(steps[..|steps| - 1]), steps[|steps| - 1];
    var t, l := step.thread, s.guards(step.thread)[step.index].lock;
    GuardsAfterDrop(s.guards(t), step.index);
    assert l !in After(steps).held(t) && Live(After(steps), t, l) > 0;
  }

  ghost predicate AlwaysHeldIsLive(steps: seq<Step>)
    requires Runs(steps)
  {
    HeldIsLive(After(steps)) && (steps == [] || AlwaysHeldIsLive(steps[..|steps| - 1]))
  }

  /** The held set is right after every step of a run exactly when the run drops read guards in order. */
  lemma {:induction false} HeldIsLiveIff(steps: seq<Step>)
    requires Runs(steps)
    ensures AlwaysHeldIsLive(steps) <==> Orderly(steps)
  {
    if Orderly(steps) {
      forall t, l ensures l in After(steps).held(t) <==> Live(After(steps), t, l) > 0 || Pending(After(steps), t, l) {
        RunHeld(steps, t, l);
        RunCovered(steps, t, l);
      }
    }
    if steps != [] {
      HeldIsLiveIff(steps[..|steps| - 1]);
      if !DropsInOrder(After(steps[..|steps| - 1]), steps[|steps| - 1]) { DisorderLosesALock(steps); }
    }
  }

  // ---------- Last in, first out ----------

  ghost predicate Lifo(steps: seq<Step>)
    requires Runs(steps)
  {
    steps == [] ||
    (Lifo(steps[..|steps| - 1]) &&
     var step := steps[|steps| - 1]; step.Drop? ==> step.index == |After(steps[..|steps| - 1]).guards(step.thread)| - 1)
  }

  function OwningIn(g: seq<Guard>, l: Lock): nat { multiset(g)[Guard(l, Exclusive)] + multiset(g)[Guard(l, FirstRead)] }

  /** Every recursive read guard was taken on top of an owning one. */
  predicate Stacked(g: seq<Guard>, l: Lock) {
    g == [] || (Stacked(g[..|g| - 1], l) && (g[|g| - 1] == Guard(l, ReadAgain) ==> OwningIn(g[..|g| - 1], l) > 0))
  }

  lemma {:induction false} StackedCovers(g: seq<Guard>, l: Lock)
    requires Stacked(g, l)
    ensures multiset(g)[Guard(l, ReadAgain)] > 0 ==> OwningIn(g, l) > 0
  {
    if g != [] {
      StackedCovers(g[..|g| - 1], l);
      assert g == g[..|g| - 1] + [g[|g| - 1]];
    }
  }

  lemma PopIsFront(g: seq<Guard>)
    requires g != []
    ensures Without(g, |g| - 1) == g[..|g| - 1] && multiset(g) == multiset(g[..|g| - 1]) + multiset{g[|g| - 1]}
  {
    assert g == g[..|g| - 1] + [g[|g| - 1]];
  }

  lemma PushStacked(g: seq<Guard>, x: Guard, l: Lock)
    requires Stacked(g, l) && (x == Guard(l, ReadAgain) ==> OwningIn(g, l) > 0)
    ensures Stacked(g + [x], l)
  {
    assert (g + [x])[..|g|] == g;
  }

  lemma StepStacked(s: State, step: Step, t: Thread, l: Lock)
    requires Enabled(s, step) && HeldIs(s, t, l) && Stacked(s.guards(t), l)
    requires step.Drop? ==> step.index == |s.guards(step.thread)| - 1
    ensures Stacked(Apply(s, step).guards(t), l)
  {
    var g := s.guards(t);
    match step
    case Request(_, _, _) => assert Apply(s, step).guards(t) == g;
    case Acquire(u) =>
      if u == t {
        assert Granted(s.want(t)) == Guard(l, ReadAgain) ==> Owning(s, t, l) > 0;
        PushStacked(g, Granted(s.want(t)), l);
      } else {
        assert Apply(s, step).guards(t) == g;
      }
    case Drop(u, _) =>
      if u == t { PopIsFront(g); } else { assert Apply(s, step).guards(t) == g; }
  }

  lemma {:induction false} RunStacked(steps: seq<Step>, t: Thread, l: Lock)
    requires Runs(steps) && Lifo(steps)
    ensures Stacked(After(steps).guards(t), l)
  {
    if steps != [] {
      RunStacked(steps[..|steps| - 1], t, l);
      RunHeld(steps[..|steps| - 1], t, l);
      StepStacked(After(steps[..|steps| - 1]), steps[|steps| - 1], t, l);
    }
  }

  lemma PopInOrder(s: State, step: Step)
    requires Enabled(s, step) && step.Drop? && step.index == |s.guards(step.thread)| - 1
    requires var l := s.guards(step.thread)[step.index].lock;
      HeldIs(s, step.thread, l) && Stacked(s.guards(step.thread), l)
    ensures DropsInOrder(s, step)
  {
    var g := s.guards(step.thread);
    PopIsFront(g);
    StackedCovers(g[..|g| - 1], g[|g| - 1].lock);
  }

  /** Guards dropped last in, first out keep the held set right, recursive reads included. */
  lemma {:induction false} LifoIsOrderly(steps: seq<Step>)
    requires Runs(steps) && Lifo(steps)
    ensures Orderly(steps) && HeldIsLive(After(steps))
  {
    if steps != [] {
      var s, step := After(steps[..|steps| - 1]), steps[|steps| - 1];
      LifoIsOrderly(steps[..|steps| - 1]);
      if step.Drop? {
        var l := s.guards(step.thread)[step.index].lock;
        RunHeld(steps[..|steps| - 1], step.thread, l);
        RunStacked(steps[..|steps| - 1], step.thread, l);
        PopInOrder(s, step);
      }
    }
    HeldIsLiveIff(steps);
  }

  // ---------- Deadlocks ----------

  /** A reader waits behind a thread that is queued to write, as the standard read-write lock allows. */
  predicate Queued(s: State, t: Thread, l: Lock, u: Thread) {
    && s.want(t).Want? && s.want(t).lock == l && s.want(t).read
    && s.want(u).Want? && s.want(u).lock == l && !s.want(u).read
  }

  /** Thread `t` does not get `l` because of `u`; `queues` is whether waiting writers hold up new readers. */
  predicate StuckOn(queues: bool, s: State, t: Thread, l: Lock, u: Thread) {
    BlockedBy(s, t, l, u) || (queues && Queued(s, t, l, u))
  }

  /** A thread that already reads `l` asks to read it again, behind `u`. */
  predicate ReadsAgainBehind(s: State, t: Thread, l: Lock, u: Thread) { Queued(s, t, l, u) && s.want(t).recursive }

  /**
   If `t` is blocked on `l` by another thread's guard, then any lock on which `t` has an owning
   guard is another one, recorded before `l`.
   */
  lemma BlockedIsRecorded(steps: seq<Step>, t: Thread, l: Lock, v: Thread, m: Lock)
    requires Runs(steps) && t != v
    requires BlockedBy(After(steps), t, l, v) && Owning(After(steps), t, m) > 0
    ensures m != l && m in After(steps).before(l)
  {
    RunHeld(steps, t, l);
    RunHeld(steps, t, m);
    RunExcludes(steps, v, t, l);
    RunRecorded(steps, t, m);
  }

  /** So too for a reader queued behind a writer, unless it reads the lock again. */
  lemma QueuedIsRecorded(steps: seq<Step>, t: Thread, l: Lock, v: Thread, m: Lock)
    requires Runs(steps) && Owning(After(steps), t, m) > 0
    requires Queued(After(steps), t, l, v) && !ReadsAgainBehind(After(steps), t, l, v)
    ensures m != l && m in After(steps).before(l)
  {
    RunHeld(steps, t, l);
    RunHeld(steps, t, m);
    RunRecorded(steps, t, m);
  }

  lemma StuckIsRecorded(queues: bool, steps: seq<Step>, t: Thread, l: Lock, v: Thread, m: Lock)
    requires Runs(steps) && t != v
    requires StuckOn(queues, After(steps), t, l, v) && Owning(After(steps), t, m) > 0
    requires !(queues && ReadsAgainBehind(After(steps), t, l, v))
    ensures m != l && m in After(steps).before(l)
  {
    if BlockedBy(After(steps), t, l, v) {
      BlockedIsRecorded(steps, t, l, v, m);
    } else {
      QueuedIsRecorded(steps, t, l, v, m);
    }
  }

  function Next(i: nat, n: nat): (j: nat)
    requires i < n
    ensures j < n
  {
    if i + 1 == n then 0 else i + 1
  }

  predicate Link(queues: bool, s: State, ts: seq<Thread>, ls: seq<Lock>, i: nat)
    requires |ts| == |ls| && i < |ts|
  {
    var u := ts[Next(i, |ts|)];
    ts[i] != u && StuckOn(queues, s, ts[i], ls[i], u)
  }

  /** A ring of threads, each stuck because of the next. */
  ghost predicate WaitRing(queues: bool, s: State, ts: seq<Thread>, ls: seq<Lock>) {
    |ts| == |ls| && |ts| > 0 && forall i :: 0 <= i < |ts| ==> Link(queues, s, ts, ls, i)
  }

  /**
   Round every ring of stuck threads, of any length, the recorded order runs all the way round
   too, staying on the same lock where a reader waits behind a queued writer; unless a thread of
   the ring reads a lock again behind a queued writer, or has lost the guard that holds another up.
   */
  lemma WaitRingIsOrderRing(queues: bool, steps: seq<Step>, ts: seq<Thread>, ls: seq<Lock>, i: nat)
    requires Runs(steps) && WaitRing(queues, After(steps), ts, ls) && i < |ts|
    requires var j := Next(i, |ts|);
      && Covered(After(steps), ts[j], ls[i])
      && !(queues && ReadsAgainBehind(After(steps), ts[j], ls[j], ts[Next(j, |ts|)]))
    ensures var j := Next(i, |ts|);
      ls[i] in After(steps).before(ls[j]) || (ls[i] == ls[j] && Queued(After(steps), ts[i], ls[i], ts[j]))
  {
    var j := Next(i, |ts|);
    assert Link(queues, After(steps), ts, ls, i) && Link(queues, After(steps), ts, ls, j);
    if BlockedBy(After(steps), ts[i], ls[i], ts[j]) {
      StuckIsRecorded(queues, steps, ts[j], ls[j], ts[Next(j, |ts|)], ls[i]);
    }
  }

  /** A thread that reads a lock again behind a queued writer, and that writer, hold each other up. */
  lemma ReadingAgainIsMutual(steps: seq<Step>, t: Thread, l: Lock, u: Thread)
    requires Runs(steps) && ReadsAgainBehind(After(steps), t, l, u)
    ensures BlockedBy(After(steps), u, l, t)
  {
    RunHeld(steps, t, l);
  }

  ghost predicate Mutual(queues: bool, s: State, t: Thread, u: Thread, l: Lock, m: Lock) {
    StuckOn(queues, s, t, l, u) && StuckOn(queues, s, u, m, t)
  }

  /** One of two threads reads a lock again while the other is queued to write it. */
  predicate OneReadsAgain(s: State, t: Thread, u: Thread, l: Lock) {
    ReadsAgainBehind(s, t, l, u) || ReadsAgainBehind(s, u, l, t)
  }

  /**
   In every panic-free run, on any mix of mutexes, read and write locks: where waiting writers hold
   up readers, two threads of which one reads a lock again behind the other hold each other up;
   and there is no other way, unless one of them has lost the guard that holds the other up.
   */
  lemma MutualBlockIff(queues: bool, steps: seq<Step>, t: Thread, u: Thread, l: Lock, m: Lock)
    requires Runs(steps) && t != u
    ensures var s := After(steps);
      && (queues && l == m && OneReadsAgain(s, t, u, l) ==> Mutual(queues, s, t, u, l, m))
      && (Mutual(queues, s, t, u, l, m) ==>
          (queues && l == m && OneReadsAgain(s, t, u, l)) || !Covered(s, t, m) || !Covered(s, u, l))
  {
    var s := After(steps);
    if ReadsAgainBehind(s, t, l, u) { ReadingAgainIsMutual(steps, t, l, u); }
    if ReadsAgainBehind(s, u, l, t) { ReadingAgainIsMutual(steps, u, l, t); }
    if Mutual(queues, s, t, u, l, m) && Covered(s, t, m) && Covered(s, u, l) {
      MutualNeedsReadingAgain(queues, steps, t, u, l, m);
    }
  }

  lemma MutualNeedsReadingAgain(queues: bool, steps: seq<Step>, t: Thread, u: Thread, l: Lock, m: Lock)
    requires Runs(steps) && t != u && Mutual(queues, After(steps), t, u, l, m)
    requires Covered(After(steps), t, m) && Covered(After(steps), u, l)
    ensures queues && l == m && OneReadsAgain(After(steps), t, u, l)
  {
    var s := After(steps);
    if BlockedBy(s, t, l, u) && BlockedBy(s, u, m, t) {
      BlockedIsRecorded(steps, t, l, u, m);
      BlockedIsRecorded(steps, u, m, t, l);
      RunOrdered(steps, l, m);
      assert false;
    } else if Queued(s, t, l, u) {
      assert l == m && BlockedBy(s, u, m, t);
      if !s.want(t).recursive { QueuedIsRecorded(steps, t, l, u, l); }
    } else {
      assert l == m && BlockedBy(s, t, l, u);
      if !s.want(u).recursive { QueuedIsRecorded(steps, u, l, t, l); }
    }
  }

  /** As long as first read guards are dropped last, reading again behind a writer is the only way. */
  lemma OrderlyMutualBlockIff(queues: bool, steps: seq<Step>, t: Thread, u: Thread, l: Lock, m: Lock)
    requires Runs(steps) && Orderly(steps) && t != u
    ensures Mutual(queues, After(steps), t, u, l, m) <==> queues && l == m && OneReadsAgain(After(steps), t, u, l)
  {
    MutualBlockIff(queues, steps, t, u, l, m);
    RunCovered(steps, t, m);
    RunCovered(steps, u, l);
  }

  /** Two threads that both want exclusive access hold each other up only through a lost guard. */
  lemma NoMutualBlock(queues: bool, steps: seq<Step>, t: Thread, u: Thread, l: Lock, m: Lock)
    requires Runs(steps) && t != u
    requires After(steps).want(t).Want? ==> !After(steps).want(t).read
    requires After(steps).want(u).Want? ==> !After(steps).want(u).read
    ensures Mutual(queues, After(steps), t, u, l, m) ==>
      !Covered(After(steps), t, m) || !Covered(After(steps), u, l)
  {
    MutualBlockIff(queues, steps, t, u, l, m);
  }

  /** A lock that nobody asks to read, such as a mutex. */
  ghost predicate NeverRead(steps: seq<Step>, l: Lock) {
    forall i :: 0 <= i < |steps| && steps[i].Request? && steps[i].lock == l ==> !steps[i].read
  }

  predicate Unread(s: State, t: Thread, l: Lock) {
    Again(s, t, l) == 0 && (s.want(t).Want? && s.want(t).lock == l ==> !s.want(t).read)
  }

  lemma StepUnread(s: State, step: Step, t: Thread, l: Lock)
    requires Enabled(s, step) && Unread(s, t, l) && (step.Request? && step.lock == l ==> !step.read)
    ensures Unread(Apply(s, step), t, l)
  {
    if step.Drop? && step.thread == t { GuardsAfterDrop(s.guards(t), step.index); }
  }

  lemma {:induction false} RunUnread(steps: seq<Step>, t: Thread, l: Lock)
    requires Runs(steps) && NeverRead(steps, l)
    ensures Unread(After(steps), t, l)
  {
    if steps != [] {
      RunUnread(steps[..|steps| - 1], t, l);
      StepUnread(After(steps[..|steps| - 1]), steps[|steps| - 1], t, l);
    }
  }

  /**
   In every panic-free run no two threads hold each other up on mutexes, or other locks nobody
   reads, whatever else they read and in whatever order they drop their guards.
   */
  lemma MutexesNeverBlockMutually(queues: bool, steps: seq<Step>, t: Thread, u: Thread, l: Lock, m: Lock)
    requires Runs(steps) && t != u && NeverRead(steps, l) && NeverRead(steps, m)
    ensures !Mutual(queues, After(steps), t, u, l, m)
  {
    RunUnread(steps, t, l);
    RunUnread(steps, t, m);
    RunUnread(steps, u, l);
    MutualBlockIff(queues, steps, t, u, l, m);
  }

  /**
   A thread holds itself up exactly by reading a lock on which it has an exclusive guard, or by
   asking for exclusive access to one on which it has a read guard that the held set has lost.
   */
  lemma SelfBlockIff(queues: bool, steps: seq<Step>, t: Thread, l: Lock)
    requires Runs(steps)
    ensures StuckOn(queues, After(steps), t, l, t) <==>
      var s := After(steps); var w := s.want(t);
      w.Want? && w.lock == l && if w.read then Writing(s, t, l) > 0 else Again(s, t, l) > 0
  {
    RunHeld(steps, t, l);
  }

  lemma OneMore(steps: seq<Step>, step: Step)
    requires Runs(steps) && Enabled(After(steps), step)
    ensures Runs(steps + [step]) && After(steps + [step]) == Apply(After(steps), step)
    ensures Orderly(steps) && !step.Drop? ==> Orderly(steps + [step])
  {
    assert (steps + [step])[..|steps|] == steps;
  }

  /** The checker takes such a read for a recursive one and lets it wait for ever. */
  lemma ReadUnderOwnWriteIsNotCaught(t: Thread, l: Lock) returns (steps: seq<Step>)
    ensures Runs(steps) && Orderly(steps) && BlockedBy(After(steps), t, l, t)
  {
    steps := [];
    OneMore(steps, Request(t, l, false));
    steps := steps + [Request(t, l, false)];
    OneMore(steps, Acquire(t));
    steps := steps + [Acquire(t)];
    assert Guard(l, Exclusive) in After(steps).guards(t);
    OneMore(steps, Request(t, l, true));
    steps := steps + [Request(t, l, true)];
  }

  /** The checker allows reading again behind a writer: where writers queue, a deadlock of two threads with no panic. */
  lemma ReadingAgainIsNotCaught(t: Thread, u: Thread, l: Lock) returns (steps: seq<Step>)
    requires t != u
    ensures Runs(steps) && Orderly(steps) && ReadsAgainBehind(After(steps), t, l, u)
    ensures StuckOn(true, After(steps), t, l, u) && StuckOn(true, After(steps), u, l, t)
  {
    steps := [];
    OneMore(steps, Request(t, l, true));
    steps := steps + [Request(t, l, true)];
    OneMore(steps, Acquire(t));
    steps := steps + [Acquire(t)];
    OneMore(steps, Request(u, l, false));
    steps := steps + [Request(u, l, false)];
    OneMore(steps, Request(t, l, true));
    steps := steps + [Request(t, l, true)];
    ReadingAgainIsMutual(steps, t, l, u);
  }

  lemma ReadTwice(t: Thread, l: Lock) returns (steps: seq<Step>)
    ensures Runs(steps) && After(steps).held(t) == {l}
    ensures After(steps).guards(t) == [Guard(l, FirstRead), Guard(l, ReadAgain)]
    ensures Untouched(After(steps), t)
  {
    steps := [];
    OneMore(steps, Request(t, l, true));
    steps := steps + [Request(t, l, true)];
    OneMore(steps, Acquire(t));
    steps := steps + [Acquire(t)];
    assert After(steps).held(t) == {l};
    OneMore(steps, Request(t, l, true));
    steps := steps + [Request(t, l, true)];
    OneMore(steps, Acquire(t));
    steps := steps + [Acquire(t)];
  }

  /** Nobody waits, nothing is recorded, and only `t` holds anything. */
  ghost predicate Untouched(s: State, t: Thread) {
    && (forall x :: s.want(x) == Nothing) && (forall l :: s.before(l) == {})
    && (forall x :: x != t ==> s.held(x) == {} && s.guards(x) == [])
  }

  /** Dropping the first of two read guards loses a lock that is still held. */
  lemma DisorderlyDrop(t: Thread, l: Lock) returns (steps: seq<Step>)
    ensures Runs(steps) && !Orderly(steps) && l !in After(steps).held(t) && Live(After(steps), t, l) == 1
    ensures After(steps).held(t) == {} && After(steps).guards(t) == [Guard(l, ReadAgain)] && Untouched(After(steps), t)
  {
    var front := ReadTwice(t, l);
    OneMore(front, Drop(t, 0));
    steps := front + [Drop(t, 0)];
    assert steps[..|steps| - 1] == front;
    assert After(steps).guards(t) == [Guard(l, ReadAgain)];
    assert Again(After(front), t, l) == 1;
  }

  /** After that the same thread can ask for exclusive access, and waits for its own guard. */
  lemma LostGuardBlocksItself(t: Thread, l: Lock) returns (steps: seq<Step>)
    ensures Runs(steps) && StuckOn(false, After(steps), t, l, t) && !After(steps).want(t).read
  {
    steps := DisorderlyDrop(t, l);
    OneMore(steps, Request(t, l, false));
    steps := steps + [Request(t, l, false)];
    assert Live(After(steps), t, l) == 1;
  }

  lemma LoseOneTakeOther(t: Thread, u: Thread, a: Lock, b: Lock) returns (steps: seq<Step>)
    requires t != u && a != b
    ensures Runs(steps) && After(steps).want(t) == Nothing && After(steps).want(u) == Nothing
    ensures After(steps).held(t) == {} && After(steps).guards(t) == [Guard(a, ReadAgain)]
    ensures After(steps).held(u) == {b} && After(steps).guards(u) == [Guard(b, Exclusive)]
      && After(steps).before(b) == {}
  {
    steps := DisorderlyDrop(t, a);
    OneMore(steps, Request(u, b, false));
    steps := steps + [Request(u, b, false)];
    var s := After(steps);
    forall x ensures !BlockedBy(s, u, b, x) { assert x == t || s.guards(x) == []; }
    OneMore(steps, Acquire(u));
    steps := steps + [Acquire(u)];
  }

  /** Or two threads that both want exclusive access wait for each other. */
  lemma LostGuardBlocksTwo(t: Thread, u: Thread, a: Lock, b: Lock) returns (steps: seq<Step>)
    requires t != u && a != b
    ensures Runs(steps) && Mutual(false, After(steps), t, u, b, a)
    ensures !After(steps).want(t).read && !After(steps).want(u).read
  {
    steps := LoseOneTakeOther(t, u, a, b);
    OneMore(steps, Request(u, a, false));
    steps := steps + [Request(u, a, false)];
    OneMore(steps, Request(t, b, false));
    steps := steps + [Request(t, b, false)];
    assert Live(After(steps), u, b) == 1 && Live(After(steps), t, a) == 1;
  }

  // ---------- A consistent order is never refused ----------

  /** The thread asks for a lock above all it holds, or reads again what it holds. */
  ghost predicate Respects(rank: Lock -> int, s: State, step: Step) {
    step.Request? ==>
      || (step.read && step.lock in s.held(step.thread))
      || forall x :: x in s.held(step.thread) ==> rank(x) < rank(step.lock)
  }

  ghost predicate RespectsAll(rank: Lock -> int, steps: seq<Step>)
    requires Runs(steps)
  {
    steps == [] ||
    (RespectsAll(rank, steps[..|steps| - 1]) && Respects(rank, After(steps[..|steps| - 1]), steps[|steps| - 1]))
  }

  lemma {:induction false} RecordedIsRanked(rank: Lock -> int, steps: seq<Step>, l: Lock, x: Lock)
    requires Runs(steps) && RespectsAll(rank, steps) && x in After(steps).before(l)
    ensures rank(x) < rank(l)
  {
    var s, step := After(steps[..|steps| - 1]), steps[|steps| - 1];
    if x in s.before(l) { RecordedIsRanked(rank, steps[..|steps| - 1], l, x); }
  }

  /** Threads that all take their locks in some fixed order never meet a panic. */
  lemma ConsistentOrderNeverPanics(rank: Lock -> int, steps: seq<Step>, t: Thread, l: Lock, read: bool)
    requires Runs(steps) && RespectsAll(rank, steps) && After(steps).want(t) == Nothing
    requires Respects(rank, After(steps), Request(t, l, read))
    ensures Enabled(After(steps), Request(t, l, read))
  {
    var s := After(steps);
    var deps := map x | x in s.held(t) :: s.before(x);
    forall x | x in s.held(t) && l in deps[x] ensures l in s.held(t) {
      RecordedIsRanked(rank, steps, x, l);
    }
  }

  /**
   Of `n` threads, the first `taken` have locked the lock of their own number, the first `asked`
   also wait for the next one.
   */
  ghost predicate Ringing(s: State, n: nat, taken: nat, asked: nat) {
    && (forall t :: s.guards(t) == if 0 <= t < taken then [Guard(t, Exclusive)] else [])
    && (forall t :: s.want(t) == if 0 <= t < asked && t < n then Want(Next(t, n), false, false) else Nothing)
    && (forall t :: 0 <= t < n && asked <= t ==> s.held(t) == if t < taken then {t} else {})
    && (forall l :: 0 <= l < n ==>
       s.before(l) == if 0 < l <= asked then {l - 1} else if l == 0 && asked == n then {n - 1} else {})
  }

  lemma {:induction false} TakeAll(n: nat, k: nat) returns (steps: seq<Step>)
    requires k <= n && n > 0
    ensures Runs(steps) && Orderly(steps) && Ringing(After(steps), n, k, 0)
  {
    if k == 0 {
      steps := [];
    } else {
      steps := TakeAll(n, k - 1);
      TakeNext(After(steps), n, k - 1);
      OneMore(steps, Request(k - 1, k - 1, false));
      steps := steps + [Request(k - 1, k - 1, false)];
      OneMore(steps, Acquire(k - 1));
      steps := steps + [Acquire(k - 1)];
    }
  }

  lemma TakeNext(s: State, n: nat, k: nat)
    requires k < n && Ringing(s, n, k, 0)
    ensures Enabled(s, Request(k, k, false)) && Enabled(Apply(s, Request(k, k, false)), Acquire(k))
    ensures Ringing(Apply(Apply(s, Request(k, k, false)), Acquire(k)), n, k + 1, 0)
  {
    var s1 := Apply(s, Request(k, k, false));
    forall u ensures !BlockedBy(s1, k, k, u) {
      assert s1.guards(u) == s.guards(u);
    }
  }

  lemma AskNext(s: State, n: nat, k: nat)
    requires 3 <= n && k < n && Ringing(s, n, n, k)
    ensures Enabled(s, Request(k, Next(k, n), false))
    ensures Ringing(Apply(s, Request(k, Next(k, n), false)), n, n, k + 1)
  {
  }

  lemma {:induction false} AskAll(n: nat, k: nat) returns (steps: seq<Step>)
    requires 3 <= n && k <= n
    ensures Runs(steps) && Orderly(steps) && Ringing(After(steps), n, n, k)
  {
    if k == 0 {
      steps := TakeAll(n, n);
    } else {
      steps := AskAll(n, k - 1);
      AskNext(After(steps), n, k - 1);
      OneMore(steps, Request(k - 1, Next(k - 1, n), false));
      steps := steps + [Request(k - 1, Next(k - 1, n), false)];
    }
  }

  /** The checker compares direct predecessors only: three or more threads can deadlock with no panic. */
  lemma LongerRingsAreNotCaught(n: nat) returns (steps: seq<Step>, ts: seq<Thread>, ls: seq<Lock>)
    requires 3 <= n
    ensures Runs(steps) && Orderly(steps) && |ts| == n && WaitRing(false, After(steps), ts, ls)
  {
    steps := AskAll(n, n);
    ts := seq(n, i => i);
    ls := seq(n, i requires 0 <= i < n => Next(i, n));
    forall i | 0 <= i < n ensures Link(false, After(steps), ts, ls, i) {
      assert multiset([Guard(Next(i, n), Exclusive)])[Guard(Next(i, n), Exclusive)] > 0;
    }
  }
}
