/**
 No lost wake-up. A task that has seen its predicate block, and is not runnable, sleeps rightly: either
 the predicate blocks now, or another task has already moved a character and has yet to reach its
 wake_up_interruptible. The two loads of the predicate may see two different instants, so the invariant
 also says what a half-evaluated predicate may still conclude.
 */
module PollWakeup {
  import opened Ring
  import opened PollState
  import opened PollInvariant

  /** t moved a character the waiters of queue d are waiting for, and has not yet woken them. */
  predicate Owes(k: Task, d: Dir) {
    TransferLoc(k.loc) && k.call.dir == Other(d) && k.call.i > 0
  }

  ghost predicate SomeOwes(s: State, d: Dir) {
    exists u :: u in s.tasks && Owes(s.tasks[u], d)
  }

  /** How far a task has got in deciding to sleep on queue d. */
  datatype Watching = Off | Partial(seen: Seen) | Decided

  function Watch(k: Task, d: Dir): Watching {
    match k.loc
    case Waiting(w) =>
      if k.call.dir != d then Off
      else if w.Schedule? then Decided
      else if w.Recheck? && !w.seen.Nothing? then Partial(w.seen)
      else Off
    case Polling(p) =>
      if d == In then
        if p.PollIn? && !p.seen.Nothing? then Partial(p.seen)
        else if (p.PollOut? || p.PollUnlock? || p.PollWait?) && !k.poll.gotIn then Decided
        else Off
      else
        if p.PollOut? && !p.seen.Nothing? then Partial(p.seen)
        else if (p.PollUnlock? || p.PollWait?) && !k.poll.gotOut then Decided
        else Off
    case _ => Off
  }

  /** A half-evaluated predicate can only come out "blocked" if the predicate blocks now; and the index
      the other side moves, once loaded, is still current. */
  predicate PartialOk(d: Dir, seen: Seen, r: Store) {
    && (Judge(d, seen, r) ==> Blocked(d, r.ir, r.iw))
    && (d == In && seen.SawIw? ==> seen.v == r.iw)
    && (d == Out && seen.SawIr? ==> seen.v == r.ir)
  }

  predicate WatchOk(k: Task, d: Dir, r: Store) {
    k.awake ||
    match Watch(k, d)
    case Off => true
    case Partial(seen) => PartialOk(d, seen, r)
    case Decided => Blocked(d, r.ir, r.iw)
  }

  ghost predicate WakeInv(s: State) {
    forall t, d :: t in s.tasks && !SomeOwes(s, d) ==> WatchOk(s.tasks[t], d, s.sh.ring)
  }

  // ---------------------------------------------------------------------------------------------
  // One step
  // ---------------------------------------------------------------------------------------------

  lemma SelfWatch(n: int, t: Tid, k: Task, sh: Shared, c: Choice, d: Dir)
    requires WatchOk(k, d, sh.ring)
    ensures var o := TaskStep(n, t, k, sh, c); o.Went? ==> WatchOk(o.k, d, o.sh.ring)
  {
    if !c.Signal? {
      match k.loc
      case User => UserWatch(t, k, sh, c, d);
      case Waiting(_) => WaitWatch(n, t, k, sh, c, d);
      case Polling(_) => PollWatch(t, k, sh, c, d);
      case _ =>
    }
  }

  lemma UserWatch(t: Tid, k: Task, sh: Shared, c: Choice, d: Dir)
    requires k.loc.User?
    ensures var o := UserStep(t, k, sh, c); o.Went? ==> Watch(o.k, d).Off?
  {
  }

  lemma WaitWatch(n: int, t: Tid, k: Task, sh: Shared, c: Choice, d: Dir)
    requires WatchOk(k, d, sh.ring) && k.loc.Waiting?
    ensures var o := WaitStep(n, t, k, k.loc.w, sh, c); o.Went? ==> WatchOk(o.k, d, o.sh.ring)
  {
  }

  lemma PollWatch(t: Tid, k: Task, sh: Shared, c: Choice, d: Dir)
    requires WatchOk(k, d, sh.ring) && k.loc.Polling?
    ensures var o := PollStep(t, k, k.loc.p, sh, c); o.Went? ==> WatchOk(o.k, d, o.sh.ring)
  {
  }

  /** The index moves a transfer can make. A read that moves ir owes the writers, a write that moves iw
      owes the readers; either way a waiter of the mover's own kind keeps seeing its predicate block. */
  lemma TransferKeepsWatch(n: int, k: Task, sh: Shared, d: Dir, ku: Task)
    requires SharedOk(n, sh) && (k.loc.Reading? || k.loc.Writing?)
    requires TransferOk(n, k.loc, k.call, sh.ring)
    requires k.loc.Reading? ==> k.call.dir == In
    requires k.loc.Writing? ==> k.call.dir == Out
    requires WatchOk(ku, d, sh.ring)
    ensures var x := if k.loc.Reading? then ReadStep(n, k.loc.r, k.call, sh.ring)
                     else WriteStep(n, k.loc.v, k.call, sh.ring);
            x.To? ==> WatchOk(ku, d, x.ring) || (x.call.i > 0 && x.call.dir == Other(d) && TransferLoc(x.loc))
  {
  }

  /** Another task's step keeps a waiter's condition, unless it leaves an obligation behind. */
  lemma OtherWatch(n: int, t: Tid, k: Task, sh: Shared, c: Choice, d: Dir, ku: Task)
    requires SharedOk(n, sh) && TaskOk(n, t, k, sh)
    requires WatchOk(ku, d, sh.ring)
    requires Resetting(k.loc) ==> Watch(ku, d).Off? && sh.sema == Free
    ensures var o := TaskStep(n, t, k, sh, c);
            o.Went? ==> Owes(o.k, d) || WatchOk(ku, d, o.sh.ring)
  {
    StepRing(n, t, k, sh, c);
    if !c.Signal? && (k.loc.Reading? || k.loc.Writing?) {
      TransferKeepsWatch(n, k, sh, d, ku);
    }
  }

  lemma MoverKeepsOwing(n: int, k: Task, r: Store, d: Dir)
    requires (k.loc.Reading? || k.loc.Writing?) && Owes(k, d)
    ensures var x := if k.loc.Reading? then ReadStep(n, k.loc.r, k.call, r) else WriteStep(n, k.loc.v, k.call, r);
            x.To? ==> x.call.i > 0 && x.call.dir == Other(d) && TransferLoc(x.loc)
  {
  }

  /** The only way an obligation ends is the wake-up it stands for, and then the task is back in user mode. */
  lemma ObligationEndsInWakeup(n: int, t: Tid, k: Task, sh: Shared, c: Choice, d: Dir)
    requires Owes(k, d)
    ensures var o := TaskStep(n, t, k, sh, c);
            o.Went? && !Owes(o.k, d) ==> o.wake == Wake(d) && o.k.loc == User && k.loc == WakeOther
  {
    if !c.Signal? && (k.loc.Reading? || k.loc.Writing?) {
      MoverKeepsOwing(n, k, sh.ring, d);
    }
  }

  lemma WakeStep(n: int, s: State, t: Tid, c: Choice, s': State)
    requires Inv(n, s) && WakeInv(s) && Step(n, s, t, c, s')
    ensures WakeInv(s')
  {
    var k, o := s.tasks[t], TaskStep(n, t, s.tasks[t], s.sh, c);
    assert TaskOk(n, t, k, s.sh);
    forall u, d | u in s'.tasks && !SomeOwes(s', d)
      ensures WatchOk(s'.tasks[u], d, s'.sh.ring)
    {
      if SomeOwes(s, d) {
        WakeReaches(n, s, t, c, s', u, d);
      } else {
        assert WatchOk(s.tasks[u], d, s.sh.ring);
        assert !Owes(s'.tasks[t], d);
        if u == t {
          SelfWatch(n, t, k, s.sh, c, d);
        } else {
          ResetHasNoWatcher(n, s, t, u, d);
          OtherWatch(n, t, k, s.sh, c, d, s.tasks[u]);
        }
      }
    }
  }

  /** When the last obligation towards queue d ends, every waiter on d is made runnable. */
  lemma WakeReaches(n: int, s: State, t: Tid, c: Choice, s': State, u: Tid, d: Dir)
    requires Inv(n, s) && Step(n, s, t, c, s') && u in s'.tasks
    requires SomeOwes(s, d) && !SomeOwes(s', d)
    ensures WatchOk(s'.tasks[u], d, s'.sh.ring)
  {
    var v :| v in s.tasks && Owes(s.tasks[v], d);
    assert TaskOk(n, t, s.tasks[t], s.sh) && TaskOk(n, u, s.tasks[u], s.sh);
    assert !Owes(s'.tasks[v], d);
    assert v == t;
    ObligationEndsInWakeup(n, t, s.tasks[t], s.sh, c, d);
    if u != t {
      WatcherIsQueued(s.tasks[u], d);
      assert u in Queue(s.sh, d) <==> OnQueue(s.tasks[u], d);
    }
  }

  lemma WatcherIsQueued(k: Task, d: Dir)
    ensures Watch(k, d).Off? || OnQueue(k, d)
  {
  }

  lemma ResetHasNoWatcher(n: int, s: State, t: Tid, u: Tid, d: Dir)
    requires Inv(n, s) && t in s.tasks && u in s.tasks
    ensures Resetting(s.tasks[t].loc) ==> Watch(s.tasks[u], d).Off? && s.sh.sema == Free
  {
    assert TaskOk(n, t, s.tasks[t], s.sh) && TaskOk(n, u, s.tasks[u], s.sh);
    if Resetting(s.tasks[t].loc) {
      ClosedIsQuiet(n, s);
      if UsesFile(s.tasks[u].loc) {
        CallHasFile(n, s, u);
      }
    }
  }

  lemma {:induction false} WakeRun(n: int, run: seq<State>)
    requires Run(n, run)
    ensures WakeInv(run[|run| - 1])
    decreases |run|
  {
    if |run| == 1 {
    } else {
      var front := run[..|run| - 1];
      assert Run(n, front);
      WakeRun(n, front);
      InvRun(n, front);
      assert Next(n, run[|run| - 2], run[|run| - 2 + 1]);
      var t, c :| Step(n, run[|run| - 2], t, c, run[|run| - 1]);
      WakeStep(n, run[|run| - 2], t, c, run[|run| - 1]);
    }
  }

  // ---------------------------------------------------------------------------------------------
  // Theorems
  // ---------------------------------------------------------------------------------------------

  /** t is about to sleep or asleep in schedule() on queue d: it has passed its re-check and nobody has
      made it runnable. */
  predicate Sleeping(k: Task, d: Dir) {
    k.loc == Waiting(Schedule) && k.call.dir == d && !k.awake
  }

  /** A poller about to sleep or asleep in the poll core, with event d asked for and not reported. */
  predicate PollSleeping(k: Task, d: Dir) {
    && k.loc == Polling(PollWait) && !k.awake
    && (if d == In then k.poll.wantIn && !k.poll.gotIn else k.poll.wantOut && !k.poll.gotOut)
  }

  /** No lost wake-up, for readers, writers and pollers, in every reachable state with any number of tasks. */
  lemma NoLostWakeup(n: int, s: State, t: Tid, d: Dir)
    requires Reachable(n, s) && t in s.tasks
    requires Sleeping(s.tasks[t], d) || PollSleeping(s.tasks[t], d)
    ensures Blocked(d, s.sh.ring.ir, s.sh.ring.iw) || SomeOwes(s, d)
  {
    var run :| Run(n, run) && run[|run| - 1] == s;
    WakeRun(n, run);
    if !SomeOwes(s, d) {
      assert WatchOk(s.tasks[t], d, s.sh.ring);
    }
  }

  /** Steps of its own that an obliged task still needs to reach its wake_up_interruptible. */
  function StepsToWake(k: Task): nat
    requires k.call.i <= k.call.len
  {
    var left := 4 * (k.call.len - k.call.i);
    match k.loc
    case Reading(ReadTest) => left + 2
    case Reading(ReadByte) => left + 1
    case Reading(ReadWrap) => left + 3
    case Writing(WriteLimit) => left + 3
    case Writing(WriteTest) => left + 2
    case Writing(WriteStore) => left + 1
    case Writing(WriteAdvance) => left
    case Writing(WriteWrap) => left + 3
    case Up => 1
    case _ => 0
  }

  /** An obliged task is never stuck: the rest of its way to the wake-up has no wait in it. */
  lemma ObligedTaskMoves(n: int, t: Tid, k: Task, sh: Shared, c: Choice, d: Dir)
    requires SharedOk(n, sh) && TaskOk(n, t, k, sh) && Owes(k, d) && !c.Signal?
    ensures TaskStep(n, t, k, sh, c).Went?
    ensures k.loc == WakeOther ==> TaskStep(n, t, k, sh, c).wake == Wake(d)
  {
    SectionRing(n, t, k, sh, c);
  }

  lemma MoverNears(n: int, k: Task, r: Store)
    requires k.loc.Reading? || k.loc.Writing?
    requires k.call.i <= k.call.len
    requires k.call.i == k.call.len ==> k.loc != Reading(ReadByte) && k.loc != Writing(WriteAdvance)
    ensures var x := if k.loc.Reading? then ReadStep(n, k.loc.r, k.call, r) else WriteStep(n, k.loc.v, k.call, r);
            x.To? ==>
              var k' := k.(loc := x.loc, call := x.call);
              k'.call.i <= k'.call.len && StepsToWake(k') < StepsToWake(k)
  {
  }

  /** Each of its own steps before the wake-up brings the wake-up nearer. */
  lemma ObligedTaskNears(n: int, t: Tid, k: Task, sh: Shared, c: Choice, d: Dir)
    requires SharedOk(n, sh) && TaskOk(n, t, k, sh) && Owes(k, d) && !c.Signal? && k.loc != WakeOther
    ensures var o := TaskStep(n, t, k, sh, c);
            o.Went? ==> Owes(o.k, d) && o.k.call.i <= o.k.call.len && StepsToWake(o.k) < StepsToWake(k)
  {
    if k.loc.Reading? || k.loc.Writing? {
      MoverKeepsOwing(n, k, sh.ring, d);
      MoverNears(n, k, sh.ring);
    }
  }

  /** Steps of other tasks, and signals, leave an obliged task's distance to its wake-up unchanged. */
  lemma ObligationIsStable(n: int, s: State, t: Tid, c: Choice, s': State, u: Tid, d: Dir)
    requires Step(n, s, t, c, s') && u in s.tasks && Owes(s.tasks[u], d)
    requires u != t || c.Signal?
    ensures u in s'.tasks && s'.tasks[u].loc == s.tasks[u].loc && s'.tasks[u].call == s.tasks[u].call
  {
  }

  /** With no wake-up outstanding, sleeping readers mean an empty ring and sleeping writers a full one, so
      readers and writers are never asleep together. */
  lemma NoMutualSleep(n: int, s: State, t: Tid, u: Tid)
    requires Reachable(n, s) && t in s.tasks && u in s.tasks
    requires !SomeOwes(s, In) && !SomeOwes(s, Out)
    ensures Sleeping(s.tasks[t], In) ==> Empty(s.sh.ring.ir, s.sh.ring.iw)
    ensures Sleeping(s.tasks[u], Out) ==> Full(s.sh.ring.ir, s.sh.ring.iw)
    ensures !(Sleeping(s.tasks[t], In) && Sleeping(s.tasks[u], Out))
  {
    if Sleeping(s.tasks[t], In) {
      NoLostWakeup(n, s, t, In);
    }
    if Sleeping(s.tasks[u], Out) {
      NoLostWakeup(n, s, u, Out);
    }
  }
}
