/**
 What the invariant gives over whole runs: every semaphore section is one atomic queue operation, the
 device is a FIFO between completed writes and completed reads, calls leave cleanly, a reset never
 happens under an open file, and an outstanding wake-up arrives.
 */
module PollTheorems {
  import opened Ring
  import opened PollState
  import opened PollInvariant
  import opened PollWakeup

  // ---------------------------------------------------------------------------------------------
  // Linearisation
  // ---------------------------------------------------------------------------------------------

  /** The queue a state stands for: a transfer in progress has not happened yet. */
  function Abs(n: int, s: State): string {
    if s.sh.ring.resetting then []
    else if s.sh.sema.Held? && s.sh.sema.t in s.tasks then s.tasks[s.sh.sema.t].call.snap
    else Stored(n, s.sh.ring)
  }

  /** Linearisation points: up(&sema) for transfers, the first store of ir=iw=0 for a reset. */
  function OpAt(k: Task, c: Choice): Op {
    if c.Signal? then Nop
    else if k.loc.Up? then
      if k.call.dir == In then Dequeue(k.call.len, k.call.output) else Enqueue(k.call.data, k.call.i)
    else if k.loc == Opening(OpenZeroIw) then Clear
    else Nop
  }

  /** up(&sema) publishes the whole transfer at once. */
  lemma UpIsAtomic(n: int, k: Task, r: Store)
    requires RingOk(n, r) && k.loc.Up? && TransferOk(n, k.loc, k.call, r)
    ensures Atomic(n, k.call.snap, OpAt(k, Go(true)), Stored(n, r))
  {
  }

  lemma HolderIsKnown(n: int, s: State, u: Tid)
    requires Inv(n, s) && u in s.tasks && SemaLoc(s.tasks[u].loc)
    ensures s.sh.sema == Held(u) && !s.sh.ring.resetting && Abs(n, s) == s.tasks[u].call.snap
  {
    assert TaskOk(n, u, s.tasks[u], s.sh);
    CallHasFile(n, s, u);
  }

  /** Who holds the semaphore after a step, and what it started from. */
  lemma HolderAfter(n: int, s: State, t: Tid, c: Choice, s': State)
    requires Inv(n, s) && Step(n, s, t, c, s')
    ensures s'.sh.sema.Held? && s'.sh.sema != s.sh.sema ==>
              s'.sh.sema == Held(t) && s.sh.sema == Free && s'.tasks[t].call.snap == Stored(n, s.sh.ring)
    ensures s'.sh.sema.Held? && s'.sh.sema == s.sh.sema ==>
              s'.tasks[s.sh.sema.t].call.snap == s.tasks[s.sh.sema.t].call.snap
    ensures s'.sh.sema == Free && s.sh.sema != Free ==> s.sh.sema == Held(t) && s.tasks[t].loc.Up?
  {
    assert TaskOk(n, t, s.tasks[t], s.sh);
    StepSync(n, t, s.tasks[t], s.sh, c);
    HolderSnap(n, t, s.tasks[t], s.sh, c);
  }

  lemma HolderSnap(n: int, t: Tid, k: Task, sh: Shared, c: Choice)
    ensures var o := TaskStep(n, t, k, sh, c);
            o.Went? ==>
              && (SemaLoc(k.loc) && !SemaLoc(o.k.loc) ==> k.loc.Up? && !c.Signal?)
              && (SemaLoc(k.loc) ==> o.k.call.snap == k.call.snap)
              && (!SemaLoc(k.loc) && SemaLoc(o.k.loc) ==> o.k.call.snap == Stored(n, sh.ring))
  {
    if !c.Signal? {
      match k.loc
      case Waiting(_) => WaitCall(n, t, k, sh, c);
      case Reading(_) => SectionSnap(n, t, k, sh, c);
      case Writing(_) => SectionSnap(n, t, k, sh, c);
      case Up => SectionSnap(n, t, k, sh, c);
      case WakeOther => SectionSnap(n, t, k, sh, c);
      case _ => OutsideSnap(n, t, k, sh, c);
    }
  }

  lemma OutsideSnap(n: int, t: Tid, k: Task, sh: Shared, c: Choice)
    requires (k.loc.User? || k.loc.Polling? || k.loc.Opening? || k.loc.Closing?) && !c.Signal?
    ensures var o := TaskStep(n, t, k, sh, c); o.Went? ==> !SemaLoc(o.k.loc)
  {
    if k.loc.Polling? {
      PollShape(t, k, sh, c);
    } else if k.loc.Opening? {
      OpenShape(t, k, sh, c);
    }
  }

  lemma SectionSnap(n: int, t: Tid, k: Task, sh: Shared, c: Choice)
    requires TransferLoc(k.loc) && !c.Signal?
    ensures var o := TaskStep(n, t, k, sh, c);
            o.Went? ==>
              && (SemaLoc(k.loc) && !SemaLoc(o.k.loc) ==> k.loc.Up?)
              && (SemaLoc(o.k.loc) ==> SemaLoc(k.loc))
              && o.k.call.snap == k.call.snap
  {
  }

  lemma SectionIsAtomic(n: int, s: State, t: Tid, c: Choice, s': State)
    requires Inv(n, s) && Step(n, s, t, c, s') && SemaLoc(s.tasks[t].loc)
    ensures Atomic(n, Abs(n, s), OpAt(s.tasks[t], c), Abs(n, s'))
  {
    var k := s.tasks[t];
    assert TaskOk(n, t, k, s.sh);
    HolderAfter(n, s, t, c, s');
    HolderIsKnown(n, s, t);
    if k.loc.Up? && !c.Signal? {
      UpIsAtomic(n, k, s.sh.ring);
    } else {
      InvStep(n, s, t, c, s');
      HolderSnap(n, t, k, s.sh, c);
      HolderIsKnown(n, s', t);
    }
  }

  lemma OutsideIsAtomic(n: int, s: State, t: Tid, c: Choice, s': State)
    requires Inv(n, s) && Step(n, s, t, c, s') && !SemaLoc(s.tasks[t].loc)
    ensures Atomic(n, Abs(n, s), OpAt(s.tasks[t], c), Abs(n, s'))
  {
    var k := s.tasks[t];
    assert TaskOk(n, t, k, s.sh);
    HolderAfter(n, s, t, c, s');
    QuietStep(n, t, k, s.sh, c);
    if Resetting(k.loc) {
      ClosedIsQuiet(n, s);
      StepSync(n, t, k, s.sh, c);
    }
  }

  /** Every step of every task is one atomic queue operation, or none. */
  lemma StepIsAtomic(n: int, s: State, t: Tid, c: Choice, s': State)
    requires Inv(n, s) && Step(n, s, t, c, s')
    ensures Atomic(n, Abs(n, s), OpAt(s.tasks[t], c), Abs(n, s'))
  {
    if SemaLoc(s.tasks[t].loc) {
      SectionIsAtomic(n, s, t, c, s');
    } else {
      OutsideIsAtomic(n, s, t, c, s');
    }
  }

  /** Outside the semaphore section the ring only changes at the two stores of a reset. */
  lemma QuietStep(n: int, t: Tid, k: Task, sh: Shared, c: Choice)
    requires !SemaLoc(k.loc)
    ensures var o := TaskStep(n, t, k, sh, c);
            o.Went? ==>
              if c.Signal? || !Resetting(k.loc) then o.sh.ring == sh.ring
              else if k.loc.o.OpenZeroIw? then o.sh.ring.resetting
              else !o.sh.ring.resetting && o.sh.ring.ir == 0 && o.sh.ring.iw == sh.ring.iw
  {
  }

  // ---------------------------------------------------------------------------------------------
  // Runs with their steps: FIFO between completed writes and completed reads
  // ---------------------------------------------------------------------------------------------

  datatype Label = Label(t: Tid, c: Choice)

  /** A run together with the task and choice of each step. */
  ghost predicate Trace(n: int, states: seq<State>, labels: seq<Label>) {
    && |states| == |labels| + 1
    && forall j :: 0 <= j < |labels| ==> Step(n, states[j], labels[j].t, labels[j].c, states[j + 1])
  }

  ghost function OpOf(states: seq<State>, labels: seq<Label>, j: int): Op
    requires 0 <= j < |labels| <= |states|
  {
    if labels[j].t in states[j].tasks then OpAt(states[j].tasks[labels[j].t], labels[j].c) else Nop
  }

  /** Everything completed writes have put in since the last reset, from the data and counts of the calls. */
  ghost function Puts(states: seq<State>, labels: seq<Label>): string
    requires |labels| <= |states|
    decreases |labels|
  {
    if labels == [] then []
    else
      var before := Puts(states, labels[..|labels| - 1]);
      match OpOf(states, labels, |labels| - 1)
      case Enqueue(offered, k) => before + offered[..Min(k, |offered|)]
      case Clear => []
      case _ => before
  }

  /** Everything completed reads have taken out since the last reset. */
  ghost function Takes(states: seq<State>, labels: seq<Label>): string
    requires |labels| <= |states|
    decreases |labels|
  {
    if labels == [] then []
    else
      var before := Takes(states, labels[..|labels| - 1]);
      match OpOf(states, labels, |labels| - 1)
      case Dequeue(_, taken) => before + taken
      case Clear => []
      case _ => before
  }

  lemma {:induction false} TraceInv(n: int, states: seq<State>, labels: seq<Label>)
    requires Trace(n, states, labels) && Inv(n, states[0])
    ensures Inv(n, states[|labels|])
    decreases |labels|
  {
    if labels == [] {
    } else {
      var m := |labels| - 1;
      TraceInv(n, states[..m + 1], labels[..m]);
      InvStep(n, states[m], labels[m].t, labels[m].c, states[m + 1]);
    }
  }

  lemma StepReaches(n: int, s: State, t: Tid, c: Choice, s': State)
    requires Reachable(n, s) && Step(n, s, t, c, s')
    ensures Reachable(n, s')
  {
    var run :| Run(n, run) && run[|run| - 1] == s;
    var longer := run + [s'];
    forall j | 0 <= j < |longer| - 1 ensures Next(n, longer[j], longer[j + 1]) {
      if j < |run| - 1 {
        assert Next(n, run[j], run[j + 1]);
      }
    }
    assert Run(n, longer);
  }

  lemma {:induction false} TraceReaches(n: int, states: seq<State>, labels: seq<Label>, j: nat)
    requires Trace(n, states, labels) && Reachable(n, states[0]) && j <= |labels|
    ensures Reachable(n, states[j])
  {
    if j == 0 {
    } else {
      TraceReaches(n, states, labels, j - 1);
      assert Step(n, states[j - 1], labels[j - 1].t, labels[j - 1].c, states[j - 1 + 1]);
      StepReaches(n, states[j - 1], labels[j - 1].t, labels[j - 1].c, states[j]);
    }
  }

  lemma PrefixSame(states: seq<State>, labels: seq<Label>, m: nat)
    requires m <= |labels| < |states|
    ensures Puts(states[..m + 1], labels[..m]) == Puts(states, labels[..m])
    ensures Takes(states[..m + 1], labels[..m]) == Takes(states, labels[..m])
    decreases m
  {
    if m == 0 {
    } else {
      PrefixSame(states, labels, m - 1);
      PrefixSame(states[..m + 1], labels[..m], m - 1);
      assert labels[..m][..m - 1] == labels[..m - 1];
      assert states[..m + 1][..m] == states[..m];
    }
  }

  lemma AtomicKeepsFifo(n: int, q: string, op: Op, q': string, puts: string, takes: string)
    requires Atomic(n, q, op, q') && puts == takes + q
    ensures op.Enqueue? ==> puts + op.offered[..Min(op.k, |op.offered|)] == takes + q'
    ensures op.Dequeue? ==> puts == (takes + op.taken) + q'
    ensures op.Nop? ==> puts == takes + q'
  {
  }

  /** Linearizable FIFO: along any interleaving, what completed writes put in is what completed reads
      took out, in order, followed by the queue. */
  lemma {:induction false} FifoOverTraces(n: int, states: seq<State>, labels: seq<Label>)
    requires Trace(n, states, labels) && Init(n, states[0])
    ensures Puts(states, labels) == Takes(states, labels) + Abs(n, states[|labels|])
    decreases |labels|
  {
    InvInit(n, states[0]);
    if labels == [] {
    } else {
      var m := |labels| - 1;
      var t, c := labels[m].t, labels[m].c;
      FifoOverTraces(n, states[..m + 1], labels[..m]);
      PrefixSame(states, labels, m);
      TraceInv(n, states[..m + 1], labels[..m]);
      StepIsAtomic(n, states[m], t, c, states[m + 1]);
      AtomicKeepsFifo(n, Abs(n, states[m]), OpOf(states, labels, m), Abs(n, states[m + 1]),
                      Puts(states, labels[..m]), Takes(states, labels[..m]));
    }
  }

  /** The same at every instant, transfers in progress included, by single characters. */
  lemma FifoAtEveryInstant(n: int, s: State)
    requires Reachable(n, s) && !s.sh.ring.resetting
    ensures s.sh.ring.accepted == s.sh.ring.returned + Stored(n, s.sh.ring)
    ensures |Stored(n, s.sh.ring)| <= n - 1
  {
    InvReachable(n, s);
    ContentsLength(n, s.sh.ring.buf, s.sh.ring.ir, s.sh.ring.iw);
  }

  /** rbuf is only touched at indices 0..n-1, in every reachable state and for every next step. */
  lemma NoWildAccess(n: int, s: State, t: Tid, c: Choice)
    requires Reachable(n, s) && t in s.tasks
    ensures !TaskStep(n, t, s.tasks[t], s.sh, c).Crash?
  {
    InvReachable(n, s);
    assert TaskOk(n, t, s.tasks[t], s.sh);
    if Resetting(s.tasks[t].loc) {
      ClosedIsQuiet(n, s);
    }
    StepRing(n, t, s.tasks[t], s.sh, c);
  }

  // ---------------------------------------------------------------------------------------------
  // Protection
  // ---------------------------------------------------------------------------------------------

  /** Why loads under a lock may be folded into their step: the ring is changed only by the semaphore
      holder, or by a reset with nobody inside the device; use_count and the open files only by the
      holder of `lock`. */
  lemma OnlyTheHolderMoves(n: int, s: State, t: Tid, c: Choice, s': State)
    requires Reachable(n, s) && Step(n, s, t, c, s')
    ensures s'.sh.ring != s.sh.ring ==>
              || s.sh.sema == Held(t)
              || (s.sh.files.open == {} && forall u :: u in s.tasks ==> !UsesFile(s.tasks[u].loc))
    ensures (s'.sh.files.useCount != s.sh.files.useCount || s'.sh.files.open != s.sh.files.open) ==>
              s.sh.lock == Held(t)
  {
    InvReachable(n, s);
    var k := s.tasks[t];
    assert TaskOk(n, t, k, s.sh);
    if Resetting(k.loc) {
      ClosedIsQuiet(n, s);
      forall u | u in s.tasks ensures !UsesFile(s.tasks[u].loc) {
        if UsesFile(s.tasks[u].loc) {
          CallHasFile(n, s, u);
        }
      }
    }
    StepRing(n, t, k, s.sh, c);
    StepFiles(n, t, k, s.sh, c);
    assert s'.sh.files.useCount == |s'.sh.files.open| && s.sh.files.useCount == |s.sh.files.open|;
  }

  /** Reset safety: use_count is the number of open files, and ir=iw=0 is stored only while it is 0 and no
      task is inside read, write or poll. */
  lemma ResetIsSafe(n: int, s: State, t: Tid)
    requires Reachable(n, s) && t in s.tasks
    ensures s.sh.files.useCount == |s.sh.files.open|
    ensures Resetting(s.tasks[t].loc) ==>
              && s.sh.files.useCount == 0
              && forall u :: u in s.tasks ==> !UsesFile(s.tasks[u].loc)
  {
    InvReachable(n, s);
    assert TaskOk(n, t, s.tasks[t], s.sh);
    forall u | u in s.tasks ensures Resetting(s.tasks[t].loc) ==> !UsesFile(s.tasks[u].loc) {
      if Resetting(s.tasks[t].loc) && UsesFile(s.tasks[u].loc) {
        CallHasFile(n, s, u);
      }
    }
  }

  // ---------------------------------------------------------------------------------------------
  // Exits
  // ---------------------------------------------------------------------------------------------

  /** However a call ended, its task is off both queues, runnable, and holds neither lock nor file. */
  lemma ExitsAreClean(n: int, s: State, t: Tid)
    requires Reachable(n, s) && t in s.tasks && s.tasks[t].loc == User
    ensures t !in s.sh.qin && t !in s.sh.qout && s.tasks[t].awake
    ensures s.sh.sema != Held(t) && s.sh.lock != Held(t)
    ensures t !in s.sh.files.users && t !in s.sh.files.closers
  {
    InvReachable(n, s);
    assert TaskOk(n, t, s.tasks[t], s.sh);
  }

  /** An error return comes straight from the waiting part: the call moved nothing, and neither the ring
      nor the histories change with it. */
  lemma ErrorsMoveNothing(n: int, s: State, t: Tid, c: Choice, s': State)
    requires Reachable(n, s) && Step(n, s, t, c, s')
    requires s.tasks[t].loc != User && s'.tasks[t].loc == User
    requires IsError(s'.tasks[t].ret)
    ensures s.tasks[t].loc.Waiting? && s'.sh.ring == s.sh.ring
    ensures s'.tasks[t].call.i == 0 && s'.tasks[t].call.output == []
  {
    InvReachable(n, s);
    assert TaskOk(n, t, s.tasks[t], s.sh);
    ErrorFromWaiting(n, t, s.tasks[t], s.sh, c);
    if s.tasks[t].loc.Waiting? {
      WaitShape(n, t, s.tasks[t], s.sh, c);
    }
  }

  predicate IsError(ret: Ret) {
    ret == Again || ret == Restart
  }

  lemma ErrorFromWaiting(n: int, t: Tid, k: Task, sh: Shared, c: Choice)
    requires k.loc != User
    ensures var o := TaskStep(n, t, k, sh, c);
            o.Went? && o.k.loc == User && IsError(o.k.ret) ==>
              k.loc.Waiting? && !c.Signal? && o.k.call == k.call
  {
    if k.loc.Waiting? {
      WaitError(n, t, k, sh, c);
    } else if k.loc.Polling? {
      assert !c.Signal? ==> var o := PollStep(t, k, k.loc.p, sh, c); o.Went? && o.k.loc == User ==> o.k.ret.Events?;
    }
  }

  lemma WaitError(n: int, t: Tid, k: Task, sh: Shared, c: Choice)
    requires k.loc.Waiting?
    ensures var o := WaitStep(n, t, k, k.loc.w, sh, c); o.Went? && o.k.loc == User ==> o.k.call == k.call
  {
  }

  lemma WaitReturns(n: int, t: Tid, k: Task, sh: Shared, c: Choice)
    requires k.loc.Waiting? && SyncOk(t, k, sh)
    ensures var o := WaitStep(n, t, k, k.loc.w, sh, c);
            o.Went? && o.k.loc == User ==>
              || (o.k.ret == Again && k.call.nonblock && k.loc.w.First?)
              || (o.k.ret == Restart && k.signal)
  {
  }

  /** Why a call ends in an error: -ERESTARTSYS only with a signal pending, -EAGAIN only at the first test of an
      O_NONBLOCK call. */
  lemma ErrorsHaveReasons(n: int, s: State, t: Tid, c: Choice, s': State)
    requires Reachable(n, s) && Step(n, s, t, c, s')
    requires s.tasks[t].loc != User && s'.tasks[t].loc == User
    ensures s'.tasks[t].ret == Restart ==> s.tasks[t].signal
    ensures s'.tasks[t].ret == Again ==> s.tasks[t].call.nonblock && s.tasks[t].loc.Waiting? && s.tasks[t].loc.w.First?
  {
    InvReachable(n, s);
    var k := s.tasks[t];
    assert TaskOk(n, t, k, s.sh);
    ErrorFromWaiting(n, t, k, s.sh, c);
    if k.loc.Waiting? && !c.Signal? {
      WaitReturns(n, t, k, s.sh, c);
    }
  }

  // ---------------------------------------------------------------------------------------------
  // Who is woken
  // ---------------------------------------------------------------------------------------------

  /** The step ends a call that has moved at least one character. */
  predicate Completes(k: Task, k': Task) {
    k.loc != User && k'.loc == User && k'.ret.Count? && k'.ret.k > 0
  }

  lemma QuietWakesNobody(n: int, t: Tid, k: Task, sh: Shared, c: Choice)
    requires c.Signal? || !TransferLoc(k.loc)
    ensures var o := TaskStep(n, t, k, sh, c);
            o.Went? ==> o.wake == NoWake && (k.loc != User && o.k.loc == User ==> !o.k.ret.Count?)
  {
    if !c.Signal? {
      match k.loc
      case User =>
      case Waiting(_) => WaitWakesNobody(n, t, k, sh, c);
      case Polling(_) => PollWakesNobody(t, k, sh, c);
      case _ =>
    }
  }

  lemma WaitWakesNobody(n: int, t: Tid, k: Task, sh: Shared, c: Choice)
    requires k.loc.Waiting?
    ensures var o := WaitStep(n, t, k, k.loc.w, sh, c);
            o.Went? ==> o.wake == NoWake && (o.k.loc == User ==> !o.k.ret.Count?)
  {
  }

  lemma PollWakesNobody(t: Tid, k: Task, sh: Shared, c: Choice)
    requires k.loc.Polling?
    ensures var o := PollStep(t, k, k.loc.p, sh, c);
            o.Went? ==> o.wake == NoWake && (o.k.loc == User ==> !o.k.ret.Count?)
  {
  }

  lemma SectionWakes(n: int, t: Tid, k: Task, sh: Shared, c: Choice)
    requires TransferLoc(k.loc) && !c.Signal?
    ensures var o := TaskStep(n, t, k, sh, c);
            o.Went? ==>
              && o.wake == (if Completes(k, o.k) then Wake(Other(k.call.dir)) else NoWake)
              && (Completes(k, o.k) ==> o.sh.qin == sh.qin && o.sh.qout == sh.qout)
  {
  }

  /** The other tasks keep everything but their place in the run queue, and are made runnable exactly by the
      end of a call that moved at least one character, and exactly those that wait on the other side's queue. */
  lemma WakesExactly(n: int, s: State, t: Tid, c: Choice, s': State, u: Tid)
    requires Reachable(n, s) && Step(n, s, t, c, s') && u in s.tasks && u != t
    ensures u in s'.tasks
    ensures var woken := Completes(s.tasks[t], s'.tasks[t]) && OnQueue(s.tasks[u], Other(s.tasks[t].call.dir));
            s'.tasks[u] == s.tasks[u].(awake := s.tasks[u].awake || woken)
  {
    InvReachable(n, s);
    var k, o := s.tasks[t], TaskStep(n, t, s.tasks[t], s.sh, c);
    assert TaskOk(n, u, s.tasks[u], s.sh);
    if c.Signal? || !TransferLoc(k.loc) {
      QuietWakesNobody(n, t, k, s.sh, c);
    } else {
      SectionWakes(n, t, k, s.sh, c);
    }
  }

  /** A call that returns a count returns exactly what its semaphore section did, against the ring it
      found: min(len, occupancy) for a read, min(len, n-1-occupancy) for a write. */
  lemma CountIsExact(n: int, s: State, t: Tid, c: Choice, s': State)
    requires Reachable(n, s) && Step(n, s, t, c, s')
    requires s.tasks[t].loc == WakeOther && s'.tasks[t].loc == User
    ensures var k := s.tasks[t].call;
            && s'.tasks[t].call == k
            && s'.tasks[t].ret == Count(k.i)
            && k.i == (if k.dir == In then Min(k.len, |k.snap|) else Min(|k.data|, n - 1 - |k.snap|))
            && |k.snap| == Occupancy(n, k.ir0, k.iw0)
            && (k.dir == In ==> k.output == k.snap[..k.i])
  {
    InvReachable(n, s);
    assert TaskOk(n, t, s.tasks[t], s.sh);
  }

  // ---------------------------------------------------------------------------------------------
  // An outstanding wake-up arrives
  // ---------------------------------------------------------------------------------------------

  /** Steps that u itself takes along a trace. */
  function OwnSteps(labels: seq<Label>, u: Tid): nat {
    if labels == [] then 0
    else (if labels[0].t == u && !labels[0].c.Signal? then 1 else 0) + OwnSteps(labels[1..], u)
  }

  /** u performs wake_up_interruptible on queue d at step j. */
  ghost predicate WakesAt(n: int, states: seq<State>, labels: seq<Label>, j: int, u: Tid, d: Dir) {
    && 0 <= j < |labels| <= |states| && labels[j].t == u && u in states[j].tasks
    && TaskStep(n, u, states[j].tasks[u], states[j].sh, labels[j].c).Went?
    && TaskStep(n, u, states[j].tasks[u], states[j].sh, labels[j].c).wake == Wake(d)
  }

  /** One step of a trace, seen by a task u that owes a wake-up: either this step is the wake-up, or u
      still owes it, nearer by one if the step was u's own. */
  lemma WakeNowOrNearer(n: int, s: State, t: Tid, c: Choice, s': State, u: Tid, d: Dir)
    requires Inv(n, s) && Step(n, s, t, c, s') && u in s.tasks && Owes(s.tasks[u], d)
    requires s.tasks[u].call.i <= s.tasks[u].call.len
    ensures (t == u && TaskStep(n, u, s.tasks[u], s.sh, c).wake == Wake(d))
            || (&& u in s'.tasks && Owes(s'.tasks[u], d) && s'.tasks[u].call.i <= s'.tasks[u].call.len
                && StepsToWake(s'.tasks[u]) + (if t == u && !c.Signal? then 1 else 0) <= StepsToWake(s.tasks[u]))
  {
    var k := s.tasks[u];
    assert TaskOk(n, u, k, s.sh);
    if t != u || c.Signal? {
      ObligationIsStable(n, s, t, c, s', u, d);
    } else if k.loc == WakeOther {
      ObligedTaskMoves(n, u, k, s.sh, c, d);
    } else {
      ObligedTaskNears(n, u, k, s.sh, c, d);
    }
  }

  /** However the others interleave, a task that owes a wake-up performs it within StepsToWake + 1 steps of
      its own. */
  lemma {:induction false} WakeupArrives(n: int, states: seq<State>, labels: seq<Label>, u: Tid, d: Dir)
    requires Trace(n, states, labels) && Inv(n, states[0])
    requires u in states[0].tasks && Owes(states[0].tasks[u], d)
    requires states[0].tasks[u].call.i <= states[0].tasks[u].call.len
    requires OwnSteps(labels, u) > StepsToWake(states[0].tasks[u])
    ensures exists j :: WakesAt(n, states, labels, j, u, d)
    decreases |labels|
  {
    var t, c := labels[0].t, labels[0].c;
    assert Step(n, states[0], t, c, states[1]);
    WakeNowOrNearer(n, states[0], t, c, states[1], u, d);
    if t == u && TaskStep(n, u, states[0].tasks[u], states[0].sh, c).wake == Wake(d) {
      assert WakesAt(n, states, labels, 0, u, d);
    } else {
      InvStep(n, states[0], t, c, states[1]);
      WakeupArrives(n, states[1..], labels[1..], u, d);
      var j :| WakesAt(n, states[1..], labels[1..], j, u, d);
      assert WakesAt(n, states, labels, j + 1, u, d);
    }
  }

  /** t is asleep, or about to be, on queue d: a reader or writer in schedule(), or a poller in the core. */
  predicate Waits(k: Task, d: Dir) {
    Sleeping(k, d) || PollSleeping(k, d)
  }

  /** t can go on: it is runnable, or, as a poller, has timed out. */
  predicate Roused(k: Task) {
    k.awake || k.loc == Polling(PollDequeue)
  }

  /** A sleeper sleeps on until it is roused. */
  lemma SleepsOrRouses(n: int, s: State, u: Tid, c: Choice, s': State, t: Tid, d: Dir)
    requires Inv(n, s) && Step(n, s, u, c, s') && t in s.tasks && Waits(s.tasks[t], d)
    ensures t in s'.tasks && (Waits(s'.tasks[t], d) || Roused(s'.tasks[t]))
    ensures u != t && TaskStep(n, u, s.tasks[u], s.sh, c).wake == Wake(d) ==> Roused(s'.tasks[t])
  {
    if u != t {
      assert TaskOk(n, t, s.tasks[t], s.sh) && TaskOk(n, u, s.tasks[u], s.sh);
      WatcherIsQueued(s.tasks[t], d);
      StepSync(n, u, s.tasks[u], s.sh, c);
    }
  }

  /** A sleeper towards whom u owes a wake-up is roused, at the latest by that wake-up. */
  lemma {:induction false} SleeperIsRoused(n: int, states: seq<State>, labels: seq<Label>, t: Tid, u: Tid, d: Dir)
      returns (j: nat)
    requires Trace(n, states, labels) && Inv(n, states[0])
    requires t in states[0].tasks && Waits(states[0].tasks[t], d)
    requires u in states[0].tasks && Owes(states[0].tasks[u], d)
    requires states[0].tasks[u].call.i <= states[0].tasks[u].call.len
    requires OwnSteps(labels, u) > StepsToWake(states[0].tasks[u])
    ensures 0 < j <= |labels| && t in states[j].tasks && Roused(states[j].tasks[t])
    decreases |labels|
  {
    var s, s', v, c := states[0], states[1], labels[0].t, labels[0].c;
    assert Step(n, s, v, c, states[0 + 1]);
    WakeNowOrNearer(n, s, v, c, s', u, d);
    SleepsOrRouses(n, s, v, c, s', t, d);
    if Roused(s'.tasks[t]) {
      j := 1;
    } else {
      InvStep(n, s, v, c, s');
      var i := SleeperIsRoused(n, states[1..], labels[1..], t, u, d);
      j := i + 1;
    }
  }

  /** Sleepers are woken: whenever a reader, writer or poller sleeps although its predicate does not block,
      there is a task u such that, however all of them interleave, the sleeper is roused once u has taken
      StepsToWake(u) + 1 steps of its own; and u is never stuck on that way. */
  lemma SleepersAreWoken(n: int, s: State, t: Tid, d: Dir) returns (u: Tid)
    requires Reachable(n, s) && t in s.tasks && Waits(s.tasks[t], d)
    requires !Blocked(d, s.sh.ring.ir, s.sh.ring.iw)
    ensures u in s.tasks && u != t && Owes(s.tasks[u], d) && s.tasks[u].call.i <= s.tasks[u].call.len
    ensures forall c: Choice :: !c.Signal? ==> TaskStep(n, u, s.tasks[u], s.sh, c).Went?
    ensures forall states: seq<State>, labels: seq<Label> ::
              Trace(n, states, labels) && states[0] == s && OwnSteps(labels, u) > StepsToWake(s.tasks[u]) ==>
                exists j :: 0 < j <= |labels| && t in states[j].tasks && Roused(states[j].tasks[t])
  {
    NoLostWakeup(n, s, t, d);
    u :| u in s.tasks && Owes(s.tasks[u], d);
    InvReachable(n, s);
    assert TaskOk(n, u, s.tasks[u], s.sh);
    forall c: Choice | !c.Signal? ensures TaskStep(n, u, s.tasks[u], s.sh, c).Went? {
      ObligedTaskMoves(n, u, s.tasks[u], s.sh, c, d);
    }
    forall states: seq<State>, labels: seq<Label> |
      Trace(n, states, labels) && states[0] == s && OwnSteps(labels, u) > StepsToWake(s.tasks[u])
      ensures exists j :: 0 < j <= |labels| && t in states[j].tasks && Roused(states[j].tasks[t])
    {
      var j := SleeperIsRoused(n, states, labels, t, u, d);
    }
  }

  // ---------------------------------------------------------------------------------------------
  // What poll reports
  // ---------------------------------------------------------------------------------------------

  /** If device_poll did not report an event that is up now, then the poller has already been woken, or a
      task that moved a character since has yet to wake it. */
  lemma PollSilenceIsCovered(n: int, s: State, t: Tid)
    requires Reachable(n, s) && t in s.tasks && s.tasks[t].loc == Polling(PollWait)
    ensures !s.tasks[t].poll.gotIn && !Empty(s.sh.ring.ir, s.sh.ring.iw)
            ==> s.tasks[t].awake || SomeOwes(s, In)
    ensures !s.tasks[t].poll.gotOut && !Full(s.sh.ring.ir, s.sh.ring.iw)
            ==> s.tasks[t].awake || SomeOwes(s, Out)
  {
    var run :| Run(n, run) && run[|run| - 1] == s;
    WakeRun(n, run);
    assert SomeOwes(s, In) || WatchOk(s.tasks[t], In, s.sh.ring);
    assert SomeOwes(s, Out) || WatchOk(s.tasks[t], Out, s.sh.ring);
  }

  /** Poll at any instant of any run: the reports of PollReportsExactly hold in every reachable state. */
  lemma PollAtEveryInstant(n: int, s: State)
    requires Reachable(n, s)
    ensures var r := s.sh.ring;
            && (Stored(n, r) != [] ==> !Empty(r.ir, r.iw))
            && (|Stored(n, r)| < n - 1 ==> !Full(r.ir, r.iw))
            && (!Empty(r.ir, r.iw) && Stored(n, r) == [] <==> r.ir == n && r.iw == 0)
            && (!Full(r.ir, r.iw) && |Stored(n, r)| == n - 1 <==>
                  (r.ir == 0 && r.iw == n - 1) || (r.ir == 1 && r.iw == n))
  {
    InvReachable(n, s);
    var r := s.sh.ring;
    ContentsLength(n, r.buf, r.ir, r.iw);
    PollReportsExactly(n, r.ir, r.iw);
  }
}
