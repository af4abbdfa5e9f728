/**
 Progress of readers when read calls do not overlap, whatever the writers do, and of writers when write calls
 do not overlap, whatever the readers do (any number of pollers, openers and closers beside them). The
 condition a call saw without the lock is then still true when it gets the semaphore, so a read never comes
 back empty-handed; a write does in exactly one ring position, the one where buffer_full() forgets to wrap.
 */
module PollProgress {
  import opened Ring
  import opened PollState
  import opened PollInvariant

  /** Inside device_read (In) or device_write (Out). */
  predicate Inside(k: Task, d: Dir) {
    InCall(k.loc) && k.call.dir == d
  }

  /** At most one task is inside a call of direction d; the other direction is not restricted. */
  ghost predicate Single(s: State, d: Dir) {
    forall t, u :: t in s.tasks && u in s.tasks && Inside(s.tasks[t], d) && Inside(s.tasks[u], d) ==> t == u
  }

  /** The call's side of the ring can move: there is data, or buffer_full() is false. */
  predicate Ready(n: int, d: Dir, r: Store) {
    match d case In => Occupancy(n, r.ir, r.iw) > 0 case Out => !Full(r.ir, r.iw)
  }

  /** The index only this side moves is not mid-wrap. */
  predicate OwnSettled(n: int, d: Dir, r: Store) {
    match d case In => r.ir < n case Out => r.iw < n
  }

  /** A half-evaluated predicate: the side's own index is current, and "not blocked" is a lasting answer. */
  predicate SeenOk(n: int, d: Dir, seen: Seen, r: Store) {
    && (d == In && seen.SawIr? ==> seen.v == r.ir)
    && (d == Out && seen.SawIw? ==> seen.v == r.iw)
    && (!seen.Nothing? && !Judge(d, seen, r) ==> Ready(n, d, r))
  }

  predicate WaitProgress(n: int, w: WaitPc, k: Call, r: Store) {
    match w
    case First(seen) => SeenOk(n, k.dir, seen, r)
    case AddQueue => k.nonblock ==> Ready(n, k.dir, r)
    case Head(seen) =>
      && SeenOk(n, k.dir, seen, r)
      && (k.nonblock ==> Ready(n, k.dir, r) && (seen.Nothing? || !Judge(k.dir, seen, r)))
    case Recheck(seen) => SeenOk(n, k.dir, seen, r) && !k.nonblock
    case MarkRun => Ready(n, k.dir, r)
    case Unqueue => Ready(n, k.dir, r)
    case Down => Ready(n, k.dir, r)
    case _ => !k.nonblock
  }

  /** The one position where buffer_full() says there is room and the write loop finds none. */
  predicate FalseRoom(n: int, k: Call) {
    k.ir0 == 0 && k.iw0 == n - 1
  }

  predicate Progress(n: int, k: Task, r: Store) {
    match k.loc
    case Waiting(w) => WaitProgress(n, w, k.call, r)
    case User =>
      k.ret.Count? ==>
        && k.ret.k == k.call.i
        && (k.call.len > 0 ==> (k.ret.k >= 1 <==> !(k.call.dir == Out && FalseRoom(n, k.call))))
    case _ =>
      TransferLoc(k.loc) ==>
        && (k.call.dir == In ==> |k.call.snap| > 0)
        && (k.call.dir == Out ==> (|k.call.snap| == n - 1 <==> FalseRoom(n, k.call)))
  }

  /** Loading the first index: nothing is decided yet, and a ready ring will not be judged blocked. */
  lemma LoadIsOk(n: int, d: Dir, r: Store, irFirst: bool)
    requires RingShape(n, r) && OwnSettled(n, d, r)
    ensures SeenOk(n, d, Load(r, irFirst), r)
    ensures Ready(n, d, r) ==> !Judge(d, Load(r, irFirst), r)
  {
    ContentsLength(n, r.buf, r.ir, r.iw);
  }

  lemma TestProgresses(n: int, t: Tid, k: Task, sh: Shared, c: Choice)
    requires SharedOk(n, sh) && k.loc.Waiting? && OwnSettled(n, k.call.dir, sh.ring)
    requires k.loc.w.First? || k.loc.w.Head? || k.loc.w.Recheck?
    requires Progress(n, k, sh.ring)
    ensures var o := WaitStep(n, t, k, k.loc.w, sh, c); o.Went? ==> Progress(n, o.k, o.sh.ring)
  {
    if c.Go? {
      LoadIsOk(n, k.call.dir, sh.ring, c.irFirst);
    }
  }

  /** Getting the semaphore: the ring found is the one the lasting answer speaks of. */
  lemma DownProgresses(n: int, t: Tid, k: Task, sh: Shared, c: Choice)
    requires SharedOk(n, sh) && k.loc == Waiting(Down)
    requires Progress(n, k, sh.ring)
    ensures var o := WaitStep(n, t, k, Down, sh, c); o.Went? ==> Progress(n, o.k, o.sh.ring)
  {
    var r := sh.ring;
    ContentsLength(n, r.buf, r.ir, r.iw);
    if sh.sema == Free {
      FullAgreesWithWriteLimit(n, r.ir, r.iw);
    }
  }

  lemma WaitProgresses(n: int, t: Tid, k: Task, sh: Shared, c: Choice)
    requires SharedOk(n, sh) && k.loc.Waiting? && OwnSettled(n, k.call.dir, sh.ring)
    requires Progress(n, k, sh.ring)
    ensures var o := WaitStep(n, t, k, k.loc.w, sh, c); o.Went? ==> Progress(n, o.k, o.sh.ring)
  {
    match k.loc.w
    case First(_) => TestProgresses(n, t, k, sh, c);
    case Head(_) => TestProgresses(n, t, k, sh, c);
    case Recheck(_) => TestProgresses(n, t, k, sh, c);
    case Down => DownProgresses(n, t, k, sh, c);
    case _ =>
  }

  /** What a finished call returns: everything the semaphore section could do, so at least one character
      unless nothing was asked or the write met the false room. */
  lemma ReturnProgresses(n: int, t: Tid, k: Task, sh: Shared, c: Choice)
    requires k.loc == WakeOther && Finished(n, k.call) && Progress(n, k, sh.ring) && !c.Signal?
    ensures var o := TaskStep(n, t, k, sh, c); o.Went? ==> Progress(n, o.k, o.sh.ring)
  {
  }

  lemma SectionProgresses(n: int, t: Tid, k: Task, sh: Shared, c: Choice)
    requires (SemaLoc(k.loc) || c.Signal?) && Progress(n, k, sh.ring)
    ensures var o := TaskStep(n, t, k, sh, c); o.Went? ==> Progress(n, o.k, o.sh.ring)
  {
  }

  /** A call is entered with nothing seen yet. */
  lemma UserProgresses(n: int, t: Tid, k: Task, sh: Shared, c: Choice)
    requires k.loc.User?
    ensures var o := UserStep(t, k, sh, c); o.Went? ==> Progress(n, o.k, o.sh.ring)
  {
  }

  lemma OutsideProgresses(n: int, t: Tid, k: Task, sh: Shared, c: Choice)
    requires (k.loc.Opening? || k.loc.Closing?) && !c.Signal?
    ensures var o := TaskStep(n, t, k, sh, c); o.Went? ==> Progress(n, o.k, o.sh.ring)
  {
  }

  lemma PollProgresses(n: int, t: Tid, k: Task, sh: Shared, c: Choice)
    requires k.loc.Polling?
    ensures var o := PollStep(t, k, k.loc.p, sh, c); o.Went? ==> Progress(n, o.k, o.sh.ring)
  {
  }

  lemma SelfProgresses(n: int, t: Tid, k: Task, sh: Shared, c: Choice)
    requires SharedOk(n, sh) && TaskOk(n, t, k, sh)
    requires k.loc.Waiting? ==> OwnSettled(n, k.call.dir, sh.ring)
    requires Progress(n, k, sh.ring)
    ensures var o := TaskStep(n, t, k, sh, c); o.Went? ==> Progress(n, o.k, o.sh.ring)
  {
    if c.Signal? || SemaLoc(k.loc) {
      SectionProgresses(n, t, k, sh, c);
    } else if k.loc.Waiting? {
      WaitProgresses(n, t, k, sh, c);
    } else if k.loc.Polling? {
      PollProgresses(n, t, k, sh, c);
    } else if k.loc == WakeOther {
      ReturnProgresses(n, t, k, sh, c);
    } else if k.loc == User {
      UserProgresses(n, t, k, sh, c);
    } else {
      OutsideProgresses(n, t, k, sh, c);
    }
  }

  /** A write moves iw only, and keeps the ring non-empty. */
  lemma WriteKeepsReady(n: int, v: WritePc, k: Call, r: Store)
    requires RingShape(n, r) && TransferOk(n, Writing(v), k, r) && k.dir == Out && r.ir < n
    ensures var x := WriteStep(n, v, k, r);
            x.To? ==> x.ring.ir == r.ir && (Ready(n, In, r) ==> Ready(n, In, x.ring))
  {
    ContentsLength(n, r.buf, r.ir, r.iw);
    FullAgreesWithWriteLimit(n, r.ir, Slot(n, r.iw));
  }

  /** A read moves ir only, and keeps buffer_full() false. */
  lemma ReadKeepsReady(n: int, pc: ReadPc, k: Call, r: Store)
    requires RingShape(n, r) && TransferOk(n, Reading(pc), k, r) && k.dir == In
    ensures var x := ReadStep(n, pc, k, r);
            x.To? ==> x.ring.iw == r.iw && (Ready(n, Out, r) ==> Ready(n, Out, x.ring))
  {
  }

  /** What the other side's moves do to a waiting call. */
  lemma MoveKeepsReady(n: int, w: WaitPc, ku: Call, r: Store, r': Store)
    requires RingShape(n, r) && RingShape(n, r') && OwnSettled(n, ku.dir, r)
    requires WaitProgress(n, w, ku, r)
    requires ku.dir == In ==> r'.ir == r.ir && (Ready(n, In, r) ==> Ready(n, In, r'))
    requires ku.dir == Out ==> r'.iw == r.iw && (Ready(n, Out, r) ==> Ready(n, Out, r'))
    ensures WaitProgress(n, w, ku, r')
  {
  }

  // ---------------------------------------------------------------------------------------------
  // Whole states
  // ---------------------------------------------------------------------------------------------

  ghost predicate ProgressInv(n: int, s: State, d: Dir) {
    forall t :: t in s.tasks && s.tasks[t].call.dir == d ==> Progress(n, s.tasks[t], s.sh.ring)
  }

  /** Alone on its side, a waiting call finds its own index settled: only the other side can be in the
      semaphore section. */
  lemma WaiterIsSettled(n: int, s: State, u: Tid, d: Dir)
    requires Inv(n, s) && Single(s, d) && u in s.tasks && s.tasks[u].loc.Waiting? && s.tasks[u].call.dir == d
    ensures OwnSettled(n, d, s.sh.ring)
  {
    assert TaskOk(n, u, s.tasks[u], s.sh);
    if s.sh.sema.Held? {
      var h := s.sh.sema.t;
      assert TaskOk(n, h, s.tasks[h], s.sh);
      assert Inside(s.tasks[u], d) && !Inside(s.tasks[h], d);
    }
  }

  lemma OtherProgresses(n: int, s: State, t: Tid, c: Choice, s': State, u: Tid, d: Dir)
    requires Inv(n, s) && Single(s, d) && ProgressInv(n, s, d) && Step(n, s, t, c, s')
    requires u in s.tasks && u != t && s.tasks[u].call.dir == d
    ensures Progress(n, s'.tasks[u], s'.sh.ring)
  {
    var k, ku := s.tasks[t], s.tasks[u];
    assert TaskOk(n, t, k, s.sh) && TaskOk(n, u, ku, s.sh);
    assert Progress(n, ku, s.sh.ring);
    if ku.loc.Waiting? {
      WaiterIsSettled(n, s, u, d);
      StepKeepsReady(n, s, t, c, u, d);
    }
  }

  lemma StepKeepsReady(n: int, s: State, t: Tid, c: Choice, u: Tid, d: Dir)
    requires Inv(n, s) && Single(s, d) && t in s.tasks && u in s.tasks && u != t
    requires s.tasks[u].loc.Waiting? && s.tasks[u].call.dir == d && Progress(n, s.tasks[u], s.sh.ring)
    ensures var o := TaskStep(n, t, s.tasks[t], s.sh, c);
            o.Went? ==> WaitProgress(n, s.tasks[u].loc.w, s.tasks[u].call, o.sh.ring)
  {
    var k, ku := s.tasks[t], s.tasks[u];
    assert TaskOk(n, t, k, s.sh) && TaskOk(n, u, ku, s.sh);
    WaiterIsSettled(n, s, u, d);
    if Resetting(k.loc) {
      CallHasFile(n, s, u);
    } else {
      StepRing(n, t, k, s.sh, c);
      if !c.Signal? && (k.loc.Reading? || k.loc.Writing?) {
        assert Inside(ku, d) && !Inside(k, d);
        if k.loc.Reading? {
          ReadKeepsReady(n, k.loc.r, k.call, s.sh.ring);
        } else {
          WriteKeepsReady(n, k.loc.v, k.call, s.sh.ring);
        }
        var o := TaskStep(n, t, k, s.sh, c);
        if o.Went? {
          MoveKeepsReady(n, ku.loc.w, ku.call, s.sh.ring, o.sh.ring);
        }
      }
    }
  }

  /** The direction of a task's call changes only when it enters a new one. */
  lemma DirectionStays(n: int, t: Tid, k: Task, sh: Shared, c: Choice)
    requires k.loc != User || c.Signal?
    ensures var o := TaskStep(n, t, k, sh, c); o.Went? ==> o.k.call.dir == k.call.dir
  {
    if k.loc.Waiting? && !c.Signal? {
      WaitDirection(n, t, k, sh, c);
    } else if k.loc.Polling? && !c.Signal? {
      PollShape(t, k, sh, c);
    }
  }

  lemma WaitDirection(n: int, t: Tid, k: Task, sh: Shared, c: Choice)
    requires k.loc.Waiting?
    ensures var o := WaitStep(n, t, k, k.loc.w, sh, c); o.Went? ==> o.k.call.dir == k.call.dir
  {
  }

  lemma OwnProgresses(n: int, s: State, t: Tid, c: Choice, s': State, d: Dir)
    requires Inv(n, s) && Single(s, d) && ProgressInv(n, s, d) && Step(n, s, t, c, s')
    requires s'.tasks[t].call.dir == d
    ensures Progress(n, s'.tasks[t], s'.sh.ring)
  {
    var k := s.tasks[t];
    if k.loc == User && !c.Signal? {
      UserProgresses(n, t, k, s.sh, c);
    } else {
      DirectionStays(n, t, k, s.sh, c);
      assert TaskOk(n, t, k, s.sh) && Progress(n, k, s.sh.ring);
      if k.loc.Waiting? {
        WaiterIsSettled(n, s, t, d);
      }
      SelfProgresses(n, t, k, s.sh, c);
    }
  }

  lemma ProgressStep(n: int, s: State, t: Tid, c: Choice, s': State, d: Dir)
    requires Inv(n, s) && Single(s, d) && ProgressInv(n, s, d) && Step(n, s, t, c, s')
    ensures ProgressInv(n, s', d)
  {
    forall u | u in s'.tasks && s'.tasks[u].call.dir == d
      ensures Progress(n, s'.tasks[u], s'.sh.ring)
    {
      if u == t {
        OwnProgresses(n, s, t, c, s', d);
      } else {
        OtherProgresses(n, s, t, c, s', u, d);
      }
    }
  }

  /** A run in which calls of direction d never overlap. */
  ghost predicate SingleRun(n: int, run: seq<State>, d: Dir) {
    Run(n, run) && forall j :: 0 <= j < |run| ==> Single(run[j], d)
  }

  lemma {:induction false} ProgressRun(n: int, run: seq<State>, d: Dir)
    requires SingleRun(n, run, d)
    ensures ProgressInv(n, run[|run| - 1], d)
    decreases |run|
  {
    if |run| == 1 {
    } else {
      var front, s := run[..|run| - 1], run[|run| - 2];
      assert Run(n, front);
      ProgressRun(n, front, d);
      InvRun(n, front);
      assert Next(n, s, run[|run| - 2 + 1]);
      var t, c :| Step(n, s, t, c, run[|run| - 1]);
      ProgressStep(n, s, t, c, run[|run| - 1], d);
    }
  }

  // ---------------------------------------------------------------------------------------------
  // Theorems
  // ---------------------------------------------------------------------------------------------

  /** If reads never overlap, a read of len > 0 that returns without error returns at least one character,
      however many writers there are. If writes never overlap, so does a write, however many readers there
      are, except exactly when it got the semaphore at ir == 0, iw == n-1, where it returns 0. */
  lemma CallsMakeProgress(n: int, run: seq<State>, t: Tid)
    requires |run| > 0 && t in run[|run| - 1].tasks
    requires SingleRun(n, run, run[|run| - 1].tasks[t].call.dir)
    ensures var k := run[|run| - 1].tasks[t];
            k.loc == User && k.ret.Count? && k.call.len > 0 ==>
              (k.ret.k >= 1 <==> !(k.call.dir == Out && FalseRoom(n, k.call)))
  {
    ProgressRun(n, run, run[|run| - 1].tasks[t].call.dir);
    assert Progress(n, run[|run| - 1].tasks[t], run[|run| - 1].sh.ring);
  }

  /** An O_NONBLOCK call that never overlaps one of its own kind never marks itself for sleep, so it never
      reaches schedule(). */
  lemma NonblockNeverSleeps(n: int, run: seq<State>, t: Tid)
    requires |run| > 0 && t in run[|run| - 1].tasks
    requires SingleRun(n, run, run[|run| - 1].tasks[t].call.dir)
    ensures var k := run[|run| - 1].tasks[t];
            k.loc.Waiting? && k.call.nonblock ==>
              || k.loc.w.First? || k.loc.w.AddQueue? || k.loc.w.Head?
              || k.loc.w.MarkRun? || k.loc.w.Unqueue? || k.loc.w.Down?
  {
    ProgressRun(n, run, run[|run| - 1].tasks[t].call.dir);
    assert Progress(n, run[|run| - 1].tasks[t], run[|run| - 1].sh.ring);
  }
}
