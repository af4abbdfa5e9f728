/**
 What POLLIN and POLLOUT promise. A program that is the only reader, and reads only on a POLLIN that it has
 not used for a read yet, never goes to sleep in read and never gets -EAGAIN; the same for a sole writer and
 POLLOUT. The promise is kept whatever the other side does meanwhile, and however long the program waits
 before it uses it.
 */
module PollPromise {
  import opened Ring
  import opened PollState
  import opened PollInvariant
  import opened PollTheorems
  import opened PollProgress
  import opened PollVerdict

  /** Nobody but t is inside a call of direction d, and the device stays open. */
  ghost predicate SoleUser(s: State, t: Tid, d: Dir) {
    && s.sh.files.open != {}
    && forall u :: u in s.tasks && u != t && InCall(s.tasks[u].loc) ==> s.tasks[u].call.dir != d
  }

  predicate Begins(c: Choice, d: Dir) {
    match d case In => c.BeginRead? case Out => c.BeginWrite?
  }

  predicate Got(k: Poll, d: Dir) {
    match d case In => k.gotIn case Out => k.gotOut
  }

  /** Before step j t holds an unused report of event d: a poll returned it, and t has begun no call of
      direction d since. */
  ghost predicate Promised(states: seq<State>, labels: seq<Label>, t: Tid, d: Dir, j: nat)
    requires j <= |labels| < |states|
  {
    if j == 0 then false
    else if labels[j - 1].t != t || labels[j - 1].c.Signal? || t !in states[j - 1].tasks then
      Promised(states, labels, t, d, j - 1)
    else Renewed(states[j - 1].tasks[t], labels[j - 1].c, d, Promised(states, labels, t, d, j - 1))
  }

  predicate Renewed(k: Task, c: Choice, d: Dir, promised: bool) {
    if k.loc == Polling(PollDequeue) then Got(k.poll, d) else promised && !(k.loc == User && Begins(c, d))
  }

  predicate BeginsAt(s: State, l: Label, t: Tid, d: Dir) {
    l.t == t && Begins(l.c, d) && t in s.tasks && s.tasks[t].loc == User
  }

  /** t, the sole user of side d throughout, begins a call of direction d only on such a report. */
  ghost predicate Disciplined(n: int, states: seq<State>, labels: seq<Label>, t: Tid, d: Dir) {
    && Trace(n, states, labels) && Reachable(n, states[0])
    && t in states[0].tasks && states[0].tasks[t].loc == User
    && (forall j :: 0 <= j < |states| ==> SoleUser(states[j], t, d))
    && (forall j :: 0 <= j < |labels| && BeginsAt(states[j], labels[j], t, d) ==> Promised(states, labels, t, d, j))
  }

  // ---------------------------------------------------------------------------------------------
  // The promise as an invariant
  // ---------------------------------------------------------------------------------------------

  /** A call that will not block: its test, as far as it got, comes out false. */
  predicate GoesThrough(n: int, w: WaitPc, k: Call, r: Store) {
    && Ready(n, k.dir, r)
    && match w
       case First(seen) => SeenOk(n, k.dir, seen, r) && (seen.Nothing? || !Judge(k.dir, seen, r))
       case Head(seen) => SeenOk(n, k.dir, seen, r) && (seen.Nothing? || !Judge(k.dir, seen, r))
       case AddQueue => true
       case MarkRun => true
       case Unqueue => true
       case Down => true
       case _ => false
  }

  /** A poll of t: the test under way is right so far, and a reported event holds. */
  predicate PollKept(n: int, p: PollPc, k: Poll, d: Dir, r: Store) {
    match d
    case In =>
      && (p.PollIn? ==> SeenOk(n, In, p.seen, r))
      && ((p.PollOut? || p.PollUnlock? || p.PollWait? || p.PollDequeue?) && k.gotIn ==> Ready(n, In, r))
    case Out =>
      && (p.PollOut? ==> SeenOk(n, Out, p.seen, r))
      && ((p.PollUnlock? || p.PollWait? || p.PollDequeue?) && k.gotOut ==> Ready(n, Out, r))
  }

  /** The ring a call found: a character to read; for a write, room unless in the false-room position. */
  predicate FoundReady(n: int, k: Call) {
    if k.dir == In then |k.snap| > 0 else |k.snap| == n - 1 <==> FalseRoom(n, k)
  }

  predicate Kept(n: int, k: Task, d: Dir, r: Store, promised: bool) {
    && (promised ==> Ready(n, d, r) && !(InCall(k.loc) && k.call.dir == d))
    && match k.loc
       case Waiting(w) => k.call.dir == d ==> GoesThrough(n, w, k.call, r)
       case Polling(p) => PollKept(n, p, k.poll, d, r)
       case _ => TransferLoc(k.loc) && k.call.dir == d ==> FoundReady(n, k.call)
  }

  /** Outside its own transfer a sole user finds its index settled. */
  lemma SoleIsSettled(n: int, s: State, t: Tid, d: Dir)
    requires Inv(n, s) && SoleUser(s, t, d) && t in s.tasks
    requires !(SemaLoc(s.tasks[t].loc) && s.tasks[t].call.dir == d)
    ensures OwnSettled(n, d, s.sh.ring)
  {
    if s.sh.sema.Held? {
      var h := s.sh.sema.t;
      assert TaskOk(n, h, s.tasks[h], s.sh);
    }
  }

  /** A step that is not a transfer of direction d leaves d's index alone and keeps what d waits for. */
  lemma OtherSideKeeps(n: int, s: State, u: Tid, c: Choice, d: Dir)
    requires Inv(n, s) && u in s.tasks && s.sh.files.open != {} && OwnSettled(n, d, s.sh.ring)
    requires !(SemaLoc(s.tasks[u].loc) && s.tasks[u].call.dir == d)
    ensures var o, r := TaskStep(n, u, s.tasks[u], s.sh, c), s.sh.ring;
            o.Went? ==>
              && RingShape(n, o.sh.ring)
              && (if d == In then o.sh.ring.ir == r.ir else o.sh.ring.iw == r.iw)
              && (Ready(n, d, r) ==> Ready(n, d, o.sh.ring))
  {
    var k := s.tasks[u];
    assert TaskOk(n, u, k, s.sh);
    StepRing(n, u, k, s.sh, c);
    if c.Signal? || !(k.loc.Reading? || k.loc.Writing?) {
      StepLeavesRing(n, u, k, s.sh, c);
    } else if k.loc.Reading? {
      ReadKeepsReady(n, k.loc.r, k.call, s.sh.ring);
    } else {
      WriteKeepsReady(n, k.loc.v, k.call, s.sh.ring);
    }
  }

  lemma KeptByOthers(n: int, k: Task, d: Dir, r: Store, r': Store, promised: bool)
    requires RingShape(n, r) && RingShape(n, r') && Kept(n, k, d, r, promised)
    requires if d == In then r'.ir == r.ir else r'.iw == r.iw
    requires Ready(n, d, r) ==> Ready(n, d, r')
    requires OwnSettled(n, d, r)
    ensures Kept(n, k, d, r', promised)
  {
    ContentsLength(n, r'.buf, r'.ir, r'.iw);
  }

  lemma TestKept(n: int, t: Tid, k: Task, sh: Shared, c: Choice)
    requires SharedOk(n, sh) && k.loc.Waiting? && OwnSettled(n, k.call.dir, sh.ring)
    requires k.loc.w.First? || k.loc.w.Head?
    requires GoesThrough(n, k.loc.w, k.call, sh.ring)
    ensures var o := WaitStep(n, t, k, k.loc.w, sh, c);
            o.Went? ==> o.k.loc.Waiting? && GoesThrough(n, o.k.loc.w, o.k.call, sh.ring)
  {
    if c.Go? {
      LoadIsOk(n, k.call.dir, sh.ring, c.irFirst);
    }
  }

  /** Getting the semaphore: the ring found is the one the promise speaks of. */
  lemma DownKept(n: int, t: Tid, k: Task, sh: Shared, c: Choice)
    requires SharedOk(n, sh) && k.loc == Waiting(Down) && Ready(n, k.call.dir, sh.ring)
    ensures var o := WaitStep(n, t, k, Down, sh, c);
            o.Went? ==>
              if o.k.loc == User then o.k.ret == Restart && k.signal
              else TransferLoc(o.k.loc) && FoundReady(n, o.k.call)
  {
    var r := sh.ring;
    ContentsLength(n, r.buf, r.ir, r.iw);
    if sh.sema == Free {
      FullAgreesWithWriteLimit(n, r.ir, r.iw);
    }
  }

  /** A step of a call that will not block, before the semaphore. */
  lemma WaitKept(n: int, t: Tid, k: Task, sh: Shared, c: Choice, d: Dir)
    requires SharedOk(n, sh) && k.loc.Waiting? && k.call.dir == d && OwnSettled(n, d, sh.ring)
    requires GoesThrough(n, k.loc.w, k.call, sh.ring)
    ensures var o := WaitStep(n, t, k, k.loc.w, sh, c);
            o.Went? ==>
              && (o.k.loc.Waiting? ==> GoesThrough(n, o.k.loc.w, o.k.call, sh.ring))
              && (o.k.loc == User ==> o.k.ret == Restart && k.signal)
              && (TransferLoc(o.k.loc) ==> FoundReady(n, o.k.call))
  {
    match k.loc.w
    case First(_) => TestKept(n, t, k, sh, c);
    case Head(_) => TestKept(n, t, k, sh, c);
    case Down => DownKept(n, t, k, sh, c);
    case _ =>
  }

  /** A step of a poll: what it reports holds. */
  lemma PollKeeps(t: Tid, k: Task, n: int, sh: Shared, c: Choice, d: Dir)
    requires SharedOk(n, sh) && k.loc.Polling? && OwnSettled(n, d, sh.ring)
    requires PollKept(n, k.loc.p, k.poll, d, sh.ring)
    ensures var o := PollStep(t, k, k.loc.p, sh, c);
            o.Went? && o.k.loc.Polling? ==> PollKept(n, o.k.loc.p, o.k.poll, d, sh.ring)
  {
    if d == In {
      PollInKeeps(t, k, n, sh, c);
    } else {
      PollOutKeeps(t, k, n, sh, c);
    }
  }

  lemma PollInKeeps(t: Tid, k: Task, n: int, sh: Shared, c: Choice)
    requires SharedOk(n, sh) && k.loc.Polling? && OwnSettled(n, In, sh.ring)
    requires PollKept(n, k.loc.p, k.poll, In, sh.ring)
    ensures var o := PollStep(t, k, k.loc.p, sh, c);
            o.Went? && o.k.loc.Polling? ==> PollKept(n, o.k.loc.p, o.k.poll, In, sh.ring)
  {
    if c.Go? {
      LoadIsOk(n, In, sh.ring, c.irFirst);
    }
  }

  lemma PollOutKeeps(t: Tid, k: Task, n: int, sh: Shared, c: Choice)
    requires SharedOk(n, sh) && k.loc.Polling? && OwnSettled(n, Out, sh.ring)
    requires PollKept(n, k.loc.p, k.poll, Out, sh.ring)
    ensures var o := PollStep(t, k, k.loc.p, sh, c);
            o.Went? && o.k.loc.Polling? ==> PollKept(n, o.k.loc.p, o.k.poll, Out, sh.ring)
  {
    if c.Go? {
      LoadIsOk(n, Out, sh.ring, c.irFirst);
    }
  }

  lemma TransferKept(n: int, t: Tid, k: Task, sh: Shared, c: Choice)
    requires TransferLoc(k.loc) && !c.Signal?
    ensures var o := TaskStep(n, t, k, sh, c);
            o.Went? ==>
              && (TransferLoc(o.k.loc) || o.k.loc == User) && o.k.call.dir == k.call.dir
              && (FoundReady(n, k.call) ==> FoundReady(n, o.k.call))
  {
  }

  /** t's own step in a call of direction d. */
  lemma CallKept(n: int, t: Tid, k: Task, sh: Shared, c: Choice, d: Dir, promised: bool)
    requires SharedOk(n, sh) && InCall(k.loc) && k.call.dir == d && !c.Signal?
    requires k.loc.Waiting? ==> OwnSettled(n, d, sh.ring)
    requires Kept(n, k, d, sh.ring, promised)
    ensures var o := TaskStep(n, t, k, sh, c);
            o.Went? ==> Kept(n, o.k, d, o.sh.ring, Renewed(k, c, d, promised))
  {
    if k.loc.Waiting? {
      WaitKept(n, t, k, sh, c, d);
      WaitCall(n, t, k, sh, c);
      WaitShape(n, t, k, sh, c);
    } else {
      TransferKept(n, t, k, sh, c);
    }
  }

  /** t's own step elsewhere; the ring r' after it still has what d waits for. */
  lemma ElsewhereKept(n: int, t: Tid, k: Task, sh: Shared, c: Choice, d: Dir, promised: bool)
    requires SharedOk(n, sh) && !(InCall(k.loc) && k.call.dir == d) && !k.loc.Polling? && !c.Signal?
    requires Kept(n, k, d, sh.ring, promised)
    requires k.loc == User && Begins(c, d) ==> promised
    ensures var o := TaskStep(n, t, k, sh, c);
            o.Went? && (Ready(n, d, sh.ring) ==> Ready(n, d, o.sh.ring)) ==>
              Kept(n, o.k, d, o.sh.ring, Renewed(k, c, d, promised))
  {
    match k.loc
    case User => UserKept(n, t, k, sh, c, d, promised);
    case Waiting(_) => OtherWaitKept(n, t, k, sh, c, d, promised);
    case Opening(_) => OpenShape(t, k, sh, c);
    case Closing(_) => CloseKept(t, k, sh);
    case _ => TransferKept(n, t, k, sh, c);
  }

  lemma OtherWaitKept(n: int, t: Tid, k: Task, sh: Shared, c: Choice, d: Dir, promised: bool)
    requires k.loc.Waiting? && k.call.dir != d && Kept(n, k, d, sh.ring, promised)
    ensures var o := WaitStep(n, t, k, k.loc.w, sh, c); o.Went? ==> Kept(n, o.k, d, o.sh.ring, promised)
  {
    WaitCall(n, t, k, sh, c);
    WaitShape(n, t, k, sh, c);
  }

  lemma CloseKept(t: Tid, k: Task, sh: Shared)
    requires k.loc.Closing?
    ensures var o := CloseStep(t, k, k.loc.c, sh); o.Went? ==> (o.k.loc.Closing? || o.k.loc.User?)
  {
  }

  lemma UserKept(n: int, t: Tid, k: Task, sh: Shared, c: Choice, d: Dir, promised: bool)
    requires k.loc == User && Kept(n, k, d, sh.ring, promised) && (Begins(c, d) ==> promised)
    ensures var o := UserStep(t, k, sh, c); o.Went? ==> Kept(n, o.k, d, o.sh.ring, Renewed(k, c, d, promised))
  {
  }

  lemma PollingKept(n: int, t: Tid, k: Task, sh: Shared, c: Choice, d: Dir, promised: bool)
    requires SharedOk(n, sh) && k.loc.Polling? && OwnSettled(n, d, sh.ring)
    requires Kept(n, k, d, sh.ring, promised)
    ensures var o := PollStep(t, k, k.loc.p, sh, c);
            o.Went? ==> Kept(n, o.k, d, o.sh.ring, Renewed(k, c, d, promised))
  {
    PollKeeps(t, k, n, sh, c, d);
    PollShape(t, k, sh, c);
  }

  lemma SelfKept(n: int, s: State, t: Tid, c: Choice, s': State, d: Dir, promised: bool)
    requires Inv(n, s) && SoleUser(s, t, d) && Step(n, s, t, c, s') && !c.Signal?
    requires Kept(n, s.tasks[t], d, s.sh.ring, promised)
    requires s.tasks[t].loc == User && Begins(c, d) ==> promised
    ensures Kept(n, s'.tasks[t], d, s'.sh.ring, Renewed(s.tasks[t], c, d, promised))
  {
    var k := s.tasks[t];
    if !(SemaLoc(k.loc) && k.call.dir == d) {
      SoleIsSettled(n, s, t, d);
      OtherSideKeeps(n, s, t, c, d);
    }
    if k.loc.Polling? {
      PollingKept(n, t, k, s.sh, c, d, promised);
    } else if InCall(k.loc) && k.call.dir == d {
      CallKept(n, t, k, s.sh, c, d, promised);
    } else {
      ElsewhereKept(n, t, k, s.sh, c, d, promised);
    }
  }

  /** A step of another task, or a signal. */
  lemma OthersKept(n: int, s: State, u: Tid, c: Choice, s': State, t: Tid, d: Dir, promised: bool)
    requires Inv(n, s) && SoleUser(s, t, d) && Step(n, s, u, c, s') && t in s.tasks && (u == t ==> c.Signal?)
    requires Kept(n, s.tasks[t], d, s.sh.ring, promised)
    ensures Kept(n, s'.tasks[t], d, s'.sh.ring, promised)
  {
    var k := s.tasks[t];
    TesterStays(n, s, u, c, s', t);
    if u != t && !(SemaLoc(k.loc) && k.call.dir == d) {
      SoleIsSettled(n, s, t, d);
      OtherSideKeeps(n, s, u, c, d);
      KeptByOthers(n, k, d, s.sh.ring, s'.sh.ring, promised);
    }
  }

  lemma {:induction false} PromiseKept(n: int, states: seq<State>, labels: seq<Label>, t: Tid, d: Dir, j: nat)
    requires Disciplined(n, states, labels, t, d) && j <= |labels|
    ensures Inv(n, states[j]) && t in states[j].tasks
    ensures Kept(n, states[j].tasks[t], d, states[j].sh.ring, Promised(states, labels, t, d, j))
  {
    if j == 0 {
      InvReachable(n, states[0]);
    } else {
      var s, u, c := states[j - 1], labels[j - 1].t, labels[j - 1].c;
      PromiseKept(n, states, labels, t, d, j - 1);
      assert Step(n, s, u, c, states[j - 1 + 1]);
      InvStep(n, s, u, c, states[j]);
      assert SoleUser(s, t, d);
      if u == t && !c.Signal? {
        assert BeginsAt(s, labels[j - 1], t, d) ==> Promised(states, labels, t, d, j - 1);
        SelfKept(n, s, t, c, states[j], d, Promised(states, labels, t, d, j - 1));
      } else {
        OthersKept(n, s, u, c, states[j], t, d, Promised(states, labels, t, d, j - 1));
      }
    }
  }

  // ---------------------------------------------------------------------------------------------
  // Theorems
  // ---------------------------------------------------------------------------------------------

  /** As long as a report is unused the event is up, and the call made on it passes none of the points from
      which a read or write can go to sleep. */
  lemma PromisedCallsNeverSleep(n: int, states: seq<State>, labels: seq<Label>, t: Tid, d: Dir, j: nat)
    requires Disciplined(n, states, labels, t, d) && j <= |labels|
    ensures t in states[j].tasks
    ensures Promised(states, labels, t, d, j) ==> Ready(n, d, states[j].sh.ring)
    ensures var k := states[j].tasks[t];
            k.loc.Waiting? && k.call.dir == d ==>
              || k.loc.w.First? || k.loc.w.AddQueue? || k.loc.w.Head?
              || k.loc.w.MarkRun? || k.loc.w.Unqueue? || k.loc.w.Down?
  {
    PromiseKept(n, states, labels, t, d, j);
  }

  /** A call ended by a signal, or with a count, at least 1 if anything was asked except for a write in the
      false-room position. */
  predicate ReturnsRight(n: int, k: Task, k': Task) {
    || (k'.ret == Restart && k.signal)
    || (&& k'.ret == Count(k.call.i)
        && (k.call.len > 0 ==> (k.call.i >= 1 <==> !(k.call.dir == Out && FalseRoom(n, k.call)))))
  }

  lemma CountReturns(n: int, t: Tid, k: Task, sh: Shared, c: Choice)
    requires k.loc == WakeOther && Finished(n, k.call) && FoundReady(n, k.call) && !c.Signal?
    ensures var o := TaskStep(n, t, k, sh, c); o.Went? ==> ReturnsRight(n, k, o.k)
  {
  }

  lemma SectionStays(n: int, t: Tid, k: Task, sh: Shared, c: Choice)
    requires SemaLoc(k.loc) && !c.Signal?
    ensures var o := TaskStep(n, t, k, sh, c); o.Went? ==> o.k.loc != User
  {
  }

  lemma CallReturns(n: int, t: Tid, k: Task, sh: Shared, c: Choice, d: Dir, promised: bool)
    requires SharedOk(n, sh) && TaskOk(n, t, k, sh) && InCall(k.loc) && k.call.dir == d && !c.Signal?
    requires k.loc.Waiting? ==> OwnSettled(n, d, sh.ring)
    requires Kept(n, k, d, sh.ring, promised)
    ensures var o := TaskStep(n, t, k, sh, c); o.Went? && o.k.loc == User ==> ReturnsRight(n, k, o.k)
  {
    if k.loc.Waiting? {
      WaitKept(n, t, k, sh, c, d);
    } else if k.loc == WakeOther {
      CountReturns(n, t, k, sh, c);
    } else {
      SectionStays(n, t, k, sh, c);
    }
  }

  /** A call made on a report never returns -EAGAIN, and comes back empty-handed only where buffer_full() is
      wrong or nothing was asked. */
  lemma PromisedCallsReturn(n: int, states: seq<State>, labels: seq<Label>, t: Tid, d: Dir, j: nat)
    requires Disciplined(n, states, labels, t, d) && j < |labels|
    requires t in states[j].tasks && InCall(states[j].tasks[t].loc) && states[j].tasks[t].call.dir == d
    requires t in states[j + 1].tasks && states[j + 1].tasks[t].loc == User
    ensures ReturnsRight(n, states[j].tasks[t], states[j + 1].tasks[t])
  {
    PromiseKept(n, states, labels, t, d, j);
    var s, c := states[j], labels[j].c;
    assert Step(n, s, labels[j].t, c, states[j + 1]);
    if labels[j].t != t || c.Signal? {
      TesterStays(n, s, labels[j].t, c, states[j + 1], t);
    } else {
      assert TaskOk(n, t, s.tasks[t], s.sh);
      if s.tasks[t].loc.Waiting? {
        SoleIsSettled(n, s, t, d);
      }
      CallReturns(n, t, s.tasks[t], s.sh, c, d, Promised(states, labels, t, d, j));
    }
  }
}
