/**
 The bridge between the two layers: a system call that runs with no other task stepping in between, and no
 signal, does in the transition system exactly what the method of PollDevice.Device of the same name
 promises, within a computed number of steps. The only ways to stop short of the return are the two sleeps
 of the source: a blocking read or write whose predicate blocks, and a poller none of whose events is up.
 The same is said of a sleeper that has been roused, by a wake-up or by a signal, and runs on alone.
 */
module PollSolo {
  import opened Ring
  import opened PollState
  import opened PollInvariant
  import opened PollWakeup
  import opened PollTheorems

  // ---------------------------------------------------------------------------------------------
  // What a call has done so far, alone
  // ---------------------------------------------------------------------------------------------

  /** The value loaded so far is the one in r. */
  predicate Current(seen: Seen, r: Store) {
    (seen.SawIr? ==> seen.v == r.ir) && (seen.SawIw? ==> seen.v == r.iw)
  }

  /** The arguments of the call are the ones it started with. */
  predicate SameArguments(k: Call, k0: Call) {
    k.dir == k0.dir && k.nonblock == k0.nonblock && k.len == k0.len && k.data == k0.data
  }

  /** What the call has done to the ring r0 it started from, as an atomic operation not yet complete. */
  predicate Moved(n: int, k: Call, r: Store) {
    match k.dir
    case In => k.i <= |k.snap| && k.output == k.snap[..k.i] && Stored(n, r) == k.snap[k.i..]
    case Out => k.i <= |k.data| && Stored(n, r) == k.snap + k.data[..k.i]
  }

  /** A read moves only ir, a write only iw. */
  predicate OtherIndexSame(d: Dir, r: Store, r0: Store) {
    match d case In => r.iw == r0.iw case Out => r.ir == r0.ir
  }

  /** Before the semaphore: the ring is untouched, and the way taken is decided by r0. A call that is late,
      having been roused in schedule(), is past the O_NONBLOCK test. */
  predicate WaitingAlone(w: WaitPc, k: Task, k0: Call, late: bool, r0: Store, r: Store) {
    var blocked := Blocked(k0.dir, r0.ir, r0.iw);
    var sleeps := blocked && (late || !k0.nonblock);
    && r == r0
    && match w
       case First(seen) => Current(seen, r0) && !late
       case AddQueue => (blocked ==> sleeps) && !late
       case Head(seen) => Current(seen, r0) && (blocked ==> sleeps)
       case MarkSleep => sleeps
       case Recheck(seen) => Current(seen, r0) && sleeps && !k.awake
       case Schedule => if k.awake then late else sleeps
       case SignalTest => late
       case MarkRun => !blocked
       case Unqueue => !blocked
       case Down => !blocked
       case _ => false
  }

  /** The call finished: as Device.Read and Device.Write say. */
  predicate FinishedAlone(n: int, k: Task, k0: Call, late: bool, r0: Store, r: Store) {
    if Blocked(k0.dir, r0.ir, r0.iw) then !late && k0.nonblock && k.ret == Again && r == r0
    else
      && k.ret == Count(k.call.i)
      && Finished(n, k.call) && Moved(n, k.call, r) && k.call.snap == Stored(n, r0)
  }

  predicate CallAlone(n: int, k: Task, k0: Call, late: bool, r0: Store, r: Store) {
    && SameArguments(k.call, k0) && OtherIndexSame(k0.dir, r, r0)
    && match k.loc
       case Waiting(w) => WaitingAlone(w, k, k0, late, r0, r) && !k.signal
       case User => FinishedAlone(n, k, k0, late, r0, r)
       case WakeOther =>
         !Blocked(k0.dir, r0.ir, r0.iw) && k.call.snap == Stored(n, r0) && Moved(n, k.call, r)
       case _ =>
         SemaLoc(k.loc) && !Blocked(k0.dir, r0.ir, r0.iw) && k.call.snap == Stored(n, r0)
  }

  /** A signal met the call in schedule(): it unqueues and returns, moving nothing. */
  predicate SignalledAlone(k: Task, k0: Task, r0: Store, r: Store) {
    && r == r0 && k.call == k0.call
    && match k.loc
       case Waiting(w) => k.signal && (w.Schedule? || w.SignalTest? || w.SignalRun? || w.SignalUnqueue?)
       case User => k.ret == Restart && !k.signal
       case _ => false
  }

  /** A poller that has been roused in the poll core, or has timed out: it reports what it saw. */
  predicate PollEnding(k: Task, k0: Task, r0: Store, r: Store) {
    && r == r0 && k.poll == k0.poll
    && match k.loc
       case Polling(p) => (p.PollWait? && (k.awake || k.signal)) || p.PollDequeue?
       case User => k.ret == Events(k0.poll.gotIn, k0.poll.gotOut) && !k.signal
       case _ => false
  }

  /** device_poll and the poll core: the ring stays r0, and the events are those of r0. */
  predicate PollAlone(k: Task, k0: Poll, r0: Store, r: Store) {
    var pollin, pollout := !Empty(r0.ir, r0.iw), !Full(r0.ir, r0.iw);
    && r == r0 && k.poll.wantIn == k0.wantIn && k.poll.wantOut == k0.wantOut
    && match k.loc
       case Polling(p) =>
         && !k.signal && !k.awake
         && (p.PollIn? ==> Current(p.seen, r0))
         && (p.PollOut? ==> Current(p.seen, r0))
         && (p.PollOut? || p.PollUnlock? || p.PollWait? || p.PollDequeue? ==> k.poll.gotIn == pollin)
         && (p.PollUnlock? || p.PollWait? || p.PollDequeue? ==> k.poll.gotOut == pollout)
         && (p.PollDequeue? ==> (k0.wantIn && pollin) || (k0.wantOut && pollout))
       case User => k.ret == Events(pollin, pollout) && ((k0.wantIn && pollin) || (k0.wantOut && pollout))
       case _ => false
  }

  /** The ring after ir=iw=0. */
  function Emptied(r: Store): Store {
    r.(ir := 0, iw := 0, accepted := [], returned := [], resetting := false)
  }

  predicate Opened(x: Files, y: Files) {
    && y.useCount == x.useCount + 1 && x.open < y.open
    && y.users == x.users && y.closers == x.closers
  }

  predicate OpenAlone(k: Task, sh0: Shared, sh: Shared) {
    var first := sh0.files.useCount == 0;
    && sh.sema == sh0.sema
    && match k.loc
       case Opening(o) =>
         && (if o.OpenUnlock? then Opened(sh0.files, sh.files) else sh.files == sh0.files)
         && (match o
             case OpenZeroIw => first && sh.ring == sh0.ring
             case OpenZeroIr => first && sh.ring == sh0.ring.(iw := 0, resetting := true)
             case OpenCount => sh.ring == if first then Emptied(sh0.ring) else sh0.ring
             case OpenUnlock => sh.ring == if first then Emptied(sh0.ring) else sh0.ring
             case _ => sh.ring == sh0.ring)
       case User =>
         && k.ret == Success && Opened(sh0.files, sh.files)
         && sh.ring == if first then Emptied(sh0.ring) else sh0.ring
       case _ => false
  }

  predicate Released(t: Tid, x: Files, y: Files) {
    && t in x.closers
    && y == x.(useCount := x.useCount - 1, open := x.open - {x.closers[t]}, closers := x.closers - {t})
  }

  predicate CloseAlone(t: Tid, k: Task, sh0: Shared, sh: Shared) {
    && sh.ring == sh0.ring
    && match k.loc
       case Closing(p) => if p.CloseUnlock? then Released(t, sh0.files, sh.files) else sh.files == sh0.files
       case User => k.ret == Success && Released(t, sh0.files, sh.files)
       case _ => false
  }

  /** A read, write or poll leaves use_count, the open files and the releases in progress alone. */
  predicate SameFiles(x: Files, y: Files) {
    y.useCount == x.useCount && y.open == x.open && y.closers == x.closers
  }

  /** Task t of state s, which entered its call in state s0 and has run alone since. */
  predicate Alone(n: int, t: Tid, s0: State, s: State)
    requires t in s0.tasks && t in s.tasks
  {
    var k0, k := s0.tasks[t], s.tasks[t];
    match k0.loc
    case Waiting(w) =>
      && (if k0.signal then SignalledAlone(k, k0, s0.sh.ring, s.sh.ring)
          else CallAlone(n, k, k0.call, w.Schedule?, s0.sh.ring, s.sh.ring) && !k.signal)
      && SameFiles(s0.sh.files, s.sh.files) && s.sh.lock == s0.sh.lock
    case Polling(p) =>
      && (if p.PollQin? then PollAlone(k, k0.poll, s0.sh.ring, s.sh.ring) && !k.signal
          else PollEnding(k, k0, s0.sh.ring, s.sh.ring))
      && SameFiles(s0.sh.files, s.sh.files) && s.sh.sema == s0.sh.sema
    case Opening(_) => OpenAlone(k, s0.sh, s.sh) && !k.signal
    case Closing(_) => CloseAlone(t, k, s0.sh, s.sh) && !k.signal
    case _ => false
  }

  /** Nobody else holds what a task that starts as k0 needs: the semaphore for a read or write, the lock for
      the others, nothing for a call that only has to return. */
  predicate Unheld(t: Tid, k0: Task, sh: Shared) {
    match k0.loc
    case Waiting(_) => k0.signal || sh.sema == Free || sh.sema == Held(t)
    case Polling(p) => !p.PollQin? || sh.lock == Free || sh.lock == Held(t)
    case _ => sh.lock == Free || sh.lock == Held(t)
  }

  /** A step without a signal or a timeout. */
  predicate Plain(c: Choice) {
    !c.Signal? && !c.Interrupt? && !c.Timeout?
  }

  // ---------------------------------------------------------------------------------------------
  // One step alone
  // ---------------------------------------------------------------------------------------------

  lemma TestAlone(n: int, t: Tid, k: Task, sh: Shared, c: Choice, k0: Call, late: bool, r0: Store)
    requires k.loc.Waiting? && Plain(c) && CallAlone(n, k, k0, late, r0, sh.ring)
    requires k.loc.w.First? || k.loc.w.Head? || k.loc.w.Recheck?
    ensures var o := WaitStep(n, t, k, k.loc.w, sh, c); o.Went? ==> CallAlone(n, o.k, k0, late, r0, o.sh.ring)
  {
  }

  lemma WaitAlone(n: int, t: Tid, k: Task, sh: Shared, c: Choice, k0: Call, late: bool, r0: Store)
    requires k.loc.Waiting? && Plain(c) && CallAlone(n, k, k0, late, r0, sh.ring)
    ensures var o := WaitStep(n, t, k, k.loc.w, sh, c); o.Went? ==> CallAlone(n, o.k, k0, late, r0, o.sh.ring)
  {
    match k.loc.w
    case First(_) => TestAlone(n, t, k, sh, c, k0, late, r0);
    case Head(_) => TestAlone(n, t, k, sh, c, k0, late, r0);
    case Recheck(_) => TestAlone(n, t, k, sh, c, k0, late, r0);
    case _ =>
  }

  /** Inside the semaphore section the arguments, the ring found and the other side's index stay. */
  lemma SectionKeeps(n: int, loc: Loc, k: Call, r: Store)
    requires (loc.Reading? && k.dir == In) || (loc.Writing? && k.dir == Out)
    ensures var x := if loc.Reading? then ReadStep(n, loc.r, k, r) else WriteStep(n, loc.v, k, r);
            x.To? ==>
              && SemaLoc(x.loc) && SameArguments(x.call, k) && x.call.snap == k.snap
              && OtherIndexSame(k.dir, x.ring, r)
  {
  }

  lemma MoveAlone(n: int, t: Tid, k: Task, sh: Shared, c: Choice, k0: Call, late: bool, r0: Store)
    requires (k.loc.Reading? && k0.dir == In) || (k.loc.Writing? && k0.dir == Out)
    requires Plain(c) && CallAlone(n, k, k0, late, r0, sh.ring)
    ensures var o := TaskStep(n, t, k, sh, c); o.Went? ==> CallAlone(n, o.k, k0, late, r0, o.sh.ring)
  {
    SectionKeeps(n, k.loc, k.call, sh.ring);
    var x := if k.loc.Reading? then ReadStep(n, k.loc.r, k.call, sh.ring) else WriteStep(n, k.loc.v, k.call, sh.ring);
    assert TaskStep(n, t, k, sh, c) == InSection(k, sh, x);
  }

  lemma EndAlone(n: int, t: Tid, k: Task, sh: Shared, c: Choice, k0: Call, late: bool, r0: Store)
    requires SharedOk(n, sh) && TaskOk(n, t, k, sh) && (k.loc.Up? || k.loc.WakeOther?)
    requires Plain(c) && CallAlone(n, k, k0, late, r0, sh.ring)
    ensures var o := TaskStep(n, t, k, sh, c); o.Went? ==> CallAlone(n, o.k, k0, late, r0, o.sh.ring)
  {
  }

  lemma CallStepAlone(n: int, t: Tid, k: Task, sh: Shared, c: Choice, k0: Call, late: bool, r0: Store)
    requires SharedOk(n, sh) && TaskOk(n, t, k, sh) && Plain(c) && InCall(k.loc)
    requires CallAlone(n, k, k0, late, r0, sh.ring)
    ensures var o := TaskStep(n, t, k, sh, c); o.Went? ==> CallAlone(n, o.k, k0, late, r0, o.sh.ring)
  {
    match k.loc
    case Waiting(_) => WaitAlone(n, t, k, sh, c, k0, late, r0);
    case Reading(_) => MoveAlone(n, t, k, sh, c, k0, late, r0);
    case Writing(_) => MoveAlone(n, t, k, sh, c, k0, late, r0);
    case _ => EndAlone(n, t, k, sh, c, k0, late, r0);
  }

  lemma CallKeepsFiles(n: int, t: Tid, k: Task, sh: Shared, c: Choice)
    requires InCall(k.loc) && Plain(c)
    ensures var o := TaskStep(n, t, k, sh, c); o.Went? ==> SameFiles(sh.files, o.sh.files) && o.sh.lock == sh.lock
  {
    if k.loc.Waiting? {
      WaitShape(n, t, k, sh, c);
      WaitKeepsLock(n, t, k, sh, c);
    } else {
      SectionShape(n, t, k, sh, c);
    }
  }

  lemma WaitKeepsLock(n: int, t: Tid, k: Task, sh: Shared, c: Choice)
    requires k.loc.Waiting?
    ensures var o := WaitStep(n, t, k, k.loc.w, sh, c); o.Went? ==> o.sh.lock == sh.lock
  {
  }

  lemma PollStepAlone(t: Tid, k: Task, sh: Shared, c: Choice, k0: Poll, r0: Store)
    requires k.loc.Polling? && Plain(c) && PollAlone(k, k0, r0, sh.ring)
    ensures var o := PollStep(t, k, k.loc.p, sh, c); o.Went? ==> PollAlone(o.k, k0, r0, o.sh.ring)
  {
  }

  lemma OpenStepAlone(t: Tid, k: Task, sh: Shared, c: Choice, sh0: Shared)
    requires k.loc.Opening? && OpenAlone(k, sh0, sh) && !sh0.ring.resetting
    ensures var o := OpenStep(t, k, k.loc.o, sh, c); o.Went? ==> OpenAlone(o.k, sh0, o.sh)
  {
  }

  lemma CloseStepAlone(t: Tid, k: Task, sh: Shared, sh0: Shared)
    requires k.loc.Closing? && CloseAlone(t, k, sh0, sh)
    ensures var o := CloseStep(t, k, k.loc.c, sh); o.Went? ==> CloseAlone(t, o.k, sh0, o.sh)
  {
  }

  /** Alone, a call that returns on a signal, */
  lemma SignalledStep(n: int, t: Tid, k: Task, sh: Shared, c: Choice, k0: Task, r0: Store)
    requires k.loc.Waiting? && Plain(c) && SignalledAlone(k, k0, r0, sh.ring)
    ensures var o := WaitStep(n, t, k, k.loc.w, sh, c);
            o.Went? && SignalledAlone(o.k, k0, r0, o.sh.ring) && StepsLeft(o.k) < StepsLeft(k)
  {
  }

  /** and a poll that is over. */
  lemma EndingStep(t: Tid, k: Task, sh: Shared, c: Choice, k0: Task, r0: Store)
    requires k.loc.Polling? && Plain(c) && PollEnding(k, k0, r0, sh.ring)
    ensures var o := PollStep(t, k, k.loc.p, sh, c); o.Went? && PollEnding(o.k, k0, r0, o.sh.ring)
  {
  }

  /** The entry points of the five system calls. */
  predicate Entry(loc: Loc) {
    || loc == Waiting(First(Nothing)) || loc == Polling(PollQin)
    || loc == Opening(OpenLock) || loc == Closing(CloseLock)
  }

  /** Roused: in schedule() or in the poll core, and runnable or with a signal pending; or a poll timed out. */
  predicate Resumes(k: Task) {
    || ((k.loc == Waiting(Schedule) || k.loc == Polling(PollWait)) && (k.awake || k.signal))
    || k.loc == Polling(PollDequeue)
  }

  /** t is about to run a call, or to go on with one it slept in, and what it needs is free. */
  ghost predicate Starts(n: int, s: State, t: Tid) {
    && Inv(n, s) && t in s.tasks
    && var k := s.tasks[t];
       && (|| (Entry(k.loc) && !k.signal && (k.loc.Polling? ==> !k.awake))
           || Resumes(k))
       && match k.loc
          case Waiting(_) => k.signal || s.sh.sema == Free
          case Polling(p) => !p.PollQin? || s.sh.lock == Free
          case _ => s.sh.lock == Free
  }

  /** The state of a call that started in s0. */
  ghost predicate Since(n: int, s0: State, s: State, t: Tid) {
    && Starts(n, s0, t) && Inv(n, s) && t in s.tasks
    && Alone(n, t, s0, s) && Unheld(t, s0.tasks[t], s.sh)
  }

  lemma NoSignalArises(n: int, t: Tid, k: Task, sh: Shared, c: Choice)
    requires !k.signal && Plain(c)
    ensures var o := TaskStep(n, t, k, sh, c); o.Went? ==> !o.k.signal
  {
  }

  lemma StaysAlone(n: int, s0: State, s: State, t: Tid, c: Choice, s': State)
    requires Since(n, s0, s, t) && Step(n, s, t, c, s') && Plain(c) && s.tasks[t].loc != User
    ensures Alone(n, t, s0, s')
  {
    var k0, k := s0.tasks[t], s.tasks[t];
    assert TaskOk(n, t, k, s.sh);
    match k0.loc
    case Waiting(w) =>
      CallKeepsFiles(n, t, k, s.sh, c);
      if k0.signal {
        SignalledStep(n, t, k, s.sh, c, k0, s0.sh.ring);
      } else {
        NoSignalArises(n, t, k, s.sh, c);
        CallStepAlone(n, t, k, s.sh, c, k0.call, w.Schedule?, s0.sh.ring);
      }
    case Polling(p) =>
      PollShape(t, k, s.sh, c);
      if p.PollQin? {
        NoSignalArises(n, t, k, s.sh, c);
        PollStepAlone(t, k, s.sh, c, k0.poll, s0.sh.ring);
      } else {
        EndingStep(t, k, s.sh, c, k0, s0.sh.ring);
      }
    case Opening(_) =>
      NoSignalArises(n, t, k, s.sh, c);
      OpenStepAlone(t, k, s.sh, c, s0.sh);
    case _ =>
      NoSignalArises(n, t, k, s.sh, c);
      CloseStepAlone(t, k, s.sh, s0.sh);
  }

  lemma StepAlone(n: int, s0: State, s: State, t: Tid, c: Choice, s': State)
    requires Since(n, s0, s, t) && Step(n, s, t, c, s') && Plain(c) && s.tasks[t].loc != User
    ensures Since(n, s0, s', t)
  {
    StaysAlone(n, s0, s, t, c, s');
    assert TaskOk(n, t, s.tasks[t], s.sh);
    InvStep(n, s, t, c, s');
    StepSync(n, t, s.tasks[t], s.sh, c);
  }

  // ---------------------------------------------------------------------------------------------
  // The way to the end
  // ---------------------------------------------------------------------------------------------

  /** Steps before the semaphore: to schedule() if the predicate blocks, else to the loop. A call that is
      runnable in schedule() has the rest of its loop before it. */
  function WaitSteps(w: WaitPc, awake: bool): nat {
    match w
    case First(seen) => if seen.Nothing? then 8 else 7
    case AddQueue => 6
    case Head(seen) => if seen.Nothing? then 5 else 4
    case MarkSleep => 3
    case Recheck(seen) => if seen.Nothing? then 2 else 1
    case Schedule => if awake then 7 else 0
    case SignalTest => 6
    case MarkRun => 3
    case Unqueue => 2
    case Down => 1
    case _ => 0
  }

  /** Steps to the return of a call that a signal has met in schedule(). */
  function SignalSteps(w: WaitPc): nat {
    match w
    case Schedule => 4
    case SignalTest => 3
    case SignalRun => 2
    case SignalUnqueue => 1
    case _ => 0
  }

  function PollSteps(p: PollPc): nat {
    match p
    case PollQin => 10
    case PollQout => 9
    case PollLock => 8
    case PollIn(seen) => if seen.Nothing? then 7 else 6
    case PollOut(seen) => if seen.Nothing? then 5 else 4
    case PollUnlock => 3
    case PollWait => 2
    case PollDequeue => 1
  }

  function OpenSteps(o: OpenPc): nat {
    match o
    case OpenLock => 6
    case OpenTest => 5
    case OpenZeroIw => 4
    case OpenZeroIr => 3
    case OpenCount => 2
    case OpenUnlock => 1
  }

  /** A bound on the steps t needs, alone, until it returns or goes to sleep. */
  function StepsLeft(k: Task): nat {
    match k.loc
    case User => 0
    case Waiting(w) => if k.signal then SignalSteps(w) else WaitSteps(w, k.awake) + 4 * k.call.len + 4
    case Polling(p) => PollSteps(p)
    case Opening(o) => OpenSteps(o)
    case Closing(p) => if p.CloseLock? then 3 else if p.CloseCount? then 2 else 1
    case _ => if k.call.i <= k.call.len then StepsToWake(k) + 1 else 0
  }

  /** Asleep with nobody to wake it. */
  predicate Asleep(k: Task) {
    && !k.awake && !k.signal
    && (|| k.loc == Waiting(Schedule)
        || (k.loc == Polling(PollWait) && !(k.poll.wantIn && k.poll.gotIn) && !(k.poll.wantOut && k.poll.gotOut)))
  }

  /** The choice that lets t go on; f is the file object an open publishes. */
  function Onward(k: Task, irFirst: bool, f: Fid): Choice {
    if k.loc == Opening(OpenCount) then Publish(f) else Go(irFirst)
  }

  lemma CallNears(n: int, t: Tid, k: Task, sh: Shared, c: Choice, k0: Call, late: bool, r0: Store)
    requires SharedOk(n, sh) && TaskOk(n, t, k, sh) && Plain(c) && InCall(k.loc)
    requires CallAlone(n, k, k0, late, r0, sh.ring)
    ensures var o := TaskStep(n, t, k, sh, c); o.Went? ==> StepsLeft(o.k) < StepsLeft(k)
  {
    if k.loc.Waiting? {
      WaitNears(n, t, k, sh, c, k0, late, r0);
    } else {
      SectionNears(n, t, k, sh, c);
    }
  }

  lemma SectionNears(n: int, t: Tid, k: Task, sh: Shared, c: Choice)
    requires TransferLoc(k.loc) && Plain(c) && k.call.i <= k.call.len
    requires k.call.i == k.call.len ==> k.loc != Reading(ReadByte) && k.loc != Writing(WriteAdvance)
    ensures var o := TaskStep(n, t, k, sh, c); o.Went? ==> StepsLeft(o.k) < StepsLeft(k)
  {
    if k.loc.Reading? || k.loc.Writing? {
      MoverNears(n, k, sh.ring);
    }
  }

  lemma WaitNears(n: int, t: Tid, k: Task, sh: Shared, c: Choice, k0: Call, late: bool, r0: Store)
    requires k.loc.Waiting? && k.call.i == 0 && Plain(c) && CallAlone(n, k, k0, late, r0, sh.ring)
    ensures var o := WaitStep(n, t, k, k.loc.w, sh, c); o.Went? ==> StepsLeft(o.k) < StepsLeft(k)
  {
    if k.loc.w.Down? {
    } else {
      TestNears(n, t, k, sh, c);
    }
  }

  /** Before the semaphore every step but the return to the loop test goes on towards the loop or schedule(). */
  lemma TestNears(n: int, t: Tid, k: Task, sh: Shared, c: Choice)
    requires k.loc.Waiting? && !k.loc.w.Down? && !SignalLoc(k.loc) && !k.signal
    requires k.loc.w.Recheck? ==> !k.awake && (k.loc.w.seen.Nothing? || Judge(k.call.dir, k.loc.w.seen, sh.ring))
    ensures var o := WaitStep(n, t, k, k.loc.w, sh, c); o.Went? ==> StepsLeft(o.k) < StepsLeft(k)
  {
  }

  lemma PollNears(t: Tid, k: Task, sh: Shared, c: Choice)
    requires k.loc.Polling?
    ensures var o := PollStep(t, k, k.loc.p, sh, c); o.Went? ==> StepsLeft(o.k) < StepsLeft(k)
  {
  }

  lemma OpenNears(t: Tid, k: Task, sh: Shared, c: Choice)
    requires k.loc.Opening?
    ensures var o := OpenStep(t, k, k.loc.o, sh, c); o.Went? ==> StepsLeft(o.k) < StepsLeft(k)
  {
  }

  lemma CloseNears(t: Tid, k: Task, sh: Shared)
    requires k.loc.Closing?
    ensures var o := CloseStep(t, k, k.loc.c, sh); o.Went? ==> StepsLeft(o.k) < StepsLeft(k)
  {
  }

  /** Every step alone brings the call nearer to its end. */
  lemma StepNears(n: int, s0: State, s: State, t: Tid, c: Choice, s': State)
    requires Since(n, s0, s, t) && Step(n, s, t, c, s') && Plain(c) && s.tasks[t].loc != User
    ensures StepsLeft(s'.tasks[t]) < StepsLeft(s.tasks[t])
  {
    var k := s.tasks[t];
    assert TaskOk(n, t, k, s.sh);
    match s0.tasks[t].loc
    case Waiting(w) =>
      if s0.tasks[t].signal {
        SignalledStep(n, t, k, s.sh, c, s0.tasks[t], s0.sh.ring);
      } else {
        CallNears(n, t, k, s.sh, c, s0.tasks[t].call, w.Schedule?, s0.sh.ring);
      }
    case Polling(_) => PollNears(t, k, s.sh, c);
    case Opening(_) => OpenNears(t, k, s.sh, c);
    case _ => CloseNears(t, k, s.sh);
  }

  lemma CallMoves(n: int, t: Tid, k: Task, sh: Shared, irFirst: bool, k0: Call, late: bool, r0: Store)
    requires SharedOk(n, sh) && TaskOk(n, t, k, sh) && InCall(k.loc) && CallAlone(n, k, k0, late, r0, sh.ring)
    requires (sh.sema == Free || sh.sema == Held(t)) && !Asleep(k)
    ensures TaskStep(n, t, k, sh, Go(irFirst)).Went?
  {
    if k.loc.Waiting? {
    } else {
      SectionRing(n, t, k, sh, Go(irFirst));
    }
  }

  lemma PollMoves(n: int, t: Tid, k: Task, sh: Shared, irFirst: bool)
    requires SyncOk(t, k, sh) && k.loc.Polling? && (sh.lock == Free || sh.lock == Held(t)) && !Asleep(k)
    ensures TaskStep(n, t, k, sh, Go(irFirst)).Went?
  {
  }

  lemma OpenMoves(n: int, t: Tid, k: Task, sh: Shared, irFirst: bool, f: Fid)
    requires SyncOk(t, k, sh) && (k.loc.Opening? || k.loc.Closing?) && (sh.lock == Free || sh.lock == Held(t))
    requires f !in sh.files.open && (t in sh.files.closers <==> CloseLoc(k.loc))
    ensures TaskStep(n, t, k, sh, Onward(k, irFirst, f)).Went?
  {
  }

  /** A task that started as k0, in a read or write. */
  lemma CallNeverStuck(n: int, s0: State, s: State, t: Tid, irFirst: bool)
    requires Since(n, s0, s, t) && s0.tasks[t].loc.Waiting?
    requires s.tasks[t].loc != User && !Asleep(s.tasks[t])
    ensures TaskStep(n, t, s.tasks[t], s.sh, Go(irFirst)).Went?
  {
    var k0, k := s0.tasks[t], s.tasks[t];
    assert TaskOk(n, t, k, s.sh);
    if k0.signal {
      SignalledStep(n, t, k, s.sh, Go(irFirst), k0, s0.sh.ring);
    } else {
      CallMoves(n, t, k, s.sh, irFirst, k0.call, k0.loc.w.Schedule?, s0.sh.ring);
    }
  }

  /** And it can always take one, unless it has returned or sleeps. */
  lemma NeverStuck(n: int, s0: State, s: State, t: Tid, irFirst: bool, f: Fid)
    requires Since(n, s0, s, t) && f !in s.sh.files.open
    requires s.tasks[t].loc != User && !Asleep(s.tasks[t])
    ensures TaskStep(n, t, s.tasks[t], s.sh, Onward(s.tasks[t], irFirst, f)).Went?
  {
    var k := s.tasks[t];
    assert TaskOk(n, t, k, s.sh);
    match s0.tasks[t].loc
    case Waiting(_) => CallNeverStuck(n, s0, s, t, irFirst);
    case Polling(p) =>
      if p.PollQin? {
        PollMoves(n, t, k, s.sh, irFirst);
      } else {
        EndingStep(t, k, s.sh, Go(irFirst), s0.tasks[t], s0.sh.ring);
      }
    case _ => OpenMoves(n, t, k, s.sh, irFirst, f);
  }

  lemma AsleepIsStuck(n: int, t: Tid, k: Task, sh: Shared, c: Choice)
    requires Asleep(k) && Plain(c)
    ensures TaskStep(n, t, k, sh, c).Stuck?
  {
  }

  // ---------------------------------------------------------------------------------------------
  // Runs of one call
  // ---------------------------------------------------------------------------------------------

  /** Task t runs alone from the entry of a call, or from where it is roused, at most to its return. */
  ghost predicate SoloCall(n: int, states: seq<State>, labels: seq<Label>, t: Tid) {
    && Trace(n, states, labels) && Starts(n, states[0], t)
    && (forall j :: 0 <= j < |labels| ==>
          labels[j].t == t && Plain(labels[j].c) && t in states[j].tasks && states[j].tasks[t].loc != User)
  }

  lemma {:induction false} SoloRun(n: int, states: seq<State>, labels: seq<Label>, t: Tid)
    requires SoloCall(n, states, labels, t)
    ensures Since(n, states[0], states[|labels|], t)
    ensures |labels| + StepsLeft(states[|labels|].tasks[t]) <= StepsLeft(states[0].tasks[t])
    decreases |labels|
  {
    if labels == [] {
    } else {
      var m := |labels| - 1;
      SoloRun(n, states[..m + 1], labels[..m], t);
      StepNears(n, states[0], states[m], t, labels[m].c, states[m + 1]);
      StepAlone(n, states[0], states[m], t, labels[m].c, states[m + 1]);
    }
  }

  lemma SoloAt(n: int, states: seq<State>, labels: seq<Label>, t: Tid, j: nat)
    requires SoloCall(n, states, labels, t) && j <= |labels|
    ensures Since(n, states[0], states[j], t)
  {
    SoloRun(n, states[..j + 1], labels[..j], t);
  }

  /** The run cannot be continued: t has returned, or sleeps. */
  predicate Ended(k: Task) {
    k.loc == User || Asleep(k)
  }

  /** There is always a file object not yet open. */
  lemma {:induction false} FreshFile(open: set<Fid>) returns (f: Fid)
    ensures forall e :: e in open ==> e < f
  {
    if open == {} {
      f := 0;
    } else {
      var e :| e in open;
      var g := FreshFile(open - {e});
      f := if g <= e then e + 1 else g;
      assert forall x :: x in open ==> x == e || x in open - {e};
    }
  }

  lemma SoloExtends(n: int, states: seq<State>, labels: seq<Label>, t: Tid, c: Choice, s': State)
    requires SoloCall(n, states, labels, t) && Plain(c) && Step(n, states[|labels|], t, c, s')
    requires states[|labels|].tasks[t].loc != User
    ensures SoloCall(n, states + [s'], labels + [Label(t, c)], t)
  {
    var xs, ls := states + [s'], labels + [Label(t, c)];
    forall j | 0 <= j < |ls| ensures Step(n, xs[j], ls[j].t, ls[j].c, xs[j + 1]) {
      if j < |labels| {
        assert Step(n, states[j], labels[j].t, labels[j].c, states[j + 1]);
      }
    }
  }

  lemma StepExists(n: int, s0: State, s: State, t: Tid) returns (c: Choice, s': State)
    requires Since(n, s0, s, t) && !Ended(s.tasks[t])
    ensures Plain(c) && Step(n, s, t, c, s')
  {
    var f := FreshFile(s.sh.files.open);
    c := Onward(s.tasks[t], true, f);
    NeverStuck(n, s0, s, t, true, f);
    s' := Apply(s, t, TaskStep(n, t, s.tasks[t], s.sh, c));
  }

  /** Every run of a call alone can be continued to its end. */
  lemma {:induction false} RunsToEnd(n: int, states: seq<State>, labels: seq<Label>, t: Tid)
      returns (states': seq<State>, labels': seq<Label>)
    requires SoloCall(n, states, labels, t)
    ensures SoloCall(n, states', labels', t) && states <= states' && labels <= labels'
    ensures t in states'[|labels'|].tasks && Ended(states'[|labels'|].tasks[t])
    decreases StepsLeft(states[0].tasks[t]) - |labels|
  {
    SoloRun(n, states, labels, t);
    if Ended(states[|labels|].tasks[t]) {
      states', labels' := states, labels;
    } else {
      var c, s' := StepExists(n, states[0], states[|labels|], t);
      SoloExtends(n, states, labels, t, c, s');
      SoloRun(n, states + [s'], labels + [Label(t, c)], t);
      states', labels' := RunsToEnd(n, states + [s'], labels + [Label(t, c)], t);
    }
  }

  // ---------------------------------------------------------------------------------------------
  // Theorems: the five calls, alone
  // ---------------------------------------------------------------------------------------------

  /** t can take a further step of its call, in whatever order it loads and whatever file it opens. */
  ghost predicate CanGoOn(n: int, s: State, t: Tid) {
    && t in s.tasks
    && forall irFirst: bool, f: Fid :: f !in s.sh.files.open ==>
         TaskStep(n, t, s.tasks[t], s.sh, Onward(s.tasks[t], irFirst, f)).Went?
  }

  /** t sleeps, and no step of its own without a signal or a timeout is possible. */
  ghost predicate SleepsFast(n: int, s: State, t: Tid) {
    && t in s.tasks && Asleep(s.tasks[t])
    && forall c: Choice :: Plain(c) ==> TaskStep(n, t, s.tasks[t], s.sh, c).Stuck?
  }

  lemma GoesOnOrEnds(n: int, s0: State, s: State, t: Tid)
    requires Since(n, s0, s, t)
    ensures Ended(s.tasks[t]) || CanGoOn(n, s, t)
    ensures Asleep(s.tasks[t]) ==> SleepsFast(n, s, t)
  {
    if Asleep(s.tasks[t]) {
      forall c: Choice | Plain(c) ensures TaskStep(n, t, s.tasks[t], s.sh, c).Stuck? {
        AsleepIsStuck(n, t, s.tasks[t], s.sh, c);
      }
    }
    if !Ended(s.tasks[t]) {
      forall irFirst: bool, f: Fid | f !in s.sh.files.open
        ensures TaskStep(n, t, s.tasks[t], s.sh, Onward(s.tasks[t], irFirst, f)).Went?
      {
        NeverStuck(n, s0, s, t, irFirst, f);
      }
    }
  }

  /** A read alone, at any point of it. Within 4 * len + 12 steps it returns -EAGAIN (empty ring, O_NONBLOCK),
      sleeps (empty ring, blocking), or returns after one atomic dequeue of up to len characters. */
  lemma SoloRead(n: int, states: seq<State>, labels: seq<Label>, t: Tid)
    requires SoloCall(n, states, labels, t)
    requires states[0].tasks[t].loc == Waiting(First(Nothing)) && states[0].tasks[t].call.dir == In
    ensures |labels| <= 4 * states[0].tasks[t].call.len + 12
    ensures var s, k0 := states[|labels|], states[0].tasks[t].call;
            var q, q' := Stored(n, states[0].sh.ring), Stored(n, s.sh.ring);
            && t in s.tasks && SameFiles(states[0].sh.files, s.sh.files)
            && var k := s.tasks[t];
            if k.loc == User then
              if q == [] then k.ret == Again && k0.nonblock && s.sh.ring == states[0].sh.ring
              else k.ret == Count(|k.call.output|) && Atomic(n, q, Dequeue(k0.len, k.call.output), q')
            else if Asleep(k) then SleepsFast(n, s, t) && q == [] && !k0.nonblock && s.sh.ring == states[0].sh.ring
            else CanGoOn(n, s, t)
  {
    SoloRun(n, states, labels, t);
    GoesOnOrEnds(n, states[0], states[|labels|], t);
    var r0 := states[0].sh.ring;
    ContentsLength(n, r0.buf, r0.ir, r0.iw);
    PollReportsExactly(n, r0.ir, r0.iw);
  }

  /** A write alone: the same with buffer_full() and one atomic enqueue of as much as fits. */
  lemma SoloWrite(n: int, states: seq<State>, labels: seq<Label>, t: Tid)
    requires SoloCall(n, states, labels, t)
    requires states[0].tasks[t].loc == Waiting(First(Nothing)) && states[0].tasks[t].call.dir == Out
    ensures |labels| <= 4 * states[0].tasks[t].call.len + 12
    ensures var s, k0, r0 := states[|labels|], states[0].tasks[t].call, states[0].sh.ring;
            var q, q' := Stored(n, r0), Stored(n, s.sh.ring);
            && t in s.tasks && SameFiles(states[0].sh.files, s.sh.files)
            && var k := s.tasks[t];
            if k.loc == User then
              if Full(r0.ir, r0.iw) then k.ret == Again && k0.nonblock && s.sh.ring == r0
              else k.ret == Count(k.call.i) && Atomic(n, q, Enqueue(k0.data, k.call.i), q')
            else if Asleep(k) then SleepsFast(n, s, t) && Full(r0.ir, r0.iw) && !k0.nonblock && s.sh.ring == r0
            else CanGoOn(n, s, t)
  {
    SoloRun(n, states, labels, t);
    GoesOnOrEnds(n, states[0], states[|labels|], t);
    assert TaskOk(n, t, states[0].tasks[t], states[0].sh);
  }

  /** A poll alone: within 10 steps it has reported the events of the ring as it stands, or sleeps because
      none of the asked ones is up. The ring is left alone. */
  lemma SoloPoll(n: int, states: seq<State>, labels: seq<Label>, t: Tid)
    requires SoloCall(n, states, labels, t) && states[0].tasks[t].loc == Polling(PollQin)
    ensures |labels| <= 10
    ensures var s, k0, r0 := states[|labels|], states[0].tasks[t].poll, states[0].sh.ring;
            var q := Stored(n, r0);
            var pollin := q != [] || (r0.ir == n && r0.iw == 0);
            var pollout := |q| < n - 1 || (r0.ir == 0 && r0.iw == n - 1) || (r0.ir == 1 && r0.iw == n);
            var asked := (k0.wantIn && pollin) || (k0.wantOut && pollout);
            && t in s.tasks && s.sh.ring == r0 && SameFiles(states[0].sh.files, s.sh.files)
            && (if s.tasks[t].loc == User then s.tasks[t].ret == Events(pollin, pollout) && asked
                else if Asleep(s.tasks[t]) then SleepsFast(n, s, t) && !asked
                else CanGoOn(n, s, t))
  {
    SoloRun(n, states, labels, t);
    GoesOnOrEnds(n, states[0], states[|labels|], t);
    var r0 := states[0].sh.ring;
    ContentsLength(n, r0.buf, r0.ir, r0.iw);
    PollReportsExactly(n, r0.ir, r0.iw);
  }

  /** An open alone: within 6 steps it has returned; the first open leaves an empty ring at index 0. */
  lemma SoloOpen(n: int, states: seq<State>, labels: seq<Label>, t: Tid)
    requires SoloCall(n, states, labels, t) && states[0].tasks[t].loc.Opening?
    ensures |labels| <= 6
    ensures var s, sh0 := states[|labels|], states[0].sh;
            && t in s.tasks
            && if s.tasks[t].loc != User then CanGoOn(n, s, t)
               else
                 && s.tasks[t].ret == Success && Opened(sh0.files, s.sh.files)
                 && s.sh.ring == if sh0.files.useCount == 0 then Emptied(sh0.ring) else sh0.ring
  {
    SoloRun(n, states, labels, t);
    GoesOnOrEnds(n, states[0], states[|labels|], t);
  }

  /** A release alone: within 3 steps it has closed its file and lowered use_count. */
  lemma SoloClose(n: int, states: seq<State>, labels: seq<Label>, t: Tid)
    requires SoloCall(n, states, labels, t) && states[0].tasks[t].loc.Closing?
    ensures |labels| <= 3
    ensures var s, sh0 := states[|labels|], states[0].sh;
            && t in s.tasks && s.sh.ring == sh0.ring
            && if s.tasks[t].loc != User then CanGoOn(n, s, t)
               else s.tasks[t].ret == Success && Released(t, sh0.files, s.sh.files)
  {
    SoloRun(n, states, labels, t);
    GoesOnOrEnds(n, states[0], states[|labels|], t);
  }

  // ---------------------------------------------------------------------------------------------
  // Theorems: after the sleep
  // ---------------------------------------------------------------------------------------------

  /** In every state a task roused in schedule() or in the poll core can go on, whatever the others hold; and a
      poller can always time out. */
  lemma RousedCanGoOn(n: int, s: State, t: Tid)
    requires Reachable(n, s) && t in s.tasks
    ensures Resumes(s.tasks[t]) ==> CanGoOn(n, s, t)
    ensures s.tasks[t].loc == Polling(PollWait) ==> TaskStep(n, t, s.tasks[t], s.sh, Timeout).Went?
  {
    if Resumes(s.tasks[t]) {
      forall irFirst: bool, f: Fid | f !in s.sh.files.open
        ensures TaskStep(n, t, s.tasks[t], s.sh, Onward(s.tasks[t], irFirst, f)).Went?
      {
        ResumeMoves(n, t, s.tasks[t], s.sh, irFirst);
      }
    }
  }

  lemma ResumeMoves(n: int, t: Tid, k: Task, sh: Shared, irFirst: bool)
    requires Resumes(k)
    ensures TaskStep(n, t, k, sh, Go(irFirst)).Went?
  {
  }

  /** A reader or writer woken in schedule() without a signal, running on alone: within 4 * len + 11 steps it
      sleeps again if its predicate blocks, and otherwise returns after one atomic dequeue or enqueue. */
  lemma SoloAfterWakeup(n: int, states: seq<State>, labels: seq<Label>, t: Tid)
    requires SoloCall(n, states, labels, t)
    requires states[0].tasks[t].loc == Waiting(Schedule) && !states[0].tasks[t].signal
    ensures |labels| <= 4 * states[0].tasks[t].call.len + 11
    ensures var s, k0, r0 := states[|labels|], states[0].tasks[t].call, states[0].sh.ring;
            var q, q' := Stored(n, r0), Stored(n, s.sh.ring);
            && t in s.tasks
            && var k := s.tasks[t];
            if k.loc == User then
              && !Blocked(k0.dir, r0.ir, r0.iw) && k.ret == Count(k.call.i)
              && Atomic(n, q, if k0.dir == In then Dequeue(k0.len, k.call.output) else Enqueue(k0.data, k.call.i), q')
              && (k0.dir == In ==> k.call.i == |k.call.output|)
            else if Asleep(k) then SleepsFast(n, s, t) && Blocked(k0.dir, r0.ir, r0.iw) && s.sh.ring == r0
            else CanGoOn(n, s, t)
  {
    SoloRun(n, states, labels, t);
    GoesOnOrEnds(n, states[0], states[|labels|], t);
    assert TaskOk(n, t, states[0].tasks[t], states[0].sh);
  }

  /** A reader or writer in schedule() with a signal pending, running on alone: within 4 steps it has returned
      -ERESTARTSYS, having moved nothing. */
  lemma SoloAfterSignal(n: int, states: seq<State>, labels: seq<Label>, t: Tid)
    requires SoloCall(n, states, labels, t)
    requires states[0].tasks[t].loc == Waiting(Schedule) && states[0].tasks[t].signal
    ensures |labels| <= 4
    ensures var s := states[|labels|];
            && t in s.tasks && s.sh.ring == states[0].sh.ring && s.tasks[t].call == states[0].tasks[t].call
            && if s.tasks[t].loc == User then s.tasks[t].ret == Restart && !s.tasks[t].signal else CanGoOn(n, s, t)
  {
    SoloRun(n, states, labels, t);
    GoesOnOrEnds(n, states[0], states[|labels|], t);
  }

  /** A poller that is woken, signalled or timed out, running on alone: within 2 steps it has returned the
      events it had seen. */
  lemma SoloAfterPolling(n: int, states: seq<State>, labels: seq<Label>, t: Tid)
    requires SoloCall(n, states, labels, t)
    requires states[0].tasks[t].loc == Polling(PollWait) || states[0].tasks[t].loc == Polling(PollDequeue)
    ensures |labels| <= 2
    ensures var s, k0 := states[|labels|], states[0].tasks[t].poll;
            && t in s.tasks && s.sh.ring == states[0].sh.ring
            && if s.tasks[t].loc == User then s.tasks[t].ret == Events(k0.gotIn, k0.gotOut) else CanGoOn(n, s, t)
  {
    SoloRun(n, states, labels, t);
    GoesOnOrEnds(n, states[0], states[|labels|], t);
  }

  /** A signal gets a call out of down_interruptible as well, whoever holds the semaphore: it returns
      -ERESTARTSYS, having moved nothing. */
  lemma SignalInterruptsDown(n: int, s: State, t: Tid) returns (s': State)
    requires Reachable(n, s) && t in s.tasks && s.tasks[t].loc == Waiting(Down) && s.tasks[t].signal
    ensures Step(n, s, t, Interrupt, s') && s'.sh.ring == s.sh.ring && s'.sh.sema == s.sh.sema
    ensures s'.tasks[t].loc == User && s'.tasks[t].ret == Restart && s'.tasks[t].call == s.tasks[t].call
  {
    s' := Apply(s, t, TaskStep(n, t, s.tasks[t], s.sh, Interrupt));
  }

  /** The arrival of a signal rouses a sleeper, whatever the others hold; SoloAfterSignal and SoloAfterPolling
      say what it does then. */
  lemma SignalRouses(n: int, s: State, t: Tid, s': State)
    requires Reachable(n, s) && t in s.tasks && Asleep(s.tasks[t]) && Step(n, s, t, Signal, s')
    ensures Starts(n, s', t) && s'.tasks[t].signal && s'.tasks[t].loc == s.tasks[t].loc
    ensures s'.sh == s.sh && s'.tasks[t].call == s.tasks[t].call && s'.tasks[t].poll == s.tasks[t].poll
  {
    InvReachable(n, s);
    InvStep(n, s, t, Signal, s');
  }
}
