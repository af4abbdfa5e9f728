/**
 poll.c as a transition system: any number of tasks, each with a program counter inside
 device_read, device_write, device_poll, device_open or device_release.

 Granularity. A step makes at most one store to the ring, to an index, to use_count, to a lock or to a wait
 queue, except that a poller leaves both queues in one step, after it has stopped looking at them, and that
 the last step of a call also drops the file reference. The unlocked
 predicates is_buffer_empty() and buffer_full() load their two indices in two separate steps, in
 either order, so they can see any mixture of two instants. A load of a variable that only the task
 itself can change (ring and indices under `sema`, use_count under `lock`) is folded into the step
 that uses it; PollTheorems.OnlyTheHolderMoves justifies that.
 */
module PollState {
  import opened Ring

  type Tid = nat
  type Fid = nat

  /** The two halves of the device: readers wait for data on qin, writers for room on qout. */
  datatype Dir = In | Out

  function Other(d: Dir): Dir {
    match d case In => Out case Out => In
  }

  // ---------------------------------------------------------------------------------------------
  // Program counters
  // ---------------------------------------------------------------------------------------------

  /** Progress of evaluating an unlocked predicate: which index has been loaded, and its value. */
  datatype Seen = Nothing | SawIr(v: int) | SawIw(v: int)

  /** device_read and device_write up to and including down_interruptible; the two are alike. */
  datatype WaitPc =
    | First(seen: Seen)                // first test of the predicate, then O_NONBLOCK
    | AddQueue                         // add_wait_queue
    | Head(seen: Seen)                 // while condition
    | MarkSleep                        // set_current_state(TASK_INTERRUPTIBLE)
    | Recheck(seen: Seen)              // second test inside the loop
    | Schedule                         // schedule()
    | SignalTest                       // signal_pending(current)
    | SignalRun                        // set_current_state(TASK_RUNNING) on the signal path
    | SignalUnqueue                    // remove_wait_queue on the signal path
    | MarkRun                          // set_current_state(TASK_RUNNING)
    | Unqueue                          // remove_wait_queue
    | Down                             // down_interruptible(&sema)

  /** The loop of device_read. */
  datatype ReadPc = ReadTest | ReadByte | ReadWrap

  /** `ih` and the loop of device_write; storing the character and advancing iw are two steps. */
  datatype WritePc = WriteLimit | WriteTest | WriteStore | WriteAdvance | WriteWrap

  /** device_poll, and one pass of its caller in the kernel's poll core. */
  datatype PollPc =
    | PollQin
    | PollQout
    | PollLock
    | PollIn(seen: Seen)
    | PollOut(seen: Seen)
    | PollUnlock
    | PollWait                         // the core: return if an asked event is up, else sleep
    | PollDequeue                      // the core drops its queue entries

  datatype OpenPc = OpenLock | OpenTest | OpenZeroIw | OpenZeroIr | OpenCount | OpenUnlock

  datatype ClosePc = CloseLock | CloseCount | CloseUnlock

  datatype Loc =
    | User
    | Waiting(w: WaitPc)
    | Reading(r: ReadPc)
    | Writing(v: WritePc)
    | Up                               // up(&sema)
    | WakeOther                        // wake_up_interruptible if i > 0
    | Polling(p: PollPc)
    | Opening(o: OpenPc)
    | Closing(c: ClosePc)

  // ---------------------------------------------------------------------------------------------
  // State
  // ---------------------------------------------------------------------------------------------

  /** What the last finished call of a task returned. */
  datatype Ret =
    | NoCall
    | Count(k: nat)
    | Again                            // -EAGAIN
    | Restart                          // -ERESTARTSYS
    | Events(pollin: bool, pollout: bool)
    | Success

  /** Locals of device_read or device_write. `snap`, `ir0`, `iw0` record the ring at the moment the task
      got the semaphore; the device never looks at them. */
  datatype Call = Call(
    dir: Dir, nonblock: bool, len: nat, data: string,
    i: nat, output: string, ih: int,
    snap: string, ir0: int, iw0: int)

  /** The events a poller asked for and the ones device_poll reported. */
  datatype Poll = Poll(wantIn: bool, wantOut: bool, gotIn: bool, gotOut: bool)

  /** One task. `awake` is TASK_RUNNING for a reader or writer, and "woken since the call began" for a
      poller. */
  datatype Task = Task(loc: Loc, awake: bool, signal: bool, ret: Ret, call: Call, poll: Poll)

  /** The ring, the characters accepted and returned since the last reset, and whether a reset is
      between its two stores. */
  datatype Store = Store(buf: string, ir: int, iw: int, accepted: string, returned: string, resetting: bool)

  datatype Holder = Free | Held(t: Tid)

  /** use_count, the open files, the file each read, write or poll in progress holds, and the file each
      device_release in progress works for. */
  datatype Files = Files(useCount: int, open: set<Fid>, users: map<Tid, Fid>, closers: map<Tid, Fid>)

  datatype Shared = Shared(
    ring: Store, sema: Holder, lock: Holder, qin: set<Tid>, qout: set<Tid>, files: Files)

  datatype State = State(sh: Shared, tasks: map<Tid, Task>)

  /** Everything a step leaves open: evaluation order, the arguments of a new call, signals, timeouts. */
  datatype Choice =
    | Go(irFirst: bool)
    | Signal
    | Timeout
    | Interrupt
    | BeginRead(f: Fid, nonblock: bool, len: nat)
    | BeginWrite(f: Fid, nonblock: bool, data: string)
    | BeginPoll(f: Fid, wantIn: bool, wantOut: bool)
    | BeginOpen
    | Publish(f: Fid)                  // the file object whose open is being counted
    | BeginClose(f: Fid)

  datatype Wakeup = NoWake | Wake(d: Dir)

  /** Result of a step: the task cannot move, or it moves, or it touches rbuf outside 0..n-1. */
  datatype Outcome = Stuck | Went(k: Task, sh: Shared, wake: Wakeup) | Crash

  // ---------------------------------------------------------------------------------------------
  // Predicates of the source, one load at a time
  // ---------------------------------------------------------------------------------------------

  /** is_buffer_empty() for readers, buffer_full() for writers. */
  predicate Blocked(d: Dir, ir: int, iw: int) {
    match d case In => Empty(ir, iw) case Out => Full(ir, iw)
  }

  function Load(ring: Store, irFirst: bool): Seen {
    if irFirst then SawIr(ring.ir) else SawIw(ring.iw)
  }

  /** The predicate's value once the second index is loaded. */
  predicate Judge(d: Dir, seen: Seen, ring: Store) {
    match seen
    case SawIr(v) => Blocked(d, v, ring.iw)
    case SawIw(v) => Blocked(d, ring.ir, v)
    case Nothing => Blocked(d, ring.ir, ring.iw)
  }

  // ---------------------------------------------------------------------------------------------
  // Steps of one task
  // ---------------------------------------------------------------------------------------------

  function Queue(sh: Shared, d: Dir): set<Tid> {
    match d case In => sh.qin case Out => sh.qout
  }

  function AddTo(sh: Shared, d: Dir, t: Tid): Shared {
    match d case In => sh.(qin := sh.qin + {t}) case Out => sh.(qout := sh.qout + {t})
  }

  function RemoveFrom(sh: Shared, d: Dir, t: Tid): Shared {
    match d case In => sh.(qin := sh.qin - {t}) case Out => sh.(qout := sh.qout - {t})
  }

  function Move(k: Task, loc: Loc, sh: Shared): Outcome {
    Went(k.(loc := loc), sh, NoWake)
  }

  /** Return to user mode, dropping the file reference; pending signals are delivered. */
  function Return(t: Tid, k: Task, sh: Shared, ret: Ret, wake: Wakeup): Outcome {
    Went(k.(loc := User, ret := ret, signal := false),
         sh.(files := sh.files.(users := sh.files.users - {t})), wake)
  }

  /** A file may be used while it is open and nobody releases it. */
  predicate Usable(files: Files, f: Fid) {
    f in files.open && f !in files.closers.Values
  }

  /** A read, write or poll takes a reference to its file. */
  function Enter(t: Tid, k: Task, sh: Shared, f: Fid): Outcome {
    if Usable(sh.files, f) then
      Went(k.(ret := NoCall), sh.(files := sh.files.(users := sh.files.users[t := f])), NoWake)
    else Stuck
  }

  /** System-call entry. */
  function UserStep(t: Tid, k: Task, sh: Shared, c: Choice): Outcome {
    match c
    case BeginRead(f, nonblock, len) =>
      Enter(t, k.(loc := Waiting(First(Nothing)), call := Call(In, nonblock, len, [], 0, [], 0, [], 0, 0)), sh, f)
    case BeginWrite(f, nonblock, data) =>
      Enter(t, k.(loc := Waiting(First(Nothing)),
                  call := Call(Out, nonblock, |data|, data, 0, [], 0, [], 0, 0)), sh, f)
    case BeginPoll(f, wantIn, wantOut) =>
      Enter(t, k.(loc := Polling(PollQin), awake := false, poll := Poll(wantIn, wantOut, false, false)), sh, f)
    case BeginOpen => Went(k.(loc := Opening(OpenLock), ret := NoCall), sh, NoWake)
    case BeginClose(f) =>
      if Usable(sh.files, f) && f !in sh.files.users.Values then
        Went(k.(loc := Closing(CloseLock), ret := NoCall),
             sh.(files := sh.files.(closers := sh.files.closers[t := f])), NoWake)
      else Stuck
    case _ => Stuck
  }

  /** Lines 78-101 of device_read and 129-151 of device_write, up to and including down_interruptible. */
  function WaitStep(n: int, t: Tid, k: Task, pc: WaitPc, sh: Shared, c: Choice): Outcome {
    match pc
    case First(seen) =>
      if seen.Nothing? then
        if c.Go? then Move(k, Waiting(First(Load(sh.ring, c.irFirst))), sh) else Stuck
      else if Judge(k.call.dir, seen, sh.ring) && k.call.nonblock then Return(t, k, sh, Again, NoWake)
      else Move(k, Waiting(AddQueue), sh)
    case AddQueue => Move(k, Waiting(Head(Nothing)), AddTo(sh, k.call.dir, t))
    case Head(seen) =>
      if seen.Nothing? then
        if c.Go? then Move(k, Waiting(Head(Load(sh.ring, c.irFirst))), sh) else Stuck
      else Move(k, Waiting(if Judge(k.call.dir, seen, sh.ring) then MarkSleep else MarkRun), sh)
    case MarkSleep => Move(k.(awake := false), Waiting(Recheck(Nothing)), sh)
    case Recheck(seen) =>
      if seen.Nothing? then
        if c.Go? then Move(k, Waiting(Recheck(Load(sh.ring, c.irFirst))), sh) else Stuck
      else Move(k, Waiting(if Judge(k.call.dir, seen, sh.ring) then Schedule else MarkRun), sh)
    case Schedule =>
      if k.awake || k.signal then Move(k.(awake := true), Waiting(SignalTest), sh) else Stuck
    case SignalTest => Move(k, Waiting(if k.signal then SignalRun else Head(Nothing)), sh)
    case SignalRun => Move(k.(awake := true), Waiting(SignalUnqueue), sh)
    case SignalUnqueue => Return(t, k, RemoveFrom(sh, k.call.dir, t), Restart, NoWake)
    case MarkRun => Move(k.(awake := true), Waiting(Unqueue), sh)
    case Unqueue => Move(k, Waiting(Down), RemoveFrom(sh, k.call.dir, t))
    case Down =>
      if c.Interrupt? then
        if k.signal then Return(t, k, sh, Restart, NoWake) else Stuck
      else if sh.sema == Free then
        var r := sh.ring;
        Move(k.(call := k.call.(snap := Contents(n, r.buf, r.ir, r.iw), ir0 := r.ir, iw0 := r.iw)),
             if k.call.dir == In then Reading(ReadTest) else Writing(WriteLimit),
             sh.(sema := Held(t)))
      else Stuck
  }

  /** A step inside the semaphore section: new program counter, locals and ring, or a wild access. */
  datatype Transfer = Wild | To(loc: Loc, call: Call, ring: Store)

  /** Lines 103-109. */
  function ReadStep(n: int, pc: ReadPc, k: Call, r: Store): Transfer {
    match pc
    case ReadTest => To(if k.i < k.len && r.ir != r.iw then Reading(ReadByte) else Up, k, r)
    case ReadByte =>
      if 0 <= r.ir < n && r.ir < |r.buf| then
        var ch := r.buf[r.ir];
        To(Reading(ReadWrap), k.(output := k.output + [ch], i := k.i + 1),
           r.(ir := r.ir + 1, returned := r.returned + [ch]))
      else Wild
    case ReadWrap => To(Reading(ReadTest), k, if r.ir == n then r.(ir := 0) else r)
  }

  /** Lines 153-161. */
  function WriteStep(n: int, pc: WritePc, k: Call, r: Store): Transfer {
    match pc
    case WriteLimit =>
      To(Writing(WriteTest), k.(ih := if r.ir - 1 < 0 then r.ir - 1 + n else r.ir - 1), r)
    case WriteTest => To(if k.i < k.len && r.iw != k.ih then Writing(WriteStore) else Up, k, r)
    case WriteStore =>
      if 0 <= r.iw < n && r.iw < |r.buf| && k.i < |k.data| then
        To(Writing(WriteAdvance), k, r.(buf := r.buf[r.iw := k.data[k.i]]))
      else Wild
    case WriteAdvance =>
      if k.i < |k.data| then
        To(Writing(WriteWrap), k.(i := k.i + 1), r.(iw := r.iw + 1, accepted := r.accepted + [k.data[k.i]]))
      else Wild
    case WriteWrap => To(Writing(WriteTest), k, if r.iw == n then r.(iw := 0) else r)
  }

  function InSection(k: Task, sh: Shared, x: Transfer): Outcome {
    match x
    case Wild => Crash
    case To(loc, call, ring) => Went(k.(loc := loc, call := call), sh.(ring := ring), NoWake)
  }

  /** device_poll (lines 45-69) and the sleep of its caller in the poll core. */
  function PollStep(t: Tid, k: Task, pc: PollPc, sh: Shared, c: Choice): Outcome {
    match pc
    case PollQin => Move(k, Polling(PollQout), AddTo(sh, In, t))
    case PollQout => Move(k, Polling(PollLock), AddTo(sh, Out, t))
    case PollLock =>
      if sh.lock == Free then Move(k, Polling(PollIn(Nothing)), sh.(lock := Held(t))) else Stuck
    case PollIn(seen) =>
      if seen.Nothing? then
        if c.Go? then Move(k, Polling(PollIn(Load(sh.ring, c.irFirst))), sh) else Stuck
      else Move(k.(poll := k.poll.(gotIn := !Judge(In, seen, sh.ring))), Polling(PollOut(Nothing)), sh)
    case PollOut(seen) =>
      if seen.Nothing? then
        if c.Go? then Move(k, Polling(PollOut(Load(sh.ring, c.irFirst))), sh) else Stuck
      else Move(k.(poll := k.poll.(gotOut := !Judge(Out, seen, sh.ring))), Polling(PollUnlock), sh)
    case PollUnlock => Move(k, Polling(PollWait), sh.(lock := Free))
    case PollWait =>
      if (k.poll.wantIn && k.poll.gotIn) || (k.poll.wantOut && k.poll.gotOut)
         || k.awake || k.signal || c.Timeout?
      then Move(k, Polling(PollDequeue), sh)
      else Stuck
    case PollDequeue =>
      Return(t, k.(awake := true), RemoveFrom(RemoveFrom(sh, In, t), Out, t),
             Events(k.poll.gotIn, k.poll.gotOut), NoWake)
  }

  /** device_open, lines 173-188. `ir=iw=0` stores iw first. */
  function OpenStep(t: Tid, k: Task, pc: OpenPc, sh: Shared, c: Choice): Outcome {
    match pc
    case OpenLock =>
      if sh.lock == Free then Move(k, Opening(OpenTest), sh.(lock := Held(t))) else Stuck
    case OpenTest => Move(k, Opening(if sh.files.useCount == 0 then OpenZeroIw else OpenCount), sh)
    case OpenZeroIw => Move(k, Opening(OpenZeroIr), sh.(ring := sh.ring.(iw := 0, resetting := true)))
    case OpenZeroIr =>
      Move(k, Opening(OpenCount),
           sh.(ring := sh.ring.(ir := 0, resetting := false, accepted := [], returned := [])))
    case OpenCount =>
      if c.Publish? && c.f !in sh.files.open then
        Move(k, Opening(OpenUnlock),
             sh.(files := sh.files.(useCount := sh.files.useCount + 1, open := sh.files.open + {c.f})))
      else Stuck
    case OpenUnlock => Move(k.(ret := Success, signal := false), User, sh.(lock := Free))
  }

  /** device_release, lines 190-201. */
  function CloseStep(t: Tid, k: Task, pc: ClosePc, sh: Shared): Outcome {
    match pc
    case CloseLock =>
      if sh.lock == Free then Move(k, Closing(CloseCount), sh.(lock := Held(t))) else Stuck
    case CloseCount =>
      if t in sh.files.closers then
        Move(k, Closing(CloseUnlock),
             sh.(files := sh.files.(useCount := sh.files.useCount - 1,
                                    open := sh.files.open - {sh.files.closers[t]},
                                    closers := sh.files.closers - {t})))
      else Stuck
    case CloseUnlock => Move(k.(ret := Success, signal := false), User, sh.(lock := Free))
  }

  /** One step of task t. A signal may arrive at any point and makes the task runnable. */
  function TaskStep(n: int, t: Tid, k: Task, sh: Shared, c: Choice): Outcome {
    if c.Signal? then Went(k.(signal := true, awake := true), sh, NoWake)
    else
      match k.loc
      case User => UserStep(t, k, sh, c)
      case Waiting(w) => WaitStep(n, t, k, w, sh, c)
      case Reading(r) => InSection(k, sh, ReadStep(n, r, k.call, sh.ring))
      case Writing(v) => InSection(k, sh, WriteStep(n, v, k.call, sh.ring))
      case Up => Move(k, WakeOther, sh.(sema := Free))
      case WakeOther =>
        Return(t, k, sh, Count(k.call.i), if k.call.i > 0 then Wake(Other(k.call.dir)) else NoWake)
      case Polling(p) => PollStep(t, k, p, sh, c)
      case Opening(o) => OpenStep(t, k, o, sh, c)
      case Closing(p) => CloseStep(t, k, p, sh)
  }

  // ---------------------------------------------------------------------------------------------
  // Whole-system steps and runs
  // ---------------------------------------------------------------------------------------------

  /** wake_up_interruptible makes every task on the queue runnable. */
  function WakeTask(u: Tid, k: Task, sh: Shared, wake: Wakeup): Task {
    if wake.Wake? && u in Queue(sh, wake.d) then k.(awake := true) else k
  }

  function Apply(s: State, t: Tid, o: Outcome): State
    requires o.Went?
  {
    State(o.sh, map u | u in s.tasks :: if u == t then o.k else WakeTask(u, s.tasks[u], o.sh, o.wake))
  }

  ghost predicate Step(n: int, s: State, t: Tid, c: Choice, s': State) {
    && t in s.tasks
    && var o := TaskStep(n, t, s.tasks[t], s.sh, c);
       o.Went? && s' == Apply(s, t, o)
  }

  ghost predicate Next(n: int, s: State, s': State) {
    exists t, c :: Step(n, s, t, c, s')
  }

  predicate IdleTask(k: Task) {
    k.loc == User && k.awake && k.ret == NoCall
  }

  ghost predicate Init(n: int, s: State) {
    && 2 <= n
    && (exists buf: string :: |buf| == n + 1 && s.sh.ring == Store(buf, 0, 0, [], [], false))
    && s.sh == Shared(s.sh.ring, Free, Free, {}, {}, Files(0, {}, map[], map[]))
    && forall t :: t in s.tasks ==> IdleTask(s.tasks[t])
  }

  /** A run: any interleaving of steps from an initial state. */
  ghost predicate Run(n: int, run: seq<State>) {
    && |run| > 0
    && Init(n, run[0])
    && forall j :: 0 <= j < |run| - 1 ==> Next(n, run[j], run[j + 1])
  }

  ghost predicate Reachable(n: int, s: State) {
    exists run :: Run(n, run) && run[|run| - 1] == s
  }
}
