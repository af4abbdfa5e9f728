/**
 The inductive invariant of the transition system: mutual exclusion, wait-queue membership, file
 counting, ring shape, and the exact relation between the ring, the histories and the transfer in
 progress. Each part is a predicate on one task and the shared state, so a step is checked in local
 lemmas (the task that moved, any other task) and assembled once.
 */
module PollInvariant {
  import opened Ring
  import opened PollState

  // ---------------------------------------------------------------------------------------------
  // Program points
  // ---------------------------------------------------------------------------------------------

  /** Between down_interruptible and up. */
  predicate SemaLoc(loc: Loc) {
    loc.Reading? || loc.Writing? || loc.Up?
  }

  /** Between spin_lock and spin_unlock. */
  predicate LockLoc(loc: Loc) {
    || (loc.Polling? && (loc.p.PollIn? || loc.p.PollOut? || loc.p.PollUnlock?))
    || (loc.Opening? && !loc.o.OpenLock?)
    || (loc.Closing? && !loc.c.CloseLock?)
  }

  /** Between add_wait_queue and remove_wait_queue. */
  predicate QueuedLoc(loc: Loc) {
    loc.Waiting? && !loc.w.First? && !loc.w.AddQueue? && !loc.w.Down?
  }

  predicate OnQueue(k: Task, d: Dir) {
    if k.loc.Polling? then !k.loc.p.PollQin? && (d == In || !k.loc.p.PollQout?)
    else QueuedLoc(k.loc) && k.call.dir == d
  }

  /** Inside device_read or device_write. */
  predicate InCall(loc: Loc) {
    loc.Waiting? || loc.Reading? || loc.Writing? || loc.Up? || loc.WakeOther?
  }

  /** From down_interruptible on. */
  predicate TransferLoc(loc: Loc) {
    loc.Reading? || loc.Writing? || loc.Up? || loc.WakeOther?
  }

  predicate UsesFile(loc: Loc) {
    InCall(loc) || loc.Polling?
  }

  predicate CloseLoc(loc: Loc) {
    loc.Closing? && !loc.c.CloseUnlock?
  }

  /** Only at these points can the task be not runnable (or, polling, not woken). */
  predicate MaySleepLoc(loc: Loc) {
    || (loc.Waiting? && (loc.w.Recheck? || loc.w.Schedule? || loc.w.MarkRun?))
    || loc.Polling?
  }

  /** On the way out with -ERESTARTSYS. */
  predicate SignalLoc(loc: Loc) {
    loc.Waiting? && (loc.w.SignalRun? || loc.w.SignalUnqueue?)
  }

  predicate Resetting(loc: Loc) {
    loc.Opening? && (loc.o.OpenZeroIw? || loc.o.OpenZeroIr?)
  }

  // ---------------------------------------------------------------------------------------------
  // Control
  // ---------------------------------------------------------------------------------------------

  /** Locks, queues, file references and call direction agree with the program counter. */
  predicate SyncOk(t: Tid, k: Task, sh: Shared) {
    && (SemaLoc(k.loc) <==> sh.sema == Held(t))
    && (LockLoc(k.loc) <==> sh.lock == Held(t))
    && (t in sh.qin <==> OnQueue(k, In))
    && (t in sh.qout <==> OnQueue(k, Out))
    && (k.awake || MaySleepLoc(k.loc))
    && (SignalLoc(k.loc) ==> k.signal)
    && (k.loc.Reading? ==> k.call.dir == In)
    && (k.loc.Writing? ==> k.call.dir == Out)
  }

  predicate FileUseOk(t: Tid, k: Task, sh: Shared) {
    && (t in sh.files.users <==> UsesFile(k.loc))
    && (t in sh.files.closers <==> CloseLoc(k.loc))
    && (Resetting(k.loc) ==> sh.files.open == {})
    && (sh.lock == Held(t) && sh.ring.resetting ==> k.loc == Opening(OpenZeroIr))
    && (k.loc == Opening(OpenZeroIr) ==> sh.ring.resetting)
  }

  /** Counting and exclusion of files: use_count is the number of open files, nobody uses a file that is
      being released, and no file is released twice. */
  ghost predicate FilesOk(x: Files) {
    && x.useCount == |x.open|
    && (forall u :: u in x.users ==> x.users[u] in x.open)
    && (forall u :: u in x.closers ==> x.closers[u] in x.open)
    && (forall u, v :: u in x.users && v in x.closers ==> x.users[u] != x.closers[v])
    && (forall u, v :: u in x.closers && v in x.closers && u != v ==> x.closers[u] != x.closers[v])
  }

  // ---------------------------------------------------------------------------------------------
  // A step and the variables that control other tasks
  // ---------------------------------------------------------------------------------------------

  /** A lock field after a step of t: t may take it when free and drop it when its own. */
  predicate LockMoves(t: Tid, before: bool, after: bool, h: Holder, h': Holder) {
    && (after ==> h' == Held(t) && (before || h == Free))
    && (!after && before ==> h' == Free)
    && (!after && !before ==> h' == h)
  }

  /** A set after a step of t: only t's own membership may change. */
  ghost predicate OnlySelf(t: Tid, after: bool, q: set<Tid>, q': set<Tid>) {
    && (t in q' <==> after)
    && (forall u :: u != t ==> (u in q <==> u in q'))
  }

  ghost predicate SyncMoves(t: Tid, k: Task, sh: Shared, k': Task, sh': Shared) {
    && LockMoves(t, SemaLoc(k.loc), SemaLoc(k'.loc), sh.sema, sh'.sema)
    && LockMoves(t, LockLoc(k.loc), LockLoc(k'.loc), sh.lock, sh'.lock)
    && OnlySelf(t, OnQueue(k', In), sh.qin, sh'.qin)
    && OnlySelf(t, OnQueue(k', Out), sh.qout, sh'.qout)
    && (k'.awake || MaySleepLoc(k'.loc))
    && (SignalLoc(k'.loc) ==> k'.signal)
    && (k'.loc.Reading? ==> k'.call.dir == In)
    && (k'.loc.Writing? ==> k'.call.dir == Out)
  }

  lemma WaitQueue(n: int, t: Tid, k: Task, sh: Shared, c: Choice, d: Dir)
    requires SyncOk(t, k, sh) && k.loc.Waiting?
    ensures var o := WaitStep(n, t, k, k.loc.w, sh, c);
            o.Went? ==> OnlySelf(t, OnQueue(o.k, d), Queue(sh, d), Queue(o.sh, d))
  {
  }

  lemma WaitQueues(n: int, t: Tid, k: Task, sh: Shared, c: Choice)
    requires SyncOk(t, k, sh) && k.loc.Waiting?
    ensures var o := WaitStep(n, t, k, k.loc.w, sh, c);
            o.Went? ==>
              && OnlySelf(t, OnQueue(o.k, In), sh.qin, o.sh.qin)
              && OnlySelf(t, OnQueue(o.k, Out), sh.qout, o.sh.qout)
  {
    WaitQueue(n, t, k, sh, c, In);
    WaitQueue(n, t, k, sh, c, Out);
  }

  lemma WaitLocks(n: int, t: Tid, k: Task, sh: Shared, c: Choice)
    requires SyncOk(t, k, sh) && k.loc.Waiting?
    ensures var o := WaitStep(n, t, k, k.loc.w, sh, c);
            o.Went? ==>
              && LockMoves(t, SemaLoc(k.loc), SemaLoc(o.k.loc), sh.sema, o.sh.sema)
              && LockMoves(t, LockLoc(k.loc), LockLoc(o.k.loc), sh.lock, o.sh.lock)
              && (o.k.awake || MaySleepLoc(o.k.loc))
              && (SignalLoc(o.k.loc) ==> o.k.signal)
              && (o.k.loc.Reading? ==> o.k.call.dir == In)
              && (o.k.loc.Writing? ==> o.k.call.dir == Out)
  {
  }

  lemma SectionSync(n: int, t: Tid, k: Task, sh: Shared, c: Choice)
    requires SyncOk(t, k, sh) && TransferLoc(k.loc) && !c.Signal?
    ensures var o := TaskStep(n, t, k, sh, c); o.Went? ==> SyncMoves(t, k, sh, o.k, o.sh)
  {
  }

  lemma PollSync(t: Tid, k: Task, sh: Shared, c: Choice)
    requires SyncOk(t, k, sh) && k.loc.Polling?
    ensures var o := PollStep(t, k, k.loc.p, sh, c); o.Went? ==> SyncMoves(t, k, sh, o.k, o.sh)
  {
  }

  lemma UserSync(t: Tid, k: Task, sh: Shared, c: Choice)
    requires SyncOk(t, k, sh) && k.loc.User?
    ensures var o := UserStep(t, k, sh, c); o.Went? ==> SyncMoves(t, k, sh, o.k, o.sh)
  {
  }

  lemma OpenSync(t: Tid, k: Task, sh: Shared, c: Choice)
    requires SyncOk(t, k, sh) && k.loc.Opening?
    ensures var o := OpenStep(t, k, k.loc.o, sh, c); o.Went? ==> SyncMoves(t, k, sh, o.k, o.sh)
  {
  }

  lemma CloseSync(t: Tid, k: Task, sh: Shared)
    requires SyncOk(t, k, sh) && k.loc.Closing?
    ensures var o := CloseStep(t, k, k.loc.c, sh); o.Went? ==> SyncMoves(t, k, sh, o.k, o.sh)
  {
  }

  lemma StepSync(n: int, t: Tid, k: Task, sh: Shared, c: Choice)
    requires SyncOk(t, k, sh)
    ensures var o := TaskStep(n, t, k, sh, c); o.Went? ==> SyncMoves(t, k, sh, o.k, o.sh)
  {
    if !c.Signal? {
      match k.loc
      case User => UserSync(t, k, sh, c);
      case Waiting(_) => WaitQueues(n, t, k, sh, c); WaitLocks(n, t, k, sh, c);
      case Polling(_) => PollSync(t, k, sh, c);
      case Opening(_) => OpenSync(t, k, sh, c);
      case Closing(_) => CloseSync(t, k, sh);
      case _ => SectionSync(n, t, k, sh, c);
    }
  }

  // ---------------------------------------------------------------------------------------------
  // A step and the files
  // ---------------------------------------------------------------------------------------------

  ghost predicate SameElse(t: Tid, m: map<Tid, Fid>, m': map<Tid, Fid>) {
    forall u :: u != t ==> (u in m <==> u in m') && (u in m ==> m'[u] == m[u])
  }

  /** Only t's own entries change, the set of open files only under `lock`, and the reset flag is up
      exactly between the two stores of the reset. */
  ghost predicate FileMoves(t: Tid, k: Task, sh: Shared, k': Task, sh': Shared) {
    && (t in sh'.files.users <==> UsesFile(k'.loc))
    && (t in sh'.files.closers <==> CloseLoc(k'.loc))
    && SameElse(t, sh.files.users, sh'.files.users)
    && SameElse(t, sh.files.closers, sh'.files.closers)
    && (sh'.files.open != sh.files.open ==> LockLoc(k.loc))
    && (Resetting(k'.loc) ==> sh'.files.open == {})
    && (sh'.ring.resetting <==> k'.loc == Opening(OpenZeroIr) || (sh.ring.resetting && k.loc != Opening(OpenZeroIr)))
  }

  /** A step inside a call leaves the files alone, or drops the task's reference on return. */
  predicate Leaves(t: Tid, x: Files, y: Files, returned: bool) {
    y == if returned then x.(users := x.users - {t}) else x
  }

  lemma WaitShape(n: int, t: Tid, k: Task, sh: Shared, c: Choice)
    requires k.loc.Waiting?
    ensures var o := WaitStep(n, t, k, k.loc.w, sh, c);
            o.Went? ==>
              && Leaves(t, sh.files, o.sh.files, o.k.loc.User?)
              && o.sh.ring == sh.ring
              && (InCall(o.k.loc) || o.k.loc.User?)
  {
  }

  lemma PollShape(t: Tid, k: Task, sh: Shared, c: Choice)
    requires k.loc.Polling?
    ensures var o := PollStep(t, k, k.loc.p, sh, c);
            !o.Crash? && (o.Went? ==>
              && Leaves(t, sh.files, o.sh.files, o.k.loc.User?)
              && o.sh.ring == sh.ring && o.sh.sema == sh.sema && o.k.call == k.call
              && (o.k.loc.Polling? || o.k.loc.User?))
  {
  }

  lemma SectionShape(n: int, t: Tid, k: Task, sh: Shared, c: Choice)
    requires TransferLoc(k.loc) && !c.Signal?
    ensures var o := TaskStep(n, t, k, sh, c);
            o.Went? ==>
              && Leaves(t, sh.files, o.sh.files, o.k.loc.User?)
              && o.sh.ring.resetting == sh.ring.resetting
              && (TransferLoc(o.k.loc) || o.k.loc.User?)
  {
  }

  lemma LeavingMoves(t: Tid, k: Task, sh: Shared, k': Task, sh': Shared)
    requires FileUseOk(t, k, sh) && FilesOk(sh.files) && UsesFile(k.loc)
    requires UsesFile(k'.loc) || k'.loc.User?
    requires Leaves(t, sh.files, sh'.files, k'.loc.User?) && sh'.ring.resetting == sh.ring.resetting
    ensures FileMoves(t, k, sh, k', sh') && FilesOk(sh'.files)
  {
  }

  lemma UserFiles(t: Tid, k: Task, sh: Shared, c: Choice)
    requires FileUseOk(t, k, sh) && FilesOk(sh.files) && k.loc.User?
    ensures var o := UserStep(t, k, sh, c); o.Went? ==> FileMoves(t, k, sh, o.k, o.sh) && FilesOk(o.sh.files)
  {
  }

  lemma OpenFiles(t: Tid, k: Task, sh: Shared, c: Choice)
    requires FileUseOk(t, k, sh) && (sh.files.useCount == 0 ==> sh.files.open == {}) && k.loc.Opening?
    ensures var o := OpenStep(t, k, k.loc.o, sh, c); o.Went? ==> FileMoves(t, k, sh, o.k, o.sh)
  {
  }

  lemma PublishKeeps(x: Files, f: Fid)
    requires FilesOk(x) && f !in x.open
    ensures FilesOk(x.(useCount := x.useCount + 1, open := x.open + {f}))
  {
  }

  lemma OpenCounts(t: Tid, k: Task, sh: Shared, c: Choice)
    requires FilesOk(sh.files) && k.loc.Opening?
    ensures var o := OpenStep(t, k, k.loc.o, sh, c); o.Went? ==> FilesOk(o.sh.files)
  {
    if k.loc.o.OpenCount? && c.Publish? && c.f !in sh.files.open {
      PublishKeeps(sh.files, c.f);
    }
  }

  lemma CloseFiles(t: Tid, k: Task, sh: Shared)
    requires FileUseOk(t, k, sh) && FilesOk(sh.files) && k.loc.Closing?
    ensures var o := CloseStep(t, k, k.loc.c, sh);
            o.Went? ==> FileMoves(t, k, sh, o.k, o.sh) && FilesOk(o.sh.files)
  {
  }

  lemma StepFiles(n: int, t: Tid, k: Task, sh: Shared, c: Choice)
    requires FileUseOk(t, k, sh) && FilesOk(sh.files)
    ensures var o := TaskStep(n, t, k, sh, c); o.Went? ==> FileMoves(t, k, sh, o.k, o.sh) && FilesOk(o.sh.files)
  {
    if !c.Signal? {
      var o := TaskStep(n, t, k, sh, c);
      match k.loc
      case User => UserFiles(t, k, sh, c);
      case Opening(_) => OpenFiles(t, k, sh, c); OpenCounts(t, k, sh, c);
      case Closing(_) => CloseFiles(t, k, sh);
      case Waiting(_) => WaitShape(n, t, k, sh, c); if o.Went? { LeavingMoves(t, k, sh, o.k, o.sh); }
      case Polling(_) => PollShape(t, k, sh, c); if o.Went? { LeavingMoves(t, k, sh, o.k, o.sh); }
      case _ => SectionShape(n, t, k, sh, c); if o.Went? { LeavingMoves(t, k, sh, o.k, o.sh); }
    }
  }

  // ---------------------------------------------------------------------------------------------
  // Ring and transfer
  // ---------------------------------------------------------------------------------------------

  predicate RingShape(n: int, r: Store) {
    Indices(n, r.ir, r.iw) && |r.buf| == n + 1
  }

  /** The characters in the ring now. */
  function Stored(n: int, r: Store): string {
    Contents(n, r.buf, r.ir, r.iw)
  }

  /** Ring shape, and conservation: accepted characters are the returned ones followed by the ring. */
  predicate RingOk(n: int, r: Store) {
    && RingShape(n, r)
    && (!r.resetting ==> r.accepted == r.returned + Stored(n, r))
    && (r.resetting ==> r.iw == 0)
  }

  /** `ih`, the slot the write loop must not reach. */
  function Limit(n: int, ir: int): int {
    if ir - 1 < 0 then ir - 1 + n else ir - 1
  }

  /** A read in its semaphore section: it holds the first i characters of what it found, the ring the rest. */
  predicate ReadOk(n: int, loc: Loc, k: Call, r: Store) {
    && k.i <= |k.snap| <= n - 1
    && k.output == k.snap[..k.i]
    && Stored(n, r) == k.snap[k.i..]
    && r.iw < n && (r.ir < n || loc == Reading(ReadWrap))
    && (loc == Reading(ReadByte) ==> k.i < k.len && r.ir != r.iw)
    && (loc == Reading(ReadWrap) ==> k.i > 0)
  }

  /** A write in its semaphore section: the ring is what it found followed by its first i characters. */
  predicate WriteOk(n: int, loc: Loc, k: Call, r: Store)
    requires RingShape(n, r) && k.i <= k.len == |k.data|
  {
    && Stored(n, r) == k.snap + k.data[..k.i]
    && r.ir < n && (r.iw < n || loc == Writing(WriteWrap))
    && (loc == Writing(WriteLimit) ==> k.i == 0)
    && (loc == Writing(WriteWrap) ==> k.i > 0)
    && (loc.Writing? && !loc.v.WriteLimit? ==> k.ih == Limit(n, r.ir))
    && (loc.Writing? && (loc.v.WriteStore? || loc.v.WriteAdvance?) ==> k.i < k.len && r.iw != k.ih)
    && (loc == Writing(WriteAdvance) ==> r.buf[r.iw] == k.data[k.i])
  }

  /** What the semaphore section did, against the ring it found: a read took the first min(len, |snap|)
      characters, a write stored min(len, n-1-|snap|). */
  predicate Finished(n: int, k: Call) {
    && |k.snap| <= n - 1
    && k.i == (if k.dir == In then Min(k.len, |k.snap|) else Min(k.len, n - 1 - |k.snap|))
    && (k.dir == In ==> k.output == k.snap[..k.i])
  }

  /** `snap`, `ir0` and `iw0` describe one instant. */
  predicate StartedAt(n: int, k: Call) {
    && Indices(n, k.ir0, k.iw0) && k.ir0 < n && k.iw0 < n
    && |k.snap| == Occupancy(n, k.ir0, k.iw0)
  }

  predicate TransferOk(n: int, loc: Loc, k: Call, r: Store)
    requires RingShape(n, r)
  {
    && (InCall(loc) ==> k.i <= k.len && (k.dir == Out ==> k.len == |k.data|))
    && (loc.Waiting? ==> k.i == 0 && k.output == [])
    && (TransferLoc(loc) ==> StartedAt(n, k))
    && (SemaLoc(loc) && k.dir == In ==> ReadOk(n, loc, k, r))
    && (SemaLoc(loc) && k.dir == Out ==> WriteOk(n, loc, k, r))
    && (loc.Up? || loc.WakeOther? ==> Finished(n, k))
  }

  /** The same, on the strings: the head of the rest of snap goes to the output. */
  lemma TakeHead(snap: string, i: nat, stored: string, ch: char, rest: string)
    requires i <= |snap| && stored == snap[i..] && stored == [ch] + rest
    ensures i < |snap| && ch == snap[i] && rest == snap[i + 1..] && snap[..i + 1] == snap[..i] + [ch]
  {
    assert ch == stored[0] && rest == stored[1..];
  }

  /** put_user(rbuf[ir++]): the character goes from the front of the ring to the end of the output. */
  lemma ReadByteKeeps(n: int, k: Call, r: Store)
    requires RingOk(n, r) && !r.resetting && k.dir == In && k.i < k.len
    requires ReadOk(n, Reading(ReadByte), k, r)
    ensures var x := ReadStep(n, ReadByte, k, r);
            x.To? && RingOk(n, x.ring) && ReadOk(n, x.loc, x.call, x.ring)
  {
    PopRemoves(n, r.buf, r.ir, r.iw);
    var ch, rest := r.buf[r.ir], Contents(n, r.buf, r.ir + 1, r.iw);
    TakeHead(k.snap, k.i, Stored(n, r), ch, rest);
    assert r.returned + ([ch] + rest) == (r.returned + [ch]) + rest;
  }

  lemma ReadStepKeeps(n: int, pc: ReadPc, k: Call, r: Store)
    requires RingOk(n, r) && !r.resetting && k.dir == In && TransferOk(n, Reading(pc), k, r)
    ensures var x := ReadStep(n, pc, k, r);
            x.To? && x.call.dir == In && RingOk(n, x.ring) && TransferOk(n, x.loc, x.call, x.ring)
  {
    ContentsLength(n, r.buf, r.ir, r.iw);
    match pc {
      case ReadTest =>
      case ReadByte => ReadByteKeeps(n, k, r);
      case ReadWrap => WrapKeeps(n, r.buf, r.ir, r.iw);
    }
  }

  /** get_user(rbuf[iw++]), first half: the store goes to a slot outside the contents. */
  lemma WriteStoreKeeps(n: int, k: Call, r: Store)
    requires RingOk(n, r) && !r.resetting && k.i < k.len == |k.data|
    requires WriteOk(n, Writing(WriteStore), k, r)
    ensures var x := WriteStep(n, WriteStore, k, r);
            x.To? && RingOk(n, x.ring) && WriteOk(n, x.loc, x.call, x.ring)
  {
    ContentsLength(n, r.buf, r.ir, r.iw);
    FullAgreesWithWriteLimit(n, r.ir, r.iw);
    PushAppends(n, r.buf, r.ir, r.iw, k.data[k.i]);
  }

  /** The same, on the strings. */
  lemma PutLast(snap: string, data: string, i: nat, accepted: string, returned: string, stored: string)
    requires i < |data| && stored == snap + data[..i] && accepted == returned + stored
    ensures stored + [data[i]] == snap + data[..i + 1]
    ensures accepted + [data[i]] == returned + (stored + [data[i]])
  {
    assert data[..i + 1] == data[..i] + [data[i]];
  }

  /** Second half: advancing iw makes the stored character the last of the contents. */
  lemma WriteAdvanceKeeps(n: int, k: Call, r: Store)
    requires RingOk(n, r) && !r.resetting && k.i < k.len == |k.data|
    requires WriteOk(n, Writing(WriteAdvance), k, r)
    ensures var x := WriteStep(n, WriteAdvance, k, r);
            x.To? && RingOk(n, x.ring) && WriteOk(n, x.loc, x.call, x.ring)
  {
    FullAgreesWithWriteLimit(n, r.ir, r.iw);
    ContentsLength(n, r.buf, r.ir, r.iw);
    PushAppends(n, r.buf, r.ir, r.iw, k.data[k.i]);
    assert r.buf[r.iw := k.data[k.i]] == r.buf;
    PutLast(k.snap, k.data, k.i, r.accepted, r.returned, Stored(n, r));
  }

  lemma WriteStepKeeps(n: int, pc: WritePc, k: Call, r: Store)
    requires RingOk(n, r) && !r.resetting && k.dir == Out && TransferOk(n, Writing(pc), k, r)
    ensures var x := WriteStep(n, pc, k, r);
            x.To? && x.call.dir == Out && RingOk(n, x.ring) && TransferOk(n, x.loc, x.call, x.ring)
  {
    match pc {
      case WriteLimit =>
      case WriteTest => WriteTestKeeps(n, k, r);
      case WriteStore => WriteStoreKeeps(n, k, r);
      case WriteAdvance => WriteAdvanceKeeps(n, k, r);
      case WriteWrap => WrapKeeps(n, r.buf, r.ir, r.iw);
    }
  }

  /** The loop stops when the data is used up or the ring holds n-1 characters. */
  lemma WriteTestKeeps(n: int, k: Call, r: Store)
    requires RingOk(n, r) && !r.resetting && k.dir == Out && TransferOk(n, Writing(WriteTest), k, r)
    ensures var x := WriteStep(n, WriteTest, k, r);
            x.To? && TransferOk(n, x.loc, x.call, x.ring)
  {
    ContentsLength(n, r.buf, r.ir, r.iw);
    FullAgreesWithWriteLimit(n, r.ir, r.iw);
    ContentsLength(n, r.buf, k.ir0, k.iw0);
    assert |k.snap + k.data[..k.i]| == |k.snap| + k.i;
  }

  /** With the semaphore free neither index is mid-wrap. */
  predicate Settled(n: int, sh: Shared) {
    sh.sema == Free ==> sh.ring.ir < n && sh.ring.iw < n
  }

  /** While a reset is between its two stores, `lock` is held and no file is open. */
  predicate ResetQuiet(sh: Shared) {
    sh.ring.resetting ==> sh.lock != Free && sh.files.open == {}
  }

  /** The shared state alone. */
  ghost predicate SharedOk(n: int, sh: Shared) {
    FilesOk(sh.files) && RingOk(n, sh.ring) && Settled(n, sh) && ResetQuiet(sh)
  }

  /** One task against the shared state. */
  predicate TaskOk(n: int, t: Tid, k: Task, sh: Shared)
    requires RingShape(n, sh.ring)
  {
    SyncOk(t, k, sh) && FileUseOk(t, k, sh) && TransferOk(n, k.loc, k.call, sh.ring)
  }

  /** What a step does to the ring and to its own transfer. */
  ghost predicate RingMoves(n: int, k: Task, sh: Shared, o: Outcome) {
    && !o.Crash?
    && (o.Went? ==>
          && RingOk(n, o.sh.ring) && Settled(n, o.sh)
          && TransferOk(n, o.k.loc, o.k.call, o.sh.ring)
          && (o.sh.ring != sh.ring ==> SemaLoc(k.loc) || Resetting(k.loc)))
  }

  /** Up to the semaphore a call only records its arguments; down_interruptible records the ring. */
  lemma WaitCall(n: int, t: Tid, k: Task, sh: Shared, c: Choice)
    requires k.loc.Waiting?
    ensures var o := WaitStep(n, t, k, k.loc.w, sh, c);
            !o.Crash? && (o.Went? ==>
              if SemaLoc(o.k.loc) then sh.sema == Free && Entered(n, k.call, o.k.loc, o.k.call, sh.ring)
              else (o.k.loc.Waiting? || o.k.loc.User?) && o.k.call == k.call && o.sh.sema == sh.sema)
  {
  }

  /** The call as it starts its semaphore section. */
  predicate Entered(n: int, k: Call, loc: Loc, k': Call, r: Store) {
    && k' == k.(snap := Stored(n, r), ir0 := r.ir, iw0 := r.iw)
    && loc == (if k.dir == In then Reading(ReadTest) else Writing(WriteLimit))
  }

  lemma EnteredIsOk(n: int, k: Call, loc: Loc, k': Call, r: Store)
    requires RingShape(n, r) && r.ir < n && r.iw < n && Entered(n, k, loc, k', r)
    requires k.i == 0 && k.output == [] && (k.dir == Out ==> k.len == |k.data|)
    ensures TransferOk(n, loc, k', r)
  {
    ContentsLength(n, r.buf, r.ir, r.iw);
    assert k.dir == Out ==> k.snap + k.data[..0] == k.snap;
  }

  lemma WaitRing(n: int, t: Tid, k: Task, sh: Shared, c: Choice)
    requires SharedOk(n, sh) && TaskOk(n, t, k, sh) && k.loc.Waiting?
    ensures RingMoves(n, k, sh, WaitStep(n, t, k, k.loc.w, sh, c))
  {
    WaitShape(n, t, k, sh, c);
    WaitCall(n, t, k, sh, c);
    var o := WaitStep(n, t, k, k.loc.w, sh, c);
    if o.Went? && SemaLoc(o.k.loc) {
      EnteredIsOk(n, k.call, o.k.loc, o.k.call, sh.ring);
      WaitLocks(n, t, k, sh, c);
    }
  }

  lemma SectionRing(n: int, t: Tid, k: Task, sh: Shared, c: Choice)
    requires SharedOk(n, sh) && TaskOk(n, t, k, sh) && TransferLoc(k.loc) && !c.Signal?
    ensures RingMoves(n, k, sh, TaskStep(n, t, k, sh, c))
  {
    assert t in sh.files.users && sh.files.users[t] in sh.files.open;
    match k.loc
    case Reading(r) => ReadStepKeeps(n, r, k.call, sh.ring);
    case Writing(v) => WriteStepKeeps(n, v, k.call, sh.ring);
    case _ =>
  }

  /** device_poll, device_release and system-call entry leave the ring alone. */
  lemma PollRing(n: int, t: Tid, k: Task, sh: Shared, c: Choice)
    requires SharedOk(n, sh) && TaskOk(n, t, k, sh) && k.loc.Polling?
    ensures RingMoves(n, k, sh, PollStep(t, k, k.loc.p, sh, c))
  {
    PollShape(t, k, sh, c);
  }

  lemma QuietRing(n: int, t: Tid, k: Task, sh: Shared, c: Choice)
    requires SharedOk(n, sh) && TaskOk(n, t, k, sh)
    requires c.Signal? || k.loc.User? || k.loc.Closing?
    ensures RingMoves(n, k, sh, TaskStep(n, t, k, sh, c))
  {
  }

  /** device_open touches the ring only in the two stores of ir=iw=0. */
  lemma OpenShape(t: Tid, k: Task, sh: Shared, c: Choice)
    requires k.loc.Opening?
    ensures var o := OpenStep(t, k, k.loc.o, sh, c);
            !o.Crash? && (o.Went? ==>
              && (o.k.loc.Opening? || o.k.loc.User?) && o.sh.sema == sh.sema
              && o.sh.ring == (match k.loc.o
                               case OpenZeroIw => sh.ring.(iw := 0, resetting := true)
                               case OpenZeroIr => sh.ring.(ir := 0, resetting := false, accepted := [], returned := [])
                               case _ => sh.ring))
  {
  }

  /** ir=iw=0 happens with every transfer over, and starts the histories afresh. */
  lemma OpenRing(n: int, t: Tid, k: Task, sh: Shared, c: Choice)
    requires SharedOk(n, sh) && TaskOk(n, t, k, sh) && k.loc.Opening?
    requires Resetting(k.loc) ==> sh.sema == Free
    ensures RingMoves(n, k, sh, OpenStep(t, k, k.loc.o, sh, c))
  {
    OpenShape(t, k, sh, c);
  }

  lemma StepRing(n: int, t: Tid, k: Task, sh: Shared, c: Choice)
    requires SharedOk(n, sh) && TaskOk(n, t, k, sh)
    requires Resetting(k.loc) ==> sh.sema == Free
    ensures RingMoves(n, k, sh, TaskStep(n, t, k, sh, c))
  {
    if c.Signal? {
      QuietRing(n, t, k, sh, c);
    } else {
      match k.loc
      case User => QuietRing(n, t, k, sh, c);
      case Waiting(_) => WaitRing(n, t, k, sh, c);
      case Polling(_) => PollRing(n, t, k, sh, c);
      case Opening(_) => OpenRing(n, t, k, sh, c);
      case Closing(_) => QuietRing(n, t, k, sh, c);
      case _ => SectionRing(n, t, k, sh, c);
    }
  }

  // ---------------------------------------------------------------------------------------------
  // The invariant over whole states and runs
  // ---------------------------------------------------------------------------------------------

  ghost predicate Inv(n: int, s: State) {
    && SharedOk(n, s.sh)
    && (forall t :: t in s.tasks ==> TaskOk(n, t, s.tasks[t], s.sh))
    && (s.sh.sema.Held? ==> s.sh.sema.t in s.tasks)
    && (s.sh.lock.Held? ==> s.sh.lock.t in s.tasks)
  }

  /** A task inside read, write or poll keeps a file open. */
  lemma CallHasFile(n: int, s: State, u: Tid)
    requires Inv(n, s) && u in s.tasks && UsesFile(s.tasks[u].loc)
    ensures s.sh.files.open != {}
  {
    assert TaskOk(n, u, s.tasks[u], s.sh);
    assert s.sh.files.users[u] in s.sh.files.open;
  }

  /** No file open means no transfer in progress. */
  lemma ClosedIsQuiet(n: int, s: State)
    requires Inv(n, s) && s.sh.files.open == {}
    ensures s.sh.sema == Free
  {
    if s.sh.sema.Held? {
      assert TaskOk(n, s.sh.sema.t, s.tasks[s.sh.sema.t], s.sh);
      CallHasFile(n, s, s.sh.sema.t);
    }
  }

  lemma SelfStep(n: int, t: Tid, k: Task, sh: Shared, c: Choice)
    requires SharedOk(n, sh) && TaskOk(n, t, k, sh)
    requires Resetting(k.loc) ==> sh.sema == Free
    ensures var o := TaskStep(n, t, k, sh, c);
            && !o.Crash?
            && (o.Went? ==> SharedOk(n, o.sh) && TaskOk(n, t, o.k, o.sh))
  {
    StepSync(n, t, k, sh, c);
    StepFiles(n, t, k, sh, c);
    StepRing(n, t, k, sh, c);
  }

  lemma OtherStep(n: int, t: Tid, k: Task, sh: Shared, c: Choice, u: Tid, ku: Task, awake: bool)
    requires SharedOk(n, sh) && TaskOk(n, t, k, sh) && TaskOk(n, u, ku, sh) && u != t
    requires Resetting(k.loc) ==> sh.sema == Free
    requires ku.awake ==> awake
    ensures var o := TaskStep(n, t, k, sh, c);
            o.Went? ==> RingShape(n, o.sh.ring) && TaskOk(n, u, ku.(awake := awake), o.sh)
  {
    StepSync(n, t, k, sh, c);
    StepFiles(n, t, k, sh, c);
    StepRing(n, t, k, sh, c);
  }

  lemma InvStep(n: int, s: State, t: Tid, c: Choice, s': State)
    requires Inv(n, s) && Step(n, s, t, c, s')
    ensures Inv(n, s')
  {
    var k := s.tasks[t];
    assert TaskOk(n, t, k, s.sh);
    if Resetting(k.loc) {
      ClosedIsQuiet(n, s);
    }
    SelfStep(n, t, k, s.sh, c);
    StepSync(n, t, k, s.sh, c);
    forall u | u in s'.tasks
      ensures TaskOk(n, u, s'.tasks[u], s'.sh)
    {
      if u != t {
        OtherStep(n, t, k, s.sh, c, u, s.tasks[u], s'.tasks[u].awake);
        assert s'.tasks[u] == s.tasks[u].(awake := s'.tasks[u].awake);
      }
    }
  }

  lemma InvInit(n: int, s: State)
    requires Init(n, s)
    ensures Inv(n, s)
  {
  }

  lemma {:induction false} InvRun(n: int, run: seq<State>)
    requires Run(n, run)
    ensures Inv(n, run[|run| - 1])
    decreases |run|
  {
    if |run| == 1 {
      InvInit(n, run[0]);
    } else {
      var front := run[..|run| - 1];
      assert Run(n, front);
      InvRun(n, front);
      assert Next(n, run[|run| - 2], run[|run| - 2 + 1]);
      var t, c :| Step(n, run[|run| - 2], t, c, run[|run| - 1]);
      InvStep(n, run[|run| - 2], t, c, run[|run| - 1]);
    }
  }

  lemma InvReachable(n: int, s: State)
    requires Reachable(n, s)
    ensures Inv(n, s)
  {
    var run :| Run(n, run) && run[|run| - 1] == s;
    InvRun(n, run);
  }
}
