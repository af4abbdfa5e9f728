/**
 The system calls of a task at rest, from the arguments it gives them to what they return. No other task steps
 during a call. PollSolo speaks of a call from its first program counter on; here the entry is included, so
 the outcome is given in terms of the flags, lengths and data of the caller.
 */
module PollCalls {
  import opened Ring
  import opened PollState
  import opened PollInvariant
  import opened PollTheorems
  import opened PollSolo

  // ---------------------------------------------------------------------------------------------
  // One call of a task, from user mode to user mode
  // ---------------------------------------------------------------------------------------------

  /** t is in user mode with file f open, and nobody holds the semaphore or the lock. */
  ghost predicate AtRest(n: int, s: State, t: Tid, f: Fid) {
    && Inv(n, s) && t in s.tasks && s.tasks[t].loc == User && !s.tasks[t].signal
    && s.sh.sema == Free && s.sh.lock == Free && Usable(s.sh.files, f)
  }

  /** t makes the call c in s, alone, and has not gone further than its return. */
  ghost predicate Calling(n: int, s: State, t: Tid, c: Choice, states: seq<State>, labels: seq<Label>) {
    && t in s.tasks && s.tasks[t].loc == User
    && SoloCall(n, states, labels, t) && Step(n, s, t, c, states[0])
  }

  /** s' is the state after the call. */
  ghost predicate Called(n: int, s: State, t: Tid, c: Choice, s': State) {
    exists states: seq<State>, labels: seq<Label> ::
      && Calling(n, s, t, c, states, labels) && states[|labels|] == s'
      && t in s'.tasks && s'.tasks[t].loc == User
  }

  /** A read, write or poll on file f. */
  predicate OnFile(c: Choice, f: Fid) {
    match c
    case BeginRead(g, _, _) => g == f
    case BeginWrite(g, _, _) => g == f
    case BeginPoll(g, _, _) => g == f
    case _ => false
  }

  /** The call does not have to wait. */
  predicate Unblocked(c: Choice, r: Store) {
    match c
    case BeginRead(_, _, _) => !Empty(r.ir, r.iw)
    case BeginWrite(_, _, _) => !Full(r.ir, r.iw)
    case BeginPoll(_, wantIn, wantOut) => (wantIn && !Empty(r.ir, r.iw)) || (wantOut && !Full(r.ir, r.iw))
    case _ => true
  }

  /** What the entry of a call records. */
  predicate HasEntered(k: Task, c: Choice) {
    match c
    case BeginRead(_, nonblock, len) =>
      k.loc == Waiting(First(Nothing)) && k.call.dir == In && k.call.nonblock == nonblock && k.call.len == len
    case BeginWrite(_, nonblock, data) =>
      && k.loc == Waiting(First(Nothing)) && k.call.dir == Out && k.call.nonblock == nonblock
      && k.call.data == data && k.call.len == |data|
    case BeginPoll(_, wantIn, wantOut) =>
      k.loc == Polling(PollQin) && !k.awake && k.poll == Poll(wantIn, wantOut, false, false)
    case _ => false
  }

  lemma EntryIs(n: int, s: State, t: Tid, f: Fid, c: Choice, s1: State)
    requires AtRest(n, s, t, f) && OnFile(c, f) && Step(n, s, t, c, s1)
    ensures Starts(n, s1, t) && HasEntered(s1.tasks[t], c)
    ensures s1.sh.ring == s.sh.ring && SameFiles(s.sh.files, s1.sh.files)
    ensures s1.sh.sema == Free && s1.sh.lock == Free
  {
    InvStep(n, s, t, c, s1);
  }

  lemma EntryExists(n: int, s: State, t: Tid, f: Fid, c: Choice) returns (s1: State)
    requires AtRest(n, s, t, f) && OnFile(c, f)
    ensures Step(n, s, t, c, s1)
  {
    s1 := Apply(s, t, TaskStep(n, t, s.tasks[t], s.sh, c));
  }

  /** What t has got to. */
  lemma SoFar(n: int, s: State, t: Tid, f: Fid, c: Choice, states: seq<State>, labels: seq<Label>)
    requires AtRest(n, s, t, f) && OnFile(c, f) && Calling(n, s, t, c, states, labels)
    ensures Since(n, states[0], states[|labels|], t) && HasEntered(states[0].tasks[t], c)
    ensures states[0].sh.ring == s.sh.ring && SameFiles(s.sh.files, states[0].sh.files)
  {
    EntryIs(n, s, t, f, c, states[0]);
    SoloRun(n, states, labels, t);
  }

  /** A call that does not have to wait never sleeps, */
  lemma NeverAsleep(n: int, s: State, t: Tid, f: Fid, c: Choice, states: seq<State>, labels: seq<Label>)
    requires AtRest(n, s, t, f) && OnFile(c, f) && Unblocked(c, s.sh.ring) && Calling(n, s, t, c, states, labels)
    ensures t in states[|labels|].tasks && !Asleep(states[|labels|].tasks[t])
  {
    EntryIs(n, s, t, f, c, states[0]);
    SoloRun(n, states, labels, t);
  }

  /** and it comes to its return. */
  lemma CallExists(n: int, s: State, t: Tid, f: Fid, c: Choice) returns (s': State)
    requires AtRest(n, s, t, f) && OnFile(c, f) && Unblocked(c, s.sh.ring)
    ensures Called(n, s, t, c, s')
  {
    var s1 := EntryExists(n, s, t, f, c);
    EntryIs(n, s, t, f, c, s1);
    assert Trace(n, [s1], []);
    var states, labels := RunsToEnd(n, [s1], [], t);
    assert Calling(n, s, t, c, states, labels);
    NeverAsleep(n, s, t, f, c, states, labels);
    s' := states[|labels|];
  }

  lemma RestsAgain(n: int, s: State, t: Tid, f: Fid, c: Choice, states: seq<State>, labels: seq<Label>)
    requires AtRest(n, s, t, f) && OnFile(c, f) && Calling(n, s, t, c, states, labels)
    requires t in states[|labels|].tasks && states[|labels|].tasks[t].loc == User
    ensures AtRest(n, states[|labels|], t, f)
  {
    EntryIs(n, s, t, f, c, states[0]);
    SoloRun(n, states, labels, t);
    assert TaskOk(n, t, states[|labels|].tasks[t], states[|labels|].sh);
  }

  /** The outcome of a read that found something. */
  lemma ReadCalled(n: int, s: State, t: Tid, f: Fid, len: nat, s': State)
    requires AtRest(n, s, t, f) && Called(n, s, t, BeginRead(f, false, len), s')
    requires Stored(n, s.sh.ring) != []
    ensures AtRest(n, s', t, f)
    ensures var output := s'.tasks[t].call.output;
            && s'.tasks[t].ret == Count(|output|)
            && Atomic(n, Stored(n, s.sh.ring), Dequeue(len, output), Stored(n, s'.sh.ring))
  {
    var c := BeginRead(f, false, len);
    var states, labels :| Calling(n, s, t, c, states, labels) && states[|labels|] == s';
    EntryIs(n, s, t, f, c, states[0]);
    RestsAgain(n, s, t, f, c, states, labels);
    SoloRead(n, states, labels, t);
  }

  /** The outcome of a write that found room. */
  lemma WriteCalled(n: int, s: State, t: Tid, f: Fid, data: string, s': State)
    requires AtRest(n, s, t, f) && Called(n, s, t, BeginWrite(f, false, data), s')
    requires !Full(s.sh.ring.ir, s.sh.ring.iw)
    ensures AtRest(n, s', t, f)
    ensures var i := s'.tasks[t].call.i;
            s'.tasks[t].ret == Count(i) && Atomic(n, Stored(n, s.sh.ring), Enqueue(data, i), Stored(n, s'.sh.ring))
  {
    var c := BeginWrite(f, false, data);
    var states, labels :| Calling(n, s, t, c, states, labels) && states[|labels|] == s';
    EntryIs(n, s, t, f, c, states[0]);
    RestsAgain(n, s, t, f, c, states, labels);
    SoloWrite(n, states, labels, t);
  }

  /** The outcome of a poll. */
  lemma PollCalled(n: int, s: State, t: Tid, f: Fid, s': State)
    requires AtRest(n, s, t, f) && Called(n, s, t, BeginPoll(f, true, true), s')
    ensures AtRest(n, s', t, f) && s'.sh.ring == s.sh.ring
    ensures s'.tasks[t].ret == Events(Stored(n, s.sh.ring) != [], !Full(s.sh.ring.ir, s.sh.ring.iw))
  {
    var c := BeginPoll(f, true, true);
    var states, labels :| Calling(n, s, t, c, states, labels) && states[|labels|] == s';
    EntryIs(n, s, t, f, c, states[0]);
    RestsAgain(n, s, t, f, c, states, labels);
    SoloPoll(n, states, labels, t);
    ContentsLength(n, s.sh.ring.buf, s.sh.ring.ir, s.sh.ring.iw);
    PollReportsExactly(n, s.sh.ring.ir, s.sh.ring.iw);
  }

  // ---------------------------------------------------------------------------------------------
  // Theorems: what each call does, by its arguments
  // ---------------------------------------------------------------------------------------------

  /** read(f, len): every run of it can go on to its end, which comes within 4 * len + 12 steps after the entry.
      It ends in -EAGAIN exactly for an empty ring and O_NONBLOCK, in sleep exactly for an empty ring without
      O_NONBLOCK, the ring unchanged both times, and otherwise in one atomic dequeue of up to len characters. */
  lemma ReadFromRest(
      n: int, s: State, t: Tid, f: Fid, nonblock: bool, len: nat, states: seq<State>, labels: seq<Label>)
    requires AtRest(n, s, t, f) && Calling(n, s, t, BeginRead(f, nonblock, len), states, labels)
    ensures |labels| <= 4 * len + 12
    ensures var s', q := states[|labels|], Stored(n, s.sh.ring);
            && t in s'.tasks
            && var k := s'.tasks[t];
            if !Ended(k) then CanGoOn(n, s', t)
            else
              && (k.loc == User && k.ret == Again <==> q == [] && nonblock)
              && (SleepsFast(n, s', t) <==> q == [] && !nonblock)
              && (q == [] ==> s'.sh.ring == s.sh.ring)
              && (q != [] ==>
                    && k.loc == User && k.ret == Count(|k.call.output|)
                    && Atomic(n, q, Dequeue(len, k.call.output), Stored(n, s'.sh.ring)))
  {
    var c := BeginRead(f, nonblock, len);
    SoFar(n, s, t, f, c, states, labels);
    SoloRead(n, states, labels, t);
  }

  /** write(f, data): the same, with buffer_full() and one atomic enqueue of as much as fits. */
  lemma WriteFromRest(
      n: int, s: State, t: Tid, f: Fid, nonblock: bool, data: string, states: seq<State>, labels: seq<Label>)
    requires AtRest(n, s, t, f) && Calling(n, s, t, BeginWrite(f, nonblock, data), states, labels)
    ensures |labels| <= 4 * |data| + 12
    ensures var s', full := states[|labels|], Full(s.sh.ring.ir, s.sh.ring.iw);
            && t in s'.tasks
            && var k := s'.tasks[t];
            if !Ended(k) then CanGoOn(n, s', t)
            else
              && (k.loc == User && k.ret == Again <==> full && nonblock)
              && (SleepsFast(n, s', t) <==> full && !nonblock)
              && (full ==> s'.sh.ring == s.sh.ring)
              && (!full ==>
                    && k.loc == User && k.ret == Count(k.call.i)
                    && Atomic(n, Stored(n, s.sh.ring), Enqueue(data, k.call.i), Stored(n, s'.sh.ring)))
  {
    var c := BeginWrite(f, nonblock, data);
    SoFar(n, s, t, f, c, states, labels);
    SoloWrite(n, states, labels, t);
  }

  /** poll(f) for the events asked: within 10 steps after the entry it has reported both events of the ring as
      it stands, or sleeps exactly if none of those asked for is up. */
  lemma PollFromRest(
      n: int, s: State, t: Tid, f: Fid, wantIn: bool, wantOut: bool, states: seq<State>, labels: seq<Label>)
    requires AtRest(n, s, t, f) && Calling(n, s, t, BeginPoll(f, wantIn, wantOut), states, labels)
    ensures |labels| <= 10
    ensures var s', r := states[|labels|], s.sh.ring;
            var pollin, pollout := Stored(n, r) != [], !Full(r.ir, r.iw);
            && t in s'.tasks && s'.sh.ring == r
            && var k := s'.tasks[t];
            if !Ended(k) then CanGoOn(n, s', t)
            else if (wantIn && pollin) || (wantOut && pollout) then k.loc == User && k.ret == Events(pollin, pollout)
            else SleepsFast(n, s', t)
  {
    SoFar(n, s, t, f, BeginPoll(f, wantIn, wantOut), states, labels);
    SoloPoll(n, states, labels, t);
    PollReportsExactly(n, s.sh.ring.ir, s.sh.ring.iw);
    ContentsLength(n, s.sh.ring.buf, s.sh.ring.ir, s.sh.ring.iw);
  }

  /** open(): within 6 steps after the entry it has returned, one more file counted and open, the ring emptied
      with both indices at 0 exactly if it was the first. */
  lemma OpenFromUser(n: int, s: State, t: Tid, states: seq<State>, labels: seq<Label>)
    requires Inv(n, s) && Calling(n, s, t, BeginOpen, states, labels)
    ensures |labels| <= 6
    ensures var s' := states[|labels|];
            && t in s'.tasks
            && if s'.tasks[t].loc != User then CanGoOn(n, s', t)
               else
                 && s'.tasks[t].ret == Success && Opened(s.sh.files, s'.sh.files)
                 && s'.sh.ring == if s.sh.files.useCount == 0 then Emptied(s.sh.ring) else s.sh.ring
  {
    SoloOpen(n, states, labels, t);
  }

  /** The release of file f, which no call is using: within 3 steps after the entry it has returned, f is
      closed and use_count one lower. */
  lemma CloseFromUser(n: int, s: State, t: Tid, f: Fid, states: seq<State>, labels: seq<Label>)
    requires Inv(n, s) && Calling(n, s, t, BeginClose(f), states, labels)
    ensures |labels| <= 3
    ensures var s', x := states[|labels|], s.sh.files;
            && t in s'.tasks && s'.sh.ring == s.sh.ring
            && if s'.tasks[t].loc != User then CanGoOn(n, s', t)
               else
                 && s'.tasks[t].ret == Success && f in x.open
                 && s'.sh.files.useCount == x.useCount - 1 && s'.sh.files.open == x.open - {f}
                 && s'.sh.files.users == x.users
  {
    SoloClose(n, states, labels, t);
  }
}
