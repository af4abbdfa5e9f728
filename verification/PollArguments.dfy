/**
 What a caller asks for is what its call does: along any interleaving the direction, flag, length and data a
 call works with are those of the read() or write() it began with, and a poll's events those it was asked for.
 So the theorems on calls in progress are about the arguments of the callers.
 */
module PollArguments {
  import opened Ring
  import opened PollState
  import opened PollInvariant
  import opened PollTheorems
  import opened PollProgress

  datatype Begun = NoneYet | By(c: Choice)

  /** The last read or write that t has begun before step j. */
  ghost function LastCall(states: seq<State>, labels: seq<Label>, t: Tid, j: nat): Begun
    requires j <= |labels| < |states|
  {
    if j == 0 then NoneYet
    else if BeginsCall(states[j - 1], labels[j - 1], t) then By(labels[j - 1].c)
    else LastCall(states, labels, t, j - 1)
  }

  predicate BeginsCall(s: State, l: Label, t: Tid) {
    l.t == t && t in s.tasks && s.tasks[t].loc == User && (l.c.BeginRead? || l.c.BeginWrite?)
  }

  /** The last poll that t has begun before step j. */
  ghost function LastPoll(states: seq<State>, labels: seq<Label>, t: Tid, j: nat): Begun
    requires j <= |labels| < |states|
  {
    if j == 0 then NoneYet
    else if BeginsPoll(states[j - 1], labels[j - 1], t) then By(labels[j - 1].c)
    else LastPoll(states, labels, t, j - 1)
  }

  predicate BeginsPoll(s: State, l: Label, t: Tid) {
    l.t == t && t in s.tasks && s.tasks[t].loc == User && l.c.BeginPoll?
  }

  /** The call works with what c asked for. */
  predicate CallAsAsked(k: Call, c: Choice) {
    match c
    case BeginRead(_, nonblock, len) => k.dir == In && k.nonblock == nonblock && k.len == len
    case BeginWrite(_, nonblock, data) =>
      k.dir == Out && k.nonblock == nonblock && k.data == data && k.len == |data|
    case _ => false
  }

  predicate PollAsAsked(k: Poll, c: Choice) {
    c.BeginPoll? && k.wantIn == c.wantIn && k.wantOut == c.wantOut
  }

  // ---------------------------------------------------------------------------------------------
  // One step
  // ---------------------------------------------------------------------------------------------

  /** Inside a call the arguments do not change, and a task gets inside only from user mode. */
  predicate Keeps(k: Task, k': Task) {
    && k'.call.dir == k.call.dir && k'.call.nonblock == k.call.nonblock
    && k'.call.len == k.call.len && k'.call.data == k.call.data
    && k'.poll.wantIn == k.poll.wantIn && k'.poll.wantOut == k.poll.wantOut
    && (InCall(k'.loc) ==> InCall(k.loc)) && (k'.loc.Polling? ==> k.loc.Polling?)
  }

  lemma WaitKeeps(n: int, t: Tid, k: Task, sh: Shared, c: Choice)
    requires k.loc.Waiting?
    ensures var o := WaitStep(n, t, k, k.loc.w, sh, c); o.Went? ==> Keeps(k, o.k)
  {
  }

  lemma SectionKeepsArguments(n: int, t: Tid, k: Task, sh: Shared, c: Choice)
    requires TransferLoc(k.loc) && !c.Signal?
    ensures var o := TaskStep(n, t, k, sh, c); o.Went? ==> Keeps(k, o.k)
  {
  }

  lemma PollKeepsArguments(t: Tid, k: Task, sh: Shared, c: Choice)
    requires k.loc.Polling?
    ensures var o := PollStep(t, k, k.loc.p, sh, c); o.Went? ==> Keeps(k, o.k)
  {
  }

  lemma OpenKeepsArguments(t: Tid, k: Task, sh: Shared, c: Choice)
    requires k.loc.Opening?
    ensures var o := OpenStep(t, k, k.loc.o, sh, c); o.Went? ==> Keeps(k, o.k)
  {
  }

  lemma CloseKeepsArguments(t: Tid, k: Task, sh: Shared)
    requires k.loc.Closing?
    ensures var o := CloseStep(t, k, k.loc.c, sh); o.Went? ==> Keeps(k, o.k)
  {
  }

  lemma StepKeepsArguments(n: int, t: Tid, k: Task, sh: Shared, c: Choice)
    requires k.loc != User || c.Signal?
    ensures var o := TaskStep(n, t, k, sh, c); o.Went? ==> Keeps(k, o.k)
  {
    if !c.Signal? {
      match k.loc
      case Waiting(_) => WaitKeeps(n, t, k, sh, c);
      case Polling(_) => PollKeepsArguments(t, k, sh, c);
      case Opening(_) => OpenKeepsArguments(t, k, sh, c);
      case Closing(_) => CloseKeepsArguments(t, k, sh);
      case _ => SectionKeepsArguments(n, t, k, sh, c);
    }
  }

  /** System-call entry records what was asked, and nothing else changes the record. */
  lemma EntryRecords(t: Tid, k: Task, sh: Shared, c: Choice)
    requires k.loc == User
    ensures var o := UserStep(t, k, sh, c);
            o.Went? ==>
              && (if c.BeginRead? || c.BeginWrite? then CallAsAsked(o.k.call, c) && o.k.poll == k.poll
                  else o.k.call == k.call && !InCall(o.k.loc))
              && (if c.BeginPoll? then PollAsAsked(o.k.poll, c) else o.k.poll == k.poll && !o.k.loc.Polling?)
  {
  }

  // ---------------------------------------------------------------------------------------------
  // Theorems
  // ---------------------------------------------------------------------------------------------

  /** Along any trace: the last read or write t began says what its call record holds, inside the call and after
      its return, and the same for polls. */
  lemma {:induction false} CallsAreAsAsked(n: int, states: seq<State>, labels: seq<Label>, t: Tid, j: nat)
    requires Trace(n, states, labels) && j <= |labels|
    requires t in states[0].tasks && states[0].tasks[t].loc == User
    ensures t in states[j].tasks
    ensures var k, call := states[j].tasks[t], LastCall(states, labels, t, j);
            && (InCall(k.loc) ==> call.By?)
            && (call.By? ==> CallAsAsked(k.call, call.c))
    ensures var k, poll := states[j].tasks[t], LastPoll(states, labels, t, j);
            && (k.loc.Polling? ==> poll.By?)
            && (poll.By? ==> PollAsAsked(k.poll, poll.c))
  {
    if j == 0 {
    } else {
      var s, u, c := states[j - 1], labels[j - 1].t, labels[j - 1].c;
      CallsAreAsAsked(n, states, labels, t, j - 1);
      assert Step(n, s, u, c, states[j - 1 + 1]);
      if u == t {
        if s.tasks[t].loc == User && !c.Signal? {
          EntryRecords(t, s.tasks[t], s.sh, c);
        } else {
          StepKeepsArguments(n, t, s.tasks[t], s.sh, c);
        }
      }
    }
  }

  /** The queue operation of a completed call is the one its caller asked for: a dequeue of up to the length
      given to read(), an enqueue of the data given to write(). */
  lemma OperationsAreAsAsked(n: int, states: seq<State>, labels: seq<Label>, j: nat)
    requires Trace(n, states, labels) && j < |labels|
    requires labels[j].t in states[0].tasks && states[0].tasks[labels[j].t].loc == User
    ensures var op, call := OpOf(states, labels, j), LastCall(states, labels, labels[j].t, j);
            && (op.Dequeue? ==> call.By? && call.c.BeginRead? && op.want == call.c.len)
            && (op.Enqueue? ==> call.By? && call.c.BeginWrite? && op.offered == call.c.data)
  {
    CallsAreAsAsked(n, states, labels, labels[j].t, j);
  }

  /** Why a call ended: -EAGAIN only if it was begun with O_NONBLOCK, -ERESTARTSYS only with a signal pending. */
  lemma ErrorsAreAsAsked(n: int, states: seq<State>, labels: seq<Label>, t: Tid, j: nat)
    requires Trace(n, states, labels) && Reachable(n, states[0]) && j < |labels|
    requires t in states[0].tasks && states[0].tasks[t].loc == User && labels[j].t == t
    requires t in states[j].tasks && states[j].tasks[t].loc != User
    requires t in states[j + 1].tasks && states[j + 1].tasks[t].loc == User
    ensures states[j + 1].tasks[t].ret == Restart ==> states[j].tasks[t].signal
    ensures states[j + 1].tasks[t].ret == Again ==>
              var call := LastCall(states, labels, t, j);
              call.By? && (if call.c.BeginRead? then call.c.nonblock else call.c.BeginWrite? && call.c.nonblock)
  {
    TraceReaches(n, states, labels, j);
    assert Step(n, states[j], labels[j].t, labels[j].c, states[j + 1]);
    ErrorsHaveReasons(n, states[j], t, labels[j].c, states[j + 1]);
    CallsAreAsAsked(n, states, labels, t, j);
  }

  /** A call begun with O_NONBLOCK, in a run in which calls of its kind never overlap, never marks itself for
      sleep, so it never reaches schedule(). */
  lemma NonblockAsAskedNeverSleeps(n: int, states: seq<State>, labels: seq<Label>, t: Tid, j: nat)
    requires Trace(n, states, labels) && Init(n, states[0]) && j <= |labels| && t in states[0].tasks
    requires var call := LastCall(states, labels, t, j);
             && call.By? && (if call.c.BeginRead? then call.c.nonblock else call.c.BeginWrite? && call.c.nonblock)
             && forall i :: 0 <= i <= j ==> Single(states[i], if call.c.BeginRead? then In else Out)
    ensures t in states[j].tasks
    ensures var k := states[j].tasks[t];
            k.loc.Waiting? ==>
              || k.loc.w.First? || k.loc.w.AddQueue? || k.loc.w.Head?
              || k.loc.w.MarkRun? || k.loc.w.Unqueue? || k.loc.w.Down?
  {
    assert IdleTask(states[0].tasks[t]);
    CallsAreAsAsked(n, states, labels, t, j);
    var run := states[..j + 1];
    forall i | 0 <= i < |run| - 1 ensures Next(n, run[i], run[i + 1]) {
      assert Step(n, states[i], labels[i].t, labels[i].c, states[i + 1]);
    }
    NonblockNeverSleeps(n, run, t);
  }
}
