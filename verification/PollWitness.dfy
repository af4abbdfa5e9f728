/**
 Runs of the transition system that reach the corner cases the other modules speak of: the ring positions
 where poll reports too much, the write that returns 0, and device_poll keeping silent about data (or room)
 that is there at every instant between its two loads. Two tasks suffice: a poller, and a program that
 opens the device and makes its reads and writes one after the other.
 */
module PollWitness {
  import opened Ring
  import opened PollState
  import opened PollInvariant
  import opened PollTheorems
  import opened PollVerdict
  import opened PollSolo

  const POLLER: Tid := 0
  const PROGRAM: Tid := 1

  // ---------------------------------------------------------------------------------------------
  // Building traces
  // ---------------------------------------------------------------------------------------------

  lemma Joined(n: int, xs: seq<State>, ls: seq<Label>, ys: seq<State>, ms: seq<Label>)
    requires Trace(n, xs, ls) && Trace(n, ys, ms) && xs[|ls|] == ys[0]
    ensures Trace(n, xs[..|ls|] + ys, ls + ms)
  {
    var zs, ks := xs[..|ls|] + ys, ls + ms;
    forall j | 0 <= j < |ks| ensures Step(n, zs[j], ks[j].t, ks[j].c, zs[j + 1]) {
      if j < |ls| {
        assert Step(n, xs[j], ls[j].t, ls[j].c, xs[j + 1]);
      } else {
        var i := j - |ls|;
        assert Step(n, ys[i], ms[i].t, ms[i].c, ys[i + 1]);
      }
    }
  }

  lemma Prefixed(n: int, s: State, t: Tid, c: Choice, states: seq<State>, labels: seq<Label>)
    requires Trace(n, states, labels) && Step(n, s, t, c, states[0])
    ensures Trace(n, [s] + states, [Label(t, c)] + labels)
  {
    Joined(n, [s, states[0]], [Label(t, c)], states, labels);
    assert [s, states[0]][..1] + states == [s] + states;
  }

  /** A trace with one step of t before it and one after it. */
  lemma Framed(n: int, s: State, t: Tid, c: Choice, states: seq<State>, labels: seq<Label>, z: State)
    requires Trace(n, states, labels) && Step(n, s, t, c, states[0]) && Step(n, states[|labels|], t, c, z)
    ensures Trace(n, [s] + states + [z], [Label(t, c)] + labels + [Label(t, c)])
  {
    Prefixed(n, s, t, c, states, labels);
    var xs, ls := [s] + states, [Label(t, c)] + labels;
    Joined(n, xs, ls, [states[|labels|], z], [Label(t, c)]);
    assert xs[..|ls|] + [states[|labels|], z] == xs + [z];
  }

  /** A task that takes no step stays where it is. */
  lemma {:induction false} BystanderStays(n: int, states: seq<State>, labels: seq<Label>, u: Tid, j: nat)
    requires Trace(n, states, labels) && u in states[0].tasks && j <= |labels|
    requires forall i :: 0 <= i < |labels| ==> labels[i].t != u
    ensures u in states[j].tasks
    ensures states[j].tasks[u].loc == states[0].tasks[u].loc && states[j].tasks[u].call == states[0].tasks[u].call
    ensures states[j].tasks[u].poll == states[0].tasks[u].poll
    ensures states[j].tasks[u].signal == states[0].tasks[u].signal
  {
    if j == 0 {
    } else {
      BystanderStays(n, states, labels, u, j - 1);
      assert Step(n, states[j - 1], labels[j - 1].t, labels[j - 1].c, states[j - 1 + 1]);
    }
  }

  // ---------------------------------------------------------------------------------------------
  // One call of the program
  // ---------------------------------------------------------------------------------------------

  /** The program is between two calls and has file f open; nobody is in a transfer. */
  ghost predicate Between(n: int, s: State, f: Fid) {
    && Reachable(n, s) && PROGRAM in s.tasks
    && s.tasks[PROGRAM].loc == User && !s.tasks[PROGRAM].signal
    && s.sh.sema == Free && Usable(s.sh.files, f)
  }

  /** c starts a blocking read or write on f that does not have to wait. */
  predicate Goes(s: State, f: Fid, c: Choice) {
    || (c.BeginRead? && c.f == f && !c.nonblock && !Empty(s.sh.ring.ir, s.sh.ring.iw))
    || (c.BeginWrite? && c.f == f && !c.nonblock && !Full(s.sh.ring.ir, s.sh.ring.iw))
  }

  /** How many characters the ring holds. */
  function Level(n: int, s: State): nat {
    |Stored(n, s.sh.ring)|
  }

  /** The call's arguments. */
  predicate Asked(k: Call, c: Choice) {
    match c
    case BeginRead(_, _, len) => k.dir == In && k.len == len
    case BeginWrite(_, _, data) => k.dir == Out && k.data == data && k.len == |data|
    case _ => false
  }

  lemma Begins(n: int, s: State, f: Fid, c: Choice) returns (s': State)
    requires Between(n, s, f) && Goes(s, f, c)
    ensures Step(n, s, PROGRAM, c, s') && Starts(n, s', PROGRAM) && s'.sh.ring == s.sh.ring
    ensures s'.tasks[PROGRAM].loc == Waiting(First(Nothing))
    ensures SameFiles(s.sh.files, s'.sh.files)
    ensures Asked(s'.tasks[PROGRAM].call, c)
  {
    InvReachable(n, s);
    s' := Apply(s, PROGRAM, TaskStep(n, PROGRAM, s.tasks[PROGRAM], s.sh, c));
    InvStep(n, s, PROGRAM, c, s');
  }

  /** How full the ring is while a read or write runs alone, and when it has finished. */
  predicate LevelDuring(n: int, c: Choice, before: int, now: int) {
    match c
    case BeginRead(_, _, len) => before - len <= now <= before
    case BeginWrite(_, _, data) => before <= now <= before + |data|
    case _ => false
  }

  predicate LevelAfter(n: int, c: Choice, before: int, now: int) {
    match c
    case BeginRead(_, _, len) => now == before - Min(len, before)
    case BeginWrite(_, _, data) => now == before + Min(|data|, n - 1 - before)
    case _ => false
  }

  lemma StaysBetween(n: int, t: Tid, k: Task, sh: Shared, k0: Call, r0: Store)
    requires SharedOk(n, sh) && TaskOk(n, t, k, sh) && CallAlone(n, k, k0, false, r0, sh.ring)
    ensures var m, m0 := |Stored(n, sh.ring)|, |Stored(n, r0)|;
            if k0.dir == In then m0 - k0.len <= m <= m0 else m0 <= m <= m0 + k0.len
  {
  }

  /** The call of the program from its entry to its return. */
  lemma RunCall(n: int, s: State, f: Fid, c: Choice) returns (states: seq<State>, labels: seq<Label>)
    requires Between(n, s, f) && Goes(s, f, c)
    ensures SoloCall(n, states, labels, PROGRAM) && Step(n, s, PROGRAM, c, states[0])
    ensures states[0].sh.ring == s.sh.ring && states[0].tasks[PROGRAM].loc == Waiting(First(Nothing))
    ensures Asked(states[0].tasks[PROGRAM].call, c)
    ensures PROGRAM in states[|labels|].tasks && states[|labels|].tasks[PROGRAM].loc == User
    ensures Usable(states[|labels|].sh.files, f)
  {
    var s' := Begins(n, s, f, c);
    assert Trace(n, [s'], []);
    states, labels := RunsToEnd(n, [s'], [], PROGRAM);
    SoloRun(n, states, labels, PROGRAM);
    EndsInUser(n, s', states[|labels|], PROGRAM);
  }

  /** A call whose predicate does not block does not sleep. */
  lemma EndsInUser(n: int, s0: State, s: State, t: Tid)
    requires Since(n, s0, s, t) && Ended(s.tasks[t]) && s0.tasks[t].loc == Waiting(First(Nothing))
    requires var k0, r0 := s0.tasks[t].call, s0.sh.ring; !Blocked(k0.dir, r0.ir, r0.iw)
    ensures s.tasks[t].loc == User
  {
  }

  lemma DuringCall(n: int, states: seq<State>, labels: seq<Label>, t: Tid, j: nat)
    requires SoloCall(n, states, labels, t) && j <= |labels| && states[0].tasks[t].loc == Waiting(First(Nothing))
    ensures var m, m0, k0 := Level(n, states[j]), Level(n, states[0]), states[0].tasks[t].call;
            if k0.dir == In then m0 - k0.len <= m <= m0 else m0 <= m <= m0 + k0.len
  {
    SoloAt(n, states, labels, t, j);
    var s := states[j];
    assert TaskOk(n, t, s.tasks[t], s.sh);
    StaysBetween(n, t, s.tasks[t], s.sh, states[0].tasks[t].call, states[0].sh.ring);
  }

  /** The finished call, against the state s0 it was entered in. */
  predicate Performed(n: int, s0: State, s: State, c: Choice) {
    && PROGRAM in s.tasks
    && OtherIndexSame(if c.BeginRead? then In else Out, s.sh.ring, s0.sh.ring)
    && LevelAfter(n, c, Level(n, s0), Level(n, s))
    && s.tasks[PROGRAM].ret == Count(s.tasks[PROGRAM].call.i)
    && (c.BeginWrite? ==> Level(n, s) == Level(n, s0) + s.tasks[PROGRAM].call.i)
  }

  lemma AfterCall(n: int, s0: State, s: State, c: Choice)
    requires Since(n, s0, s, PROGRAM) && s0.tasks[PROGRAM].loc == Waiting(First(Nothing))
    requires s.tasks[PROGRAM].loc == User
    requires Asked(s0.tasks[PROGRAM].call, c)
    requires var k0, r0 := s0.tasks[PROGRAM].call, s0.sh.ring; !Blocked(k0.dir, r0.ir, r0.iw)
    ensures Performed(n, s0, s, c) && s.sh.sema == Free && !s.tasks[PROGRAM].signal
  {
    assert TaskOk(n, PROGRAM, s.tasks[PROGRAM], s.sh);
  }

  lemma EndOf(n: int, states: seq<State>, labels: seq<Label>, c: Choice)
    requires SoloCall(n, states, labels, PROGRAM) && states[0].tasks[PROGRAM].loc == Waiting(First(Nothing))
    requires PROGRAM in states[|labels|].tasks && states[|labels|].tasks[PROGRAM].loc == User
    requires Asked(states[0].tasks[PROGRAM].call, c)
    requires var k0, r0 := states[0].tasks[PROGRAM].call, states[0].sh.ring; !Blocked(k0.dir, r0.ir, r0.iw)
    ensures Performed(n, states[0], states[|labels|], c)
    ensures states[|labels|].sh.sema == Free && !states[|labels|].tasks[PROGRAM].signal
  {
    SoloRun(n, states, labels, PROGRAM);
    AfterCall(n, states[0], states[|labels|], c);
  }

  /** A read or write of the program that does not have to wait, as a trace: what it leaves in the ring, what
      it returns, and how full the ring is at every instant of it. */
  lemma Performs(n: int, s: State, f: Fid, c: Choice) returns (states: seq<State>, labels: seq<Label>)
    requires Between(n, s, f) && Goes(s, f, c)
    ensures Trace(n, states, labels) && states[0] == s && |labels| > 0 && labels[0] == Label(PROGRAM, c)
    ensures forall j :: 0 <= j < |labels| ==> labels[j].t == PROGRAM
    ensures Between(n, states[|labels|], f) && Performed(n, s, states[|labels|], c)
    ensures forall j :: 0 <= j <= |labels| ==> LevelDuring(n, c, Level(n, s), Level(n, states[j]))
  {
    var xs, ls := RunCall(n, s, f, c);
    states, labels := [s] + xs, [Label(PROGRAM, c)] + ls;
    Prefixed(n, s, PROGRAM, c, xs, ls);
    TraceReaches(n, states, labels, |labels|);
    LevelsOf(n, s, xs, ls, c);
    EndOf(n, xs, ls, c);
  }

  /** The poller's program counter and locals are those of s. */
  predicate SamePoller(s: State, s': State) {
    && POLLER in s.tasks && POLLER in s'.tasks
    && s'.tasks[POLLER].loc == s.tasks[POLLER].loc && s'.tasks[POLLER].call == s.tasks[POLLER].call
    && s'.tasks[POLLER].poll == s.tasks[POLLER].poll
  }

  lemma LevelsOf(n: int, s: State, states: seq<State>, labels: seq<Label>, c: Choice)
    requires SoloCall(n, states, labels, PROGRAM) && states[0].tasks[PROGRAM].loc == Waiting(First(Nothing))
    requires Asked(states[0].tasks[PROGRAM].call, c) && states[0].sh.ring == s.sh.ring
    ensures forall j :: 0 <= j < |states| + 1 ==> LevelDuring(n, c, Level(n, s), Level(n, ([s] + states)[j]))
  {
    forall j | 0 <= j < |states| + 1 ensures LevelDuring(n, c, Level(n, s), Level(n, ([s] + states)[j])) {
      if j > 0 {
        DuringCall(n, states, labels, PROGRAM, j - 1);
      }
    }
  }

  // ---------------------------------------------------------------------------------------------
  // Reaching the corners
  // ---------------------------------------------------------------------------------------------

  function Idle(): Task {
    Task(User, true, false, NoCall, Call(In, false, 0, [], 0, [], 0, [], 0, 0), Poll(false, false, false, false))
  }

  /** The device just loaded, with the poller and the program. */
  function Loaded(n: nat): State {
    State(Shared(Store(seq(n + 1, _ => ' '), 0, 0, [], [], false), Free, Free, {}, {}, Files(0, {}, map[], map[])),
          map[POLLER := Idle(), PROGRAM := Idle()])
  }

  lemma LoadedIsReachable(n: nat)
    requires 2 <= n
    ensures Init(n, Loaded(n)) && Reachable(n, Loaded(n))
  {
    var s := Loaded(n);
    assert s.sh.ring == Store(s.sh.ring.buf, 0, 0, [], [], false);
    assert Run(n, [s]);
    assert [s][|[s]| - 1] == s;
  }

  /** The poller is in user mode and has yet to make a call. */
  predicate PollerIdle(s: State) {
    POLLER in s.tasks && s.tasks[POLLER].loc == User && !s.tasks[POLLER].signal
  }

  lemma OpenBegins(n: nat) returns (s: State)
    requires 2 <= n
    ensures Reachable(n, s) && Starts(n, s, PROGRAM) && PollerIdle(s) && s.sh == Loaded(n).sh
    ensures s.tasks[PROGRAM].loc == Opening(OpenLock)
  {
    var s0 := Loaded(n);
    LoadedIsReachable(n);
    s := Apply(s0, PROGRAM, TaskStep(n, PROGRAM, Idle(), s0.sh, BeginOpen));
    StepReaches(n, s0, PROGRAM, BeginOpen, s);
    InvReachable(n, s);
  }

  /** The program has opened the device: the ring is empty, at index 0. */
  lemma FreshDevice(n: nat) returns (s: State, f: Fid)
    requires 2 <= n
    ensures Between(n, s, f) && PollerIdle(s) && s.sh.lock == Free
    ensures s.sh.ring.ir == 0 && s.sh.ring.iw == 0
  {
    var s1 := OpenBegins(n);
    assert Trace(n, [s1], []);
    var states, labels := RunsToEnd(n, [s1], [], PROGRAM);
    SoloRun(n, states, labels, PROGRAM);
    s := states[|labels|];
    TraceReaches(n, states, labels, |labels|);
    BystanderStays(n, states, labels, POLLER, |labels|);
    assert TaskOk(n, PROGRAM, s.tasks[PROGRAM], s.sh);
    f :| f in s.sh.files.open;
  }

  /** Between calls the index of the one side and the level give the other. */
  lemma Position(n: int, s: State, f: Fid)
    requires Between(n, s, f)
    ensures var r, m := s.sh.ring, Level(n, s);
            && 0 <= r.ir < n && 0 <= r.iw < n && m <= n - 1
            && r.iw == (if r.ir + m < n then r.ir + m else r.ir + m - n)
  {
    InvReachable(n, s);
    ContentsLength(n, s.sh.ring.buf, s.sh.ring.ir, s.sh.ring.iw);
  }

  /** The program performs a call and is between calls again. */
  lemma Afterwards(n: int, s: State, f: Fid, c: Choice) returns (s': State)
    requires Between(n, s, f) && Goes(s, f, c)
    ensures Between(n, s', f) && Performed(n, s, s', c)
    ensures POLLER in s.tasks ==> SamePoller(s, s')
  {
    var states, labels := Performs(n, s, f, c);
    s' := states[|labels|];
    if POLLER in s.tasks {
      BystanderStays(n, states, labels, POLLER, |labels|);
    }
  }

  function Letters(k: nat): (s: string)
    ensures |s| == k
  {
    seq(k, _ => 'x')
  }

  /** n-1 characters written to the fresh device: the ring is full at ir == 0, iw == n-1. */
  lemma FullAtZero(n: nat) returns (s: State, f: Fid)
    requires 2 <= n
    ensures Between(n, s, f) && s.sh.ring.ir == 0 && s.sh.ring.iw == n - 1
  {
    s, f := FreshDevice(n);
    Position(n, s, f);
    s := Afterwards(n, s, f, BeginWrite(f, false, Letters(n - 1)));
    Position(n, s, f);
  }

  /** The false room of buffer_full() is reached: in a reachable state the ring is full, poll would report
      POLLOUT, and a write of any data runs through and returns 0. */
  lemma FalseRoomIsReached(n: nat, data: string) returns (states: seq<State>, labels: seq<Label>)
    requires 2 <= n
    ensures Trace(n, states, labels) && Reachable(n, states[0]) && labels != []
    ensures states[0].sh.ring.ir == 0 && states[0].sh.ring.iw == n - 1
    ensures Level(n, states[0]) == n - 1 && !Full(states[0].sh.ring.ir, states[0].sh.ring.iw)
    ensures labels[0].t == PROGRAM && labels[0].c.BeginWrite? && labels[0].c.data == data
    ensures PROGRAM in states[|labels|].tasks && states[|labels|].tasks[PROGRAM].loc == User
    ensures states[|labels|].tasks[PROGRAM].ret == Count(0)
  {
    var s, f := FullAtZero(n);
    Position(n, s, f);
    states, labels := Performs(n, s, f, BeginWrite(f, false, data));
  }

  lemma {:induction false} FindRise(counts: seq<nat>) returns (j: nat)
    requires |counts| > 0 && counts[0] == 0 && counts[|counts| - 1] > 0
    ensures j + 1 < |counts| && counts[j] == 0 && counts[j + 1] > 0
  {
    if counts[|counts| - 2] == 0 {
      j := |counts| - 2;
    } else {
      j := FindRise(counts[..|counts| - 1]);
    }
  }

  /** Characters moved by t's call so far, state by state. */
  ghost function Counts(n: int, states: seq<State>, labels: seq<Label>, t: Tid): (counts: seq<nat>)
    requires SoloCall(n, states, labels, t) && t in states[|labels|].tasks
    ensures |counts| == |states|
    ensures forall j :: 0 <= j < |states| ==> t in states[j].tasks && counts[j] == states[j].tasks[t].call.i
  {
    seq(|states|, j requires 0 <= j < |states| => if t in states[j].tasks then states[j].tasks[t].call.i else 0)
  }

  lemma StartsAtZero(n: int, s: State, t: Tid)
    requires Starts(n, s, t) && s.tasks[t].loc == Waiting(First(Nothing))
    ensures s.tasks[t].call.i == 0
  {
    assert TaskOk(n, t, s.tasks[t], s.sh);
  }

  /** The step that moves the first character leaves its index just before the wrap test. */
  lemma RisesAtWrap(n: int, t: Tid, k: Task, sh: Shared, c: Choice)
    requires SharedOk(n, sh) && TaskOk(n, t, k, sh) && Plain(c) && InCall(k.loc) && k.call.i == 0
    ensures var o := TaskStep(n, t, k, sh, c);
            o.Went? && o.k.call.i > 0 ==>
              && o.k.call.i == 1 && o.k.call.dir == k.call.dir
              && (if k.call.dir == In then o.k.loc == Reading(ReadWrap) && o.sh.ring.ir >= 1
                  else o.k.loc == Writing(WriteWrap) && o.sh.ring.iw >= 1)
  {
    if k.loc.Waiting? {
      WaitCall(n, t, k, sh, c);
    }
  }

  /** The state just after the first character of a call alone has moved. */
  predicate FirstMoved(n: int, s0: State, s: State, t: Tid)
    requires t in s0.tasks
  {
    var k0, r0, r := s0.tasks[t].call, s0.sh.ring, s.sh.ring;
    && RingShape(n, r) && OtherIndexSame(k0.dir, r, r0)
    && if k0.dir == In then Level(n, s) == Level(n, s0) - 1 && r.ir >= 1
       else Level(n, s) == Level(n, s0) + 1 && r.iw >= 1
  }

  lemma SinceEntry(n: int, s0: State, s: State, t: Tid)
    requires Since(n, s0, s, t) && s0.tasks[t].loc == Waiting(First(Nothing))
    ensures SharedOk(n, s.sh) && TaskOk(n, t, s.tasks[t], s.sh)
    ensures CallAlone(n, s.tasks[t], s0.tasks[t].call, false, s0.sh.ring, s.sh.ring)
  {
    assert TaskOk(n, t, s.tasks[t], s.sh);
  }

  lemma MovesFirst(n: int, s0: State, s: State, t: Tid, c: Choice, s': State)
    requires t in s0.tasks && Step(n, s, t, c, s') && Plain(c) && InCall(s.tasks[t].loc)
    requires SharedOk(n, s.sh) && TaskOk(n, t, s.tasks[t], s.sh)
    requires SharedOk(n, s'.sh) && TaskOk(n, t, s'.tasks[t], s'.sh)
    requires CallAlone(n, s.tasks[t], s0.tasks[t].call, false, s0.sh.ring, s.sh.ring)
    requires CallAlone(n, s'.tasks[t], s0.tasks[t].call, false, s0.sh.ring, s'.sh.ring)
    requires s.tasks[t].call.i == 0 && s'.tasks[t].call.i > 0
    ensures FirstMoved(n, s0, s', t)
  {
    RisesAtWrap(n, t, s.tasks[t], s.sh, c);
    FirstLevel(n, t, s'.tasks[t], s'.sh, s0.tasks[t].call, s0.sh.ring);
  }

  /** The level when one character has been moved. */
  lemma FirstLevel(n: int, t: Tid, k: Task, sh: Shared, k0: Call, r0: Store)
    requires SharedOk(n, sh) && TaskOk(n, t, k, sh) && CallAlone(n, k, k0, false, r0, sh.ring)
    requires SemaLoc(k.loc) && k.call.i == 1
    ensures |Stored(n, sh.ring)| == if k0.dir == In then |Stored(n, r0)| - 1 else |Stored(n, r0)| + 1
  {
  }

  /** A call that moves something passes the instant where its first character is moved and its index not
      yet wrapped. */
  lemma FirstMove(n: int, states: seq<State>, labels: seq<Label>, t: Tid) returns (j: nat)
    requires SoloCall(n, states, labels, t) && states[0].tasks[t].loc == Waiting(First(Nothing))
    requires t in states[|labels|].tasks && states[|labels|].tasks[t].call.i > 0
    ensures j <= |labels| && FirstMoved(n, states[0], states[j], t)
  {
    StartsAtZero(n, states[0], t);
    var i := FindRise(Counts(n, states, labels, t));
    SoloAt(n, states, labels, t, i);
    SoloAt(n, states, labels, t, i + 1);
    SinceEntry(n, states[0], states[i], t);
    SinceEntry(n, states[0], states[i + 1], t);
    assert Step(n, states[i], labels[i].t, labels[i].c, states[i + 1]);
    MovesFirst(n, states[0], states[i], t, labels[i].c, states[i + 1]);
    j := i + 1;
  }

  /** The instant of a call of the program where it has moved its first character and not yet wrapped. */
  lemma MidCall(n: int, s: State, f: Fid, c: Choice) returns (s': State)
    requires Between(n, s, f) && Goes(s, f, c)
    requires if c.BeginRead? then c.len > 0 else c.data != [] && Level(n, s) < n - 1
    ensures Reachable(n, s') && RingShape(n, s'.sh.ring)
    ensures if c.BeginRead? then
              s'.sh.ring.iw == s.sh.ring.iw && s'.sh.ring.ir >= 1 && Level(n, s') == Level(n, s) - 1
            else s'.sh.ring.ir == s.sh.ring.ir && s'.sh.ring.iw >= 1 && Level(n, s') == Level(n, s) + 1
  {
    var states, labels := RunCall(n, s, f, c);
    SoloRun(n, states, labels, PROGRAM);
    AfterCall(n, states[0], states[|labels|], c);
    Position(n, s, f);
    var j := FirstMove(n, states, labels, PROGRAM);
    StepReaches(n, s, PROGRAM, c, states[0]);
    TraceReaches(n, states, labels, j);
    s' := states[j];
  }

  /** The second false POLLOUT is reached: a write that has just filled the ring from ir == 1. */
  lemma MidWriteIsReached(n: nat) returns (s: State)
    requires 2 <= n
    ensures Reachable(n, s) && s.sh.ring.ir == 1 && s.sh.ring.iw == n && Level(n, s) == n - 1
  {
    var f;
    s, f := FullAtZero(n);
    Position(n, s, f);
    s := Afterwards(n, s, f, BeginRead(f, false, 1));
    Position(n, s, f);
    s := MidCall(n, s, f, BeginWrite(f, false, "x"));
    ContentsLength(n, s.sh.ring.buf, s.sh.ring.ir, s.sh.ring.iw);
  }

  /** The false POLLIN is reached: a read that has just emptied the ring at its end. */
  lemma MidReadIsReached(n: nat) returns (s: State)
    requires 2 <= n
    ensures Reachable(n, s) && s.sh.ring.ir == n && s.sh.ring.iw == 0 && Level(n, s) == 0
  {
    var f;
    s, f := FullAtZero(n);
    Position(n, s, f);
    s := Afterwards(n, s, f, BeginRead(f, false, n - 1));
    Position(n, s, f);
    s := Afterwards(n, s, f, BeginWrite(f, false, "x"));
    Position(n, s, f);
    s := MidCall(n, s, f, BeginRead(f, false, 1));
    ContentsLength(n, s.sh.ring.buf, s.sh.ring.ir, s.sh.ring.iw);
  }

  // ---------------------------------------------------------------------------------------------
  // device_poll silent about what is there throughout
  // ---------------------------------------------------------------------------------------------

  /** One step of the poller inside device_poll, seen from the program. */
  lemma PollerStep(n: int, s: State, f: Fid, c: Choice) returns (s': State)
    requires Between(n, s, f) && POLLER in s.tasks && !c.Signal?
    requires s.tasks[POLLER].loc.Polling? || (s.tasks[POLLER].loc == User && c.BeginPoll?)
    requires var o := TaskStep(n, POLLER, s.tasks[POLLER], s.sh, c); o.Went? && o.k.loc.Polling?
    ensures Step(n, s, POLLER, c, s') && Between(n, s', f) && s'.sh.ring == s.sh.ring
    ensures POLLER in s'.tasks
    ensures var o := TaskStep(n, POLLER, s.tasks[POLLER], s.sh, c); s'.tasks[POLLER] == o.k && s'.sh == o.sh
  {
    if s.tasks[POLLER].loc.Polling? {
      PollShape(POLLER, s.tasks[POLLER], s.sh, c);
    }
    var o := TaskStep(n, POLLER, s.tasks[POLLER], s.sh, c);
    s' := Apply(s, POLLER, o);
    StepReaches(n, s, POLLER, c, s');
  }

  /** The poller enters device_poll and is about to test the predicate of queue d. */
  lemma PollerTests(n: int, s: State, f: Fid, d: Dir) returns (s': State)
    requires Between(n, s, f) && PollerIdle(s) && s.sh.lock == Free
    ensures Between(n, s', f) && s'.sh.ring == s.sh.ring
    ensures POLLER in s'.tasks && Testing(s'.tasks[POLLER], d, Nothing) && s'.tasks[POLLER].loc.Polling?
  {
    s' := PollerStep(n, s, f, BeginPoll(f, true, true));
    s' := PollerStep(n, s', f, Go(true));
    s' := PollerStep(n, s', f, Go(true));
    s' := PollerStep(n, s', f, Go(true));
    if d == Out {
      s' := PollerStep(n, s', f, Go(true));
      s' := PollerStep(n, s', f, Go(true));
    }
  }

  /** The program writes one character and reads one, with ir == 0 before: both indices have moved by one,
      and the level was never below the old one, nor above it by more than one. */
  lemma Churn(n: int, s: State, f: Fid) returns (states: seq<State>, labels: seq<Label>)
    requires Between(n, s, f) && POLLER in s.tasks && s.sh.ring.ir == 0 && Level(n, s) < n - 1
    ensures Trace(n, states, labels) && states[0] == s && |labels| > 0
    ensures forall j :: 0 <= j < |labels| ==> labels[j].t == PROGRAM
    ensures forall j :: 0 <= j <= |labels| ==> Level(n, s) <= Level(n, states[j]) <= Level(n, s) + 1
    ensures Between(n, states[|labels|], f) && SamePoller(s, states[|labels|])
    ensures states[|labels|].sh.ring.ir == 1
  {
    Position(n, s, f);
    var xs, ls := Performs(n, s, f, BeginWrite(f, false, "x"));
    Position(n, xs[|ls|], f);
    var ys, ms := Performs(n, xs[|ls|], f, BeginRead(f, false, 1));
    Position(n, ys[|ms|], f);
    states, labels := xs[..|ls|] + ys, ls + ms;
    Joined(n, xs, ls, ys, ms);
    BystanderStays(n, states, labels, POLLER, |labels|);
    forall j | 0 <= j <= |labels| ensures Level(n, s) <= Level(n, states[j]) <= Level(n, s) + 1 {
      if j < |ls| {
        assert LevelDuring(n, BeginWrite(f, false, "x"), Level(n, s), Level(n, xs[j]));
      } else {
        assert LevelDuring(n, BeginRead(f, false, 1), Level(n, xs[|ls|]), Level(n, ys[j - |ls|]));
      }
    }
  }

  lemma PollerLoads(n: int, s: State, f: Fid, d: Dir) returns (s': State)
    requires Between(n, s, f) && POLLER in s.tasks && s.tasks[POLLER].loc.Polling?
    requires Testing(s.tasks[POLLER], d, Nothing)
    ensures Step(n, s, POLLER, Go(false), s') && Between(n, s', f) && s'.sh.ring == s.sh.ring
    ensures POLLER in s'.tasks && s'.tasks[POLLER].loc.Polling?
    ensures Testing(s'.tasks[POLLER], d, Load(s.sh.ring, false))
  {
    FirstLoad(n, POLLER, s.tasks[POLLER], s.sh, Go(false), d);
    s' := PollerStep(n, s, f, Go(false));
  }

  lemma PollerVerdict(n: int, s: State, f: Fid, d: Dir, seen: Seen) returns (s': State)
    requires Between(n, s, f) && POLLER in s.tasks && s.tasks[POLLER].loc.Polling?
    requires Testing(s.tasks[POLLER], d, seen) && !seen.Nothing?
    ensures Step(n, s, POLLER, Go(false), s') && s'.sh.ring == s.sh.ring && POLLER in s'.tasks
  {
    PollerConcludes(POLLER, s.tasks[POLLER], s.sh, Go(false), d, seen);
    s' := PollerStep(n, s, f, Go(false));
  }

  lemma LevelsFramed(n: int, s: State, states: seq<State>, z: State, low: nat, high: nat)
    requires low <= Level(n, s) <= high && low <= Level(n, z) <= high
    requires forall j :: 0 <= j < |states| ==> low <= Level(n, states[j]) <= high
    ensures forall j :: 0 <= j < |states| + 2 ==> low <= Level(n, ([s] + states + [z])[j]) <= high
  {
  }

  lemma FramedStraddles(labels: seq<Label>, l: Label)
    requires l.t == POLLER && l.c.Go? && forall j :: 0 <= j < |labels| ==> labels[j].t == PROGRAM
    ensures Straddles([l] + labels + [l], POLLER)
  {
  }

  /** The poller's two steps around a trace of the program are a window. */
  lemma AsWindow(n: int, s: State, states: seq<State>, labels: seq<Label>, z: State, d: Dir)
    requires Reachable(n, s) && POLLER in s.tasks && POLLER in z.tasks && Testing(s.tasks[POLLER], d, Nothing)
    requires Trace(n, states, labels) && forall j :: 0 <= j < |labels| ==> labels[j].t == PROGRAM
    requires Step(n, s, POLLER, Go(false), states[0]) && Step(n, states[|labels|], POLLER, Go(false), z)
    ensures var l := Label(POLLER, Go(false));
            && Window(n, [s] + states + [z], [l] + labels + [l], POLLER, d)
            && After([s] + states + [z]) == states[|labels|].sh.ring
  {
    Framed(n, s, POLLER, Go(false), states, labels, z);
    FramedStraddles(labels, Label(POLLER, Go(false)));
  }

  lemma SilentWindow(n: int, s: State, f: Fid, d: Dir) returns (states: seq<State>, labels: seq<Label>)
    requires Between(n, s, f) && POLLER in s.tasks && s.sh.ring.ir == 0 && Level(n, s) < n - 1
    requires Testing(s.tasks[POLLER], d, Nothing) && s.tasks[POLLER].loc.Polling?
    ensures Window(n, states, labels, POLLER, d) && states[0] == s && labels[0].c == Go(false)
    ensures forall j :: 0 <= j < |states| ==> Level(n, s) <= Level(n, states[j]) <= Level(n, s) + 1
    ensures After(states).ir == 1
  {
    var s' := PollerLoads(n, s, f, d);
    var xs, ls := Churn(n, s', f);
    var z := PollerVerdict(n, xs[|ls|], f, d, Load(s.sh.ring, false));
    states, labels := [s] + xs + [z], [Label(POLLER, Go(false))] + ls + [Label(POLLER, Go(false))];
    AsWindow(n, s, xs, ls, z, d);
    LevelsFramed(n, s, xs, z, Level(n, s), Level(n, s) + 1);
  }

  /** For every N >= 3 there is a run in which device_poll leaves an event out although it was up at every
      instant from its first load to its verdict: iw is loaded, one character is written, one is read, ir is
      loaded. With one character in the ring before, that is a missing POLLIN; with none, a missing POLLOUT. */
  lemma SilentPoll(n: nat, d: Dir) returns (states: seq<State>, labels: seq<Label>)
    requires 3 <= n
    ensures Window(n, states, labels, POLLER, d) && states[0].tasks[POLLER].loc.Polling?
    ensures forall j :: 0 <= j <= |labels| ==>
              if d == In then Stored(n, states[j].sh.ring) != [] else |Stored(n, states[j].sh.ring)| < n - 1
    ensures SaysBlocked(states[|labels|].tasks[POLLER], d)
  {
    var s, f := FreshDevice(n);
    Position(n, s, f);
    s := PollerTests(n, s, f, d);
    if d == In {
      s := Afterwards(n, s, f, BeginWrite(f, false, "x"));
    }
    Position(n, s, f);
    states, labels := SilentWindow(n, s, f, d);
    Position(n, s, f);
    VerdictIsJudge(n, states, labels, POLLER, d);
  }
}
