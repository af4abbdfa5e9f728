/**
 What an unlocked test of is_buffer_empty() or buffer_full() concludes. The two loads may see two
 instants, so the answer compares an index of one instant with an index of another. The indices count
 the characters moved since the last reset, modulo n; in those terms the answer is given exactly, for
 device_poll, for the loops that decide to sleep and for the -EAGAIN test alike.
 */
module PollVerdict {
  import opened Ring
  import opened PollState
  import opened PollInvariant
  import opened PollTheorems
  import opened PollProgress

  // ---------------------------------------------------------------------------------------------
  // The indices count
  // ---------------------------------------------------------------------------------------------

  /** ir names the slot after the last character returned, iw the one after the last accepted. */
  predicate Counting(n: int, r: Store) {
    && 2 <= n
    && (!r.resetting ==> Slot(n, r.ir) == |r.returned| % n && Slot(n, r.iw) == |r.accepted| % n)
  }

  /** Quotient and remainder are unique. */
  lemma UniqueRemainder(n: int, q: int, x: int, q': int, x': int)
    requires 0 <= x < n && 0 <= x' < n && q * n + x == q' * n + x'
    ensures x == x'
  {
    if q < q' {
      AtLeastOnce(n, q' - q);
    } else if q > q' {
      AtLeastOnce(n, q - q');
    }
  }

  lemma AtLeastOnce(n: int, k: int)
    requires 0 < n && 1 <= k
    ensures k * n >= n
  {
  }

  lemma NextSlot(n: int, x: int, count: nat)
    requires 2 <= n && 0 <= x < n && x == count % n
    ensures Slot(n, x + 1) == (count + 1) % n
  {
    var q, q' := count / n, (count + 1) / n;
    assert (q + 1) * n == q * n + n;
    if x + 1 == n {
      UniqueRemainder(n, q + 1, 0, q', (count + 1) % n);
    } else {
      UniqueRemainder(n, q, x + 1, q', (count + 1) % n);
    }
  }

  /** What one step does to the histories and the slots: nothing, one character out, or one character in. */
  predicate Moves(n: int, r: Store, r': Store) {
    && r.returned <= r'.returned && r.accepted <= r'.accepted
    && (|| (r'.returned == r.returned && Slot(n, r'.ir) == Slot(n, r.ir))
        || (|r'.returned| == |r.returned| + 1 && 0 <= r.ir < n && r'.ir == r.ir + 1 && r'.accepted == r.accepted))
    && (|| (r'.accepted == r.accepted && Slot(n, r'.iw) == Slot(n, r.iw))
        || (|r'.accepted| == |r.accepted| + 1 && 0 <= r.iw < n && r'.iw == r.iw + 1 && r'.returned == r.returned))
  }

  lemma TransferMoves(n: int, loc: Loc, k: Call, r: Store)
    requires RingShape(n, r) && (loc.Reading? || loc.Writing?) && TransferOk(n, loc, k, r)
    requires k.dir == if loc.Reading? then In else Out
    ensures var x := if loc.Reading? then ReadStep(n, loc.r, k, r) else WriteStep(n, loc.v, k, r);
            x.To? ==> Moves(n, r, x.ring) && x.ring.resetting == r.resetting
    ensures var x := if loc.Reading? then ReadStep(n, loc.r, k, r) else WriteStep(n, loc.v, k, r);
            x.To? ==> if loc.Reading? then x.ring.iw == r.iw else x.ring.ir == r.ir
  {
  }

  /** Outside a reset a step makes one of these moves. */
  lemma StepMoves(n: int, t: Tid, k: Task, sh: Shared, c: Choice)
    requires SharedOk(n, sh) && TaskOk(n, t, k, sh) && !Resetting(k.loc)
    ensures var o := TaskStep(n, t, k, sh, c);
            o.Went? ==> Moves(n, sh.ring, o.sh.ring) && o.sh.ring.resetting == sh.ring.resetting
  {
    if !c.Signal? && (k.loc.Reading? || k.loc.Writing?) {
      TransferMoves(n, k.loc, k.call, sh.ring);
    } else {
      StepLeavesRing(n, t, k, sh, c);
    }
  }

  lemma StepLeavesRing(n: int, t: Tid, k: Task, sh: Shared, c: Choice)
    requires c.Signal? || !(k.loc.Reading? || k.loc.Writing? || Resetting(k.loc))
    ensures var o := TaskStep(n, t, k, sh, c); o.Went? ==> o.sh.ring == sh.ring
  {
    if !c.Signal? {
      if k.loc.Waiting? {
        WaitShape(n, t, k, sh, c);
      } else if k.loc.Polling? {
        PollShape(t, k, sh, c);
      } else if k.loc.Opening? {
        OpenShape(t, k, sh, c);
      }
    }
  }

  lemma MovesKeepCounting(n: int, r: Store, r': Store)
    requires Counting(n, r) && Moves(n, r, r') && r'.resetting == r.resetting
    ensures Counting(n, r')
  {
    if !r.resetting {
      if |r'.returned| == |r.returned| + 1 {
        NextSlot(n, r.ir, |r.returned|);
      }
      if |r'.accepted| == |r.accepted| + 1 {
        NextSlot(n, r.iw, |r.accepted|);
      }
    }
  }

  lemma CountingStep(n: int, s: State, t: Tid, c: Choice, s': State)
    requires Inv(n, s) && Step(n, s, t, c, s') && Counting(n, s.sh.ring)
    ensures Counting(n, s'.sh.ring)
  {
    var k := s.tasks[t];
    assert TaskOk(n, t, k, s.sh);
    if !Resetting(k.loc) {
      StepMoves(n, t, k, s.sh, c);
      MovesKeepCounting(n, s.sh.ring, s'.sh.ring);
    } else if !c.Signal? {
      OpenShape(t, k, s.sh, c);
    }
  }

  lemma {:induction false} CountingRun(n: int, run: seq<State>)
    requires Run(n, run)
    ensures Counting(n, run[|run| - 1].sh.ring)
    decreases |run|
  {
    if |run| == 1 {
      assert Counting(n, run[0].sh.ring);
    } else {
      var front := run[..|run| - 1];
      assert Run(n, front);
      CountingRun(n, front);
      InvRun(n, front);
      assert Next(n, run[|run| - 2], run[|run| - 2 + 1]);
      var t, c :| Step(n, run[|run| - 2], t, c, run[|run| - 1]);
      CountingStep(n, run[|run| - 2], t, c, run[|run| - 1]);
    }
  }

  lemma CountingReachable(n: int, s: State)
    requires Reachable(n, s)
    ensures Counting(n, s.sh.ring)
  {
    var run :| Run(n, run) && run[|run| - 1] == s;
    CountingRun(n, run);
  }

  /** In every reachable state the indices are the two character counts modulo n. */
  lemma IndicesCount(n: int, s: State)
    requires Reachable(n, s) && !s.sh.ring.resetting
    ensures 2 <= n
    ensures Slot(n, s.sh.ring.ir) == |s.sh.ring.returned| % n
    ensures Slot(n, s.sh.ring.iw) == |s.sh.ring.accepted| % n
  {
    CountingReachable(n, s);
  }

  // ---------------------------------------------------------------------------------------------
  // One test of a predicate: a window of a trace between its two loads
  // ---------------------------------------------------------------------------------------------

  /** k is testing the predicate of queue d and has loaded seen so far. The first test of a blocking call
      is left out: it decides nothing. */
  predicate Testing(k: Task, d: Dir, seen: Seen) {
    || k.loc == Polling(if d == In then PollIn(seen) else PollOut(seen))
    || (k.call.dir == d && k.call.nonblock && k.loc == Waiting(First(seen)))
    || (k.call.dir == d && (k.loc == Waiting(Head(seen)) || k.loc == Waiting(Recheck(seen))))
  }

  /** What the test concluded: device_poll leaves the event out, a call returns -EAGAIN or goes on to sleep. */
  predicate SaysBlocked(k: Task, d: Dir) {
    match k.loc
    case Polling(_) => if d == In then !k.poll.gotIn else !k.poll.gotOut
    case Waiting(w) => w.MarkSleep? || w.Schedule?
    case _ => k.loc == User && k.ret == Again
  }

  /** t takes the first step and the last one, and in between nothing but signals. */
  predicate Straddles(labels: seq<Label>, t: Tid) {
    && |labels| >= 2
    && labels[0].t == t && labels[0].c.Go?
    && labels[|labels| - 1].t == t && !labels[|labels| - 1].c.Signal?
    && forall j :: 0 < j < |labels| - 1 && labels[j].t == t ==> labels[j].c.Signal?
  }

  /** The first step of the trace is t's first load and the last step t's second load with its conclusion.
      In between t takes nothing but signals, and the others any steps. */
  ghost predicate Window(n: int, states: seq<State>, labels: seq<Label>, t: Tid, d: Dir) {
    && Trace(n, states, labels) && Reachable(n, states[0]) && Straddles(labels, t)
    && t in states[0].tasks && t in states[|labels|].tasks
    && Testing(states[0].tasks[t], d, Nothing)
  }

  /** The ring at the first load, and at the second. */
  ghost function Before(states: seq<State>): Store
    requires |states| > 2
  {
    states[0].sh.ring
  }

  ghost function After(states: seq<State>): Store
    requires |states| > 2
  {
    states[|states| - 2].sh.ring
  }

  /** The ring at the load of ir, and at the load of iw. */
  ghost function AtIr(states: seq<State>, labels: seq<Label>): Store
    requires |states| > 2 && |labels| > 0 && labels[0].c.Go?
  {
    if labels[0].c.irFirst then Before(states) else After(states)
  }

  ghost function AtIw(states: seq<State>, labels: seq<Label>): Store
    requires |states| > 2 && |labels| > 0 && labels[0].c.Go?
  {
    if labels[0].c.irFirst then After(states) else Before(states)
  }

  lemma FirstLoad(n: int, t: Tid, k: Task, sh: Shared, c: Choice, d: Dir)
    requires Testing(k, d, Nothing) && c.Go?
    ensures var o := TaskStep(n, t, k, sh, c);
            o.Went? && o.sh.ring == sh.ring && Testing(o.k, d, Load(sh.ring, c.irFirst))
            && o.k.loc.Polling? == k.loc.Polling?
  {
  }

  lemma SecondLoad(n: int, t: Tid, k: Task, sh: Shared, c: Choice, d: Dir, seen: Seen)
    requires Testing(k, d, seen) && !seen.Nothing? && !c.Signal?
    ensures var o := TaskStep(n, t, k, sh, c); o.Went? && (SaysBlocked(o.k, d) <==> Judge(d, seen, sh.ring))
  {
    if k.loc.Polling? {
      PollerConcludes(t, k, sh, c, d, seen);
    } else {
      CallConcludes(n, t, k, sh, c, d, seen);
    }
  }

  lemma PollerConcludes(t: Tid, k: Task, sh: Shared, c: Choice, d: Dir, seen: Seen)
    requires Testing(k, d, seen) && !seen.Nothing? && k.loc.Polling?
    ensures var o := PollStep(t, k, k.loc.p, sh, c); o.Went? && (SaysBlocked(o.k, d) <==> Judge(d, seen, sh.ring))
  {
  }

  lemma CallConcludes(n: int, t: Tid, k: Task, sh: Shared, c: Choice, d: Dir, seen: Seen)
    requires Testing(k, d, seen) && !seen.Nothing? && k.loc.Waiting?
    ensures var o := WaitStep(n, t, k, k.loc.w, sh, c); o.Went? && (SaysBlocked(o.k, d) <==> Judge(d, seen, sh.ring))
  {
  }

  lemma TesterUsesFile(k: Task, d: Dir, seen: Seen)
    requires Testing(k, d, seen)
    ensures UsesFile(k.loc)
  {
  }

  /** With t inside a call no reset is possible: every step is a move of the ring. */
  lemma NoResetInside(n: int, s: State, t: Tid, c: Choice, s': State, u: Tid)
    requires Inv(n, s) && Step(n, s, t, c, s') && u in s.tasks && UsesFile(s.tasks[u].loc)
    ensures Moves(n, s.sh.ring, s'.sh.ring) && !s.sh.ring.resetting && !s'.sh.ring.resetting
  {
    assert TaskOk(n, t, s.tasks[t], s.sh);
    CallHasFile(n, s, u);
    StepMoves(n, t, s.tasks[t], s.sh, c);
  }

  /** Throughout the window t holds the value of its first load, and the histories only grow. */
  lemma {:induction false} InsideWindow(n: int, states: seq<State>, labels: seq<Label>, t: Tid, d: Dir, j: int)
    requires Window(n, states, labels, t, d) && 1 <= j < |labels|
    ensures Inv(n, states[j]) && Counting(n, states[j].sh.ring) && !states[j].sh.ring.resetting
    ensures t in states[j].tasks && Testing(states[j].tasks[t], d, Load(Before(states), labels[0].c.irFirst))
    ensures Before(states).returned <= states[j].sh.ring.returned
    ensures Before(states).accepted <= states[j].sh.ring.accepted
    decreases j
  {
    if j == 1 {
      var s := states[0];
      InvReachable(n, s);
      CountingReachable(n, s);
      assert Step(n, s, labels[0].t, labels[0].c, states[0 + 1]);
      InvStep(n, s, t, labels[0].c, states[1]);
      TesterUsesFile(s.tasks[t], d, Nothing);
      NoResetInside(n, s, t, labels[0].c, states[1], t);
      FirstLoad(n, t, s.tasks[t], s.sh, labels[0].c, d);
    } else {
      var s, u, c := states[j - 1], labels[j - 1].t, labels[j - 1].c;
      InsideWindow(n, states, labels, t, d, j - 1);
      assert Step(n, s, u, c, states[j - 1 + 1]);
      InvStep(n, s, u, c, states[j]);
      CountingStep(n, s, u, c, states[j]);
      TesterUsesFile(s.tasks[t], d, Load(Before(states), labels[0].c.irFirst));
      NoResetInside(n, s, u, c, states[j], t);
      TesterStays(n, s, u, c, states[j], t);
    }
  }

  lemma TesterStays(n: int, s: State, u: Tid, c: Choice, s': State, t: Tid)
    requires Step(n, s, u, c, s') && t in s.tasks && (u == t ==> c.Signal?)
    ensures t in s'.tasks && s'.tasks[t].loc == s.tasks[t].loc && s'.tasks[t].call == s.tasks[t].call
  {
  }

  // ---------------------------------------------------------------------------------------------
  // Theorems
  // ---------------------------------------------------------------------------------------------

  /** The characters returned at the load of ir (ring x) against those accepted at the load of iw (ring y),
      modulo n: equal for "no data", one apart for "no room". An index that is n at its load (mid-wrap) only
      equals another such index, and ir == 0 or iw == n never look full. */
  predicate CountsMeet(n: int, d: Dir, x: Store, y: Store)
    requires 2 <= n
  {
    match d
    case In => |x.returned| % n == |y.accepted| % n && (x.ir == n <==> y.iw == n)
    case Out => |x.returned| % n == (|y.accepted| + 1) % n && x.ir != 0 && y.iw != n
  }

  lemma BlockedCounts(n: int, d: Dir, x: Store, y: Store)
    requires RingShape(n, x) && RingShape(n, y) && Counting(n, x) && Counting(n, y)
    requires !x.resetting && !y.resetting
    ensures Blocked(d, x.ir, y.iw) <==> CountsMeet(n, d, x, y)
  {
    if y.iw < n {
      NextSlot(n, y.iw, |y.accepted|);
    }
  }

  lemma VerdictIsJudge(n: int, states: seq<State>, labels: seq<Label>, t: Tid, d: Dir)
    requires Window(n, states, labels, t, d)
    ensures SaysBlocked(states[|labels|].tasks[t], d)
            <==> Blocked(d, AtIr(states, labels).ir, AtIw(states, labels).iw)
    ensures RingOk(n, Before(states)) && RingOk(n, After(states))
    ensures Counting(n, Before(states)) && Counting(n, After(states))
    ensures !Before(states).resetting && !After(states).resetting
    ensures Before(states).returned <= After(states).returned
    ensures Before(states).accepted <= After(states).accepted
  {
    var m := |labels| - 1;
    InvReachable(n, states[0]);
    CountingReachable(n, states[0]);
    TesterUsesFile(states[0].tasks[t], d, Nothing);
    CallHasFile(n, states[0], t);
    InsideWindow(n, states, labels, t, d, m);
    var s, c := states[m], labels[m].c;
    assert Step(n, s, t, c, states[m + 1]);
    SecondLoad(n, t, s.tasks[t], s.sh, c, d, Load(Before(states), labels[0].c.irFirst));
  }

  /** The verdict of every test, exactly, whatever the other tasks did between its two loads; and for
      "no data" the same split by whether it is wrong of the moment it is given. */
  lemma VerdictExactly(n: int, states: seq<State>, labels: seq<Label>, t: Tid, d: Dir)
    requires Window(n, states, labels, t, d)
    ensures 2 <= n
    ensures SaysBlocked(states[|labels|].tasks[t], d)
            <==> CountsMeet(n, d, AtIr(states, labels), AtIw(states, labels))
    ensures Before(states).returned <= After(states).returned
    ensures Before(states).accepted <= After(states).accepted
    ensures Stored(n, After(states)) != [] <==> |After(states).returned| < |After(states).accepted|
  {
    VerdictIsJudge(n, states, labels, t, d);
    BlockedCounts(n, d, AtIr(states, labels), AtIw(states, labels));
  }

  /** A test is right of the instant of one of its loads unless both a reader and a writer stored an index
      between them. */
  lemma TornNeedsBoth(n: int, states: seq<State>, labels: seq<Label>, t: Tid, d: Dir)
    requires Window(n, states, labels, t, d)
    requires Before(states).ir == After(states).ir || Before(states).iw == After(states).iw
    ensures || (SaysBlocked(states[|labels|].tasks[t], d) <==> Blocked(d, Before(states).ir, Before(states).iw))
            || (SaysBlocked(states[|labels|].tasks[t], d) <==> Blocked(d, After(states).ir, After(states).iw))
  {
    VerdictIsJudge(n, states, labels, t, d);
  }

  lemma AtLeast(n: int, a: nat, b: nat)
    requires 0 < n && a % n == b % n && a > b - n
    ensures a >= b
  {
    if a / n < b / n {
      AtLeastOnce(n, b / n - a / n);
    }
  }

  lemma AddTurn(n: int, a: nat)
    requires 0 < n
    ensures (a + n) % n == a % n
  {
    assert (a / n + 1) * n == a / n * n + n;
    UniqueRemainder(n, a / n + 1, a % n, (a + n) / n, (a + n) % n);
  }

  lemma WholeTurn(n: int, a: nat, b: nat)
    requires 0 < n && a % n == b % n && b > a
    ensures b >= a + n
  {
    AddTurn(n, a);
    AtLeast(n, b, a + n);
  }

  /** The same, on the counts alone: returned and accepted at the first load and at the second. */
  lemma Overtakes(n: int, one: nat, irFirst: bool, ret: nat, acc: nat, ret': nat, acc': nat)
    requires 0 < n && ret <= ret' && acc <= acc' && ret < acc + one < ret + n
    requires (if irFirst then ret else ret') % n == ((if irFirst then acc' else acc) + one) % n
    ensures if irFirst then acc' + one >= ret + n else ret' >= acc + one
  {
    if irFirst {
      WholeTurn(n, ret, acc' + one);
    } else {
      AtLeast(n, ret', acc + one);
    }
  }

  lemma OvertakesRing(n: int, d: Dir, irFirst: bool, r: Store, r': Store)
    requires RingOk(n, r) && !r.resetting && r.returned <= r'.returned && r.accepted <= r'.accepted
    requires if d == In then Stored(n, r) != [] else |Stored(n, r)| < n - 1
    requires CountsMeet(n, d, if irFirst then r else r', if irFirst then r' else r)
    ensures var one := if d == In then 0 else 1;
            if irFirst then |r'.accepted| + one >= |r.returned| + n else |r'.returned| >= |r.accepted| + one
  {
    ContentsLength(n, r.buf, r.ir, r.iw);
    Overtakes(n, if d == In then 0 else 1, irFirst, |r.returned|, |r.accepted|, |r'.returned|, |r'.accepted|);
  }

  /** What must have happened for "blocked" to be concluded although the first load found it false. With iw
      loaded first, reads returned everything that was stored then (and, for "no room", one more); with ir
      loaded first, writes went a whole turn round the ring past that ir. */
  lemma SilenceTakes(n: int, states: seq<State>, labels: seq<Label>, t: Tid, d: Dir)
    requires Window(n, states, labels, t, d)
    requires SaysBlocked(states[|labels|].tasks[t], d)
    requires var q := Stored(n, Before(states)); if d == In then q != [] else |q| < n - 1
    ensures var one := if d == In then 0 else 1;
            if labels[0].c.irFirst then |After(states).accepted| + one >= |Before(states).returned| + n
            else |After(states).returned| >= |Before(states).accepted| + one
  {
    VerdictExactly(n, states, labels, t, d);
    VerdictIsJudge(n, states, labels, t, d);
    OvertakesRing(n, d, labels[0].c.irFirst, Before(states), After(states));
  }

  /** If the ring holds equally many characters at every instant of a window, none moved: a step moves one. */
  lemma {:induction false} SteadyHistories(
      n: int, states: seq<State>, labels: seq<Label>, t: Tid, d: Dir, held: nat, j: int)
    requires Window(n, states, labels, t, d) && 0 <= j < |labels|
    requires forall i :: 0 <= i < |labels| ==> |Stored(n, states[i].sh.ring)| == held
    ensures states[j].sh.ring.returned == Before(states).returned
    ensures states[j].sh.ring.accepted == Before(states).accepted
    decreases j
  {
    if j == 0 {
    } else {
      SteadyHistories(n, states, labels, t, d, held, j - 1);
      var s, u, c := states[j - 1], labels[j - 1].t, labels[j - 1].c;
      assert Step(n, s, u, c, states[j - 1 + 1]);
      WindowStep(n, states, labels, t, d, j - 1);
    }
  }

  /** Every step inside a window is a move, and conservation holds on both sides of it. */
  lemma WindowStep(n: int, states: seq<State>, labels: seq<Label>, t: Tid, d: Dir, j: int)
    requires Window(n, states, labels, t, d) && 0 <= j < |labels| - 1
    ensures Moves(n, states[j].sh.ring, states[j + 1].sh.ring)
    ensures RingOk(n, states[j].sh.ring) && !states[j].sh.ring.resetting
    ensures RingOk(n, states[j + 1].sh.ring) && !states[j + 1].sh.ring.resetting
  {
    var s := states[j];
    assert Step(n, s, labels[j].t, labels[j].c, states[j + 1]);
    if j == 0 {
      InvReachable(n, s);
      TesterUsesFile(s.tasks[t], d, Nothing);
    } else {
      InsideWindow(n, states, labels, t, d, j);
      TesterUsesFile(s.tasks[t], d, Load(Before(states), labels[0].c.irFirst));
    }
    InsideWindow(n, states, labels, t, d, j + 1);
    NoResetInside(n, s, labels[j].t, labels[j].c, states[j + 1], t);
  }

  /** A ring of N == 2 holds at most one character, and a test of it never errs towards "blocked": if data
      was stored at every instant it does not say "no data", if room was there it does not say "no room".
      PollWitness has the runs in which both happen for every N >= 3. */
  lemma TwoSlotsAreNeverSilent(n: int, states: seq<State>, labels: seq<Label>, t: Tid, d: Dir)
    requires Window(n, states, labels, t, d) && n == 2
    requires forall j :: 0 <= j < |labels| ==>
               if d == In then Stored(n, states[j].sh.ring) != [] else |Stored(n, states[j].sh.ring)| < n - 1
    ensures !SaysBlocked(states[|labels|].tasks[t], d)
  {
    VerdictExactly(n, states, labels, t, d);
    VerdictIsJudge(n, states, labels, t, d);
    var held := if d == In then 1 else 0;
    forall j | 0 <= j < |labels| ensures |Stored(n, states[j].sh.ring)| == held {
      if j == 0 {
        InvReachable(n, states[0]);
      } else {
        InsideWindow(n, states, labels, t, d, j);
      }
      ContentsLength(n, states[j].sh.ring.buf, states[j].sh.ring.ir, states[j].sh.ring.iw);
    }
    SteadyHistories(n, states, labels, t, d, held, |labels| - 1);
    assert |Before(states).accepted| == |Before(states).returned| + held;
  }

  // ---------------------------------------------------------------------------------------------
  // One caller of a kind
  // ---------------------------------------------------------------------------------------------

  /** The index that only callers of t's kind move stays where it is while t, alone of its kind, waits. */
  lemma OwnIndexStep(n: int, s: State, u: Tid, c: Choice, s': State, t: Tid)
    requires Inv(n, s) && Step(n, s, u, c, s') && t in s.tasks && s.tasks[t].loc.Waiting?
    requires Single(s, s.tasks[t].call.dir)
    ensures if s.tasks[t].call.dir == In then s'.sh.ring.ir == s.sh.ring.ir else s'.sh.ring.iw == s.sh.ring.iw
  {
    var k := s.tasks[u];
    assert TaskOk(n, u, k, s.sh) && TaskOk(n, t, s.tasks[t], s.sh);
    if Resetting(k.loc) {
      CallHasFile(n, s, t);
    } else if !c.Signal? && (k.loc.Reading? || k.loc.Writing?) {
      assert Inside(s.tasks[t], s.tasks[t].call.dir) && !Inside(k, s.tasks[t].call.dir);
      TransferMoves(n, k.loc, k.call, s.sh.ring);
    } else {
      StepLeavesRing(n, u, k, s.sh, c);
    }
  }

  lemma {:induction false} OwnIndexStays(
      n: int, states: seq<State>, labels: seq<Label>, t: Tid, d: Dir, j: int)
    requires Window(n, states, labels, t, d) && 0 <= j < |labels|
    requires states[0].tasks[t].loc.Waiting? && forall i :: 0 <= i < |labels| ==> Single(states[i], d)
    ensures Inv(n, states[j]) && t in states[j].tasks
    ensures states[j].tasks[t].loc.Waiting? && states[j].tasks[t].call.dir == d
    ensures if d == In then states[j].sh.ring.ir == Before(states).ir else states[j].sh.ring.iw == Before(states).iw
    decreases j
  {
    if j == 0 {
      InvReachable(n, states[0]);
    } else {
      var s, u, c := states[j - 1], labels[j - 1].t, labels[j - 1].c;
      OwnIndexStays(n, states, labels, t, d, j - 1);
      assert Step(n, s, u, c, states[j - 1 + 1]);
      OwnIndexStep(n, s, u, c, states[j], t);
      InsideWindow(n, states, labels, t, d, j);
      if j == 1 {
        FirstLoad(n, t, s.tasks[t], s.sh, c, d);
      } else {
        InsideWindow(n, states, labels, t, d, j - 1);
        TesterStays(n, s, u, c, states[j], t);
      }
    }
  }

  /** A test made by a read or a write while no other call of its kind is in progress is right of one instant,
      so the call returns -EAGAIN, or goes on to sleep, exactly if its predicate was true at the load of the
      index the other side moves. The other side is not restricted. */
  lemma CallsTestAnInstant(n: int, states: seq<State>, labels: seq<Label>, t: Tid, d: Dir)
    requires Window(n, states, labels, t, d) && states[0].tasks[t].loc.Waiting?
    requires forall j :: 0 <= j < |labels| ==> Single(states[j], d)
    ensures var at := if d == In then AtIw(states, labels) else AtIr(states, labels);
            SaysBlocked(states[|labels|].tasks[t], d) <==> Blocked(d, at.ir, at.iw)
  {
    VerdictIsJudge(n, states, labels, t, d);
    OwnIndexStays(n, states, labels, t, d, |labels| - 1);
  }
}
