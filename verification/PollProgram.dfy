/**
 test_pollRW.c in the transition system: one task that polls, reads and writes, the next call chosen from what
 the last one returned, every call going through its program counters. Between two calls of the program and
 during them no other task steps. PollClient proves the same of the sequential device.
 */
module PollProgram {
  import opened Ring
  import opened PollState
  import opened PollInvariant
  import opened PollTheorems
  import opened PollSolo
  import opened PollCalls
  import opened PollClient

  // ---------------------------------------------------------------------------------------------
  // The program
  // ---------------------------------------------------------------------------------------------

  datatype Phase = ToPoll | ToRead | ToWrite | Done | Gone

  /** Locals of main(), where it is in its loop, whether the last poll reported POLLOUT, and what its reads
      have returned. Gone is every other way out: a timeout, or an error return. */
  datatype Client = Client(phase: Phase, total: nat, wbuf: string, pollout: bool, got: string)

  function Started(message: string): Client {
    Client(ToPoll, |message|, message, false, [])
  }

  predicate Running(cl: Client) {
    cl.phase.ToPoll? || cl.phase.ToRead? || cl.phase.ToWrite?
  }

  /** The next call. */
  function NextCall(cl: Client, f: Fid): Choice {
    match cl.phase
    case ToRead => BeginRead(f, false, cl.total)
    case ToWrite => BeginWrite(f, false, cl.wbuf)
    case _ => BeginPoll(f, true, true)
  }

  /** What the program makes of the return of that call. */
  function Return(cl: Client, k: Task): Client {
    match cl.phase
    case ToPoll =>
      if k.ret.Events? && k.ret.pollin then cl.(phase := ToRead, pollout := k.ret.pollout)
      else if k.ret.Events? && k.ret.pollout then cl.(phase := ToWrite, pollout := true)
      else cl.(phase := Gone)
    case ToRead =>
      if !k.ret.Count? then cl.(phase := Gone)
      else
        var got := cl.got + k.call.output;
        if k.ret.k >= cl.total then cl.(phase := Phase.Done, got := got)
        else cl.(phase := if cl.pollout then ToWrite else ToPoll, total := cl.total - k.ret.k, got := got)
    case ToWrite =>
      if !k.ret.Count? then cl.(phase := Gone)
      else if k.ret.k < |cl.wbuf| then cl.(phase := ToPoll, wbuf := cl.wbuf[k.ret.k..])
      else cl.(phase := ToPoll)
    case _ => cl
  }

  /** A run of the program: the device states at its calls and its own states there. */
  ghost predicate ProgramRun(n: int, ss: seq<State>, cls: seq<Client>, t: Tid, f: Fid, message: string) {
    && |ss| == |cls| > 0
    && AtRest(n, ss[0], t, f) && Stored(n, ss[0].sh.ring) == [] && cls[0] == Started(message)
    && forall j :: 0 <= j < |ss| - 1 ==> Turn(n, ss[j], cls[j], t, f, ss[j + 1], cls[j + 1])
  }

  ghost predicate Turn(n: int, s: State, cl: Client, t: Tid, f: Fid, s': State, cl': Client) {
    && Running(cl) && Called(n, s, t, NextCall(cl, f), s')
    && t in s'.tasks && cl' == Return(cl, s'.tasks[t])
  }

  /** Characters neither read back nor in the device. */
  function Unwritten(message: string, got: string, q: string): int {
    |message| - |got| - |q|
  }

  /** The message is what was read, what the device holds, and what is still to be written; and where the
      program is in its loop says what the device holds. */
  predicate Owns(message: string, cl: Client, q: string) {
    var u := Unwritten(message, cl.got, q);
    && u >= 0 && Accounts(message, cl.got, q, if u == 0 then [] else cl.wbuf)
    && match cl.phase
       case Done => cl.got == message && q == []
       case Gone => false
       case _ =>
         && cl.total == |message| - |cl.got| > 0
         && (cl.phase.ToRead? ==> q != [])
         && (cl.phase.ToWrite? ==> q == [])
  }

  /** A bound on the calls still to be made. */
  function CallsLeft(message: string, cl: Client, q: string): int {
    var work := 3 * (2 * Unwritten(message, cl.got, q) + |q|);
    match cl.phase
    case ToPoll => work + 2
    case ToRead => work + 1
    case ToWrite => work + 1
    case _ => work
  }

  lemma AfterPoll(message: string, cl: Client, q: string, k: Task, pollout: bool)
    requires Owns(message, cl, q) && cl.phase.ToPoll? && k.ret == Events(q != [], pollout) && (q == [] ==> pollout)
    ensures Owns(message, Return(cl, k), q) && CallsLeft(message, Return(cl, k), q) < CallsLeft(message, cl, q)
  {
  }

  lemma AfterReadAll(message: string, cl: Client, q: string, k: Task)
    requires Owns(message, cl, q) && cl.phase.ToRead? && k.ret == Count(|q|) && k.call.output == q
    ensures Owns(message, Return(cl, k), []) && CallsLeft(message, Return(cl, k), []) < CallsLeft(message, cl, q)
  {
    AfterRead(message, cl.got, q, if Unwritten(message, cl.got, q) == 0 then [] else cl.wbuf);
  }

  lemma AfterWriteSome(message: string, cl: Client, k: Task, q': string)
    requires Owns(message, cl, []) && cl.phase.ToWrite? && k.ret == Count(k.call.i)
    requires 0 < k.call.i <= |cl.wbuf| && q' == cl.wbuf[..k.call.i]
    ensures Owns(message, Return(cl, k), q') && CallsLeft(message, Return(cl, k), q') < CallsLeft(message, cl, [])
  {
    var i := k.call.i;
    assert q' + cl.wbuf[i..] == cl.wbuf;
    AfterWrite(message, cl.got, cl.wbuf, q', cl.wbuf[i..]);
  }

  /** One call of the program, whatever run of it the task takes. */
  lemma TurnKeeps(n: int, s: State, cl: Client, t: Tid, f: Fid, s': State, cl': Client, message: string)
    requires AtRest(n, s, t, f) && Owns(message, cl, Stored(n, s.sh.ring)) && Turn(n, s, cl, t, f, s', cl')
    ensures AtRest(n, s', t, f) && Owns(message, cl', Stored(n, s'.sh.ring))
    ensures CallsLeft(message, cl', Stored(n, s'.sh.ring)) < CallsLeft(message, cl, Stored(n, s.sh.ring))
  {
    var q, k := Stored(n, s.sh.ring), s'.tasks[t];
    Flags(n, s, t, f);
    match cl.phase
    case ToPoll =>
      PollCalled(n, s, t, f, s');
      AfterPoll(message, cl, q, k, !Full(s.sh.ring.ir, s.sh.ring.iw));
    case ToRead =>
      ReadCalled(n, s, t, f, cl.total, s');
      DequeueAll(n, q, cl.total, k.call.output, Stored(n, s'.sh.ring));
      AfterReadAll(message, cl, q, k);
    case ToWrite =>
      WriteCalled(n, s, t, f, cl.wbuf, s');
      AfterWriteSome(message, cl, k, Stored(n, s'.sh.ring));
  }

  /** At rest the predicates say what the ring holds: data is never missed, and an empty ring has room. */
  lemma Flags(n: int, s: State, t: Tid, f: Fid)
    requires AtRest(n, s, t, f)
    ensures var r := s.sh.ring;
            && (Empty(r.ir, r.iw) <==> Stored(n, r) == [])
            && (Stored(n, r) == [] ==> !Full(r.ir, r.iw))
            && 2 <= n
  {
    var r := s.sh.ring;
    ContentsLength(n, r.buf, r.ir, r.iw);
    PollReportsExactly(n, r.ir, r.iw);
  }

  lemma StartOwns(message: string)
    requires message != []
    ensures Owns(message, Started(message), []) && CallsLeft(message, Started(message), []) == 6 * |message| + 2
  {
  }

  lemma {:induction false} ProgramKeeps(
      n: int, ss: seq<State>, cls: seq<Client>, t: Tid, f: Fid, message: string, j: nat)
    requires ProgramRun(n, ss, cls, t, f, message) && message != [] && j < |ss|
    ensures AtRest(n, ss[j], t, f) && Owns(message, cls[j], Stored(n, ss[j].sh.ring))
    ensures j + CallsLeft(message, cls[j], Stored(n, ss[j].sh.ring)) <= 6 * |message| + 2
  {
    if j == 0 {
      StartOwns(message);
    } else {
      var i := j - 1;
      ProgramKeeps(n, ss, cls, t, f, message, i);
      assert Turn(n, ss[i], cls[i], t, f, ss[i + 1], cls[i + 1]);
      TurnKeeps(n, ss[i], cls[i], t, f, ss[j], cls[j], message);
    }
  }

  /** test_pollRW with the device to itself, in the transition system. In every run of it, after at most
      6 * |message| + 2 calls: either it has read exactly the message, once and in order, and the device is
      empty; or its next call does not have to wait, so no run of that call sleeps, and it comes to its
      return. It never sees a timeout or an error. */
  lemma ProgramReadsItsMessage(n: int, ss: seq<State>, cls: seq<Client>, t: Tid, f: Fid, message: string)
    requires ProgramRun(n, ss, cls, t, f, message) && message != []
    ensures |ss| <= 6 * |message| + 3
    ensures var s, cl := ss[|ss| - 1], cls[|ss| - 1];
            if Running(cl) then
              && Unblocked(NextCall(cl, f), s.sh.ring)
              && (forall states: seq<State>, labels: seq<Label> ::
                    Calling(n, s, t, NextCall(cl, f), states, labels) ==>
                      t in states[|labels|].tasks && !Asleep(states[|labels|].tasks[t]))
              && exists s': State :: Called(n, s, t, NextCall(cl, f), s')
            else cl.phase.Done? && cl.got == message && Stored(n, s.sh.ring) == []
  {
    ProgramKeeps(n, ss, cls, t, f, message, |ss| - 1);
    var s, cl := ss[|ss| - 1], cls[|ss| - 1];
    Flags(n, s, t, f);
    if Running(cl) {
      var c := NextCall(cl, f);
      forall states: seq<State>, labels: seq<Label> | Calling(n, s, t, c, states, labels)
        ensures t in states[|labels|].tasks && !Asleep(states[|labels|].tasks[t])
      {
        NeverAsleep(n, s, t, f, c, states, labels);
      }
      var s' := CallExists(n, s, t, f, c);
    }
  }
}
