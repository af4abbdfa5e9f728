/**
 The RTL8139 transmit ring: four descriptors, two indices modulo four, and the netif "queue stopped"
 flag, which alone tells a full ring from an empty one. The functions below are what one call of
 rtl8139_start_xmit and one pass of the reaping loop do to the driver's state; TxDriver runs them in
 place. The chip is an environment that may set the conclusion bits of any descriptor at any time and
 never writes to the transmit buffers.
 */
module TxRing {
  import opened Bytes

  const NUM_TX_DESC: int := 4
  const MAX_ETH_FRAME_SIZE: int := 1536
  const ETH_MIN_LEN: int := 60
  const TX_BUF_SIZE: int := MAX_ETH_FRAME_SIZE
  const TOTAL_TX_BUF_SIZE: int := TX_BUF_SIZE * NUM_TX_DESC

  /** A transmit status register: the size written by the driver, and TxStatOK, TxAborted, TxUnderrun. */
  datatype Tsd = Tsd(size: int, ok: bool, aborted: bool, underrun: bool)

  predicate Concluded(d: Tsd) {
    d.ok || d.aborted || d.underrun
  }

  /** cur_tx, dirty_tx, the stopped flag, the DMA memory tx_bufs and the four status registers. */
  datatype Tx = Tx(cur: int, dirty: int, stopped: bool, mem: seq<Byte>, tsd: seq<Tsd>)

  predicate Shape(x: Tx) {
    && 0 <= x.cur < NUM_TX_DESC && 0 <= x.dirty < NUM_TX_DESC
    && |x.mem| == TOTAL_TX_BUF_SIZE && |x.tsd| == NUM_TX_DESC
  }

  // ---------------------------------------------------------------------------------------------
  // The driver's operations
  // ---------------------------------------------------------------------------------------------

  function Base(slot: int): int {
    slot * TX_BUF_SIZE
  }

  /** Memory with a packet copied to the start of a slot. */
  function Filled(mem: seq<Byte>, slot: int, pkt: Packet): seq<Byte>
    requires 0 <= slot < NUM_TX_DESC && |mem| == TOTAL_TX_BUF_SIZE && |pkt| < TX_BUF_SIZE
  {
    mem[..Base(slot)] + pkt + mem[Base(slot) + |pkt|..]
  }

  /** rtl8139_start_xmit: an oversized packet is dropped, anything else takes the slot cur_tx. */
  function Xmit(x: Tx, pkt: Packet): Tx
    requires Shape(x)
  {
    var entry := x.cur % NUM_TX_DESC;
    if |pkt| < TX_BUF_SIZE then
      var cur := (entry + 1) % NUM_TX_DESC;
      Tx(cur, x.dirty, x.stopped || cur == x.dirty, Filled(x.mem, entry, pkt),
         x.tsd[entry := Tsd(Max(|pkt|, ETH_MIN_LEN), false, false, false)])
    else x
  }

  /** The loop condition of the reaping loop. */
  predicate LoopCond(x: Tx) {
    x.dirty != x.cur || x.stopped
  }

  /** The loop goes round once more: the condition holds and the descriptor at dirty_tx is concluded. */
  predicate CanReap(x: Tx)
    requires Shape(x)
  {
    LoopCond(x) && Concluded(x.tsd[x.dirty])
  }

  /** One turn of the reaping loop after its break test. */
  function ReapOne(x: Tx): Tx {
    var dirty := (x.dirty + 1) % NUM_TX_DESC;
    x.(dirty := dirty, stopped := x.stopped && dirty != x.cur)
  }

  /** Number of packets handed to the chip and not yet reaped, from the two indices and the flag. */
  function Pending(x: Tx): (p: nat)
    requires Shape(x)
    ensures p <= 4
  {
    if x.cur == x.dirty then (if x.stopped then 4 else 0)
    else if x.cur > x.dirty then x.cur - x.dirty else x.cur - x.dirty + 4
  }

  /** The loop's measure: every turn lowers Pending, which is at most 4, and the loop condition, which
      mixes the indices with the flag, says exactly that something is pending. */
  lemma ReapTurn(x: Tx)
    requires Shape(x)
    ensures LoopCond(x) <==> Pending(x) > 0
    ensures LoopCond(x) ==> Shape(ReapOne(x)) && Pending(ReapOne(x)) == Pending(x) - 1
    ensures LoopCond(x) && x.stopped ==> (!ReapOne(x).stopped <==> Pending(x) == 1)
  {
  }

  /** The whole reaping loop. */
  function ReapAll(x: Tx): (y: Tx)
    requires Shape(x)
    ensures Shape(y) && !CanReap(y)
    decreases Pending(x)
  {
    if CanReap(x) then
      ReapTurn(x);
      ReapAll(ReapOne(x))
    else x
  }

  /** The frame the chip finds in a slot. */
  function Frame(x: Tx, slot: int): seq<Byte>
    requires Shape(x) && 0 <= slot < NUM_TX_DESC
  {
    if 0 <= x.tsd[slot].size <= TX_BUF_SIZE then x.mem[Base(slot)..Base(slot) + x.tsd[slot].size] else []
  }

  /** The frames in the slots the loop reaps, in the order it reaps them. */
  function ReapedFrames(x: Tx): seq<seq<Byte>>
    requires Shape(x)
    decreases Pending(x)
  {
    if CanReap(x) then
      ReapTurn(x);
      [Frame(x, x.dirty)] + ReapedFrames(ReapOne(x))
    else []
  }

  /** The chip concludes a descriptor. */
  function Conclude(x: Tx, slot: int, ok: bool, aborted: bool, underrun: bool): Tx
    requires Shape(x) && 0 <= slot < NUM_TX_DESC
  {
    x.(tsd := x.tsd[slot := Tsd(x.tsd[slot].size, ok, aborted, underrun)])
  }

  // ---------------------------------------------------------------------------------------------
  // The queue the ring stands for
  // ---------------------------------------------------------------------------------------------

  /** A frame for a packet: the packet first, padded to the minimum length. */
  predicate Carries(frame: seq<Byte>, pkt: Packet) {
    |frame| == Max(|pkt|, ETH_MIN_LEN) && frame[..|pkt|] == pkt
  }

  predicate Holds(x: Tx, slot: int, pkt: Packet)
    requires Shape(x) && 0 <= slot < NUM_TX_DESC
  {
    && |pkt| < TX_BUF_SIZE
    && x.tsd[slot].size == Max(|pkt|, ETH_MIN_LEN)
    && x.mem[Base(slot)..Base(slot) + |pkt|] == pkt
  }

  /** The slot of the k-th pending packet, k <= 4. */
  function SlotAt(x: Tx, k: int): int {
    if x.dirty + k < NUM_TX_DESC then x.dirty + k else x.dirty + k - NUM_TX_DESC
  }

  /** The ring holds the packets q, oldest at dirty_tx, each still intact in its slot. */
  predicate Queued(x: Tx, q: seq<Packet>)
    requires Shape(x)
  {
    |q| == Pending(x) && forall k :: 0 <= k < |q| ==> Holds(x, SlotAt(x, k), q[k])
  }

  lemma HeldFrameCarries(x: Tx, slot: int, pkt: Packet)
    requires Shape(x) && 0 <= slot < NUM_TX_DESC && Holds(x, slot, pkt)
    ensures Carries(Frame(x, slot), pkt)
  {
    assert Frame(x, slot)[..|pkt|] == x.mem[Base(slot)..Base(slot) + |pkt|];
  }

  /** Filling one slot leaves every other slot's bytes alone. */
  lemma SlotsAreDisjoint(mem: seq<Byte>, slot: int, pkt: Packet, other: int, len: int)
    requires 0 <= slot < NUM_TX_DESC && 0 <= other < NUM_TX_DESC && other != slot
    requires |mem| == TOTAL_TX_BUF_SIZE && |pkt| < TX_BUF_SIZE && 0 <= len < TX_BUF_SIZE
    ensures |Filled(mem, slot, pkt)| == |mem|
    ensures Filled(mem, slot, pkt)[Base(other)..Base(other) + len] == mem[Base(other)..Base(other) + len]
  {
    var filled := Filled(mem, slot, pkt);
    forall k | Base(other) <= k < Base(other) + len
      ensures filled[k] == mem[k]
    {
      assert k < Base(slot) || Base(slot) + |pkt| <= k;
    }
  }

  lemma FilledHolds(mem: seq<Byte>, slot: int, pkt: Packet)
    requires 0 <= slot < NUM_TX_DESC && |mem| == TOTAL_TX_BUF_SIZE && |pkt| < TX_BUF_SIZE
    ensures |Filled(mem, slot, pkt)| == |mem|
    ensures Filled(mem, slot, pkt)[Base(slot)..Base(slot) + |pkt|] == pkt
  {
  }

  lemma FilledByte(mem: seq<Byte>, slot: int, pkt: Packet, k: int)
    requires 0 <= slot < NUM_TX_DESC && |mem| == TOTAL_TX_BUF_SIZE && |pkt| < TX_BUF_SIZE && 0 <= k < |mem|
    ensures |Filled(mem, slot, pkt)| == |mem|
    ensures Filled(mem, slot, pkt)[k] == if 0 <= k - Base(slot) < |pkt| then pkt[k - Base(slot)] else mem[k]
  {
  }

  /** While the queue runs, the slot start_xmit takes is not one of the pending ones. */
  lemma ChosenSlotIsFree(x: Tx, k: int)
    requires Shape(x) && !x.stopped && 0 <= k < Pending(x)
    ensures SlotAt(x, k) != x.cur
    ensures Pending(x) <= 3
  {
  }

  lemma XmitKeepsSlot(x: Tx, k: int, p: Packet, pkt: Packet)
    requires Shape(x) && !x.stopped && 0 <= k < Pending(x) && |pkt| < TX_BUF_SIZE
    requires Holds(x, SlotAt(x, k), p)
    ensures Shape(Xmit(x, pkt)) && Holds(Xmit(x, pkt), SlotAt(x, k), p)
  {
    ChosenSlotIsFree(x, k);
    SlotsAreDisjoint(x.mem, x.cur, pkt, SlotAt(x, k), |p|);
  }

  /** The new packet sits in the slot after the pending ones, and the count goes up by one. */
  lemma XmitTakesNextSlot(x: Tx, pkt: Packet)
    requires Shape(x) && !x.stopped && |pkt| < TX_BUF_SIZE
    ensures var y := Xmit(x, pkt);
            && Shape(y) && y.dirty == x.dirty && SlotAt(x, Pending(x)) == x.cur && Holds(y, x.cur, pkt)
            && Pending(y) == Pending(x) + 1 && (y.stopped <==> Pending(y) == 4)
  {
    FilledHolds(x.mem, x.cur, pkt);
  }

  /** What start_xmit does to every part of the state. An accepted packet's bytes go to the slot cur_tx and no
      other byte changes; the slot's status register gets the size, at least 60, with no conclusion bit, and no
      other register changes. A packet of 1536 bytes or more changes nothing. */
  lemma XmitTouchesOneSlot(x: Tx, pkt: Packet, k: int, slot: int)
    requires Shape(x) && 0 <= k < |x.mem| && 0 <= slot < NUM_TX_DESC
    ensures var y := Xmit(x, pkt);
            && Shape(y) && y.dirty == x.dirty
            && (|pkt| >= 1536 ==> y == x)
            && (|pkt| <= 1535 ==>
                  && y.mem[k] == (if 0 <= k - 1536 * x.cur < |pkt| then pkt[k - 1536 * x.cur] else x.mem[k])
                  && (slot != x.cur ==> y.tsd[slot] == x.tsd[slot])
                  && (slot == x.cur ==> y.tsd[slot].size == Max(|pkt|, 60) && !Concluded(y.tsd[slot]))
                  && (y.cur == x.cur + 1 || (x.cur == 3 && y.cur == 0))
                  && (y.stopped <==> x.stopped || y.cur == y.dirty))
  {
    if |pkt| <= 1535 {
      FilledByte(x.mem, x.cur, pkt, k);
    }
  }

  /** The four slots divide the buffer: each begins where the one before ends, and the last ends with it. */
  lemma SlotsFillTheBuffer(slot: int)
    requires 0 <= slot < NUM_TX_DESC
    ensures Base(0) == 0 && Base(slot) + 1536 == (if slot == 3 then TOTAL_TX_BUF_SIZE else Base(slot + 1))
    ensures TOTAL_TX_BUF_SIZE == 6144
  {
  }

  /** start_xmit on a running queue appends the packet, and stops the queue exactly when that makes four. */
  lemma XmitEnqueues(x: Tx, q: seq<Packet>, pkt: Packet)
    requires Shape(x) && Queued(x, q) && !x.stopped && |pkt| < TX_BUF_SIZE
    ensures var y := Xmit(x, pkt);
            Shape(y) && Queued(y, q + [pkt]) && (y.stopped <==> |q| + 1 == 4)
  {
    XmitTakesNextSlot(x, pkt);
    forall k | 0 <= k < |q|
      ensures Holds(Xmit(x, pkt), SlotAt(x, k), q[k])
    {
      assert Holds(x, SlotAt(x, k), q[k]);
      XmitKeepsSlot(x, k, q[k], pkt);
    }
  }

  /** A turn of the reaping loop removes the oldest packet, whose frame is still the one submitted. */
  lemma ReapDequeues(x: Tx, q: seq<Packet>)
    requires Shape(x) && Queued(x, q) && LoopCond(x)
    ensures q != [] && Carries(Frame(x, x.dirty), q[0])
    ensures Shape(ReapOne(x)) && Queued(ReapOne(x), q[1..])
  {
    ReapTurn(x);
    var y := ReapOne(x);
    assert Holds(x, SlotAt(x, 0), q[0]);
    HeldFrameCarries(x, x.dirty, q[0]);
    forall k | 0 <= k < |q| - 1
      ensures Holds(y, SlotAt(y, k), q[1..][k])
    {
      assert Holds(x, SlotAt(x, k + 1), q[k + 1]);
      SlotShifts(x, k);
    }
  }

  /** The k-th pending descriptor shows TxStatOK, TxAborted or TxUnderrun. */
  predicate Done(x: Tx, k: int)
    requires Shape(x) && 0 <= k < 4
  {
    var d := x.tsd[SlotAt(x, k)];
    d.ok || d.aborted || d.underrun
  }

  /** The m oldest pending descriptors do. */
  predicate DoneUpTo(x: Tx, m: int)
    requires Shape(x) && m <= 4
  {
    forall k :: 0 <= k < m ==> Done(x, k)
  }

  lemma SlotShifts(x: Tx, k: int)
    requires Shape(x) && 0 <= k < 4
    ensures SlotAt(ReapOne(x), k) == SlotAt(x, k + 1)
  {
  }

  /** What holds of the queue after one turn, stated for the queue before it. */
  lemma ReapShifts(x: Tx, q: seq<Packet>, m: nat)
    requires Shape(x) && Queued(x, q) && CanReap(x) && Shape(ReapOne(x)) && m < |q|
    requires DoneUpTo(ReapOne(x), m) && Carries(Frame(x, x.dirty), q[0])
    requires |ReapedFrames(ReapOne(x))| == m
    requires forall k :: 0 <= k < m ==> Carries(ReapedFrames(ReapOne(x))[k], q[1..][k])
    ensures DoneUpTo(x, m + 1) && SlotAt(ReapOne(x), m) == SlotAt(x, m + 1)
    ensures |ReapedFrames(x)| == m + 1
    ensures forall k :: 0 <= k < m + 1 ==> Carries(ReapedFrames(x)[k], q[k])
  {
    var y := ReapOne(x);
    SlotShifts(x, m);
    forall k | 0 <= k < m + 1
      ensures Done(x, k)
      ensures Carries(ReapedFrames(x)[k], q[k])
    {
      if k > 0 {
        SlotShifts(x, k - 1);
        assert Done(y, k - 1);
        assert ReapedFrames(x)[k] == ReapedFrames(y)[k - 1] && q[1..][k - 1] == q[k];
      }
    }
  }

  /** The whole loop removes exactly the longest concluded prefix of the queue, in order, and wakes the
      queue exactly when a stopped ring drains fully. */
  lemma {:induction false} ReapAllDequeues(x: Tx, q: seq<Packet>) returns (m: nat)
    requires Shape(x) && Queued(x, q)
    ensures m <= |q| <= 4 && DoneUpTo(x, m)
    ensures m == |q| || !Done(x, m)
    ensures Queued(ReapAll(x), q[m..])
    ensures ReapAll(x).stopped <==> x.stopped && m < |q|
    ensures |ReapedFrames(x)| == m && forall k :: 0 <= k < m ==> Carries(ReapedFrames(x)[k], q[k])
    ensures ReapAll(x).cur == x.cur && ReapAll(x).mem == x.mem && ReapAll(x).tsd == x.tsd
    decreases Pending(x)
  {
    ReapTurn(x);
    if CanReap(x) {
      ReapDequeues(x, q);
      var y := ReapOne(x);
      var m' := ReapAllDequeues(y, q[1..]);
      m := m' + 1;
      assert q[1..][m'..] == q[m..];
      ReapShifts(x, q, m');
    } else {
      m := 0;
      assert q[0..] == q;
    }
  }

  // ---------------------------------------------------------------------------------------------
  // Runs
  // ---------------------------------------------------------------------------------------------

  datatype Event =
    | Submit(pkt: Packet)
    | Chip(slot: int, ok: bool, aborted: bool, underrun: bool)
    | TxInterrupt

  /** The ring, the packets accepted so far, and the frames reaped so far. */
  datatype System = System(x: Tx, submitted: seq<Packet>, reaped: seq<seq<Byte>>)

  /** The stack does not call start_xmit on a stopped queue. */
  predicate Legal(s: System, e: Event) {
    match e
    case Submit(_) => !s.x.stopped
    case Chip(slot, _, _, _) => 0 <= slot < NUM_TX_DESC
    case TxInterrupt => true
  }

  function Do(s: System, e: Event): System
    requires Shape(s.x) && Legal(s, e)
  {
    match e
    case Submit(pkt) =>
      System(Xmit(s.x, pkt), if |pkt| < TX_BUF_SIZE then s.submitted + [pkt] else s.submitted, s.reaped)
    case Chip(slot, ok, aborted, underrun) => s.(x := Conclude(s.x, slot, ok, aborted, underrun))
    case TxInterrupt => s.(x := ReapAll(s.x), reaped := s.reaped + ReapedFrames(s.x))
  }

  /** After rtl8139_open: indices 0, queue running. */
  predicate Opened(s: System) {
    Shape(s.x) && s.x.cur == 0 && s.x.dirty == 0 && !s.x.stopped && s.submitted == [] && s.reaped == []
  }

  ghost predicate Run(states: seq<System>, events: seq<Event>) {
    && |states| == |events| + 1 && Opened(states[0])
    && forall j :: 0 <= j < |events| ==>
         Shape(states[j].x) && Legal(states[j], events[j]) && states[j + 1] == Do(states[j], events[j])
  }

  /** The invariant: the reaped frames carry the first packets in order, and the ring holds the rest. */
  predicate TxInv(s: System) {
    && Shape(s.x)
    && |s.reaped| <= |s.submitted|
    && (forall k :: 0 <= k < |s.reaped| ==> Carries(s.reaped[k], s.submitted[k]))
    && Queued(s.x, s.submitted[|s.reaped|..])
  }

  lemma ConcludeKeeps(x: Tx, q: seq<Packet>, slot: int, ok: bool, aborted: bool, underrun: bool)
    requires Shape(x) && Queued(x, q) && 0 <= slot < NUM_TX_DESC
    ensures var y := Conclude(x, slot, ok, aborted, underrun); Shape(y) && Queued(y, q)
  {
    var y := Conclude(x, slot, ok, aborted, underrun);
    forall k | 0 <= k < |q|
      ensures Holds(y, SlotAt(y, k), q[k])
    {
      assert Holds(x, SlotAt(x, k), q[k]);
    }
  }

  lemma SubmitKeeps(s: System, pkt: Packet)
    requires TxInv(s) && !s.x.stopped && |pkt| < TX_BUF_SIZE
    ensures TxInv(Do(s, Submit(pkt)))
  {
    var r := |s.reaped|;
    XmitEnqueues(s.x, s.submitted[r..], pkt);
    assert (s.submitted + [pkt])[r..] == s.submitted[r..] + [pkt];
  }

  lemma InterruptKeeps(s: System)
    requires TxInv(s)
    ensures TxInv(Do(s, TxInterrupt))
  {
    var r, q := |s.reaped|, s.submitted[|s.reaped|..];
    var m := ReapAllDequeues(s.x, q);
    assert s.submitted[r + m..] == q[m..];
    var s' := Do(s, TxInterrupt);
    forall k | 0 <= k < |s'.reaped|
      ensures Carries(s'.reaped[k], s'.submitted[k])
    {
      if k >= r {
        assert s'.reaped[k] == ReapedFrames(s.x)[k - r] && s.submitted[k] == q[k - r];
      }
    }
  }

  lemma InvStep(s: System, e: Event)
    requires TxInv(s) && Legal(s, e)
    ensures TxInv(Do(s, e))
  {
    match e
    case Submit(pkt) =>
      if |pkt| < TX_BUF_SIZE {
        SubmitKeeps(s, pkt);
      }
    case Chip(slot, ok, aborted, underrun) =>
      ConcludeKeeps(s.x, s.submitted[|s.reaped|..], slot, ok, aborted, underrun);
    case TxInterrupt => InterruptKeeps(s);
  }

  /** In-order, exactly-once transmit over every run: the frames reaped carry the accepted packets one for
      one, in submission order, and the packets not yet reaped are intact in their slots. */
  lemma {:induction false} TransmitRing(states: seq<System>, events: seq<Event>)
    requires Run(states, events)
    ensures TxInv(states[|events|])
    decreases |events|
  {
    if events == [] {
    } else {
      var m := |events| - 1;
      TransmitRing(states[..m + 1], events[..m]);
      InvStep(states[m], events[m]);
    }
  }

  /** At any moment of any run the frame in every pending slot is the packet submitted to it, the two
      indices and the flag count the pending packets, and a stopped queue has all or part of four
      packets outstanding, so some conclusion is still to come. */
  lemma InFlightIsIntact(states: seq<System>, events: seq<Event>, k: int)
    requires Run(states, events)
    ensures var s := states[|events|];
            && Shape(s.x)
            && |s.submitted| - |s.reaped| == Pending(s.x) <= 4
            && (s.x.cur == s.x.dirty ==> Pending(s.x) == (if s.x.stopped then 4 else 0))
            && (s.x.stopped ==> Pending(s.x) >= 1)
            && (0 <= k < Pending(s.x) ==> Carries(Frame(s.x, SlotAt(s.x, k)), s.submitted[|s.reaped| + k]))
  {
    TransmitRing(states, events);
    var s := states[|events|];
    ReapTurn(s.x);
    if 0 <= k < Pending(s.x) {
      HeldFrameCarries(s.x, SlotAt(s.x, k), s.submitted[|s.reaped|..][k]);
    }
  }

  /** Transmit never stalls: once the chip has concluded everything pending, the next interrupt empties the
      ring and leaves the queue running. */
  lemma DrainRestarts(states: seq<System>, events: seq<Event>)
    requires Run(states, events)
    requires Shape(states[|events|].x) && DoneUpTo(states[|events|].x, Pending(states[|events|].x))
    ensures var y := ReapAll(states[|events|].x); !y.stopped && Pending(y) == 0
  {
    TransmitRing(states, events);
    var s := states[|events|];
    var m := ReapAllDequeues(s.x, s.submitted[|s.reaped|..]);
    ReapTurn(s.x);
  }

  /** A packet too long for a slot is dropped without a trace. */
  lemma OversizedIsDropped(s: System, pkt: Packet)
    requires Shape(s.x) && !s.x.stopped && |pkt| >= 1536
    ensures Do(s, Submit(pkt)) == s
  {
  }

  // ---------------------------------------------------------------------------------------------
  // Nothing is reaped that the chip has not concluded
  // ---------------------------------------------------------------------------------------------

  /** Event a is the submission that was accepted as packet i and filled this slot. */
  ghost predicate FilledAt(states: seq<System>, events: seq<Event>, a: int, i: int, slot: int)
    requires |states| == |events| + 1
  {
    && 0 <= a < |events| && events[a].Submit? && |events[a].pkt| <= 1535
    && |states[a].submitted| == i && states[a].x.cur == slot
  }

  /** Before state m packet i was submitted, and took this slot. */
  ghost predicate WasFilled(states: seq<System>, events: seq<Event>, i: int, slot: int, m: int)
    requires |states| == |events| + 1
  {
    exists a :: a < m && FilledAt(states, events, a, i, slot)
  }

  /** Before state m packet i was submitted, and after that the chip concluded its slot. */
  ghost predicate ConcludedBy(states: seq<System>, events: seq<Event>, i: int, slot: int, m: int)
    requires |states| == |events| + 1 && m <= |events|
  {
    exists a, b ::
      && 0 <= a < b < m && FilledAt(states, events, a, i, slot)
      && events[b].Chip? && events[b].slot == slot
      && (events[b].ok || events[b].aborted || events[b].underrun)
  }

  ghost predicate WasConcluded(states: seq<System>, events: seq<Event>, i: int, m: int)
    requires |states| == |events| + 1 && m <= |events|
  {
    exists slot :: ConcludedBy(states, events, i, slot, m)
  }

  /** Every reaped packet was concluded after its submission, and so was every pending one whose register says
      so. */
  ghost predicate Sound(states: seq<System>, events: seq<Event>, m: int)
    requires |states| == |events| + 1 && 0 <= m <= |events| && Shape(states[m].x)
  {
    var s := states[m];
    && |s.submitted| == |s.reaped| + Pending(s.x)
    && (forall i :: 0 <= i < |s.reaped| ==> WasConcluded(states, events, i, m))
    && (forall k :: 0 <= k < Pending(s.x) ==> PendingSound(states, events, m, k))
  }

  /** The k-th pending packet sits in the slot its submission filled. */
  ghost predicate PendingSound(states: seq<System>, events: seq<Event>, m: int, k: int)
    requires |states| == |events| + 1 && 0 <= m <= |events| && Shape(states[m].x) && 0 <= k < 4
  {
    var s := states[m];
    var i, slot := |s.reaped| + k, SlotAt(s.x, k);
    && WasFilled(states, events, i, slot, m)
    && (Concluded(s.x.tsd[slot]) ==> ConcludedBy(states, events, i, slot, m))
  }

  lemma FilledStays(states: seq<System>, events: seq<Event>, i: int, slot: int, m: int)
    requires |states| == |events| + 1 && WasFilled(states, events, i, slot, m)
    ensures WasFilled(states, events, i, slot, m + 1)
  {
    var a :| a < m && FilledAt(states, events, a, i, slot);
    assert a < m + 1 && FilledAt(states, events, a, i, slot);
  }

  lemma ConcludedStays(states: seq<System>, events: seq<Event>, i: int, slot: int, m: int)
    requires |states| == |events| + 1 && m < |events| && ConcludedBy(states, events, i, slot, m)
    ensures ConcludedBy(states, events, i, slot, m + 1)
  {
    var a, b :| && 0 <= a < b < m && FilledAt(states, events, a, i, slot)
                && events[b].Chip? && events[b].slot == slot
                && (events[b].ok || events[b].aborted || events[b].underrun);
  }

  /** A pending packet whose slot and register the step leaves alone. */
  lemma StaysSound(states: seq<System>, events: seq<Event>, m: nat, m': nat, k: int, k': int)
    requires |states| == |events| + 1 && m < |events| && m' == m + 1
    requires Shape(states[m].x) && Shape(states[m'].x) && 0 <= k < 4 && 0 <= k' < 4
    requires PendingSound(states, events, m, k)
    requires |states[m'].reaped| + k' == |states[m].reaped| + k
    requires SlotAt(states[m'].x, k') == SlotAt(states[m].x, k)
    requires states[m'].x.tsd[SlotAt(states[m].x, k)] == states[m].x.tsd[SlotAt(states[m].x, k)]
    ensures PendingSound(states, events, m', k')
  {
    var s := states[m];
    FilledStays(states, events, |s.reaped| + k, SlotAt(s.x, k), m);
    if Concluded(s.x.tsd[SlotAt(s.x, k)]) {
      ConcludedStays(states, events, |s.reaped| + k, SlotAt(s.x, k), m);
    }
  }

  lemma SubmitSound(states: seq<System>, events: seq<Event>, m: nat, m': nat, k: int)
    requires Run(states, events) && m < |events| && m' == m + 1 && Sound(states, events, m) && events[m].Submit?
    requires Shape(states[m'].x) && 0 <= k < Pending(states[m'].x)
    ensures PendingSound(states, events, m', k)
  {
    var s, pkt := states[m], events[m].pkt;
    assert Legal(s, events[m]) && states[m + 1] == Do(s, events[m]);
    if |pkt| >= 1536 {
      OversizedIsDropped(s, pkt);
      StaysSound(states, events, m, m', k, k);
    } else {
      XmitTakesNextSlot(s.x, pkt);
      XmitTouchesOneSlot(s.x, pkt, 0, SlotAt(s.x, k));
      if k < Pending(s.x) {
        ChosenSlotIsFree(s.x, k);
        StaysSound(states, events, m, m', k, k);
      } else {
        assert FilledAt(states, events, m, |s.reaped| + k, SlotAt(states[m'].x, k));
        assert WasFilled(states, events, |s.reaped| + k, SlotAt(states[m'].x, k), m');
      }
    }
  }

  lemma ChipSound(states: seq<System>, events: seq<Event>, m: nat, m': nat, k: int)
    requires Run(states, events) && m < |events| && m' == m + 1 && Sound(states, events, m) && events[m].Chip?
    requires Shape(states[m'].x) && 0 <= k < Pending(states[m'].x)
    ensures PendingSound(states, events, m', k)
  {
    var s, e := states[m], events[m];
    assert Legal(s, e) && states[m + 1] == Do(s, e);
    assert PendingSound(states, events, m, k);
    if SlotAt(s.x, k) != e.slot {
      StaysSound(states, events, m, m', k, k);
    } else {
      var i := |s.reaped| + k;
      FilledStays(states, events, i, e.slot, m);
      var a :| a < m && FilledAt(states, events, a, i, e.slot);
      assert m < m' && Concluded(states[m'].x.tsd[e.slot]) ==> ConcludedBy(states, events, i, e.slot, m');
    }
  }

  lemma InterruptSound(states: seq<System>, events: seq<Event>, m: nat, m': nat)
    requires Run(states, events) && m < |events| && m' == m + 1 && Sound(states, events, m)
    requires events[m].TxInterrupt? && TxInv(states[m]) && Shape(states[m'].x)
    ensures Sound(states, events, m')
  {
    var s, s' := states[m], states[m'];
    assert states[m + 1] == Do(s, events[m]);
    var r := ReapAllDequeues(s.x, s.submitted[|s.reaped|..]);
    ReapAllMoves(s.x, r);
    forall i | 0 <= i < |s'.reaped| ensures WasConcluded(states, events, i, m') {
      if i < |s.reaped| {
        assert WasConcluded(states, events, i, m);
        var slot :| ConcludedBy(states, events, i, slot, m);
        ConcludedStays(states, events, i, slot, m);
      } else {
        var k := i - |s.reaped|;
        assert PendingSound(states, events, m, k) && Done(s.x, k);
        ConcludedStays(states, events, i, SlotAt(s.x, k), m);
      }
    }
    forall k | 0 <= k < Pending(s'.x) ensures PendingSound(states, events, m', k) {
      assert PendingSound(states, events, m, k + r);
      StaysSound(states, events, m, m', k + r, k);
    }
  }

  /** The pending packets after the loop sit in the slots they sat in before. */
  lemma ReapAllMoves(x: Tx, r: nat)
    requires Shape(x) && r <= Pending(x) && ReapAll(x).cur == x.cur
    requires Pending(ReapAll(x)) == Pending(x) - r && (ReapAll(x).stopped <==> x.stopped && r < Pending(x))
    ensures forall k :: 0 <= k < Pending(x) - r ==> SlotAt(ReapAll(x), k) == SlotAt(x, k + r)
  {
  }

  lemma ReapedStays(states: seq<System>, events: seq<Event>, m: nat, m': nat)
    requires Run(states, events) && m < |events| && m' == m + 1
    requires Sound(states, events, m) && !events[m].TxInterrupt?
    ensures forall i :: 0 <= i < |states[m'].reaped| ==> WasConcluded(states, events, i, m')
  {
    assert states[m + 1] == Do(states[m], events[m]);
    forall i | 0 <= i < |states[m'].reaped| ensures WasConcluded(states, events, i, m') {
      assert WasConcluded(states, events, i, m);
      var slot :| ConcludedBy(states, events, i, slot, m);
      ConcludedStays(states, events, i, slot, m);
    }
  }

  lemma SubmitKeepsSound(states: seq<System>, events: seq<Event>, m: nat, m': nat)
    requires Run(states, events) && m < |events| && m' == m + 1 && Sound(states, events, m)
    requires events[m].Submit? && TxInv(states[m'])
    ensures Sound(states, events, m')
  {
    ReapedStays(states, events, m, m');
    forall k | 0 <= k < Pending(states[m'].x) ensures PendingSound(states, events, m', k) {
      SubmitSound(states, events, m, m', k);
    }
  }

  lemma ChipKeepsSound(states: seq<System>, events: seq<Event>, m: nat, m': nat)
    requires Run(states, events) && m < |events| && m' == m + 1 && Sound(states, events, m)
    requires events[m].Chip? && TxInv(states[m'])
    ensures Sound(states, events, m')
  {
    ReapedStays(states, events, m, m');
    forall k | 0 <= k < Pending(states[m'].x) ensures PendingSound(states, events, m', k) {
      ChipSound(states, events, m, m', k);
    }
  }

  lemma {:induction false} SoundAt(states: seq<System>, events: seq<Event>, m: nat)
    requires Run(states, events) && m <= |events|
    ensures TxInv(states[m]) && Sound(states, events, m)
  {
    TransmitRing(states[..m + 1], events[..m]);
    if m == 0 {
    } else {
      SoundAt(states, events, m - 1);
      match events[m - 1]
      case TxInterrupt => InterruptSound(states, events, m - 1, m);
      case Submit(_) => SubmitKeepsSound(states, events, m - 1, m);
      case Chip(_, _, _, _) => ChipKeepsSound(states, events, m - 1, m);
    }
  }

  /** Over every run: a packet is reaped only after the chip has set a conclusion bit in the slot that its
      submission filled, later than that submission; a bit left over from an earlier packet does not count. */
  lemma ReapedWereConcluded(states: seq<System>, events: seq<Event>, i: int)
    requires Run(states, events) && 0 <= i < |states[|events|].reaped|
    ensures exists slot :: ConcludedBy(states, events, i, slot, |events|)
  {
    SoundAt(states, events, |events|);
    assert WasConcluded(states, events, i, |events|);
  }
}
