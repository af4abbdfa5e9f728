/**
 The RTL8139 receive ring: the chip writes records (4 header bytes, packet, 4 CRC bytes) at 4-aligned
 offsets, running past the end of the ring into a pad instead of wrapping inside a record; the driver
 follows with cur_rx and tells the chip how far it has read through the 16-bit register CAPR.

 The chip is specified by Produce and Fits: it writes a record at its write pointer only if the record,
 rounded up, leaves the unread part shorter than the ring; its read pointer is CAPR + 16.

 Line 126 of the interrupt handler wraps cur_rx when it is greater than RX_BUF_LEN, so cur_rx equal to
 RX_BUF_LEN stays in the pad. `Wrap` selects the code as written or a corrected `>=`. A turn that begins
 there (AtEdge) is right only if the pad happens to hold a copy of what lies at offset 0.
 */
module RxRing {
  import opened Bytes

  const RX_BUF_LEN: int := 32768
  const TOTAL_RX_BUF_SIZE: int := 34832   // RX_BUF_LEN + RX_BUF_PAD + RX_BUF_WRAP_PAD
  const MAX_RX_SIZE: int := 2060          // RX_BUF_PAD + RX_BUF_WRAP_PAD - 4

  datatype Wrap = AsWritten | Corrected

  /** The driver's cur_rx, the ring memory, the chip's write pointer, and CAPR. */
  datatype Rx = Rx(cur: int, mem: seq<Byte>, cbr: int, capr: int)

  // ---------------------------------------------------------------------------------------------
  // The driver
  // ---------------------------------------------------------------------------------------------

  /** Line 126. */
  function WrapCur(w: Wrap, cur: int): int {
    if (w.AsWritten? && cur > RX_BUF_LEN) || (w.Corrected? && cur >= RX_BUF_LEN) then cur % RX_BUF_LEN else cur
  }

  /** The one position in which line 126 fails to wrap: a turn of the loop that begins here looks for the
      next header in the pad. */
  predicate AtEdge(w: Wrap, cur: int) {
    w.AsWritten? && cur == RX_BUF_LEN
  }

  /** (x + 3) & ~3 */
  function RoundUp4(x: int): int {
    (x + 3) - (x + 3) % 4
  }

  /** (u16)x */
  function U16(x: int): int {
    x % 65536
  }

  /** Upper half of the little-endian header word: rx_size. */
  function SizeAt(mem: seq<Byte>, o: int): int
    requires 0 <= o && o + 4 <= |mem|
  {
    mem[o + 2] as int + 256 * (mem[o + 3] as int)
  }

  /** One turn of the receive loop: what is handed up, or a read outside the ring memory. */
  datatype Taken = Fault | Took(x: Rx, handed: seq<Packet>)

  /** Lines 126-204; `skb` says whether the buffer allocation succeeded. */
  function Take(w: Wrap, x: Rx, skb: bool): Taken {
    var cur := WrapCur(w, x.cur);
    if !(0 <= cur && cur + 4 <= |x.mem|) then Fault
    else
      var rxSize := SizeAt(x.mem, cur);
      var pktSize := U16(rxSize - 4);
      var next := RoundUp4(cur + rxSize + 4);
      var x' := x.(cur := next, capr := U16(next - 16));
      if !skb then Took(x', [])
      else if cur + 4 + pktSize <= |x.mem| then Took(x', [x.mem[cur + 4..cur + 4 + pktSize]])
      else Fault
  }

  // ---------------------------------------------------------------------------------------------
  // The chip
  // ---------------------------------------------------------------------------------------------

  /** What the chip adds to a packet: two status bytes before it, four CRC bytes after it. */
  datatype Wire = Wire(status0: Byte, status1: Byte, crc: seq<Byte>)

  predicate WellSized(p: Packet, v: Wire) {
    |p| + 4 <= MAX_RX_SIZE && |v.crc| == 4
  }

  /** Length of a record in the ring. */
  function Rec(p: Packet): int {
    RoundUp4(|p| + 8)
  }

  /** The chip's read pointer. */
  function ReadPtr(capr: int): int {
    U16(capr + 16) % RX_BUF_LEN
  }

  /** The RxBufEmpty bit of CR. */
  predicate BufEmpty(x: Rx) {
    ReadPtr(x.capr) == x.cbr
  }

  function Norm(o: int): int {
    if o >= RX_BUF_LEN then o - RX_BUF_LEN else o
  }

  /** Bytes between the read and the write pointer. */
  function Unread(x: Rx): int {
    if x.cbr >= ReadPtr(x.capr) then x.cbr - ReadPtr(x.capr) else x.cbr - ReadPtr(x.capr) + RX_BUF_LEN
  }

  /** The chip has room for the record. */
  predicate Fits(x: Rx, p: Packet) {
    Unread(x) + Rec(p) < RX_BUF_LEN
  }

  function Record(p: Packet, v: Wire): seq<Byte>
    requires WellSized(p, v)
  {
    var size := |p| + 4;
    [v.status0, v.status1, size % 256, size / 256] + p + v.crc
  }

  function Produce(x: Rx, p: Packet, v: Wire): Rx
    requires WellSized(p, v) && 0 <= x.cbr < RX_BUF_LEN && |x.mem| == TOTAL_RX_BUF_SIZE && x.cbr % 4 == 0
  {
    x.(mem := x.mem[..x.cbr] + Record(p, v) + x.mem[x.cbr + |p| + 8..], cbr := Norm(x.cbr + Rec(p)))
  }

  /** A record ending exactly at the end of the ring. */
  predicate EndsAtEdge(o: int, p: Packet) {
    o + Rec(p) == RX_BUF_LEN
  }

  // ---------------------------------------------------------------------------------------------
  // The queue the ring stands for
  // ---------------------------------------------------------------------------------------------

  predicate RecordAt(mem: seq<Byte>, o: int, p: Packet) {
    && |mem| == TOTAL_RX_BUF_SIZE && 0 <= o < RX_BUF_LEN && o % 4 == 0 && |p| + 4 <= MAX_RX_SIZE
    && SizeAt(mem, o) == |p| + 4
    && mem[o + 4..o + 4 + |p|] == p
  }

  /** The packets q lie one after the other from offset o. */
  predicate Layout(mem: seq<Byte>, o: int, q: seq<Packet>)
    decreases |q|
  {
    q != [] ==> RecordAt(mem, o, q[0]) && Layout(mem, Norm(o + Rec(q[0])), q[1..])
  }

  function Span(q: seq<Packet>): int {
    if q == [] then 0 else Rec(q[0]) + Span(q[1..])
  }

  /** cur_rx is aligned, and CAPR is cur_rx - 16 in 16 bits. */
  predicate DriverOk(cur: int, capr: int) {
    0 <= cur && cur % 4 == 0 && capr == U16(cur - 16)
  }

  /** The unread packets q lie from offset o to the write pointer. */
  predicate Between(mem: seq<Byte>, o: int, cbr: int, q: seq<Packet>) {
    && |mem| == TOTAL_RX_BUF_SIZE
    && 0 <= o < RX_BUF_LEN && o % 4 == 0
    && 0 <= cbr < RX_BUF_LEN && cbr % 4 == 0
    && Layout(mem, o, q)
    && Span(q) < RX_BUF_LEN
    && cbr == Norm(o + Span(q))
  }

  /** The ring holds exactly the unread packets q, from the place the driver has told the chip. */
  predicate Holds(x: Rx, q: seq<Packet>) {
    DriverOk(x.cur, x.capr) && Between(x.mem, ReadPtr(x.capr), x.cbr, q)
  }

  // ---------------------------------------------------------------------------------------------
  // Arithmetic of positions
  // ---------------------------------------------------------------------------------------------

  lemma RecBounds(p: Packet)
    ensures |p| + 8 <= Rec(p) < |p| + 12 && Rec(p) % 4 == 0
  {
  }

  lemma SpanFacts(q: seq<Packet>)
    ensures Span(q) >= 0 && (Span(q) == 0 <==> q == []) && Span(q) % 4 == 0
  {
    if q == [] {
    } else {
      RecBounds(q[0]);
      SpanFacts(q[1..]);
    }
  }

  lemma SpanAppend(q: seq<Packet>, p: Packet)
    ensures Span(q + [p]) == Span(q) + Rec(p)
  {
    if q == [] {
      assert (q + [p])[1..] == [];
    } else {
      assert (q + [p])[1..] == q[1..] + [p];
      SpanAppend(q[1..], p);
    }
  }

  /** CAPR determines cur_rx exactly, underflow below 16 included. */
  lemma CaprDeterminesCur(cur: int)
    requires 0 <= cur < 65536
    ensures U16(U16(cur - 16) + 16) == cur
  {
  }

  /** The 16-bit register forgets multiples of 65536, and so of the ring length. */
  lemma SixteenBits(cur: int)
    ensures U16(U16(cur - 16) + 16) == U16(cur) && U16(cur) % RX_BUF_LEN == cur % RX_BUF_LEN
  {
    var q, r := cur / 65536, cur % 65536;
    assert cur == RX_BUF_LEN * (2 * q + r / RX_BUF_LEN) + r % RX_BUF_LEN;
    assert cur - 16 == 65536 * ((cur - 16) / 65536) + U16(cur - 16);
  }

  lemma ReadPtrOf(cur: int)
    requires 0 <= cur
    ensures ReadPtr(U16(cur - 16)) == cur % RX_BUF_LEN && U16(U16(cur - 16) + 16) == U16(cur)
    ensures cur < 2 * RX_BUF_LEN ==> ReadPtr(U16(cur - 16)) == Norm(cur)
  {
    SixteenBits(cur);
  }

  /** Where the driver looks for the next header: at the chip's offset, unless the code as written finds
      cur_rx exactly at the end of the ring. */
  lemma DriverLooksAtChipOffset(w: Wrap, x: Rx)
    requires DriverOk(x.cur, x.capr)
    ensures WrapCur(w, x.cur) % RX_BUF_LEN == ReadPtr(x.capr)
    ensures WrapCur(w, x.cur) == ReadPtr(x.capr) <==> !AtEdge(w, x.cur)
  {
    ReadPtrOf(x.cur);
  }

  /** RxBufEmpty is set exactly when nothing is unread, and the pointers measure the unread part. */
  lemma EmptyMeansNothingUnread(x: Rx, q: seq<Packet>)
    requires Holds(x, q)
    ensures BufEmpty(x) <==> q == []
    ensures Unread(x) == Span(q)
  {
    SpanFacts(q);
  }

  // ---------------------------------------------------------------------------------------------
  // The driver takes the oldest packet
  // ---------------------------------------------------------------------------------------------

  lemma RoundShifts(o: int, k: int)
    requires o % 4 == 0
    ensures RoundUp4(o + k) == o + RoundUp4(k)
  {
  }

  lemma NextPosition(o: int, p: Packet)
    requires 0 <= o < RX_BUF_LEN && o % 4 == 0 && |p| + 4 <= MAX_RX_SIZE
    ensures RoundUp4(o + (|p| + 4) + 4) == o + Rec(p)
    ensures (o + Rec(p)) % 4 == 0 && 0 < o + Rec(p) < 2 * RX_BUF_LEN && 0 <= Norm(o + Rec(p)) < RX_BUF_LEN
  {
    RecBounds(p);
    RoundShifts(o, |p| + 8);
    assert o + (|p| + 4) + 4 == o + (|p| + 8);
  }

  lemma NormSum(a: int, b: int)
    requires 0 <= a < 2 * RX_BUF_LEN && 0 <= b && a + b < 2 * RX_BUF_LEN
    ensures Norm(Norm(a) + b) == Norm(a + b)
  {
  }

  lemma BetweenTail(mem: seq<Byte>, o: int, cbr: int, q: seq<Packet>)
    requires Between(mem, o, cbr, q) && q != []
    ensures Between(mem, Norm(o + Rec(q[0])), cbr, q[1..])
  {
    RecBounds(q[0]);
    SpanFacts(q[1..]);
    NormSum(o + Rec(q[0]), Span(q[1..]));
  }

  /** The turn itself, at the offset where the record lies. */
  lemma TakeReads(w: Wrap, x: Rx, p: Packet, skb: bool)
    requires RecordAt(x.mem, WrapCur(w, x.cur), p)
    ensures var r := Take(w, x, skb);
            && r.Took? && r.handed == (if skb then [p] else [])
            && r.x.mem == x.mem && r.x.cbr == x.cbr
            && r.x.cur == RoundUp4(WrapCur(w, x.cur) + (|p| + 4) + 4) && r.x.capr == U16(r.x.cur - 16)
  {
  }

  /** The turn, with the records from offset o on: it takes the first and goes to the next. */
  lemma TakesFirst(w: Wrap, x: Rx, o: int, q: seq<Packet>, skb: bool)
    requires WrapCur(w, x.cur) == o && Between(x.mem, o, x.cbr, q) && q != []
    ensures var r, next := Take(w, x, skb), o + Rec(q[0]);
            && r.Took? && r.handed == (if skb then [q[0]] else [])
            && 0 < next < 2 * RX_BUF_LEN && next % 4 == 0
            && r.x == x.(cur := next, capr := U16(next - 16))
            && Between(x.mem, Norm(next), x.cbr, q[1..])
  {
    TakeReads(w, x, q[0], skb);
    NextPosition(o, q[0]);
    BetweenTail(x.mem, o, x.cbr, q);
  }

  /** A turn of the loop that does not begin at the edge hands up exactly the oldest unread packet (or drops
      exactly it), reads only inside the ring memory, and leaves the rest. */
  lemma TakeDequeues(w: Wrap, x: Rx, q: seq<Packet>, skb: bool)
    requires Holds(x, q) && q != [] && !AtEdge(w, x.cur)
    ensures var r := Take(w, x, skb);
            && r.Took? && r.handed == (if skb then [q[0]] else [])
            && Holds(r.x, q[1..]) && r.x.cur == WrapCur(w, x.cur) + Rec(q[0]) < 2 * RX_BUF_LEN
  {
    var o := ReadPtr(x.capr);
    DriverLooksAtChipOffset(w, x);
    TakesFirst(w, x, o, q, skb);
    ReadPtrOf(o + Rec(q[0]));
  }

  /** The same turn in the terms of the loop body: where it reads, what it finds there, where it goes. */
  lemma TurnComputes(w: Wrap, x: Rx, q: seq<Packet>)
    requires Holds(x, q) && q != [] && !AtEdge(w, x.cur)
    ensures var cur := WrapCur(w, x.cur);
            && 0 <= cur && cur + 4 + |q[0]| <= |x.mem| == TOTAL_RX_BUF_SIZE
            && x.mem[cur + 4..cur + 4 + |q[0]|] == q[0]
            && var size, next := SizeAt(x.mem, cur), RoundUp4(cur + SizeAt(x.mem, cur) + 4);
               && U16(size - 4) == |q[0]| && next == cur + Rec(q[0]) < 2 * RX_BUF_LEN && cur == ReadPtr(x.capr)
               && Holds(Rx(next, x.mem, x.cbr, U16(next - 16)), q[1..])
  {
    DriverLooksAtChipOffset(w, x);
    TakeReads(w, x, q[0], true);
    TakeDequeues(w, x, q, true);
  }

  /** Where the driver and CAPR are when the packets q, from offset o on, have been read: cur_rx behind the last
      record, counted from where that record starts in the ring. */
  predicate EndsAfter(o: int, q: seq<Packet>, cur: int, capr: int) {
    q != [] ==>
      && cur == Norm(o + Span(q[..|q| - 1])) + Rec(q[|q| - 1]) < 2 * RX_BUF_LEN
      && capr == U16(cur - 16)
  }

  lemma SpanPrefix(q: seq<Packet>, j: nat)
    requires j < |q|
    ensures Span(q[..j + 1]) == Span(q[..j]) + Rec(q[j]) <= Span(q) && Span(q[..j]) >= 0
    decreases j
  {
    RecBounds(q[j]);
    if j == 0 {
      assert q[..0] == [] && q[..1][1..] == [];
      SpanFacts(q[1..]);
    } else {
      SpanPrefix(q[1..], j - 1);
      assert q[..j][1..] == q[1..][..j - 1] && q[..j + 1][1..] == q[1..][..j];
      RecBounds(q[0]);
    }
  }

  /** Positions only: the read pointer after a record of r bytes that starts a bytes behind offset o. */
  lemma PointerAfter(o: int, a: int, r: int, cur: int, capr: int)
    requires 0 <= o < RX_BUF_LEN && 0 <= a && 0 < r && a + r < RX_BUF_LEN
    requires cur == Norm(o + a) + r && capr == U16(cur - 16)
    ensures cur < 2 * RX_BUF_LEN && ReadPtr(capr) == Norm(o + (a + r))
  {
    NormSum(o + a, r);
    ReadPtrOf(cur);
  }

  /** The driver has read the first j packets of q, from offset o on, having been at cur0 and capr0 before. */
  predicate HasRead(o: int, q: seq<Packet>, j: nat, cur0: int, capr0: int, cur: int, capr: int) {
    && j <= |q| && EndsAfter(o, q[..j], cur, capr)
    && (j == 0 ==> cur == cur0 && capr == capr0)
    && ReadPtr(capr) == Norm(o + Span(q[..j]))
  }

  lemma EndsAfterNext(o: int, q: seq<Packet>, j: nat, next: int, capr: int)
    requires j < |q| && next == Norm(o + Span(q[..j])) + Rec(q[j]) < 2 * RX_BUF_LEN && capr == U16(next - 16)
    ensures EndsAfter(o, q[..j + 1], next, capr)
  {
    assert q[..j + 1][..j] == q[..j];
  }

  lemma HasReadNext(
      o: int, q: seq<Packet>, j: nat, cur0: int, capr0: int, cur: int, capr: int, next: int, capr': int)
    requires 0 <= o < RX_BUF_LEN && Span(q) < RX_BUF_LEN && j < |q| && HasRead(o, q, j, cur0, capr0, cur, capr)
    requires next == ReadPtr(capr) + Rec(q[j]) && capr' == U16(next - 16)
    ensures HasRead(o, q, j + 1, cur0, capr0, next, capr')
  {
    SpanPrefix(q, j);
    RecBounds(q[j]);
    PointerAfter(o, Span(q[..j]), Rec(q[j]), next, capr');
    EndsAfterNext(o, q, j, next, capr');
  }

  // ---------------------------------------------------------------------------------------------
  // A turn that begins at the edge
  // ---------------------------------------------------------------------------------------------

  /** What the pad would have to hold: with a buffer allocated, the size and the bytes of the record at
      offset 0; without one, a size that leads to the same next offset. */
  predicate PadAgrees(mem: seq<Byte>, skb: bool) {
    && |mem| == TOTAL_RX_BUF_SIZE
    && var size, pad := SizeAt(mem, 0), SizeAt(mem, RX_BUF_LEN);
       if skb then
         && pad == size && 4 <= size && RX_BUF_LEN + size <= |mem|
         && mem[RX_BUF_LEN + 4..RX_BUF_LEN + size] == mem[4..size]
       else RoundUp4(pad + 4) % RX_BUF_LEN == RoundUp4(size + 4)
  }

  /** The turn takes the oldest unread packet, and leaves the driver at the next. */
  predicate TurnIsRight(w: Wrap, x: Rx, q: seq<Packet>, skb: bool)
    requires q != []
  {
    var r := Take(w, x, skb);
    r.Took? && r.handed == (if skb then [q[0]] else []) && Holds(r.x, q[1..])
  }

  lemma OneTurnFurther(a: int)
    ensures (RX_BUF_LEN + a) % RX_BUF_LEN == a % RX_BUF_LEN
  {
  }

  lemma RoundUpAligns(k: int)
    requires 0 <= k
    ensures 0 <= RoundUp4(k) && RoundUp4(k) % 4 == 0
  {
  }

  /** The position after a turn at the edge. */
  lemma EdgePosition(pad: int)
    requires 0 <= pad
    ensures var next := RoundUp4(RX_BUF_LEN + pad + 4);
            0 <= next && next % 4 == 0 && ReadPtr(U16(next - 16)) == RoundUp4(pad + 4) % RX_BUF_LEN
  {
    var a := RoundUp4(pad + 4);
    RoundUpAligns(pad + 4);
    RoundUpAligns(RX_BUF_LEN + (pad + 4));
    RoundShifts(RX_BUF_LEN, pad + 4);
    assert RX_BUF_LEN + pad + 4 == RX_BUF_LEN + (pad + 4);
    ReadPtrOf(RX_BUF_LEN + a);
    OneTurnFurther(a);
  }

  /** Records of a given span end at one place only if they begin at one place. */
  lemma SameStart(a: int, b: int, span: int)
    requires 0 <= a < RX_BUF_LEN && 0 <= b < RX_BUF_LEN && 0 <= span < RX_BUF_LEN
    requires Norm(a + span) == Norm(b + span)
    ensures a == b
  {
  }

  lemma EdgePlace(x: Rx, q: seq<Packet>, skb: bool)
    requires Holds(x, q) && q != [] && x.cur == RX_BUF_LEN && Take(AsWritten, x, skb).Took?
    ensures Holds(Take(AsWritten, x, skb).x, q[1..])
            <==> RoundUp4(SizeAt(x.mem, RX_BUF_LEN) + 4) % RX_BUF_LEN == RoundUp4(SizeAt(x.mem, 0) + 4)
  {
    var y, p := Take(AsWritten, x, skb).x, q[0];
    ReadPtrOf(x.cur);
    EdgePosition(SizeAt(x.mem, RX_BUF_LEN));
    RecBounds(p);
    BetweenTail(x.mem, 0, x.cbr, q);
    assert Norm(0 + Rec(p)) == RoundUp4(SizeAt(x.mem, 0) + 4);
    SpanFacts(q[1..]);
    if Holds(y, q[1..]) {
      SameStart(ReadPtr(y.capr), Rec(p), Span(q[1..]));
    }
  }

  /** With a buffer allocated: what is handed up from the pad. */
  lemma EdgeHandsUp(x: Rx, p: Packet)
    requires RecordAt(x.mem, 0, p) && x.cur == RX_BUF_LEN
    ensures var r := Take(AsWritten, x, true); r.Took? && r.handed == [p] <==> PadAgrees(x.mem, true)
  {
    var pad := SizeAt(x.mem, RX_BUF_LEN);
    assert x.mem[4..4 + |p|] == p;
    if U16(pad - 4) == |p| {
      assert pad == |p| + 4;
    }
  }

  lemma EdgeTurnWithBuffer(x: Rx, q: seq<Packet>)
    requires Holds(x, q) && q != [] && x.cur == RX_BUF_LEN
    ensures TurnIsRight(AsWritten, x, q, true) <==> PadAgrees(x.mem, true)
  {
    ReadPtrOf(x.cur);
    EdgeHandsUp(x, q[0]);
    if PadAgrees(x.mem, true) {
      EdgePlace(x, q, true);
      RecBounds(q[0]);
    }
  }

  lemma EdgeTurnWithout(x: Rx, q: seq<Packet>)
    requires Holds(x, q) && q != [] && x.cur == RX_BUF_LEN
    ensures TurnIsRight(AsWritten, x, q, false) <==> PadAgrees(x.mem, false)
  {
    EdgePlace(x, q, false);
  }

  /** When a turn is right: if it does not begin at the edge, or the pad agrees with offset 0. */
  lemma TurnIsRightExactly(w: Wrap, x: Rx, q: seq<Packet>, skb: bool)
    requires Holds(x, q) && q != []
    ensures TurnIsRight(w, x, q, skb) <==> !AtEdge(w, x.cur) || PadAgrees(x.mem, skb)
  {
    if !AtEdge(w, x.cur) {
      TakeDequeues(w, x, q, skb);
    } else if skb {
      EdgeTurnWithBuffer(x, q);
    } else {
      EdgeTurnWithout(x, q);
    }
  }

  // ---------------------------------------------------------------------------------------------
  // The chip appends a packet
  // ---------------------------------------------------------------------------------------------

  predicate SameOutside(mem: seq<Byte>, mem': seq<Byte>, lo: int, hi: int) {
    |mem| == |mem'| && forall k :: 0 <= k < |mem| && !(lo <= k < hi) ==> mem'[k] == mem[k]
  }

  /** The unread part, with its record that may run into the pad, stays clear of [lo, hi). */
  predicate Clear(o: int, q: seq<Packet>, lo: int, hi: int) {
    o + Span(q) <= lo || (hi <= o && o + Span(q) - RX_BUF_LEN <= lo)
  }

  lemma RecordUntouched(mem: seq<Byte>, mem': seq<Byte>, o: int, p: Packet, lo: int, hi: int)
    requires RecordAt(mem, o, p) && SameOutside(mem, mem', lo, hi)
    requires o + Rec(p) <= lo || hi <= o
    ensures RecordAt(mem', o, p)
  {
    RecBounds(p);
    assert mem'[o + 4..o + 4 + |p|] == mem[o + 4..o + 4 + |p|];
  }

  lemma {:induction false} LayoutUntouched(
      mem: seq<Byte>, mem': seq<Byte>, o: int, q: seq<Packet>, lo: int, hi: int)
    requires Layout(mem, o, q) && SameOutside(mem, mem', lo, hi)
    requires 0 <= lo < RX_BUF_LEN && Clear(o, q, lo, hi)
    ensures Layout(mem', o, q)
    decreases |q|
  {
    if q == [] {
    } else {
      SpanFacts(q[1..]);
      RecordUntouched(mem, mem', o, q[0], lo, hi);
      LayoutUntouched(mem, mem', Norm(o + Rec(q[0])), q[1..], lo, hi);
    }
  }

  lemma EndStays(o: int, q: seq<Packet>, end: int)
    requires 0 <= o < RX_BUF_LEN && q != [] && Span(q) < RX_BUF_LEN && end == Norm(o + Span(q))
    ensures 0 <= Norm(o + Rec(q[0])) < RX_BUF_LEN && Span(q[1..]) < RX_BUF_LEN
    ensures end == Norm(Norm(o + Rec(q[0])) + Span(q[1..]))
  {
    RecBounds(q[0]);
    SpanFacts(q[1..]);
    NormSum(o + Rec(q[0]), Span(q[1..]));
  }

  lemma {:induction false} LayoutAppend(mem: seq<Byte>, o: int, q: seq<Packet>, end: int, p: Packet)
    requires Layout(mem, o, q) && 0 <= o < RX_BUF_LEN && Span(q) < RX_BUF_LEN
    requires end == Norm(o + Span(q)) && RecordAt(mem, end, p)
    ensures Layout(mem, o, q + [p])
    decreases |q|
  {
    if q == [] {
      assert q + [p] == [p] && [p][1..] == [];
    } else {
      var rest, next := q[1..], Norm(o + Rec(q[0]));
      EndStays(o, q, end);
      LayoutAppend(mem, next, rest, end, p);
      assert q + [p] == [q[0]] + (rest + [p]);
    }
  }

  lemma ProduceWrites(x: Rx, p: Packet, v: Wire)
    requires WellSized(p, v) && 0 <= x.cbr < RX_BUF_LEN && |x.mem| == TOTAL_RX_BUF_SIZE && x.cbr % 4 == 0
    ensures var y := Produce(x, p, v);
            && RecordAt(y.mem, x.cbr, p) && SameOutside(x.mem, y.mem, x.cbr, x.cbr + |p| + 8)
            && y == x.(mem := y.mem, cbr := Norm(x.cbr + Rec(p)))
  {
    var y, c := Produce(x, p, v), x.cbr;
    assert |Record(p, v)| == |p| + 8;
    assert y.mem[c..c + |p| + 8] == Record(p, v);
    assert y.mem[c + 4..c + 4 + |p|] == Record(p, v)[4..4 + |p|] == p;
    assert y.mem[c + 2] == Record(p, v)[2] && y.mem[c + 3] == Record(p, v)[3];
  }

  /** Positions only: where a record of r bytes goes when s bytes are unread from offset o. */
  lemma AppendPositions(o: int, s: int, r: int, len: int)
    requires 0 <= o < RX_BUF_LEN && 0 <= s && 0 < len <= r && s + r < RX_BUF_LEN
    requires o % 4 == 0 && s % 4 == 0 && r % 4 == 0
    ensures var c := Norm(o + s);
            && 0 <= c < RX_BUF_LEN && 0 <= Norm(c + r) < RX_BUF_LEN && Norm(c + r) % 4 == 0
            && Norm(c + r) == Norm(o + (s + r))
            && (o + s <= c || (c + len <= o && o + s - RX_BUF_LEN <= c))
  {
  }

  lemma BetweenAppend(mem: seq<Byte>, mem': seq<Byte>, o: int, cbr: int, q: seq<Packet>, p: Packet)
    requires Between(mem, o, cbr, q) && Span(q) + Rec(p) < RX_BUF_LEN
    requires RecordAt(mem', cbr, p) && SameOutside(mem, mem', cbr, cbr + |p| + 8)
    ensures Between(mem', o, Norm(cbr + Rec(p)), q + [p])
  {
    RecBounds(p);
    SpanFacts(q);
    AppendPositions(o, Span(q), Rec(p), |p| + 8);
    assert Layout(mem', o, q + [p]) by {
      LayoutUntouched(mem, mem', o, q, cbr, cbr + |p| + 8);
      LayoutAppend(mem', o, q, cbr, p);
    }
    SpanAppend(q, p);
  }

  lemma ProduceAppends(x: Rx, o: int, q: seq<Packet>, p: Packet, v: Wire)
    requires Between(x.mem, o, x.cbr, q) && WellSized(p, v) && Span(q) + Rec(p) < RX_BUF_LEN
    ensures var y := Produce(x, p, v); Between(y.mem, o, y.cbr, q + [p])
  {
    ProduceWrites(x, p, v);
    BetweenAppend(x.mem, Produce(x, p, v).mem, o, x.cbr, q, p);
  }

  /** The chip's write lands clear of every unread record, wherever the records cross the end of the ring. */
  lemma ProduceEnqueues(x: Rx, q: seq<Packet>, p: Packet, v: Wire)
    requires Holds(x, q) && WellSized(p, v) && Fits(x, p)
    ensures Holds(Produce(x, p, v), q + [p])
  {
    EmptyMeansNothingUnread(x, q);
    ProduceAppends(x, ReadPtr(x.capr), q, p, v);
  }

  // ---------------------------------------------------------------------------------------------
  // Runs
  // ---------------------------------------------------------------------------------------------

  /** The chip delivers a packet, or the handler makes one turn of its loop. The two may interleave in any
      order, turns of one interrupt included. */
  datatype Event = Arrive(p: Packet, v: Wire) | Turn(skb: bool)

  /** The ring, the packets the chip delivered, the allocation outcome of each turn, the packets handed up. */
  datatype System = System(x: Rx, produced: seq<Packet>, turns: seq<bool>, handed: seq<Packet>)

  /** The packets whose turn could allocate a buffer. */
  function Kept(q: seq<Packet>, skbs: seq<bool>): seq<Packet>
    requires |skbs| <= |q|
  {
    if skbs == [] then []
    else
      var m := |skbs| - 1;
      Kept(q, skbs[..m]) + (if skbs[m] then [q[m]] else [])
  }

  /** One more turn over q, in the terms of a loop that has made j. */
  lemma KeptNext(before: seq<Packet>, q: seq<Packet>, skbs: seq<bool>, j: nat)
    requires j < |skbs| <= |q|
    ensures q[j..] != [] && q[j..][1..] == q[j + 1..]
    ensures (before + Kept(q, skbs[..j])) + (if skbs[j] then [q[j..][0]] else []) == before + Kept(q, skbs[..j + 1])
  {
    assert skbs[..j + 1][..j] == skbs[..j];
  }

  ghost predicate Step(w: Wrap, s: System, e: Event, s': System) {
    match e
    case Arrive(p, v) =>
      && WellSized(p, v) && 0 <= s.x.cbr < RX_BUF_LEN && |s.x.mem| == TOTAL_RX_BUF_SIZE && s.x.cbr % 4 == 0
      && Fits(s.x, p)
      && s' == s.(x := Produce(s.x, p, v), produced := s.produced + [p])
    case Turn(skb) =>
      && !BufEmpty(s.x)
      && var r := Take(w, s.x, skb);
         r.Took? && s' == s.(x := r.x, turns := s.turns + [skb], handed := s.handed + r.handed)
  }

  /** After rtl8139_open and a chip reset: cur_rx 0, CAPR 0xFFF0, write pointer 0. */
  predicate Opened(s: System) {
    && s.x.cur == 0 && s.x.cbr == 0 && s.x.capr == 0xFFF0 && |s.x.mem| == TOTAL_RX_BUF_SIZE
    && s.produced == [] && s.turns == [] && s.handed == []
  }

  ghost predicate Run(w: Wrap, states: seq<System>, events: seq<Event>) {
    && |states| == |events| + 1 && Opened(states[0])
    && forall j :: 0 <= j < |events| ==> Step(w, states[j], events[j], states[j + 1])
  }

  /** The packets handed up are the delivered ones in order, minus failed allocations, and the ring holds
      the rest. */
  predicate RxInv(s: System) {
    && |s.turns| <= |s.produced|
    && Holds(s.x, s.produced[|s.turns|..])
    && s.handed == Kept(s.produced, s.turns)
  }

  lemma {:induction false} KeptPrefix(q: seq<Packet>, p: Packet, skbs: seq<bool>)
    requires |skbs| <= |q|
    ensures Kept(q + [p], skbs) == Kept(q, skbs)
    decreases |skbs|
  {
    if skbs == [] {
    } else {
      KeptPrefix(q, p, skbs[..|skbs| - 1]);
    }
  }

  /** An event that does not begin a turn at the edge. */
  predicate Guarded(w: Wrap, s: System, e: Event) {
    e.Turn? ==> !AtEdge(w, s.x.cur)
  }

  /** A turn that begins at the edge finds a copy in the pad; the driver can see this before the turn. */
  predicate RightTurn(w: Wrap, s: System, e: Event) {
    e.Turn? ==> !AtEdge(w, s.x.cur) || PadAgrees(s.x.mem, e.skb)
  }

  lemma ArriveKeeps(w: Wrap, s: System, e: Event, s': System)
    requires RxInv(s) && Step(w, s, e, s') && e.Arrive?
    ensures RxInv(s')
  {
    var k := |s.turns|;
    ProduceEnqueues(s.x, s.produced[k..], e.p, e.v);
    assert (s.produced + [e.p])[k..] == s.produced[k..] + [e.p];
    KeptPrefix(s.produced, e.p, s.turns);
  }

  /** A turn keeps the queue exactly if it takes what it should. */
  lemma TurnKeepsExactly(w: Wrap, s: System, e: Event, s': System)
    requires RxInv(s) && Step(w, s, e, s') && e.Turn?
    ensures |s.turns| < |s.produced|
    ensures RxInv(s') <==> TurnIsRight(w, s.x, s.produced[|s.turns|..], e.skb)
  {
    var k := |s.turns|;
    EmptyMeansNothingUnread(s.x, s.produced[k..]);
    assert s'.turns[..k] == s.turns;
    assert s.produced[k..][1..] == s.produced[k + 1..];
    var r, one := Take(w, s.x, e.skb), if e.skb then [s.produced[k]] else [];
    assert Kept(s.produced, s'.turns) == Kept(s.produced, s.turns) + one;
    if s.handed + r.handed == s.handed + one {
      assert r.handed == (s.handed + r.handed)[|s.handed|..] == one;
    }
  }

  /** The step that loses the content is exactly a turn at the edge with a pad that disagrees. */
  lemma InvStepExactly(w: Wrap, s: System, e: Event, s': System)
    requires RxInv(s) && Step(w, s, e, s')
    ensures RxInv(s') <==> RightTurn(w, s, e)
  {
    if e.Arrive? {
      ArriveKeeps(w, s, e, s');
    } else {
      TurnKeepsExactly(w, s, e, s');
      TurnIsRightExactly(w, s.x, s.produced[|s.turns|..], e.skb);
    }
  }

  /** Receive framing: along every run in which no turn begins with cur_rx at the end of the ring (any run at
      all, for the corrected wrap), whatever records the chip delivers, the packets handed up are the chip's
      packets in order, minus those whose allocation failed, and the driver stays where the chip's read
      pointer is. */
  lemma {:induction false} ReceiveRing(w: Wrap, states: seq<System>, events: seq<Event>)
    requires Run(w, states, events)
    requires forall j :: 0 <= j < |events| ==> Guarded(w, states[j], events[j])
    ensures RxInv(states[|events|]) && states[|events|].x.cur < 2 * RX_BUF_LEN
    decreases |events|
  {
    if events == [] {
      assert states[0].produced[0..] == [];
    } else {
      var m := |events| - 1;
      var s, e := states[m], events[m];
      ReceiveRing(w, states[..m + 1], events[..m]);
      assert Guarded(w, s, e);
      InvStepExactly(w, s, e, states[m + 1]);
      if e.Turn? {
        EmptyMeansNothingUnread(s.x, s.produced[|s.turns|..]);
        TakeDequeues(w, s.x, s.produced[|s.turns|..], e.skb);
      }
    }
  }

  /** The exact condition, for the code as written: the content is right throughout a run if and only if
      every turn that began at the edge found in the pad a copy of what lies at offset 0. */
  lemma ReceiveRingExactly(w: Wrap, states: seq<System>, events: seq<Event>)
    requires Run(w, states, events)
    ensures (forall j :: 0 <= j <= |events| ==> RxInv(states[j]))
            <==> (forall j :: 0 <= j < |events| ==> RightTurn(w, states[j], events[j]))
  {
    if forall j :: 0 <= j <= |events| ==> RxInv(states[j]) {
      forall j | 0 <= j < |events| ensures RightTurn(w, states[j], events[j]) {
        assert Step(w, states[j], events[j], states[j + 1]);
        InvStepExactly(w, states[j], events[j], states[j + 1]);
      }
    }
    if forall j :: 0 <= j < |events| ==> RightTurn(w, states[j], events[j]) {
      forall j | 0 <= j <= |events| ensures RxInv(states[j]) {
        RightSoFar(w, states, events, j);
      }
    }
  }

  lemma {:induction false} RightSoFar(w: Wrap, states: seq<System>, events: seq<Event>, m: nat)
    requires Run(w, states, events) && m <= |events|
    requires forall j :: 0 <= j < m ==> RightTurn(w, states[j], events[j])
    ensures RxInv(states[m])
  {
    if m == 0 {
      assert states[0].produced[0..] == [];
    } else {
      RightSoFar(w, states, events, m - 1);
      assert Step(w, states[m - 1], events[m - 1], states[m - 1 + 1]);
      assert RightTurn(w, states[m - 1], events[m - 1]);
      InvStepExactly(w, states[m - 1], events[m - 1], states[m]);
    }
  }

  lemma TurnLeaves(w: Wrap, x: Rx, skb: bool)
    requires DriverOk(x.cur, x.capr)
    ensures var r := Take(w, x, skb); r.Took? ==> DriverOk(r.x.cur, r.x.capr) && r.x.mem == x.mem
  {
  }

  lemma {:induction false} DriverStays(w: Wrap, states: seq<System>, events: seq<Event>, m: nat)
    requires Run(w, states, events) && m <= |events|
    ensures DriverOk(states[m].x.cur, states[m].x.capr) && |states[m].x.mem| == TOTAL_RX_BUF_SIZE
  {
    if m == 0 {
    } else {
      var s, e := states[m - 1], events[m - 1];
      DriverStays(w, states, events, m - 1);
      assert Step(w, s, e, states[m - 1 + 1]);
      match e
      case Arrive(p, v) => ProduceWrites(s.x, p, v);
      case Turn(skb) => TurnLeaves(w, s.x, skb);
    }
  }

  /** In every run without exception, at every head of the loop cur_rx is 4-aligned and congruent to the
      chip's read pointer, and the driver looks exactly there unless it is at the edge. */
  lemma HeadsAreCongruent(w: Wrap, states: seq<System>, events: seq<Event>)
    requires Run(w, states, events)
    ensures var x := states[|events|].x;
            && 0 <= x.cur && x.cur % 4 == 0 && x.cur % RX_BUF_LEN == ReadPtr(x.capr)
            && U16(x.capr + 16) == U16(x.cur)
            && (WrapCur(w, x.cur) == ReadPtr(x.capr) <==> !AtEdge(w, x.cur))
  {
    DriverStays(w, states, events, |events|);
    ReadPtrOf(states[|events|].x.cur);
    DriverLooksAtChipOffset(w, states[|events|].x);
  }

  /** In a run whose turns so far did not begin at the edge CAPR gives cur_rx back, and the next turn stays
      inside the ring memory, unless it begins at the edge and copies a packet by a size from the pad that
      leads past it. */
  lemma TurnsAreSafe(w: Wrap, states: seq<System>, events: seq<Event>, skb: bool)
    requires Run(w, states, events)
    requires forall j :: 0 <= j < |events| ==> Guarded(w, states[j], events[j])
    ensures var x := states[|events|].x;
            && |x.mem| == TOTAL_RX_BUF_SIZE && U16(x.capr + 16) == x.cur
            && (!BufEmpty(x) ==>
                  (Take(w, x, skb).Took? <==>
                    !AtEdge(w, x.cur) || !skb
                    || RX_BUF_LEN + 4 + U16(SizeAt(x.mem, RX_BUF_LEN) - 4) <= TOTAL_RX_BUF_SIZE))
  {
    ReceiveRing(w, states, events);
    var s := states[|events|];
    var q := s.produced[|s.turns|..];
    EmptyMeansNothingUnread(s.x, q);
    CaprDeterminesCur(s.x.cur);
    if q != [] && !AtEdge(w, s.x.cur) {
      TakeDequeues(w, s.x, q, skb);
    }
  }

  // ---------------------------------------------------------------------------------------------
  // The edge
  // ---------------------------------------------------------------------------------------------

  const ETH_MIN_LEN: int := 60
  const MAX_ETH_FRAME_SIZE: int := 1536

  /** A packet of the sizes the card delivers. */
  predicate IsFrame(p: Packet) {
    ETH_MIN_LEN <= |p| <= MAX_ETH_FRAME_SIZE
  }

  /** The sizes of rtl8139.h; every packet the card delivers fits a record, wherever in the ring it starts. */
  lemma FramesFit(p: Packet, o: int)
    requires IsFrame(p) && 0 <= o < RX_BUF_LEN && o % 4 == 0
    ensures RX_BUF_LEN == 8192 * 4 && TOTAL_RX_BUF_SIZE == RX_BUF_LEN + 16 + 2048
    ensures MAX_RX_SIZE + 4 == TOTAL_RX_BUF_SIZE - RX_BUF_LEN
    ensures |p| + 4 <= MAX_RX_SIZE && o + 4 + |p| + 4 <= TOTAL_RX_BUF_SIZE
  {
  }

  /** A packet whose record takes 1024 bytes, a thirty-second of the ring. */
  predicate IsBlock(b: Packet)
    ensures IsBlock(b) ==> IsFrame(b)
  {
    |b| == 1016
  }

  /** The length field a header at the end of the ring would have. */
  predicate SamePad(mem: seq<Byte>, mem': seq<Byte>) {
    && |mem| == |mem'| == TOTAL_RX_BUF_SIZE
    && mem'[RX_BUF_LEN + 2] == mem[RX_BUF_LEN + 2] && mem'[RX_BUF_LEN + 3] == mem[RX_BUF_LEN + 3]
  }

  predicate AtRound(x: Rx, k: nat) {
    && x.cur == 1024 * k && x.cbr == (if k == 32 then 0 else 1024 * k) && x.cbr % 4 == 0
    && x.capr == U16(x.cur - 16) && |x.mem| == TOTAL_RX_BUF_SIZE
  }

  /** The ring after k rounds of the chip delivering a block and the driver, as written, taking it. */
  function Rounds(mem: seq<Byte>, b: Packet, v: Wire, k: nat): (x: Rx)
    requires |mem| == TOTAL_RX_BUF_SIZE && IsBlock(b) && WellSized(b, v) && k <= 32
    ensures AtRound(x, k) && SamePad(mem, x.mem)
  {
    if k == 0 then Rx(0, mem, 0, 0xFFF0)
    else
      var x := Rounds(mem, b, v, k - 1);
      RoundTakesOne(x, b, v, k - 1);
      Take(AsWritten, Produce(x, b, v), true).x
  }

  lemma RoundTakesOne(x: Rx, b: Packet, v: Wire, k: nat)
    requires IsBlock(b) && WellSized(b, v) && k < 32 && AtRound(x, k)
    ensures Fits(x, b)
    ensures var y := Produce(x, b, v);
            && !BufEmpty(y)
            && var r := Take(AsWritten, y, true);
               r.Took? && r.handed == [b] && AtRound(r.x, k + 1) && SamePad(x.mem, r.x.mem)
  {
    ReadPtrOf(x.cur);
    ProduceWrites(x, b, v);
    NextPosition(x.cbr, b);
    ReadPtrOf(x.cbr + Rec(b));
    TakeReads(AsWritten, Produce(x, b, v), b, true);
  }

  /** What the code as written does once a record ends exactly at the end of the ring: from a zeroed buffer,
      thirty-two blocks later, it looks for the next packet in the pad, finds length 0, and its packet size
      underflows past the end of the buffer; the corrected wrap hands the packet up. */
  lemma EdgeBreaksTheCode(mem: seq<Byte>, b: Packet, vb: Wire, p: Packet, v: Wire)
    requires |mem| == TOTAL_RX_BUF_SIZE && mem[RX_BUF_LEN + 2] == 0 && mem[RX_BUF_LEN + 3] == 0
    requires IsBlock(b) && |vb.crc| == 4 && IsFrame(p) && |v.crc| == 4
    ensures var x := Rounds(mem, b, vb, 32);
            && x.cur == RX_BUF_LEN && Fits(x, p)
            && var y := Produce(x, p, v);
               && !BufEmpty(y)
               && Take(AsWritten, y, true) == Fault
               && Take(Corrected, y, true).Took? && Take(Corrected, y, true).handed == [p]
  {
    EdgeFaults(Rounds(mem, b, vb, 32), p, v);
  }

  /** A zero length in the pad sends the copy past the end of the memory. */
  lemma ZeroLengthFaults(x: Rx)
    requires x.cur == RX_BUF_LEN && |x.mem| == TOTAL_RX_BUF_SIZE
    requires x.mem[RX_BUF_LEN + 2] == 0 && x.mem[RX_BUF_LEN + 3] == 0
    ensures Take(AsWritten, x, true) == Fault
  {
    assert SizeAt(x.mem, RX_BUF_LEN) == 0 && U16(0 - 4) == 65532;
  }

  /** Nothing is unread when the driver stands at the edge and the chip at offset 0. */
  lemma EdgeIsEmpty(x: Rx, p: Packet)
    requires x.cur == RX_BUF_LEN && x.cbr == 0 && x.capr == U16(x.cur - 16) && |p| + 4 <= MAX_RX_SIZE
    ensures ReadPtr(x.capr) == 0 && Fits(x, p) && 0 < Norm(Rec(p)) == Rec(p)
  {
    ReadPtrOf(x.cur);
    RecBounds(p);
  }

  lemma EdgeFaults(x: Rx, p: Packet, v: Wire)
    requires x.cur == RX_BUF_LEN && x.cbr == 0 && x.capr == U16(x.cur - 16) && |x.mem| == TOTAL_RX_BUF_SIZE
    requires x.mem[RX_BUF_LEN + 2] == 0 && x.mem[RX_BUF_LEN + 3] == 0 && WellSized(p, v)
    ensures Fits(x, p)
    ensures var y := Produce(x, p, v);
            && !BufEmpty(y)
            && Take(AsWritten, y, true) == Fault
            && Take(Corrected, y, true).Took? && Take(Corrected, y, true).handed == [p]
  {
    EdgeIsEmpty(x, p);
    ProduceWrites(x, p, v);
    ZeroLengthFaults(Produce(x, p, v));
    TakeReads(Corrected, Produce(x, p, v), p, true);
  }

  /** cur_rx comes to the end of the ring exactly when the record just taken ends there. */
  lemma EdgeIsReachedExactly(w: Wrap, x: Rx, p: Packet, skb: bool)
    requires RecordAt(x.mem, WrapCur(w, x.cur), p)
    ensures Take(w, x, skb).Took?
    ensures Take(w, x, skb).x.cur == RX_BUF_LEN <==> EndsAtEdge(WrapCur(w, x.cur), p)
  {
    TakeReads(w, x, p, skb);
    NextPosition(WrapCur(w, x.cur), p);
  }
}
