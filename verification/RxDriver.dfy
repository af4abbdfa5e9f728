/** The receive loop of rtl8139_interrupt with cur_rx, CAPR and the packets handed up changed in place. The
    chip is quiet while this loop runs; RxRing.ReceiveRing has it deliver between any two turns. */
module RxDriver {
  import opened Bytes
  import opened RxRing

  /** Reading q from cur_rx on, no turn begins at the edge: for the code as written, neither cur_rx nor the end
      of a record other than the last is at RX_BUF_LEN. */
  predicate PassesEdge(w: Wrap, cur: int, q: seq<Packet>)
    decreases |q|
  {
    q != [] ==> !AtEdge(w, cur) && PassesEdge(w, WrapCur(w, cur) + Rec(q[0]), q[1..])
  }

  /** The corrected wrap passes every queue. */
  lemma {:induction false} CorrectedPasses(cur: int, q: seq<Packet>)
    ensures PassesEdge(Corrected, cur, q)
    decreases |q|
  {
    if q == [] {
    } else {
      CorrectedPasses(WrapCur(Corrected, cur) + Rec(q[0]), q[1..]);
    }
  }

  /** A loop over the packets q that has made j turns: what it has left, where it is, and what it has handed up
      after the packets in `before`. */
  predicate HasTurned(
      w: Wrap, o: int, q: seq<Packet>, alloc: seq<bool>, before: seq<Packet>, cur0: int, capr0: int,
      j: nat, cur: int, capr: int, unread: seq<Packet>, handed: seq<Packet>)
  {
    && j <= |alloc| == |q| && unread == q[j..] && PassesEdge(w, cur, unread)
    && handed == before + Kept(q, alloc[..j])
    && HasRead(o, q, j, cur0, capr0, cur, capr)
  }

  lemma TurnsOnce(
      w: Wrap, o: int, q: seq<Packet>, alloc: seq<bool>, before: seq<Packet>, cur0: int, capr0: int,
      j: nat, cur: int, capr: int, unread: seq<Packet>, handed: seq<Packet>, next: int, capr': int)
    requires 0 <= o < RX_BUF_LEN && Span(q) < RX_BUF_LEN && unread != []
    requires HasTurned(w, o, q, alloc, before, cur0, capr0, j, cur, capr, unread, handed)
    requires next == WrapCur(w, cur) + Rec(unread[0]) && WrapCur(w, cur) == ReadPtr(capr) && capr' == U16(next - 16)
    ensures HasTurned(w, o, q, alloc, before, cur0, capr0, j + 1, next, capr', unread[1..],
                      handed + if alloc[j] then [unread[0]] else [])
  {
    KeptNext(before, q, alloc, j);
    HasReadNext(o, q, j, cur0, capr0, cur, capr, next, capr');
  }

  class Rtl8139 {
    const wrap: Wrap
    const rxRing: array<Byte>
    var curRx: int
    var capr: int                  // chip register
    var cbr: int                   // chip write pointer
    var handed: seq<Packet>        // packets handed to the protocol layer
    ghost var unread: seq<Packet>

    ghost predicate Valid()
      reads this, rxRing
    {
      RxRing.Holds(Rx(curRx, rxRing[..], cbr, capr), unread)
    }

    /** rtl8139_open and chip reset. */
    constructor Open(w: Wrap)
      ensures Valid() && wrap == w && unread == [] && handed == []
      ensures curRx == 0 && cbr == 0 && capr == 0xFFF0
    {
      wrap := w;
      rxRing := new Byte[TOTAL_RX_BUF_SIZE];
      curRx, cbr, capr := 0, 0, 0xFFF0;
      handed, unread := [], [];
    }

    /** Lines 126-142: the wrap of cur_rx and the header found there, not at the edge. The size is that of the
        oldest unread packet, whose bytes follow, and leads to the next record. */
    method ReadHeader() returns (cur: int, rxSize: int)
      requires Valid() && unread != [] && !AtEdge(wrap, curRx)
      ensures cur == WrapCur(wrap, curRx) && 0 <= cur && U16(rxSize - 4) == |unread[0]|
      ensures cur + 4 + |unread[0]| <= rxRing.Length && rxRing[cur + 4..cur + 4 + |unread[0]|] == unread[0]
      ensures var next := RoundUp4(cur + rxSize + 4);
              && next == cur + Rec(unread[0]) < 2 * RX_BUF_LEN && cur == ReadPtr(capr)
              && Holds(Rx(next, rxRing[..], cbr, U16(next - 16)), unread[1..])
    {
      TurnComputes(wrap, Rx(curRx, rxRing[..], cbr, capr), unread);
      cur := WrapCur(wrap, curRx);
      rxSize := SizeAt(rxRing[..], cur);
      assert rxRing[..][cur + 4..cur + 4 + |unread[0]|] == rxRing[cur + 4..cur + 4 + |unread[0]|];
    }

    /** Lines 126-204, one turn of the loop that does not begin at the edge: the oldest unread packet leaves
        the ring, and is handed up if its allocation succeeds. */
    method Turn(skb: bool)
      requires Valid() && unread != [] && !AtEdge(wrap, curRx)
      modifies this`curRx, this`capr, this`handed, this`unread
      ensures Valid() && unread == old(unread)[1..]
      ensures handed == old(handed) + if skb then [old(unread)[0]] else []
      ensures curRx == WrapCur(wrap, old(curRx)) + Rec(old(unread)[0]) < 2 * RX_BUF_LEN
      ensures WrapCur(wrap, old(curRx)) == old(ReadPtr(capr)) && capr == U16(curRx - 16)
    {
      var rxSize;
      curRx, rxSize := ReadHeader();
      var pktSize := U16(rxSize - 4);
      if skb {
        handed := handed + [rxRing[curRx + 4..curRx + 4 + pktSize]];
      }
      curRx := RoundUp4(curRx + rxSize + 4);
      capr := U16(curRx - 16);
      unread := unread[1..];
    }

    /** The RxBufEmpty bit of CR. */
    method RxBufEmpty() returns (empty: bool)
      requires Valid()
      ensures empty <==> unread == []
    {
      EmptyMeansNothingUnread(Rx(curRx, rxRing[..], cbr, capr), unread);
      empty := ReadPtr(capr) == cbr;
    }

    /** Lines 113-206: the loop empties the ring, handing up every unread packet whose allocation succeeds,
        oldest first; alloc[j] is the outcome of the j-th allocation. */
    method ReceiveLoop(rxOk: bool, alloc: seq<bool>)
      requires Valid() && |alloc| == |unread| && (rxOk ==> PassesEdge(wrap, curRx, unread))
      modifies this`curRx, this`capr, this`handed, this`unread
      ensures Valid()
      ensures !rxOk || old(unread) == [] ==> curRx == old(curRx) && capr == old(capr)
      ensures rxOk && old(unread) != [] ==> EndsAfter(old(ReadPtr(capr)), old(unread), curRx, capr)
      ensures unread == if rxOk then [] else old(unread)
      ensures handed == if rxOk then old(handed) + Kept(old(unread), alloc) else old(handed)
    {
      if rxOk {
        ghost var q, before, o, cur0, capr0 := unread, handed, ReadPtr(capr), curRx, capr;
        assert q[..0] == [];
        var j: nat := 0;
        var empty := RxBufEmpty();
        while !empty
          invariant Valid() && (empty <==> unread == [])
          invariant HasTurned(wrap, o, q, alloc, before, cur0, capr0, j, curRx, capr, unread, handed)
          decreases |unread|
        {
          ghost var cur1, capr1, unread1, handed1 := curRx, capr, unread, handed;
          Turn(alloc[j]);
          TurnsOnce(wrap, o, q, alloc, before, cur0, capr0, j, cur1, capr1, unread1, handed1, curRx, capr);
          j := j + 1;
          empty := RxBufEmpty();
        }
        assert q[..j] == q;
        assert alloc[..j] == alloc;
      }
    }
  }
}
