/** The transmit half of the RTL8139 driver with its private structure updated in place. */
module TxDriver {
  import opened Bytes
  import opened TxRing

  /** struct rtl8139's transmit fields, the netif queue flag, and the status registers TSD0-3. */
  class Rtl8139 {
    var curTx: int
    var dirtyTx: int
    var stopped: bool
    const txBufs: array<Byte>
    const txBuf: array<int>        // offsets into txBufs
    const tsd: array<Tsd>

    ghost predicate Valid()
      reads this, txBufs, txBuf, tsd
    {
      && txBufs.Length == TOTAL_TX_BUF_SIZE && txBuf.Length == NUM_TX_DESC && tsd.Length == NUM_TX_DESC
      && 0 <= curTx < NUM_TX_DESC && 0 <= dirtyTx < NUM_TX_DESC
      && forall i :: 0 <= i < NUM_TX_DESC ==> txBuf[i] == Base(i)
    }

    ghost function State(): (x: Tx)
      requires Valid()
      reads this, txBufs, txBuf, tsd
      ensures Shape(x)
    {
      Tx(curTx, dirtyTx, stopped, txBufs[..], tsd[..])
    }

    /** rtl8139_open, lines 53-61: indices at 0, and tx_bufs carved into four slots. */
    constructor Open(initial: Tsd)
      ensures Valid() && fresh(txBufs) && fresh(txBuf) && fresh(tsd)
      ensures Opened(System(State(), [], []))
    {
      txBufs := new Byte[TOTAL_TX_BUF_SIZE];
      txBuf := new int[NUM_TX_DESC];
      tsd := new Tsd[NUM_TX_DESC](_ => initial);
      curTx, dirtyTx, stopped := 0, 0, false;
      new;
      for i := 0 to NUM_TX_DESC
        invariant curTx == 0 && dirtyTx == 0 && !stopped
        invariant forall j :: 0 <= j < i ==> txBuf[j] == Base(j)
      {
        txBuf[i] := i * TX_BUF_SIZE;
      }
    }

    /** rtl8139_start_xmit */
    method StartXmit(skb: Packet)
      requires Valid()
      modifies this`curTx, this`stopped, txBufs, tsd
      ensures Valid() && State() == Xmit(old(State()), skb)
    {
      ghost var x := State();
      var entry := curTx % NUM_TX_DESC;
      if |skb| >= TX_BUF_SIZE {
        return;
      }
      var base := txBuf[entry];
      forall k | 0 <= k < |skb| {
        txBufs[base + k] := skb[k];
      }
      assert txBufs[..] == Filled(x.mem, entry, skb);
      tsd[entry] := Tsd(Max(|skb|, ETH_MIN_LEN), false, false, false);
      assert tsd[..] == x.tsd[entry := Tsd(Max(|skb|, ETH_MIN_LEN), false, false, false)];
      curTx := (entry + 1) % NUM_TX_DESC;
      if curTx == dirtyTx {
        stopped := true;
      }
    }

    /** rtl8139_interrupt, lines 34-97: reap concluded descriptors, oldest first. */
    method ReapTx(txOk: bool, txErr: bool)
      requires Valid()
      modifies this`dirtyTx, this`stopped
      ensures Valid()
      ensures State() == if txOk || txErr then ReapAll(old(State())) else old(State())
    {
      if txOk || txErr {
        while dirtyTx != curTx || stopped
          invariant Valid() && ReapAll(State()) == ReapAll(old(State()))
          decreases Pending(State())
        {
          ghost var x := State();
          ReapTurn(x);
          var txstatus := tsd[dirtyTx];
          if !(txstatus.ok || txstatus.aborted || txstatus.underrun) {
            break;
          }
          dirtyTx := (dirtyTx + 1) % NUM_TX_DESC;
          if dirtyTx == curTx && stopped {
            stopped := false;
          }
          assert State() == ReapOne(x);
        }
      }
    }
  }
}
