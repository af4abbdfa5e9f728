/**
 poll.c as a sequential object: the buffer, the two indices and use_count changed in place by the
 loops of the source. It meets the same atomic-queue contract as every semaphore section of the
 transition system, so what is proved of it here is what a task with the device to itself observes.
 */
module PollDevice {
  import opened Ring

  /** What read and write return; Sleeps stands for a call that goes to sleep with nobody to wake it. */
  datatype Result = Done(count: nat) | Again | Sleeps

  class Device {
    const n: nat
    const rbuf: array<char>
    var ir: int
    var iw: int
    var useCount: int

    ghost predicate Valid()
      reads this, rbuf
    {
      2 <= n && rbuf.Length == n + 1 && 0 <= ir < n && 0 <= iw < n
    }

    /** The characters stored, oldest first. */
    ghost function Stored(): (q: string)
      requires Valid()
      reads this, rbuf
      ensures |q| == Occupancy(n, ir, iw) <= n - 1
    {
      ContentsLength(n, rbuf[..], ir, iw);
      Contents(n, rbuf[..], ir, iw)
    }

    constructor (n: nat)
      requires 2 <= n
      ensures Valid() && fresh(rbuf) && this.n == n && useCount == 0
      ensures ir == 0 && iw == 0 && Stored() == []
    {
      this.n := n;
      this.rbuf := new char[n + 1];
      ir, iw, useCount := 0, 0, 0;
    }

    /** device_open: the first open empties the ring and puts both indices back to 0; a later one touches
        neither. */
    method Open()
      requires Valid()
      modifies this`ir, this`iw, this`useCount
      ensures Valid() && useCount == old(useCount) + 1
      ensures if old(useCount) == 0 then ir == 0 && iw == 0 else ir == old(ir) && iw == old(iw)
      ensures Stored() == if old(useCount) == 0 then [] else old(Stored())
    {
      if useCount == 0 {
        iw := 0;
        ir := 0;
      }
      useCount := useCount + 1;
    }

    /** device_release */
    method Release()
      requires Valid()
      modifies this`useCount
      ensures Valid() && useCount == old(useCount) - 1 && Stored() == old(Stored())
    {
      useCount := useCount - 1;
    }

    /** device_poll: POLLIN means data; POLLOUT means room, except at ir == 0, iw == n-1 where the ring
        is full and POLLOUT is reported all the same. */
    method Poll() returns (pollin: bool, pollout: bool)
      requires Valid()
      ensures pollin <==> Stored() != []
      ensures pollout <==> |Stored()| < n - 1 || (ir == 0 && iw == n - 1)
    {
      pollin, pollout := !Empty(ir, iw), !Full(ir, iw);
      PollReportsExactly(n, ir, iw);
    }

    /** device_read: one atomic dequeue of up to len characters, or no change at all. */
    method Read(len: nat, nonblock: bool) returns (r: Result, output: string)
      requires Valid()
      modifies this`ir
      ensures Valid()
      ensures old(Stored()) == [] ==> r == (if nonblock then Again else Sleeps) && output == [] && ir == old(ir)
      ensures old(Stored()) != [] ==>
                r == Done(|output|) && Atomic(n, old(Stored()), Dequeue(len, output), Stored())
    {
      output := [];
      if Empty(ir, iw) {
        return if nonblock then Again else Sleeps, output;
      }
      var i := 0;
      ghost var q := Stored();
      while i < len
        invariant Valid() && 0 <= i <= len && i <= |q|
        invariant output == q[..i] && Stored() == q[i..]
        decreases len - i
      {
        if ir == iw {
          break;
        }
        PopNext(n, rbuf[..], ir, iw, q, i);
        output := output + [rbuf[ir]];
        ir := ir + 1;
        i := i + 1;
        if ir == n {
          ir := 0;
        }
      }
      r := Done(i);
    }

    /** device_write: one atomic enqueue of as much as fits, or no change at all. */
    method Write(data: string, nonblock: bool) returns (r: Result)
      requires Valid()
      modifies this`iw, rbuf
      ensures Valid()
      ensures Full(ir, old(iw)) ==> r == (if nonblock then Again else Sleeps) && Stored() == old(Stored())
      ensures !Full(ir, old(iw)) ==>
                r.Done? && Atomic(n, old(Stored()), Enqueue(data, r.count), Stored())
      ensures r == Done(0) <==> !Full(ir, old(iw)) && (data == [] || (ir == 0 && old(iw) == n - 1))
    {
      FullAgreesWithWriteLimit(n, ir, iw);
      if Full(ir, iw) {
        return if nonblock then Again else Sleeps;
      }
      var i := 0;
      var ih := ir - 1;
      if ih < 0 {
        ih := ih + n;
      }
      ghost var q := Stored();
      while i < |data|
        invariant Valid() && 0 <= i <= |data|
        invariant Stored() == q + data[..i]
        invariant i == 0 ==> iw == old(iw)
        decreases |data| - i
      {
        FullAgreesWithWriteLimit(n, ir, iw);
        if iw == ih {
          break;
        }
        PushNext(n, rbuf[..], ir, iw, q, data, i);
        ghost var next := rbuf[..][iw := data[i]];
        rbuf[iw] := data[i];
        assert rbuf[..] == next;
        iw := iw + 1;
        i := i + 1;
        if iw == n {
          iw := 0;
        }
      }
      FullAgreesWithWriteLimit(n, ir, iw);
      r := Done(i);
    }
  }
}
