/**
 The byte ring of poll.c, as plain arithmetic on its two indices.

 The ring holds at most n-1 characters in slots 0..n-1 of a buffer of n+1 cells.
 While a transfer is between `ir++` (or `iw++`) and the wrap test that follows it, the index may
 be n; index n and index 0 name the same slot. Every definition below covers that instant.
 */
module Ring {

  /** The index pairs the device can show: each index in 0..n, and an index equal to n only just after
      its own transfer advanced it (so data was just added, or room was just made). */
  predicate Indices(n: int, ir: int, iw: int) {
    && 2 <= n
    && 0 <= ir <= n
    && 0 <= iw <= n
    && !(ir == n && iw == n)
    && (iw == n ==> ir != 0)
    && (ir == n ==> iw != n - 1)
  }

  /** is_buffer_empty() */
  predicate Empty(ir: int, iw: int) {
    ir == iw
  }

  /** buffer_full(): no wrap at ir == 0, exactly as the source has it. */
  predicate Full(ir: int, iw: int) {
    iw == ir - 1
  }

  /** The slot an index names. */
  function Slot(n: int, x: int): int {
    if x == n then 0 else x
  }

  /** Number of characters stored. */
  function Occupancy(n: int, ir: int, iw: int): int {
    var a, b := Slot(n, ir), Slot(n, iw);
    if a <= b then b - a else b - a + n
  }

  /** The characters stored, oldest first. */
  function Contents(n: int, buf: string, ir: int, iw: int): string {
    if !Indices(n, ir, iw) || |buf| != n + 1 then []
    else
      var a, b := Slot(n, ir), Slot(n, iw);
      if a <= b then buf[a..b] else buf[a..n] + buf[..b]
  }

  function Min(a: int, b: int): int {
    if a <= b then a else b
  }

  lemma ContentsLength(n: int, buf: string, ir: int, iw: int)
    requires Indices(n, ir, iw) && |buf| == n + 1
    ensures |Contents(n, buf, ir, iw)| == Occupancy(n, ir, iw)
    ensures 0 <= Occupancy(n, ir, iw) <= n - 1
  {
  }

  /** Storing one character at slot iw and advancing iw appends it. */
  lemma PushAppends(n: int, buf: string, ir: int, iw: int, c: char)
    requires Indices(n, ir, iw) && |buf| == n + 1 && ir < n && iw < n
    requires Occupancy(n, ir, iw) < n - 1
    ensures Indices(n, ir, iw + 1)
    ensures Contents(n, buf[iw := c], ir, iw) == Contents(n, buf, ir, iw)
    ensures Contents(n, buf[iw := c], ir, iw + 1) == Contents(n, buf, ir, iw) + [c]
  {
    var buf' := buf[iw := c];
    if ir <= iw {
      assert buf'[ir..iw] == buf[ir..iw];
      if iw + 1 < n {
        assert buf'[ir..iw + 1] == buf[ir..iw] + [c];
      } else {
        assert buf'[ir..n] + buf'[..0] == buf[ir..iw] + [c];
      }
    } else {
      assert buf'[ir..n] == buf[ir..n];
      assert buf'[..iw] == buf[..iw];
      assert buf'[..iw + 1] == buf[..iw] + [c];
      assert buf'[ir..n] + buf'[..iw + 1] == buf[ir..n] + buf[..iw] + [c];
    }
  }

  /** Advancing ir over a non-empty ring removes the oldest character, which is the one in slot ir. */
  lemma PopRemoves(n: int, buf: string, ir: int, iw: int)
    requires Indices(n, ir, iw) && |buf| == n + 1 && ir < n && iw < n && ir != iw
    ensures Indices(n, ir + 1, iw)
    ensures Contents(n, buf, ir, iw) == [buf[ir]] + Contents(n, buf, ir + 1, iw)
  {
    if ir < iw {
      assert buf[ir..iw] == [buf[ir]] + buf[ir + 1..iw];
    } else {
      var tail := buf[ir + 1..n];
      assert buf[ir..n] == [buf[ir]] + tail;
      assert Contents(n, buf, ir, iw) == ([buf[ir]] + tail) + buf[..iw] == [buf[ir]] + (tail + buf[..iw]);
      assert Contents(n, buf, ir + 1, iw) == tail + buf[..iw] by {
        if ir + 1 == n {
          assert tail == [];
        }
      }
    }
  }

  /** Wrapping an index from n to 0 changes neither the contents nor the occupancy. */
  lemma WrapKeeps(n: int, buf: string, ir: int, iw: int)
    requires Indices(n, ir, iw) && |buf| == n + 1
    ensures Indices(n, Slot(n, ir), Slot(n, iw))
    ensures Contents(n, buf, Slot(n, ir), Slot(n, iw)) == Contents(n, buf, ir, iw)
  {
  }

  /** What poll reports at any instant, mid-wrap included, against what the ring really holds.
      Data always shows as POLLIN and room always shows as POLLOUT; the converse fails at exactly one
      index pair for POLLIN and at exactly two for POLLOUT. The second POLLOUT pair, (1, n), is the
      mid-wrap instant of a write that has just filled the ring. */
  lemma PollReportsExactly(n: int, ir: int, iw: int)
    requires Indices(n, ir, iw)
    ensures Occupancy(n, ir, iw) > 0 ==> !Empty(ir, iw)
    ensures Occupancy(n, ir, iw) < n - 1 ==> !Full(ir, iw)
    ensures !Empty(ir, iw) && Occupancy(n, ir, iw) == 0 <==> ir == n && iw == 0
    ensures !Full(ir, iw) && Occupancy(n, ir, iw) == n - 1
            <==> (ir == 0 && iw == n - 1) || (ir == 1 && iw == n)
  {
  }

  /** The write loop's own limit `ih` (ir-1, wrapped) stops exactly when the ring holds n-1 characters,
      so buffer_full() agrees with the write loop except at (0, n-1). */
  lemma FullAgreesWithWriteLimit(n: int, ir: int, iw: int)
    requires Indices(n, ir, iw) && ir < n && iw < n
    ensures var ih := if ir - 1 < 0 then ir - 1 + n else ir - 1;
            && (iw == ih <==> Occupancy(n, ir, iw) == n - 1)
            && ((Full(ir, iw) <==> iw == ih) <==> !(ir == 0 && iw == n - 1))
  {
  }

  // ---------------------------------------------------------------------------------------------
  // The atomic queue the device is meant to be
  // ---------------------------------------------------------------------------------------------

  datatype Op = Nop | Dequeue(want: nat, taken: string) | Enqueue(offered: string, k: nat) | Clear

  /** A queue of at most n-1 characters; both transfers move as much as fits at once. */
  predicate Atomic(n: int, q: string, op: Op, q': string) {
    match op
    case Nop => q' == q
    case Clear => q' == []
    case Dequeue(want, taken) =>
      taken == q[..Min(want, |q|)] && q' == q[Min(want, |q|)..]
    case Enqueue(offered, k) =>
      |q| <= n - 1 && k == Min(|offered|, n - 1 - |q|) && q' == q + offered[..k]
  }

  /** Taking everything: a dequeue that asks for at least what is there. */
  lemma DequeueAll(n: int, q: string, want: nat, taken: string, q': string)
    requires Atomic(n, q, Dequeue(want, taken), q') && want >= |q|
    ensures taken == q && q' == []
  {
  }

  /** What an enqueue did not take is what remains to be offered. */
  lemma EnqueueSplits(n: int, q: string, offered: string, k: nat, q': string)
    requires Atomic(n, q, Enqueue(offered, k), q')
    ensures k <= |offered| && q' + offered[k..] == q + offered
  {
    assert (q + offered[..k]) + offered[k..] == q + (offered[..k] + offered[k..]);
  }

  /** One turn of the write loop: store, advance, wrap. */
  lemma PushNext(n: int, buf: string, ir: int, iw: int, q: string, data: string, i: nat)
    requires Indices(n, ir, iw) && |buf| == n + 1 && ir < n && iw < n && i < |data|
    requires Occupancy(n, ir, iw) < n - 1
    requires Contents(n, buf, ir, iw) == q + data[..i]
    ensures Indices(n, ir, Slot(n, iw + 1))
    ensures Contents(n, buf[iw := data[i]], ir, Slot(n, iw + 1)) == q + data[..i + 1]
  {
    PushAppends(n, buf, ir, iw, data[i]);
    WrapKeeps(n, buf[iw := data[i]], ir, iw + 1);
    assert data[..i + 1] == data[..i] + [data[i]];
    assert q + (data[..i] + [data[i]]) == (q + data[..i]) + [data[i]];
  }

  /** One turn of the read loop: load, advance, wrap. */
  lemma PopNext(n: int, buf: string, ir: int, iw: int, q: string, i: nat)
    requires Indices(n, ir, iw) && |buf| == n + 1 && ir < n && iw < n && ir != iw
    requires i <= |q| && Contents(n, buf, ir, iw) == q[i..]
    ensures i < |q| && q[..i + 1] == q[..i] + [buf[ir]]
    ensures Indices(n, Slot(n, ir + 1), iw)
    ensures Contents(n, buf, Slot(n, ir + 1), iw) == q[i + 1..]
  {
    ContentsLength(n, buf, ir, iw);
    PopRemoves(n, buf, ir, iw);
    WrapKeeps(n, buf, ir + 1, iw);
    assert q[i] == q[i..][0] == buf[ir];
    assert q[i + 1..] == q[i..][1..];
  }
}
