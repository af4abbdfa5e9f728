/**
 test_pollRW.c as a client of the device: one program that polls, reads and writes through two file
 descriptors until it has read back everything it wrote. And the shortest client that meets the false
 room of buffer_full().
 */
module PollClient {
  import opened Ring
  import opened PollDevice

  /** How the program ends: all data read, poll timed out, or a call failed or slept. */
  datatype Exit = AllRead | TimedOut | CallFailed | CallSlept

  /** Where the message is: read back, in the device, still to be written. */
  predicate Accounts(message: string, got: string, stored: string, unwritten: string) {
    message == got + stored + unwritten
  }

  lemma AfterRead(message: string, got: string, stored: string, unwritten: string)
    requires Accounts(message, got, stored, unwritten)
    ensures Accounts(message, got + stored, [], unwritten)
    ensures |message| - |got + stored| == |unwritten|
    ensures unwritten == [] ==> got + stored == message
  {
  }

  lemma AfterWrite(message: string, got: string, unwritten: string, stored: string, rest: string)
    requires Accounts(message, got, [], unwritten) && stored + rest == unwritten
    ensures Accounts(message, got, stored, rest)
  {
    assert got + [] + unwritten == got + (stored + rest);
  }

  /** With the device to itself the program never sleeps in read or write, never times out, terminates, and
      has read exactly the message, once and in order. `wbuf` is not advanced after the write that
      finishes the message; the last read comes before the loop could write it again.
      `got` collects what each read returned. */
  method TestPollRW(dev: Device, message: string) returns (exit: Exit, got: string)
    requires dev.Valid() && dev.useCount == 0
    requires message != []
    modifies dev, dev.rbuf
    ensures exit == AllRead && got == message
    ensures dev.Valid() && dev.useCount == 0 && dev.Stored() == []
  {
    got := [];
    var wbuf := message;
    var totalBytes := |wbuf|;
    dev.Open();
    dev.Open();
    ghost var q, unwritten := dev.Stored(), wbuf;
    while true
      invariant dev.Valid() && dev.useCount == 2 && dev.Stored() == q
      invariant Accounts(message, got, q, unwritten)
      invariant totalBytes == |message| - |got| > 0
      invariant unwritten == wbuf || unwritten == []
      decreases 2 * |unwritten| + |q|
    {
      var pollin, pollout := dev.Poll();
      if !pollin && !pollout {
        exit := TimedOut;
        break;
      }
      if pollin {
        var r, output := dev.Read(totalBytes, false);
        if !r.Done? {
          exit := if r.Sleeps? then CallSlept else CallFailed;
          break;
        }
        DequeueAll(dev.n, q, totalBytes, output, dev.Stored());
        AfterRead(message, got, q, unwritten);
        got := got + output;
        q := [];
        if r.count < totalBytes {
          totalBytes := totalBytes - r.count;
        } else {
          exit := AllRead;
          break;
        }
      }
      if pollout {
        var r := dev.Write(wbuf, false);
        if !r.Done? {
          exit := if r.Sleeps? then CallSlept else CallFailed;
          break;
        }
        EnqueueSplits(dev.n, q, wbuf, r.count, dev.Stored());
        q := dev.Stored();
        AfterWrite(message, got, unwritten, q, wbuf[r.count..]);
        unwritten := wbuf[r.count..];
        if r.count < |wbuf| {
          wbuf := wbuf[r.count..];
        }
      }
    }
    dev.Release();
    dev.Release();
  }

  /** N-1 characters written to a freshly opened device fill the ring at ir == 0, iw == N-1. POLLOUT is then
      up all the same, and the write it invites stores nothing: it returns 0, blocking or not. */
  method WriteIntoFalseRoom(n: nat, fill: string, data: string, nonblock: bool)
      returns (first: Result, pollout: bool, second: Result)
    requires 2 <= n && |fill| == n - 1 && data != []
    ensures first == Done(n - 1) && pollout && second == Done(0)
  {
    var dev := new Device(n);
    dev.Open();
    var pollin;
    first := dev.Write(fill, nonblock);
    pollin, pollout := dev.Poll();
    second := dev.Write(data, nonblock);
  }
}
