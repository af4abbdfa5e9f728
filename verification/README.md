# Verified models of the driver exercises

Three parts of this repository are modelled and proved.

**The blocking ring device** (`rw_poll_module_1/poll.c`). `PollState.dfy` is a transition system: any number
of tasks, each with a program counter inside `device_read`, `device_write`, `device_poll`, `device_open` or
`device_release`, for every ring size N >= 2. A step makes at most one store to the ring, an index, use_count,
a lock or a wait queue, except that a poller leaves both queues at once. The unlocked predicates load `ir` and
`iw` in two separate steps, in either order, so every mixture of two instants is covered, including the
instant where an index equals N just before it wraps. `PollInvariant.dfy` holds the inductive invariant,
`PollWakeup.dfy` the absence of lost wake-ups, and `PollTheorems.dfy` linearisation, FIFO order, clean exits
and reset safety. `PollVerdict.dfy` says exactly what an unlocked test concludes, `PollProgress.dfy` what
calls that do not overlap one of their own kind are promised, `PollPromise.dfy` what a report of POLLIN or
POLLOUT promises, and `PollWitness.dfy` has the runs that reach the corner cases.

`PollDevice.dfy` is the same device as a sequential object with the real buffer, and `PollClient.dfy` models
`test_pollRW.c` as its client. `PollSolo.dfy` joins the layers: in the transition system each of the five
calls, taken without another task in between, ends within a computed number of steps, with what the method of
the same name promises, and a sleeper roused by a wake-up or a signal goes on as the source says.
`PollCalls.dfy` states this from the caller's arguments on, `PollArguments.dfy` follows the arguments through
any interleaving, and `PollProgram.dfy` has `test_pollRW.c` once more, as one task of the transition system.
Both layers meet the atomic queue of `Ring.dfy`.

**The RTL8139 rings** (`pci-rtl_8139/Phase-II`). `TxRing.dfy` and `RxRing.dfy` define one call or one loop
turn of the driver as a function, the chip as an environment, and prove what every run keeps; `TxDriver.dfy`
and `RxDriver.dfy` run the loops in place on arrays and fields. The gaps marked `CODE HERE` are filled as the
comments beside them say: the packet is copied to `tx_buf[entry]`, the size is written to TSD, and `cur_tx`
becomes `(entry + 1) % NUM_TX_DESC`.

**The page mapping** (`mmap_module_3/mmap_kmalloc.c`). `MmapPages.dfy` has the alignment, page-table and cell
arithmetic, `MmapDriver.dfy` the driver's operations in place.

Assumptions: sequential consistency; `sema` is a mutex and `lock` a spin lock; `wake_up_interruptible` makes
every waiter of its queue runnable; a signal may arrive at any step and is delivered when the call returns;
`put_user` and `get_user` succeed, evaluate their arguments once, and `get_user(rbuf[iw++], ..)` stores the
character before it advances `iw`, an order the language leaves open; a file is released only after every call
on it has returned; a poller that finds no event sleeps until a queue it registered on is woken, and each pass
of the kernel's poll core is one poll call of the model. For the RTL8139: the interrupt handler and the
critical section of `rtl8139_start_xmit` exclude each other, the stack does not transmit on a stopped queue,
`cur_tx` is 0 at open, `netif_queue_stopped` is 0 or 1, CAPR is 0xFFF0 after reset, and the chip writes a
record only when it fits in front of the unread ones. For the mappings: vma bounds are page multiples, frames
behind an area are distinct, and `remap_pfn_range` maps pages in order up to the point where it fails.

Three findings:

- `buffer_full()` does not wrap at `ir == 0`. POLLOUT is a false positive at exactly two index pairs, (0, N-1)
  and, in the middle of a write, (1, N); POLLIN at exactly one, (N, 0), in the middle of a read. All three are
  reached for every N >= 2. A lone writer returns 0 exactly when it enters at (0, N-1).
- `device_poll` can leave out an event that was up at every instant between its two loads of `ir` and `iw`,
  because the answer compares one index of the first load with the other index of the second. For "no data" it
  compares the characters accepted so far at the load of `iw` with those returned at the load of `ir`, modulo
  N. With `iw` loaded first, one write and one read in between suffice; with `ir` first, the writes must go a
  whole turn round the ring. Both a reader and a writer must store an index in between. It happens for every
  N >= 3 and cannot happen for N == 2. No event is lost by it: a wake-up for that poller is done or outstanding.
  The tests inside read and write are right of one instant as long as no other call of the same kind is in
  progress.
- Line 126 of `rtl8139_interrupt` wraps `cur_rx` on `>`. At every loop head of every run the driver and the
  chip look at the same offset if and only if `cur_rx` is not exactly RX_BUF_LEN, which it becomes exactly
  when a record taken ends at the end of the ring. Whatever the chip delivers, the packets are right as long
  as no turn begins there; over a whole run they are right if and only if every turn that began there found in
  the pad a copy of what lies at offset 0. With `>=` they are always right.

## Model

| member | source | states |
|---|---|---|
| Ring.PollReportsExactly | rw_poll_module_1/poll.c:29-43 | At every index pair the device can show, mid-wrap included: data implies POLLIN, room implies POLLOUT, and the false positives are exactly (N,0) for POLLIN and (0,N-1), (1,N) for POLLOUT |
| Ring.FullAgreesWithWriteLimit | rw_poll_module_1/poll.c:153-157 | The write loop's limit stops exactly at N-1 stored characters, and buffer_full() agrees with it except exactly at ir == 0, iw == N-1 |
| Ring.PopNext | rw_poll_module_1/poll.c:103-109 | One turn of the read loop moves exactly the oldest stored character to the output, wrap included |
| Ring.PushNext | rw_poll_module_1/poll.c:156-161 | One turn of the write loop appends exactly the next data character to the stored ones, wrap included |
| PollInvariant.InvStep | rw_poll_module_1/poll.c:45-201 | Every step of every task keeps mutual exclusion, queue membership, file counting, ring shape, conservation of characters, and the relation of a transfer in progress to the ring it found |
| PollInvariant.InvReachable | rw_poll_module_1/poll.c:45-201 | That invariant holds in every reachable state, any number of tasks, any N >= 2 |
| PollWakeup.WakeStep | rw_poll_module_1/poll.c:82-116 | Every step keeps: a waiter that is not runnable sees its predicate block, also when it is only half evaluated, unless some task owes its queue a wake-up |
| PollWakeup.NoLostWakeup | rw_poll_module_1/poll.c:84-95 | A reader, writer or poller that passed its re-check and is not runnable either has a blocking predicate now, or a task has moved a character and has yet to reach its wake_up_interruptible |
| PollWakeup.ObligedTaskMoves | rw_poll_module_1/poll.c:103-116 | A task that owes a wake-up is never stuck, and at its wake-up line it wakes the queue it owes |
| PollWakeup.ObligedTaskNears | rw_poll_module_1/poll.c:103-116 | Each other step of such a task lowers its distance to the wake-up |
| PollWakeup.ObligationIsStable | rw_poll_module_1/poll.c:153-168 | Steps of other tasks and signals leave that distance alone |
| PollWakeup.NoMutualSleep | rw_poll_module_1/poll.c:135-146 | With no wake-up outstanding, sleeping readers mean an empty ring and sleeping writers a full one, so both never sleep together |
| PollTheorems.StepIsAtomic | rw_poll_module_1/poll.c:100-113 | Every step is one atomic queue operation or none: a read takes the first min(len, occupancy) characters, a write appends min(len, N-1-occupancy), a reset empties |
| PollTheorems.FifoOverTraces | rw_poll_module_1/poll.c:100-171 | Along every interleaving, what completed writes put in since the last reset is what completed reads returned, in order, followed by the queue |
| PollTheorems.FifoAtEveryInstant | rw_poll_module_1/poll.c:103-161 | The same at every instant, character by character, inside transfers too |
| PollTheorems.CountIsExact | rw_poll_module_1/poll.c:103-118 | A returned count is exactly what the semaphore section could move against the ring it found, and a read's output is the front of that ring |
| PollTheorems.NoWildAccess | rw_poll_module_1/poll.c:105-158 | rbuf is only accessed at indices 0..N-1 |
| PollTheorems.OnlyTheHolderMoves | rw_poll_module_1/poll.c:100-200 | The ring changes only under the semaphore or in a reset with nobody inside the device, use_count only under lock |
| PollTheorems.ResetIsSafe | rw_poll_module_1/poll.c:173-201 | use_count is the number of open files, and ir=iw=0 is stored only when it is 0 and no task is in read, write or poll |
| PollTheorems.ExitsAreClean | rw_poll_module_1/poll.c:78-118 | After any call its task is off both wait queues, runnable, and holds neither semaphore nor lock nor file |
| PollTheorems.ErrorsMoveNothing | rw_poll_module_1/poll.c:78-101 | A call that returns -EAGAIN or -ERESTARTSYS moved no character, and ring and histories stay as they are |
| PollTheorems.WakeupArrives | rw_poll_module_1/poll.c:111-116 | However the others interleave, an owed wake-up is performed within a computed number of the task's own steps |
| PollTheorems.SleepersAreWoken | rw_poll_module_1/poll.c:84-116 | Whenever a reader, writer or poller sleeps although its predicate does not block, some task that is never stuck rouses it, however all interleave, within a computed number of that task's own steps |
| PollTheorems.WakesExactly | rw_poll_module_1/poll.c:111-116 | The other tasks keep their program counters and locals at every step, and are made runnable exactly by the end of a call that moved at least one character, and exactly those on the other side's queue |
| PollTheorems.ErrorsHaveReasons | rw_poll_module_1/poll.c:78-101 | In every reachable state, a step that returns -ERESTARTSYS finds a signal pending, and one that returns -EAGAIN ends the first test of an O_NONBLOCK call |
| PollTheorems.PollSilenceIsCovered | rw_poll_module_1/poll.c:45-69 | If device_poll missed an event that is up now, the poller has been woken since, or a task owes it a wake-up |
| PollTheorems.PollAtEveryInstant | rw_poll_module_1/poll.c:29-69 | The exact list of poll's false positives, and no false silence at an instant, in every reachable state |
| PollProgress.CallsMakeProgress | rw_poll_module_1/poll.c:84-113 | If reads never overlap, a read of len > 0 that returns without error moved a character, beside any number of writers; if writes never overlap, so did a write, beside any number of readers, except exactly one that entered at ir == 0, iw == N-1 |
| PollProgress.NonblockNeverSleeps | rw_poll_module_1/poll.c:78-89 | An O_NONBLOCK call that never overlaps one of its own kind never marks itself for sleep or reaches schedule() |
| PollProgress.ProgressStep | rw_poll_module_1/poll.c:84-165 | No step, of any number of tasks on the other side, can undo the condition that a call alone on its side saw without the lock |
| PollArguments.CallsAreAsAsked | rw_poll_module_1/poll.c:72-171 | Along every interleaving a call works with the direction, O_NONBLOCK flag, length and data of the read() or write() that began it, and a poll with the events asked for |
| PollArguments.OperationsAreAsAsked | rw_poll_module_1/poll.c:100-167 | The queue operation of a completed call is the one its caller asked for, by length and data |
| PollArguments.ErrorsAreAsAsked | rw_poll_module_1/poll.c:78-101 | Along every trace, -EAGAIN ends only calls begun with O_NONBLOCK, and -ERESTARTSYS only calls with a signal pending |
| PollArguments.NonblockAsAskedNeverSleeps | rw_poll_module_1/poll.c:78-89 | A call begun with O_NONBLOCK that never overlaps one of its own kind never marks itself for sleep or reaches schedule() |
| PollVerdict.IndicesCount | rw_poll_module_1/poll.c:103-161 | In every reachable state `ir` and `iw` are the numbers of characters returned and accepted since the last reset, modulo N |
| PollVerdict.VerdictExactly | rw_poll_module_1/poll.c:29-64 | Whatever happens between its two loads, a test says "no data" if and only if the characters returned at the load of ir equal those accepted at the load of iw, modulo N, and "no room" if and only if they are one apart, with the mid-wrap and ir == 0 cases named |
| PollVerdict.SilenceTakes | rw_poll_module_1/poll.c:45-69 | What must have happened for a false "no data" or "no room": with iw loaded first, everything stored then was read; with ir first, writes went a whole turn round the ring |
| PollVerdict.TornNeedsBoth | rw_poll_module_1/poll.c:45-69 | A test is right of the instant of one of its loads unless both indices were moved in between |
| PollVerdict.TwoSlotsAreNeverSilent | rw_poll_module_1/poll.c:45-69 | For N == 2 a test never says "no data" about data, or "no room" about room, that is there at every instant between its loads |
| PollWitness.SilentPoll | rw_poll_module_1/poll.c:45-69 | For every N >= 3 a reachable device_poll leaves POLLIN, or POLLOUT, out although there is data, or room, at every instant from its first load to its verdict |
| PollVerdict.CallsTestAnInstant | rw_poll_module_1/poll.c:78-89 | While no other call of its kind is in progress, a call returns -EAGAIN or goes on to sleep if and only if its predicate was true at one instant of its test |
| PollPromise.PromisedCallsNeverSleep | rw_poll_module_1/Assignment1:35-36 | The only reader, reading only on an unused POLLIN, never reaches a point from which read sleeps, whatever writers do and however late it reads; likewise a sole writer and POLLOUT |
| PollPromise.PromisedCallsReturn | rw_poll_module_1/Assignment1:35-36 | Such a call never returns -EAGAIN; uninterrupted it returns at least one character, except a write that entered at ir == 0, iw == N-1 |
| PollWitness.FalseRoomIsReached | rw_poll_module_1/poll.c:153-157 | For every N >= 2 a reachable state has a full ring at ir == 0, iw == N-1 with buffer_full() false, and a write of any data from it returns 0 |
| PollWitness.MidWriteIsReached | rw_poll_module_1/poll.c:156-160 | For every N >= 2 a reachable state shows a full ring as ir == 1, iw == N |
| PollWitness.MidReadIsReached | rw_poll_module_1/poll.c:103-109 | For every N >= 2 a reachable state shows an empty ring as ir == N, iw == 0 |
| PollSolo.SoloRead | rw_poll_module_1/poll.c:72-119 | In the transition system a read that runs alone is never stuck before its end, and within 4 * len + 12 steps returns -EAGAIN or sleeps for good (empty ring) or returns after one atomic dequeue, as PollDevice.Device.Read promises |
| PollSolo.SoloWrite | rw_poll_module_1/poll.c:121-171 | The same for a write with buffer_full() and one atomic enqueue, as PollDevice.Device.Write promises |
| PollSolo.SoloPoll | rw_poll_module_1/poll.c:45-69 | A poll alone reports, within 10 steps, exactly the events of the ring as it stands, or sleeps exactly if no asked event is up |
| PollSolo.SoloOpen | rw_poll_module_1/poll.c:173-188 | An open alone returns within 6 steps, counts one file more, and puts the ring back to empty at index 0 exactly if it is the first |
| PollSolo.SoloClose | rw_poll_module_1/poll.c:190-201 | A release alone returns within 3 steps with its file closed and use_count one lower |
| PollSolo.RunsToEnd | rw_poll_module_1/poll.c:45-201 | Every run of a call alone can be continued until the call has returned or sleeps |
| PollSolo.RousedCanGoOn | rw_poll_module_1/poll.c:84-95 | In every reachable state a task in schedule(), or a poller, that is runnable or has a signal pending can go on, whatever the others hold; and a poller can always time out |
| PollSolo.SoloAfterWakeup | rw_poll_module_1/poll.c:84-119 | A reader or writer woken in schedule() without a signal and running on alone tests again: within 4 * len + 11 steps it sleeps again if its predicate blocks, and otherwise returns after one atomic dequeue or enqueue |
| PollSolo.SoloAfterSignal | rw_poll_module_1/poll.c:89-94 | One in schedule() with a signal pending, running on alone, returns -ERESTARTSYS within 4 steps, the ring and its count unchanged |
| PollSolo.SoloAfterPolling | rw_poll_module_1/poll.c:45-69 | A poller that is woken, signalled or timed out, running on alone, returns the events it saw within 2 steps |
| PollSolo.SignalRouses | rw_poll_module_1/poll.c:89-94 | A signal arriving at a sleeper puts it where those two speak of it |
| PollSolo.SignalInterruptsDown | rw_poll_module_1/poll.c:100-101 | A signal ends down_interruptible with -ERESTARTSYS and the ring unchanged, whoever holds the semaphore |
| PollCalls.ReadFromRest | rw_poll_module_1/poll.c:72-119 | read(f, len) with either flag, alone: it ends in -EAGAIN exactly for an empty ring and O_NONBLOCK, asleep exactly for an empty ring without it, and otherwise after one atomic dequeue of up to len characters |
| PollCalls.WriteFromRest | rw_poll_module_1/poll.c:121-171 | write(f, data) with either flag, alone: the same with buffer_full() and one atomic enqueue of as much of the data as fits |
| PollCalls.PollFromRest | rw_poll_module_1/poll.c:45-69 | poll(f) for the events asked, alone: it reports both events of the ring as it stands, or sleeps exactly if none of those asked for is up |
| PollCalls.OpenFromUser | rw_poll_module_1/poll.c:173-188 | open(), alone: one file more is counted and open, and the ring is emptied at index 0 exactly if it is the first |
| PollCalls.CloseFromUser | rw_poll_module_1/poll.c:190-201 | The release of f, alone: f is closed, use_count one lower, the ring left alone |
| PollDevice.Device.constructor | rw_poll_module_1/poll.c:16-27 | The ring starts empty at ir == iw == 0 with no file open |
| PollDevice.Device.Open | rw_poll_module_1/poll.c:173-188 | The first open empties the ring and puts both indices to 0, a later one leaves contents and indices |
| PollDevice.Device.Release | rw_poll_module_1/poll.c:190-201 | Closing only lowers use_count |
| PollDevice.Device.Poll | rw_poll_module_1/poll.c:45-69 | POLLIN exactly when data is stored; POLLOUT exactly when there is room or at ir == 0, iw == N-1 |
| PollDevice.Device.Read | rw_poll_module_1/poll.c:72-119 | One atomic dequeue of up to len characters, or nothing changed and EAGAIN or sleep on an empty ring |
| PollDevice.Device.Write | rw_poll_module_1/poll.c:121-171 | One atomic enqueue of as much as fits, or nothing changed; 0 is returned exactly for empty data or at ir == 0, iw == N-1 |
| PollClient.TestPollRW | rw_poll_module_1/test_pollRW.c:31-79 | For every non-empty message and exclusive use, the loop terminates, never sleeps or times out, and has read exactly the message, once and in order |
| PollProgram.ProgramReadsItsMessage | rw_poll_module_1/test_pollRW.c:31-79 | The same program as one task of the transition system that runs alone: every run of it ends after at most 6 * len + 2 calls, none of which sleeps, times out or fails, having read exactly the message |
| PollProgram.TurnKeeps | rw_poll_module_1/test_pollRW.c:31-79 | Each call of the program keeps: message == read so far + in the device + still to be written; and brings the end nearer |
| PollClient.WriteIntoFalseRoom | rw_poll_module_1/poll.c:36-43 | N-1 characters written to a fresh device leave POLLOUT up, and the next write returns 0 |
| TxRing.ReapTurn | pci-rtl_8139/Phase-II/rtl8139_interrupt:40-96 | The mixed loop condition says exactly that a packet is pending, and a turn lowers the pending count, which is at most 4 |
| TxRing.ChosenSlotIsFree | pci-rtl_8139/Phase-II/rtl8139_start_xmit:11 | On a running queue the slot taken is none of the pending ones |
| TxRing.SlotsAreDisjoint | pci-rtl_8139/Phase-II/rtl8139_open:60-61 | Filling one slot with a packet below TX_BUF_SIZE leaves the bytes of the other slots alone |
| TxRing.XmitEnqueues | pci-rtl_8139/Phase-II/rtl8139_start_xmit:11-47 | start_xmit appends the packet to the queue the ring stands for, and stops the queue exactly when that makes four |
| TxRing.XmitTouchesOneSlot | pci-rtl_8139/Phase-II/rtl8139_start_xmit:11-47 | start_xmit changes only the bytes of the packet in slot cur_tx, gives that slot's register max(len, 60) with no conclusion bit and leaves the others, moves cur_tx on by one, and stops the queue exactly on meeting dirty_tx; a packet of 1536 bytes or more changes nothing |
| TxRing.SlotsFillTheBuffer | pci-rtl_8139/Phase-II/rtl8139.h:3-13 | The four slots of 1536 bytes divide the 6144 bytes of tx_bufs without gap or overlap |
| TxRing.OversizedIsDropped | pci-rtl_8139/Phase-II/rtl8139_start_xmit:21-28 | Submitting a packet of 1536 bytes or more leaves indices, flag, memory, registers and histories as they were |
| TxRing.ReapDequeues | pci-rtl_8139/Phase-II/rtl8139_interrupt:40-96 | A turn of the reaping loop removes the oldest packet, whose slot still carries it |
| TxRing.ReapAllDequeues | pci-rtl_8139/Phase-II/rtl8139_interrupt:40-96 | The loop removes exactly the longest concluded prefix of the queue, and wakes the queue exactly when a stopped ring drains fully |
| TxRing.TransmitRing | pci-rtl_8139/Phase-II/rtl8139_interrupt:40-96 | Over every run of submissions, chip conclusions and interrupts each accepted packet is reaped exactly once, in submission order |
| TxRing.ReapedWereConcluded | pci-rtl_8139/Phase-II/rtl8139_interrupt:53-54 | Over every run, a packet is reaped only after the chip has set a conclusion bit in the slot its submission filled, later than that submission |
| TxRing.InFlightIsIntact | pci-rtl_8139/Phase-II/rtl8139_start_xmit:11-47 | At any moment every pending slot holds the packet submitted to it, equal indices mean 4 pending if stopped and 0 if running, and a stopped queue has a packet pending |
| TxRing.DrainRestarts | pci-rtl_8139/Phase-II/rtl8139_interrupt:88-95 | Once everything pending is concluded, the next interrupt empties the ring and leaves the queue running |
| TxDriver.Rtl8139.Open | pci-rtl_8139/Phase-II/rtl8139_open:53-61 | Open establishes the start state of the runs and four slots TX_BUF_SIZE apart |
| TxDriver.Rtl8139.StartXmit | pci-rtl_8139/Phase-II/rtl8139_start_xmit:11-47 | The in-place code does to the driver state what Xmit does, which XmitEnqueues characterises |
| TxDriver.Rtl8139.ReapTx | pci-rtl_8139/Phase-II/rtl8139_interrupt:34-97 | The in-place loop does what ReapAll does, which ReapAllDequeues characterises |
| RxRing.DriverLooksAtChipOffset | pci-rtl_8139/Phase-II/rtl8139_interrupt:126-127 | After line 126 cur_rx is congruent to the chip's next packet, and equal to it if and only if cur_rx was not exactly RX_BUF_LEN |
| RxRing.CaprDeterminesCur | pci-rtl_8139/Phase-II/rtl8139_interrupt:204 | Adding 16 in 16 bits to CAPR gives cur_rx back, underflow included |
| RxRing.EmptyMeansNothingUnread | pci-rtl_8139/Phase-II/rtl8139_interrupt:118 | RxBufEmpty is set exactly when nothing is unread, and the pointers measure the unread bytes |
| RxRing.TakeDequeues | pci-rtl_8139/Phase-II/rtl8139_interrupt:118-205 | A turn that does not begin with cur_rx at RX_BUF_LEN hands up exactly the oldest unread packet, or drops exactly it when allocation fails, reads only inside the buffer, and leaves the rest |
| RxRing.TurnIsRightExactly | pci-rtl_8139/Phase-II/rtl8139_interrupt:126-204 | Any turn does so if and only if it does not begin with cur_rx at RX_BUF_LEN, or the pad there holds the size and bytes of the record at offset 0 (when allocation fails: a size that leads to the same offset) |
| RxRing.ProduceEnqueues | pci-rtl_8139/Phase-II/rtl8139.h:15-20 | Any record the chip writes, running into the pad if need be or ending at its start, leaves every unread record intact and comes after them |
| RxRing.ReceiveRing | pci-rtl_8139/Phase-II/rtl8139_interrupt:118-205 | Over every run in which no turn begins with cur_rx at RX_BUF_LEN (every run, with the corrected wrap), whatever the chip delivers, the packets handed up are the chip's in order, minus failed allocations |
| RxRing.ReceiveRingExactly | pci-rtl_8139/Phase-II/rtl8139_interrupt:118-205 | Over any run of the code as written they are so throughout if and only if every turn that began there found in the pad a copy of what lies at offset 0 |
| RxRing.HeadsAreCongruent | pci-rtl_8139/Phase-II/rtl8139_interrupt:126-127 | In every run without exception cur_rx is 4-aligned and congruent to the chip's read pointer at each loop head, and the driver looks exactly there if and only if cur_rx is not RX_BUF_LEN as written |
| RxRing.TurnsAreSafe | pci-rtl_8139/Phase-II/rtl8139_interrupt:126-142 | If no turn so far began at RX_BUF_LEN, CAPR gives cur_rx back, and the next turn leaves the buffer if and only if it begins there and copies a packet by a size in the pad that leads past the end |
| RxRing.FramesFit | pci-rtl_8139/Phase-II/rtl8139.h:3-20 | The buffer sizes; a frame of 60 to 1536 bytes fits a record that ends inside the memory wherever in the ring it starts |
| RxRing.EdgeIsReachedExactly | pci-rtl_8139/Phase-II/rtl8139_interrupt:201 | cur_rx becomes RX_BUF_LEN exactly when the record just taken ends there |
| RxRing.EdgeBreaksTheCode | pci-rtl_8139/Phase-II/rtl8139_interrupt:126-142 | Thirty-two frames of 1016 bytes, whose records take 1024, bring cur_rx to RX_BUF_LEN; with a zeroed buffer the turn for the next frame of 60 to 1536 bytes then reads length 0 in the pad and a packet past the buffer, where the corrected wrap hands the frame up |
| RxDriver.Rtl8139.Open | pci-rtl_8139/Phase-II/rtl8139_open:53 | cur_rx 0 against a reset chip: nothing unread |
| RxDriver.Rtl8139.Turn | pci-rtl_8139/Phase-II/rtl8139_interrupt:126-204 | One in-place turn that does not begin with cur_rx at RX_BUF_LEN removes the oldest unread packet and hands it up if its allocation succeeds |
| RxDriver.Rtl8139.ReceiveLoop | pci-rtl_8139/Phase-II/rtl8139_interrupt:113-206 | If no turn over the unread packets begins there, the in-place loop empties the ring and hands up exactly the unread packets whose allocation succeeds, in order, and leaves cur_rx behind the last record, counted from its start in the ring, and CAPR 16 below; with nothing to do it moves neither |
| RxDriver.CorrectedPasses | pci-rtl_8139/Phase-II/rtl8139_interrupt:126-127 | With the corrected wrap that condition holds of every queue |
| MmapPages.AlignUpIsLeast | mmap_module_3/mmap_kmalloc.c:293 | The mask gives the least page boundary at or above the address, exactly for the addresses whose 64-bit rounding does not wrap |
| MmapPages.AlignedAreaFits | mmap_module_3/mmap_kmalloc.c:277-293 | From the boundary on, LEN plus at least one page lie inside the allocation |
| MmapPages.MappedAt | mmap_module_3/mmap_kmalloc.c:96-105 | After k steps of the page loop exactly the first k user pages lead to the area's frames |
| MmapPages.OneCallEqualsPageLoop | mmap_module_3/mmap_kmalloc.c:60-105 | One contiguous call and the page loop give the same table if and only if the frames are consecutive |
| MmapPages.SameCell | mmap_module_3/mmap_kmalloc.c:95-107 | After the page loop user byte vm_start+i and kernel byte i are the same memory cell |
| MmapPages.StoresReachTheArea | mmap_module_3/mmap_kmalloc.c:60-128 | Any sequence of user stores through the mapping is what the kernel reads from the area, and nothing else of it changes |
| MmapPages.StoresStayInTheArea | mmap_module_3/mmap_kmalloc.c:60-107 | Stores through the mapping change no byte outside the area's frames |
| MmapPages.LastStoreWins | mmap_module_3/mmap_kmalloc.c:60-128 | After any stores a byte holds the last one made at its offset, or what it held before if there was none |
| MmapPages.VmallocCoversExactly | mmap_module_3/mmap_kmalloc.c:80-85 | With its 32-bit length, mmap_vmalloc accepts and covers a whole vma if and only if it is at most two pages |
| MmapPages.KmallocGuardIsWide | mmap_module_3/mmap_kmalloc.c:42-48 | A mapping the LEN*PAGE_SIZE guard accepts stays inside the allocation if and only if it has at most 5 pages, or 6 when the block was already aligned |
| MmapDriver.Device.constructor | mmap_module_3/mmap_kmalloc.c:262-304 | Module load gives two separate areas of two pages, nothing reserved or mapped, and read_flag set |
| MmapDriver.Device.Fill | mmap_module_3/mmap_kmalloc.c:175-182 | The nested loops leave '0' + i % 10 at every byte i of the two pages and do not touch the other area |
| MmapDriver.Device.Open | mmap_module_3/mmap_kmalloc.c:130-185 | Opening minor 0 or 1 reserves exactly its two pages and fills its area; any other minor fails and changes nothing |
| MmapDriver.Device.Release | mmap_module_3/mmap_kmalloc.c:187-216 | Release takes back exactly the reservations of the minor |
| MmapDriver.Device.MmapVmalloc | mmap_module_3/mmap_kmalloc.c:74-108 | Too long a 32-bit length is refused; otherwise the table maps all pages, or exactly the pages before the first failing step, whose error is returned |
| MmapDriver.Device.MmapKmalloc | mmap_module_3/mmap_kmalloc.c:38-72 | The contiguous mapping, its refusal, the pages left mapped when it fails on the way, and its agreement with the page loop for up to two pages |
| MmapDriver.Device.ProcRead | mmap_module_3/mmap_kmalloc.c:110-128 | Calls alternate between the whole kmalloc area and end of file |
| MmapDriver.MapWriteRead | mmap_module_3/mmap_kmalloc.c:38-185 | Open, map, store anything, read /proc: every byte read is the last one stored at its offset, or the digit of the pattern if none was |

## Left out

- Module init and exit, device registration, kprobes and printk: kernel plumbing with no state worth modelling.
- Weak memory ordering, scheduler fairness, user-memory faults: environment assumptions above.
- Progress of overlapping calls of one kind: the sources say the driver is not ready for them; safety, wake-ups and the verdict of every test are proved for any number.
- PollPromise.PromisedCallsNeverSleep: speaks of a sole user of its side with the device kept open; another reader may take the reported data first.
- The empty message in test_pollRW.c: the program then writes 0 bytes forever.
- The client buffer of 40 bytes in test_pollRW.c: reads return at most N-1 characters, so it suffices for N up to 41.
- RTL8139 statistics, error details, probe, hardware start and stop: registers and counters that decide no protocol.
- Bytes of a transmit frame between the packet's end and ETH_MIN_LEN: whatever the slot held before; frames are compared on the packet's own bytes.
- RxDriver.Rtl8139.ReceiveLoop: the chip is quiet while this loop runs; RxRing.ReceiveRing lets it deliver between any two turns.
- RxDriver.Rtl8139.Turn: not the in-place form of a turn that begins at RX_BUF_LEN; RxRing.TurnIsRightExactly covers it on values.
- PollProgram.ProgramReadsItsMessage: one file stands for both descriptors, and one poll for the two device_poll calls of a poll(2); opening and closing are PollSolo.SoloOpen and SoloClose.
- The mmap operation pointer switched by every open: one minor at a time.
- simple_driver_module_0, timer_wq_ioctl_module_2, the USB drivers and mmap_vmalloc.c: copies of the same code, a mode toggle, unfinished templates and a duplicate.
