# Conveyor line and bounded FIFO channel — a Dafny model

This project models the sequential core of a SystemC model of a baggage
conveyor line, together with the hand-written FIFO channel of the FIFO
example from the same repository.

- **Bounded FIFO channel** (`fifo.dfy`, module `FifoExample`). A class over
  a ten-slot `array<char>` with `head` and `elementsNum` fields. `Write`
  stores into the array and updates the count in place; `Read` and `Reset`
  update the fields only, and `Size` changes nothing. Each is
  proved against `Contents()`, the queued characters oldest first, which is
  computed by the ring-window function `Window`. Writes append at the tail.
  Reads remove the head. So the n-th read returns the n-th write. The
  producer thread is modelled as a `while` loop that advances over a
  NUL-terminated string.
- **Packets and constants** (`packets.dfy`, module `Packets`). These are the
  scanner status packet, the conveyor status packet and the control packet,
  written as datatypes with record-update setters. They use C `int` and
  `unsigned int` as the newtypes `int32` and `uint32`. The module also holds
  the tuning constants: at most 16 bags in the system, a hysteresis of 4,
  one segment, TURN_OFF = 0 and TURN_ON = 1.
- **Bag tracker** (`bag_tracker.dfy`, module `BagTracking`). This is the
  control system's `bag_hash`. It is modelled as a table that remembers the
  order in which keys were first inserted. `GetFirstKey` returns -1 when the
  table is empty.
- **Scanner** (`scanner.dfy`, module `Scanning`). An on/off switch and a
  bag-id counter. `ScannerStep` is one pass of the thread, as a pure
  function. The class `Scanner` has one method per pass and a driver method
  over a finite sequence of passes. Both methods are proved equal to the
  pure step and run functions.
- **Control system** (`control.dfy`, module `Control`). It sends the
  start-up commands, then runs the per-tick admission control with
  hysteresis and counts down the loop budget. The pure functions are
  `ControlStartup`, `ControlStep`, `ControlRun` and `ControlThread`. The
  class `ControlSystem` holds the source's fields, and its methods are
  proved equal to those functions.

Blocking is handled as follows. A SystemC wait on a full or empty FIFO is
modelled as a precondition of the step that finally runs. A non-blocking
`num_available()` poll followed by a `read` is modelled as an input of
type `Option`: `Some(packet)` when a packet was available. Timestamps
(`sc_time_stamp()`) are opaque `Time` values passed in with each tick.

C++ signed overflow is undefined behaviour. The model reads `++` and `--`
on an `int` as two's-complement wrap-around (`Inc32`, `Dec32`). The
scanner's `0 > bag_id` guard exists only because of that wrap.

The model follows the code as written:
- the control system never decrements `bag_count` and never removes a
  bag from `bag_hash`, so after TURN_OFF the scanner is never restarted;
- the main loop polls only segment 0 (`seg0_in`), even though the arrays
  are sized for `NUM_CONVEYOR_SEGMENTS`;
- the scanner accepts any message value, and a value other than 0 or 1
  leaves its switch unchanged;
- on a counter overflow the scanner's packet carries the wrapped negative
  id, and only the counter is reset to 0.

## Model

| member | source | states |
|---|---|---|
| `Packets.Inc32` | src/sysc/conveyor/conveyor.cpp:103 | `++` on an `int` adds one below INT32_MAX and wraps to INT32_MIN at INT32_MAX |
| `Packets.Dec32` | src/sysc/conveyor/conveyor.cpp:251 | `--` on an `int` subtracts one above INT32_MIN and wraps to INT32_MAX at INT32_MIN |
| `Packets.HysteresisBand` | src/sysc/conveyor/conveyor.hpp:46-74 | TURN_OFF and TURN_ON differ, and the resume threshold 16 - 4 = 12 is positive and strictly below the stop threshold 16 |
| `Packets.ScannerStsPacket.SetTimestamp` | src/sysc/conveyor/conveyor.hpp:94-100 | `set_timestamp` then `get_timestamp` returns the value set; bag id and `pox_bag` unchanged |
| `Packets.ScannerStsPacket.SetBagId` | src/sysc/conveyor/conveyor.hpp:102-108 | `set_bag_id` then `get_bag_id` returns the value set; timestamp and `pox_bag` unchanged |
| `Packets.NewScannerStsPacket` | src/sysc/conveyor/conveyor.hpp:87-92 | the constructor sets `pox_bag` to 0; the uninitialised `bag_id` is an arbitrary parameter |
| `Packets.PoxBagStaysZero` | src/sysc/conveyor/conveyor.hpp:84-112 | after construction and any sequence of setter calls, `get_pox_bag()` is 0 |
| `Packets.PoxBagUnchanged` | src/sysc/conveyor/conveyor.hpp:94-112 | no sequence of setter calls changes `pox_bag` |
| `Packets.LastBagIdWins` | src/sysc/conveyor/conveyor.hpp:94-108 | after `set_bag_id(id)`, later timestamp updates leave `get_bag_id() == id` |
| `Packets.TimestampsKeepBagId` | src/sysc/conveyor/conveyor.hpp:94-100 | a sequence of `set_timestamp` calls leaves the bag id as it was |
| `Packets.ConveyorStsPacket.SetTimestamp` | src/sysc/conveyor/conveyor.hpp:144-150 | round trip on the timestamp; the four other fields unchanged |
| `Packets.ConveyorStsPacket.SetId` | src/sysc/conveyor/conveyor.hpp:152-158 | round trip on the segment id; the four other fields unchanged |
| `Packets.ConveyorStsPacket.SetCurrentCnt` | src/sysc/conveyor/conveyor.hpp:160-166 | round trip on the unsigned encoder count; the four other fields unchanged |
| `Packets.ConveyorStsPacket.SetTemperature` | src/sysc/conveyor/conveyor.hpp:168-174 | round trip on the temperature; the four other fields unchanged |
| `Packets.ConveyorStsPacket.SetVibration` | src/sysc/conveyor/conveyor.hpp:176-182 | round trip on the vibration; the four other fields unchanged |
| `Packets.NewConveyorStsPacket` | src/sysc/conveyor/conveyor.hpp:134-142 | a default segment packet has id, count, temperature and vibration all 0 |
| `Packets.ControlPacket.SetTimestamp` | src/sysc/conveyor/conveyor.hpp:214-220 | round trip on the timestamp; message and data unchanged |
| `Packets.ControlPacket.SetMsg` | src/sysc/conveyor/conveyor.hpp:222-228 | round trip on the message; timestamp and data unchanged |
| `Packets.ControlPacket.SetData` | src/sysc/conveyor/conveyor.hpp:230-236 | round trip on the data; timestamp and message unchanged |
| `Packets.NewControlPacket` | src/sysc/conveyor/conveyor.hpp:206-212 | a default control packet has message 0 and data 0, so it reads as TURN_OFF and not TURN_ON |
| `Packets.Command` | src/sysc/conveyor/conveyor.cpp:172-176 | the packet built before each command write carries the current time, the given message and data 0 |
| `FifoExample.Window` | src/sysc/fifo_example/fifo_example.cpp:49-51 | the ring window starting at `head` holds exactly `elements_num` characters |
| `FifoExample.WindowAt` | src/sysc/fifo_example/fifo_example.cpp:61-72 | the i-th queued character is in slot `(head + i) % max` |
| `FifoExample.SlotsDistinct` | src/sysc/fifo_example/fifo_example.cpp:61 | fewer than `max` steps round the ring from `head` never reach the same slot twice, so the tail slot is outside the queued window |
| `FifoExample.WindowAdvance` | src/sysc/fifo_example/fifo_example.cpp:70-72 | advancing `head` by one slot modulo `max` and uncounting one element drops exactly the oldest queued character |
| `FifoExample.WindowFrame` | src/sysc/fifo_example/fifo_example.cpp:61 | storing into the slot just past the window does not change the window |
| `FifoExample.WindowWrite` | src/sysc/fifo_example/fifo_example.cpp:61-62 | storing `c` at `(head + n) % max` and counting it appends `c` to the queued sequence |
| `FifoExample.Fifo.constructor` | src/sysc/fifo_example/fifo_example.cpp:55 | a new FIFO is valid and empty, with `head == 0` |
| `FifoExample.Fifo.Write` | src/sysc/fifo_example/fifo_example.cpp:57-64 | on a non-full buffer: stores `c` in slot `(head + elements_num) % max` only, counts it, keeps `head`, keeps the invariant, and appends `c` to the contents |
| `FifoExample.Fifo.Read` | src/sysc/fifo_example/fifo_example.cpp:66-74 | on a non-empty buffer: returns `data[head]`, the oldest character; uncounts it; advances `head` modulo `max`; leaves every slot unchanged; and removes the front of the contents |
| `FifoExample.Fifo.Reset` | src/sysc/fifo_example/fifo_example.cpp:76-78 | whatever the prior contents, the FIFO is empty with `head == 0`, and the slots are untouched |
| `FifoExample.Fifo.Size` | src/sysc/fifo_example/fifo_example.cpp:80-82 | returns the number of queued characters, between 0 and `max` |
| `FifoExample.WriteThenRead` | src/sysc/fifo_example/fifo_example.cpp:57-74 | a write followed by a read leaves the size unchanged and returns the oldest character |
| `FifoExample.CString` | src/sysc/fifo_example/fifo_example.cpp:97-100 | the characters of a C string are the prefix before its first NUL, and contain no NUL |
| `FifoExample.CStringEnd` | src/sysc/fifo_example/fifo_example.cpp:100 | a scan stops exactly at the terminating NUL |
| `FifoExample.WriteWaiting` | src/sysc/fifo_example/fifo_example.cpp:57-63 | a write that waits on a full buffer for one consumer read: what the consumer took plus the new contents is the old contents plus `c` |
| `FifoExample.ProducerMain` | src/sysc/fifo_example/fifo_example.cpp:95-102 | after a reset, the producer writes each character of the string once, in order, stopping before the NUL; what the consumer took plus what is still queued is exactly that string |
| `BagTracking.BagTracker.Insert` | src/sysc/conveyor/conveyor.cpp:201 | the bag id maps to its packet; other entries unchanged; a new id goes after all older ids; an existing id keeps its place |
| `BagTracking.BagTracker.GetFirstKey` | src/sysc/conveyor/conveyor.cpp:229-230 | returns -1 on an empty table, else the earliest-inserted key, which has a value |
| `BagTracking.BagTracker.GetValue` | src/sysc/conveyor/conveyor.cpp:231 | returns the packet stored under a present key |
| `BagTracking.InsertAll` | src/sysc/conveyor/conveyor.cpp:201 | repeated insertion keeps the table well-formed |
| `BagTracking.OldestKeyIsFirstInserted` | src/sysc/conveyor/conveyor.cpp:201-231 | insertions never change the oldest key, except on an empty table, where the first key inserted becomes the oldest |
| `BagTracking.OldestKeyExample` | src/sysc/conveyor/conveyor.cpp:229-230 | inserting 3, 1, 2 makes 3 the oldest key; an empty table answers -1 |
| `Scanning.ScannerStep` | src/sysc/conveyor/conveyor.cpp:77-108 | TURN_ON switches on, TURN_OFF switches off, other messages or none leave the switch. Exactly one packet is sent while on and none while off. The packet carries the time, `pox_bag` 0 and the previous counter + 1. The guard keeps the counter non-negative |
| `Scanning.ScannerOverflow` | src/sysc/conveyor/conveyor.cpp:103-106 | at INT32_MAX the packet carries the wrapped INT32_MIN, the counter is reset to 0, and the next id is 1 |
| `Scanning.ScannerRun` | src/sysc/conveyor/conveyor.cpp:67-109 | a sequence of passes sends at most one packet per pass |
| `Scanning.ScannerIdsConsecutive` | src/sysc/conveyor/conveyor.cpp:98-108 | until the counter wraps, the j-th packet carries the starting counter + j + 1, and the counter ends at start + packets sent |
| `Scanning.ScannerIdsFromOne` | src/sysc/conveyor/conveyor.cpp:56-108 | from power-on (off, counter 0), the ids sent are 1, 2, 3, ..., for up to INT32_MAX packets, that is while the id counter does not overflow; beyond that C++ is undefined |
| `Scanning.ScannerIdsNeverEmptyKey` | src/sysc/conveyor/conveyor.cpp:98-108 | every id sent is positive or the wrapped INT32_MIN, so it is never the tracker's -1 sentinel |
| `Scanning.Scanner.constructor` | src/sysc/conveyor/conveyor.cpp:52-58 | a new scanner is off with counter 0 |
| `Scanning.Scanner.ScannerIteration` | src/sysc/conveyor/conveyor.cpp:67-109 | one pass of the thread updates the fields and sends what `ScannerStep` says |
| `Scanning.Scanner.ScannerThread` | src/sysc/conveyor/conveyor.cpp:65-110 | the thread loop over a finite sequence of passes ends in the state `ScannerRun` gives, having sent its packets |
| `Control.ControlStartup` | src/sysc/conveyor/conveyor.cpp:172-190 | start-up sends one TURN_ON with data 0 to the scanner and one to each of the `NUM_CONVEYOR_SEGMENTS` segments, records the scanner as on, and changes nothing else |
| `Control.ScannerStatusPhase` | src/sysc/conveyor/conveyor.cpp:196-217 | a scanner status is inserted into `bag_hash` and counted. TURN_OFF is sent, exactly once, iff the scanner is on and the count reaches 16, and the switch becomes off |
| `Control.SegmentStatusPhase` | src/sysc/conveyor/conveyor.cpp:220-249 | a segment status queries the oldest key. The value is looked up only when that key is not -1; when it is -1 (an empty table, or a table whose oldest key is -1) the last packet is kept. TURN_ON is sent iff the switch is off and the count is below 12, and the switch becomes on |
| `Control.ControlStep` | src/sysc/conveyor/conveyor.cpp:192-255 | per tick, `bag_count` grows by one per scanner status while it is below INT32_MAX, and is unchanged without one; at INT32_MAX a scanner status wraps it to INT32_MIN (C++ leaves that overflow undefined). At most one command is sent, and it flips the switch to itself. TURN_OFF only at a count of 16 or more, TURN_ON only below 12, each sent whenever its condition holds. The budget is decremented, and the loop breaks at 0 |
| `Control.ControlStepBagCountWraps` | src/sysc/conveyor/conveyor.cpp:203 | a scanner status at `bag_count == INT32_MAX` wraps the count to INT32_MIN (C++ leaves this overflow undefined) |
| `Control.HysteresisBoundary` | src/sysc/conveyor/conveyor.cpp:234-235 | a stopped scanner is restarted at a count of 11 but not at 12 or above |
| `Control.ControlRunStep` | src/sysc/conveyor/conveyor.cpp:192-255 | once the loop has broken out a further tick changes nothing; otherwise it counts one more pass |
| `Control.ControlRun` | src/sysc/conveyor/conveyor.cpp:192-255 | the main loop runs one pass per tick until it breaks, then consumes no more ticks |
| `Control.ControlLoopBudget` | src/sysc/conveyor/conveyor.cpp:251-254 | a positive budget runs exactly that many passes, then breaks with the counter at 0. A budget of zero or less never fires the `== 0` test before the counter would pass INT32_MIN |
| `Control.ControlRunStopped` | src/sysc/conveyor/conveyor.cpp:251-254 | once the loop has broken out, further ticks change nothing |
| `Control.AdmittedStep` | src/sysc/conveyor/conveyor.cpp:203-247 | while `bag_count` is below INT32_MAX (beyond that C++ is undefined), one tick keeps the invariant: the switch is on below 16 and off from 16, and the commands sent are [TURN_ON] or [TURN_ON, TURN_OFF] accordingly |
| `Control.AdmittedRunStep` | src/sysc/conveyor/conveyor.cpp:192-255 | while `bag_count` is below INT32_MAX, one more tick of the loop, whether or not it has broken out, keeps the trace admitted |
| `Control.ControlRunBagCount` | src/sysc/conveyor/conveyor.cpp:203 | when the start value is non-negative and the start value plus the number of ticks is at most INT32_MAX, so that `bag_count` does not overflow (beyond that C++ is undefined), after a run `bag_count` is its start value plus the number of scanner statuses received |
| `Control.AdmittedRun` | src/sysc/conveyor/conveyor.cpp:192-255 | when the start value of `bag_count` plus the number of ticks is at most INT32_MAX (no overflow; beyond that C++ is undefined), a run of ticks keeps that invariant |
| `Control.ScannerCommandsOnThenOff` | src/sysc/conveyor/conveyor.cpp:178-247 | from construction, the scanner receives TURN_ON and then, once 16 bags have been received, exactly one TURN_OFF. Commands alternate, and no TURN_ON ever follows a TURN_OFF |
| `Control.ControlSystem.constructor` | src/sysc/conveyor/conveyor.cpp:153-168 | a new control system holds the budget, an empty table, zero counts, and the scanner recorded as off |
| `Control.ControlSystem.Startup` | src/sysc/conveyor/conveyor.cpp:170-190 | the start-up code, with its loop over the segments, sends and updates what `ControlStartup` says and leaves `index` at `NUM_CONVEYOR_SEGMENTS` |
| `Control.ControlSystem.ScannerStatusBlock` | src/sysc/conveyor/conveyor.cpp:195-216 | the scanner-status block of the loop body updates the fields and sends what `ScannerStatusPhase` says, leaving `index` as it was |
| `Control.ControlSystem.SegmentStatusBlock` | src/sysc/conveyor/conveyor.cpp:218-248 | the segment-status block of the loop body updates the fields and sends what `SegmentStatusPhase` says, leaving `index` as it was |
| `Control.ControlSystem.Iteration` | src/sysc/conveyor/conveyor.cpp:193-254 | one pass of the main loop updates the fields and sends what `ControlStep` says, and leaves `index` as it was |
| `Control.ControlSystem.MainLoop` | src/sysc/conveyor/conveyor.cpp:192-255 | the `while` loop over a finite sequence of ticks ends in the state `ControlRun` gives, having sent its commands and counted its passes, and leaves `index` as it was |
| `Control.ControlSystem.ControlSystemThread` | src/sysc/conveyor/conveyor.cpp:170-259 | the whole thread from construction sends, updates and counts passes as `ControlThread` says, and ends with `index` at `NUM_CONVEYOR_SEGMENTS`, where the start-up loop left it |

## Left out

- The SystemC kernel is not modelled: the scheduler, delta cycles, `sc_event` notification, `sc_fifo` ports, `sc_start` and `sc_stop`. Each thread is one sequential process, and its channel inputs and outputs are parameters and results.
- `fifo::write` and `fifo::read` wake from `wait` with `if`, not `while`, so they do not recheck the condition. That matters only when several processes interleave. The model instead requires a non-full buffer for `Write` and a non-empty one for `Read`.
- FifoExample.WriteWaiting: the wait on a full buffer is modelled as exactly one read by the consumer. That is one chosen schedule, not SystemC's: with an immediate `rd_event.notify()` the woken consumer may drain more of the buffer before the producer resumes. `FifoExample.ProducerMain`'s property (consumed plus queued equals written) holds whatever the consumer took.
- FifoExample.Fifo.Write: waiting on a full buffer is modelled as the precondition `elementsNum < Max`, not as a suspension. `FifoExample.WriteWaiting` and `ProducerMain` model the wait as one read by the consumer.
- FifoExample.Fifo.Read: waiting on an empty buffer is modelled as the precondition `elementsNum > 0`.
- The consumer thread, its printing and the `top` wiring of the FIFO example are left out. The producer's string literal is a parameter, because its non-ASCII characters are bytes of an encoding that the model does not fix.
- Random delays and virtual time are left out: the scanner's `rand()` delay, the control tick `wait`, and the constants `BARCODE_SCANNER_REPORT_RATE_VARIANCE_SECS` and `CONTROL_SYSTEM_RATE_US`. Time enters only as an opaque timestamp.
- The `samples_available` fields are replaced by the `Option` inputs that they decide.
- `ds::HashMap` is not part of this model. Its hashing, its capacity (`bag_hash(true, 128)`) and what its `Insert` does with an id that is already present are unknown. The model keeps the entry's position and replaces its value.
- `print()`, `printf` and `cout` logging, `new`/`delete` of packet pointers, and `cout.flush()` are left out.
- `sc_main` in the conveyor file is left out: it instantiates nothing.
- The conveyor-segment constants (report rate, speed, encoder distance and increment, temperature and vibration) are left out; the speed, distance and increment are floating-point. Nothing in conveyor.cpp uses them.
- The conveyor segment process and the pipe example are not part of this model.
- Control.ScannerCommandsOnThenOff: stated for at most INT32_MAX ticks. A positive budget never runs more passes than that, so the lemma covers every run with a positive budget. Beyond that bound a non-positive budget would overflow `bag_count`, which is undefined behaviour in C++.
- Scanning.ScannerIdsConsecutive: stated only until the counter wraps. `Scanning.ScannerOverflow` states what happens at the wrap.
