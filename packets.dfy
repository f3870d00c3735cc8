/**
 * Packets and tuning constants exchanged by the conveyor processes:
 * the scanner status packet, the conveyor segment status packet and the
 * control packet, together with the fixed-width integers they carry.
 */
module Packets {

  /** A C `int`: 32-bit two's complement. */
  newtype int32 = x: int | -0x8000_0000 <= x < 0x8000_0000

  /** A C `unsigned int`. */
  newtype uint32 = x: int | 0 <= x < 0x1_0000_0000

  const INT32_MIN: int32 := -0x8000_0000
  const INT32_MAX: int32 := 0x7FFF_FFFF

  /** `++x` on an `int`. Signed overflow is undefined in C++; the model takes
      the two's-complement wrap that the scanner's `0 > bag_id` guard expects. */
  function Inc32(x: int32): (r: int32)
    ensures x < INT32_MAX ==> r as int == x as int + 1
    ensures x == INT32_MAX ==> r == INT32_MIN
  {
    if x == INT32_MAX then INT32_MIN else x + 1
  }

  /** `--x` on an `int`, with the same two's-complement reading. */
  function Dec32(x: int32): (r: int32)
    ensures x > INT32_MIN ==> r as int == x as int - 1
    ensures x == INT32_MIN ==> r == INT32_MAX
  {
    if x == INT32_MIN then INT32_MAX else x - 1
  }

  /** Simulation time (`sc_time`), an opaque count of base time units;
      a default-constructed `sc_time` is zero. */
  type Time = nat

  datatype Option<T> = None | Some(value: T)

  // -----------------------------
  // tuning constants
  // -----------------------------
  const MAX_NUMBER_BAGS_IN_SYSTEM: int32 := 16
  const BAG_COUNT_HYSTERESIS: int32 := 4
  const NUM_CONVEYOR_SEGMENTS: int32 := 1

  const CONTROL_PKT_MSG_TURN_OFF: int32 := 0
  const CONTROL_PKT_MSG_TURN_ON: int32 := 1

  /** The bag count below which a stopped scanner is restarted. */
  const RESUME_THRESHOLD: int32 := MAX_NUMBER_BAGS_IN_SYSTEM - BAG_COUNT_HYSTERESIS

  /** The two commands differ, and the hysteresis band [12, 16) is non-empty:
      a count that stops the scanner can never also restart it. */
  lemma HysteresisBand()
    ensures CONTROL_PKT_MSG_TURN_OFF != CONTROL_PKT_MSG_TURN_ON
    ensures 0 < RESUME_THRESHOLD < MAX_NUMBER_BAGS_IN_SYSTEM
  {
  }

  // -----------------------------
  // scanner_sts_packet
  // -----------------------------

  /** Status sent by the scanner for each bag it places on the belt. */
  datatype ScannerStsPacket = ScannerStsPacket(timestamp: Time, bagId: int32, poxBag: int32)
  {
    function SetTimestamp(ts: Time): (r: ScannerStsPacket)
      ensures r.timestamp == ts
      ensures r.bagId == bagId && r.poxBag == poxBag
    {
      this.(timestamp := ts)
    }

    function SetBagId(id: int32): (r: ScannerStsPacket)
      ensures r.bagId == id
      ensures r.timestamp == timestamp && r.poxBag == poxBag
    {
      this.(bagId := id)
    }
  }

  /** The default constructor sets only `pox_bag`; `bag_id` is left
      uninitialised in the source, so whatever it holds is a parameter here. */
  function NewScannerStsPacket(indeterminate: int32): (p: ScannerStsPacket)
    ensures p.poxBag == 0 && p.timestamp == 0
  {
    ScannerStsPacket(0, indeterminate, 0)
  }

  /** The setter calls a scanner packet can receive. */
  datatype ScannerSetter = SetTs(ts: Time) | SetId(id: int32)

  function ApplyScannerSetters(p: ScannerStsPacket, calls: seq<ScannerSetter>): ScannerStsPacket
    decreases |calls|
  {
    if calls == [] then p
    else
      var q := match calls[0]
        case SetTs(ts) => p.SetTimestamp(ts)
        case SetId(id) => p.SetBagId(id);
      ApplyScannerSetters(q, calls[1..])
  }

  /** No setter touches `pox_bag`, so every packet built by the constructor
      and any sequence of setter calls reports `get_pox_bag() == 0`. */
  lemma {:induction false} PoxBagStaysZero(indeterminate: int32, calls: seq<ScannerSetter>)
    ensures ApplyScannerSetters(NewScannerStsPacket(indeterminate), calls).poxBag == 0
  {
    PoxBagUnchanged(NewScannerStsPacket(indeterminate), calls);
  }

  lemma {:induction false} PoxBagUnchanged(p: ScannerStsPacket, calls: seq<ScannerSetter>)
    ensures ApplyScannerSetters(p, calls).poxBag == p.poxBag
    decreases |calls|
  {
    if calls != [] {
      var q := match calls[0]
        case SetTs(ts) => p.SetTimestamp(ts)
        case SetId(id) => p.SetBagId(id);
      PoxBagUnchanged(q, calls[1..]);
    }
  }

  /** After `set_bag_id(id)`, `get_bag_id()` returns `id` whatever timestamp
      updates follow it. */
  lemma {:induction false} LastBagIdWins(p: ScannerStsPacket, id: int32, later: seq<Time>)
    ensures ApplyScannerSetters(p, [SetId(id)] + seq(|later|, i requires 0 <= i < |later| => SetTs(later[i]))).bagId == id
    decreases |later|
  {
    var calls := [SetId(id)] + seq(|later|, i requires 0 <= i < |later| => SetTs(later[i]));
    assert calls[1..] == seq(|later|, i requires 0 <= i < |later| => SetTs(later[i]));
    TimestampsKeepBagId(p.SetBagId(id), later);
  }

  lemma {:induction false} TimestampsKeepBagId(p: ScannerStsPacket, later: seq<Time>)
    ensures ApplyScannerSetters(p, seq(|later|, i requires 0 <= i < |later| => SetTs(later[i]))).bagId == p.bagId
    decreases |later|
  {
    var calls := seq(|later|, i requires 0 <= i < |later| => SetTs(later[i]));
    if later != [] {
      assert calls[0] == SetTs(later[0]);
      assert calls[1..] == seq(|later[1..]|, i requires 0 <= i < |later[1..]| => SetTs(later[1..][i]));
      TimestampsKeepBagId(p.SetTimestamp(later[0]), later[1..]);
    }
  }

  // -----------------------------
  // conveyor_sts_packet
  // -----------------------------

  /** Status reported by a conveyor segment. */
  datatype ConveyorStsPacket = ConveyorStsPacket(
    timestamp: Time,
    myId: int32,         // segment ID
    currentCnt: uint32,  // current encoder count
    temperature: int32,  // degrees C
    vibration: int32)    // in mils
  {
    function SetTimestamp(ts: Time): (r: ConveyorStsPacket)
      ensures r.timestamp == ts
      ensures r.myId == myId && r.currentCnt == currentCnt
      ensures r.temperature == temperature && r.vibration == vibration
    {
      this.(timestamp := ts)
    }

    function SetId(id: int32): (r: ConveyorStsPacket)
      ensures r.myId == id
      ensures r.timestamp == timestamp && r.currentCnt == currentCnt
      ensures r.temperature == temperature && r.vibration == vibration
    {
      this.(myId := id)
    }

    function SetCurrentCnt(cnt: uint32): (r: ConveyorStsPacket)
      ensures r.currentCnt == cnt
      ensures r.timestamp == timestamp && r.myId == myId
      ensures r.temperature == temperature && r.vibration == vibration
    {
      this.(currentCnt := cnt)
    }

    function SetTemperature(temp: int32): (r: ConveyorStsPacket)
      ensures r.temperature == temp
      ensures r.timestamp == timestamp && r.myId == myId
      ensures r.currentCnt == currentCnt && r.vibration == vibration
    {
      this.(temperature := temp)
    }

    function SetVibration(vib: int32): (r: ConveyorStsPacket)
      ensures r.vibration == vib
      ensures r.timestamp == timestamp && r.myId == myId
      ensures r.currentCnt == currentCnt && r.temperature == temperature
    {
      this.(vibration := vib)
    }
  }

  function NewConveyorStsPacket(): (p: ConveyorStsPacket)
    ensures p.myId == 0 && p.currentCnt == 0 && p.temperature == 0 && p.vibration == 0
    ensures p.timestamp == 0
  {
    ConveyorStsPacket(0, 0, 0, 0, 0)
  }

  // -----------------------------
  // control_packet
  // -----------------------------

  /** A command from the control system to the scanner or a segment. */
  datatype ControlPacket = ControlPacket(timestamp: Time, msg: int32, data: int32)
  {
    function SetTimestamp(ts: Time): (r: ControlPacket)
      ensures r.timestamp == ts
      ensures r.msg == msg && r.data == data
    {
      this.(timestamp := ts)
    }

    function SetMsg(m: int32): (r: ControlPacket)
      ensures r.msg == m
      ensures r.timestamp == timestamp && r.data == data
    {
      this.(msg := m)
    }

    function SetData(d: int32): (r: ControlPacket)
      ensures r.data == d
      ensures r.timestamp == timestamp && r.msg == msg
    {
      this.(data := d)
    }
  }

  /** A default control packet carries message 0 and data 0, so a receiver
      reads it as TURN_OFF. */
  function NewControlPacket(): (p: ControlPacket)
    ensures p.msg == CONTROL_PKT_MSG_TURN_OFF && p.msg != CONTROL_PKT_MSG_TURN_ON
    ensures p.data == 0 && p.timestamp == 0
  {
    ControlPacket(0, 0, 0)
  }

  /** The command the control system builds before every write:
      `new control_packet()`, then `set_timestamp(now)`, `set_msg(m)`, `set_data(0)`. */
  function Command(now: Time, m: int32): (p: ControlPacket)
    ensures p.timestamp == now && p.msg == m && p.data == 0
  {
    NewControlPacket().SetTimestamp(now).SetMsg(m).SetData(0)
  }
}
