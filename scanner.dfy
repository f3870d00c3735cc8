/**
 * The bag scanner: an on/off switch driven by control packets and a bag-id
 * counter. Each pass of its thread consumes at most one control packet and,
 * while on, announces one new bag with a scanner status packet.
 *
 * The random delay at the top of each pass is not modelled; a pass is given
 * the current time and the control packet it read, if any were available.
 */
module Scanning {
  import opened Packets
  import BagTracking

  datatype ScannerState = ScannerState(bagId: int32, running: int32)

  /** The constructor: `bag_id = 0`, `running = 0` (off). */
  const ScannerInit := ScannerState(0, CONTROL_PKT_MSG_TURN_OFF)

  /** The input of one pass: the time and the control packet read, present
      only when `num_available()` was non-zero. */
  datatype ScannerTick = ScannerTick(now: Time, control: Option<ControlPacket>)

  datatype ScannerStepOut = ScannerStepOut(next: ScannerState, status: Option<ScannerStsPacket>)

  /** The switch after a control packet: TURN_ON and TURN_OFF set it, any
      other message leaves it as it was. */
  function ApplyControl(running: int32, control: Option<ControlPacket>): int32
  {
    match control
    case None => running
    case Some(p) =>
      if p.msg == CONTROL_PKT_MSG_TURN_ON then CONTROL_PKT_MSG_TURN_ON
      else if p.msg == CONTROL_PKT_MSG_TURN_OFF then CONTROL_PKT_MSG_TURN_OFF
      else running
  }

  /** One pass of `scanner_thread`. */
  function ScannerStep(s: ScannerState, tick: ScannerTick): (r: ScannerStepOut)
    ensures tick.control.Some? && tick.control.value.msg == CONTROL_PKT_MSG_TURN_ON ==>
              r.next.running == CONTROL_PKT_MSG_TURN_ON
    ensures tick.control.Some? && tick.control.value.msg == CONTROL_PKT_MSG_TURN_OFF ==>
              r.next.running == CONTROL_PKT_MSG_TURN_OFF
    ensures tick.control.None? || tick.control.value.msg !in {CONTROL_PKT_MSG_TURN_ON, CONTROL_PKT_MSG_TURN_OFF} ==>
              r.next.running == s.running
    // exactly one packet while on, none while off
    ensures r.status.Some? <==> r.next.running == CONTROL_PKT_MSG_TURN_ON
    ensures r.status.None? ==> r.next.bagId == s.bagId
    ensures r.status.Some? ==> r.status.value.timestamp == tick.now && r.status.value.poxBag == 0
    // the id is the previous counter plus one; the guard keeps the counter non-negative
    ensures r.status.Some? && s.bagId < INT32_MAX ==>
              r.status.value.bagId as int == s.bagId as int + 1
    ensures r.status.Some? && 0 <= s.bagId < INT32_MAX ==> r.next.bagId == r.status.value.bagId
    ensures s.bagId >= 0 ==> r.next.bagId >= 0
  {
    var running := ApplyControl(s.running, tick.control);
    if running == CONTROL_PKT_MSG_TURN_ON then
      var id := Inc32(s.bagId);
      var pkt := NewScannerStsPacket(s.bagId).SetTimestamp(tick.now).SetBagId(id);
      ScannerStepOut(ScannerState(if 0 > id then 0 else id, running), Some(pkt))
    else
      ScannerStepOut(ScannerState(s.bagId, running), None)
  }

  /** The overflow guard: when `++bag_id` wraps, the packet already holds the
      wrapped (negative) id; only the counter is reset to 0, so the next id is 1. */
  lemma ScannerOverflow(s: ScannerState, tick: ScannerTick, tick': ScannerTick)
    requires s.bagId == INT32_MAX
    requires ScannerStep(s, tick).status.Some?
    ensures ScannerStep(s, tick).status.value.bagId == INT32_MIN
    ensures ScannerStep(s, tick).next.bagId == 0
    ensures var r' := ScannerStep(ScannerStep(s, tick).next, tick');
            r'.status.Some? ==> r'.status.value.bagId == 1
  {
  }

  datatype ScannerTrace = ScannerTrace(final: ScannerState, sent: seq<ScannerStsPacket>)

  /** The state after a sequence of passes and the packets sent, in order. */
  function ScannerRun(s: ScannerState, ticks: seq<ScannerTick>): (tr: ScannerTrace)
    ensures |tr.sent| <= |ticks|
    decreases |ticks|
  {
    if ticks == [] then ScannerTrace(s, [])
    else
      var tr := ScannerRun(s, ticks[..|ticks| - 1]);
      var r := ScannerStep(tr.final, ticks[|ticks| - 1]);
      ScannerTrace(r.next, tr.sent + (if r.status.Some? then [r.status.value] else []))
  }

  /** Ids are handed out consecutively: the j-th packet sent carries the
      starting counter plus j + 1, for as long as the counter does not wrap. */
  lemma {:induction false} ScannerIdsConsecutive(s: ScannerState, ticks: seq<ScannerTick>)
    requires 0 <= s.bagId
    requires s.bagId as int + |ScannerRun(s, ticks).sent| <= INT32_MAX as int
    ensures var tr := ScannerRun(s, ticks);
            tr.final.bagId as int == s.bagId as int + |tr.sent| &&
            forall j :: 0 <= j < |tr.sent| ==> tr.sent[j].bagId as int == s.bagId as int + j + 1
    decreases |ticks|
  {
    if ticks != [] {
      var prefix := ticks[..|ticks| - 1];
      var tr := ScannerRun(s, prefix);
      var r := ScannerStep(tr.final, ticks[|ticks| - 1]);
      assert ScannerRun(s, ticks).sent == tr.sent + (if r.status.Some? then [r.status.value] else []);
      ScannerIdsConsecutive(s, prefix);
    }
  }

  /** From power-on the scanner numbers its bags 1, 2, 3, ... */
  lemma ScannerIdsFromOne(ticks: seq<ScannerTick>)
    requires |ScannerRun(ScannerInit, ticks).sent| <= INT32_MAX as int
    ensures var sent := ScannerRun(ScannerInit, ticks).sent;
            forall j :: 0 <= j < |sent| ==> sent[j].bagId as int == j + 1
  {
    ScannerIdsConsecutive(ScannerInit, ticks);
  }

  /** Whatever happens, an id the scanner sends is never the tracker's empty
      sentinel -1: it is positive, or the wrapped minimum. */
  lemma {:induction false} ScannerIdsNeverEmptyKey(s: ScannerState, ticks: seq<ScannerTick>)
    requires 0 <= s.bagId
    ensures var tr := ScannerRun(s, ticks);
            0 <= tr.final.bagId &&
            forall j :: 0 <= j < |tr.sent| ==>
              (tr.sent[j].bagId > 0 || tr.sent[j].bagId == INT32_MIN) &&
              tr.sent[j].bagId != BagTracking.EMPTY_KEY
    decreases |ticks|
  {
    if ticks != [] {
      var prefix := ticks[..|ticks| - 1];
      var tr := ScannerRun(s, prefix);
      var r := ScannerStep(tr.final, ticks[|ticks| - 1]);
      assert ScannerRun(s, ticks).sent == tr.sent + (if r.status.Some? then [r.status.value] else []);
      ScannerIdsNeverEmptyKey(s, prefix);
    }
  }

  class Scanner {
    var bagId: int32
    var running: int32

    function State(): ScannerState
      reads this
    {
      ScannerState(bagId, running)
    }

    constructor ()
      ensures State() == ScannerInit
    {
      bagId := 0;
      running := CONTROL_PKT_MSG_TURN_OFF;
    }

    /** The body of the `while (true)` loop of `scanner_thread`. */
    method ScannerIteration(tick: ScannerTick) returns (status: Option<ScannerStsPacket>)
      modifies this
      ensures ScannerStepOut(State(), status) == ScannerStep(old(State()), tick)
    {
      if tick.control.Some? {
        var controlPkt := tick.control.value;
        if controlPkt.msg == CONTROL_PKT_MSG_TURN_ON {
          running := CONTROL_PKT_MSG_TURN_ON;
        } else if controlPkt.msg == CONTROL_PKT_MSG_TURN_OFF {
          running := CONTROL_PKT_MSG_TURN_OFF;
        }
      }
      status := None;
      if CONTROL_PKT_MSG_TURN_ON == running {
        var scannerPkt := NewScannerStsPacket(bagId);
        scannerPkt := scannerPkt.SetTimestamp(tick.now);
        bagId := Inc32(bagId);
        scannerPkt := scannerPkt.SetBagId(bagId);
        if 0 > bagId {
          bagId := 0;
        }
        status := Some(scannerPkt);
      }
    }

    /** `scanner_thread` over a finite prefix of its endless loop. */
    method ScannerThread(ticks: seq<ScannerTick>) returns (sent: seq<ScannerStsPacket>)
      modifies this
      ensures ScannerTrace(State(), sent) == ScannerRun(old(State()), ticks)
    {
      sent := [];
      var i := 0;
      while i < |ticks|
        invariant 0 <= i <= |ticks|
        invariant ScannerTrace(State(), sent) == ScannerRun(old(State()), ticks[..i])
      {
        assert ticks[..i + 1][..i] == ticks[..i];
        var status := ScannerIteration(ticks[i]);
        if status.Some? {
          sent := sent + [status.value];
        }
        i := i + 1;
      }
      assert ticks[..i] == ticks;
    }
  }
}
