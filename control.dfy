/**
 * The control system: it switches the scanner and the conveyor segments on
 * at start-up, then once per control tick takes at most one scanner status
 * and at most one segment status, applies admission control with hysteresis
 * to the scanner, and counts down its loop budget.
 *
 * The fixed wait at the top of each tick is not modelled; a tick is given
 * the current time and the packets read, each present only when
 * `num_available()` was non-zero on that port.
 */
module Control {
  import opened Packets
  import opened BagTracking

  datatype ControlState = ControlState(
    bagId: int32,                      // last result of GetFirstKey()
    bagCount: int32,                   // scanner statuses received
    scannerRunning: int32,             // what the scanner was last told
    loopCount: int32,                  // remaining loop budget
    bagHash: BagTracker,               // bags announced by the scanner
    scannerPkt: Option<ScannerStsPacket>)  // last scanner packet read or looked up

  /** The constructor, given the loop budget `csl_count`. */
  function ControlInit(cslCount: int32): ControlState
  {
    ControlState(0, 0, CONTROL_PKT_MSG_TURN_OFF, cslCount, EmptyTracker, None)
  }

  datatype StartupOut = StartupOut(next: ControlState, toScanner: ControlPacket, toSegments: seq<ControlPacket>)

  /** Start-up: one TURN_ON (data 0) to the scanner, one to each segment,
      and the scanner is recorded as on. Nothing else changes. */
  function ControlStartup(s: ControlState, now: Time): (r: StartupOut)
    ensures r.toScanner == Command(now, CONTROL_PKT_MSG_TURN_ON)
    ensures |r.toSegments| == NUM_CONVEYOR_SEGMENTS as int
    ensures forall i :: 0 <= i < |r.toSegments| ==> r.toSegments[i] == Command(now, CONTROL_PKT_MSG_TURN_ON)
    ensures r.next == s.(scannerRunning := CONTROL_PKT_MSG_TURN_ON)
  {
    StartupOut(s.(scannerRunning := CONTROL_PKT_MSG_TURN_ON),
               Command(now, CONTROL_PKT_MSG_TURN_ON),
               seq(NUM_CONVEYOR_SEGMENTS as int, _ => Command(now, CONTROL_PKT_MSG_TURN_ON)))
  }

  /** The input of one tick. */
  datatype ControlTick = ControlTick(now: Time, scannerSts: Option<ScannerStsPacket>, segSts: Option<ConveyorStsPacket>)

  datatype PhaseOut = PhaseOut(next: ControlState, toScanner: seq<ControlPacket>)

  /** The scanner-status half of a tick: record the bag, count it, and stop
      a running scanner once the count reaches MAX_NUMBER_BAGS_IN_SYSTEM. */
  function ScannerStatusPhase(s: ControlState, tick: ControlTick): (r: PhaseOut)
    requires s.bagHash.Valid()
    ensures r.next.bagHash.Valid()
    ensures r.next.loopCount == s.loopCount && r.next.bagId == s.bagId
    ensures tick.scannerSts.None? ==> r == PhaseOut(s, [])
    ensures tick.scannerSts.Some? ==>
              r.next.bagCount == Inc32(s.bagCount) &&
              r.next.bagHash == s.bagHash.Insert(tick.scannerSts.value.bagId, tick.scannerSts.value) &&
              r.next.scannerPkt == tick.scannerSts
    ensures r.toScanner != [] <==>
              tick.scannerSts.Some? && s.scannerRunning == CONTROL_PKT_MSG_TURN_ON &&
              r.next.bagCount >= MAX_NUMBER_BAGS_IN_SYSTEM
    ensures r.toScanner != [] ==>
              r.toScanner == [Command(tick.now, CONTROL_PKT_MSG_TURN_OFF)] &&
              r.next.scannerRunning == CONTROL_PKT_MSG_TURN_OFF
    ensures r.toScanner == [] ==> r.next.scannerRunning == s.scannerRunning
  {
    match tick.scannerSts
    case None => PhaseOut(s, [])
    case Some(pkt) =>
      var hash := s.bagHash.Insert(pkt.bagId, pkt);
      var count := Inc32(s.bagCount);
      var s1 := s.(bagHash := hash, bagCount := count, scannerPkt := Some(pkt));
      if s.scannerRunning == CONTROL_PKT_MSG_TURN_ON && count >= MAX_NUMBER_BAGS_IN_SYSTEM then
        PhaseOut(s1.(scannerRunning := CONTROL_PKT_MSG_TURN_OFF), [Command(tick.now, CONTROL_PKT_MSG_TURN_OFF)])
      else
        PhaseOut(s1, [])
  }

  /** The segment-status half of a tick: look up the oldest bag (only when
      the oldest key is not the -1 sentinel), and restart a stopped scanner
      once the count is below MAX_NUMBER_BAGS_IN_SYSTEM - BAG_COUNT_HYSTERESIS. */
  function SegmentStatusPhase(s: ControlState, tick: ControlTick): (r: PhaseOut)
    requires s.bagHash.Valid()
    ensures r.next.bagHash == s.bagHash && r.next.bagCount == s.bagCount
    ensures r.next.loopCount == s.loopCount
    ensures tick.segSts.None? ==> r == PhaseOut(s, [])
    ensures tick.segSts.Some? ==> r.next.bagId == s.bagHash.GetFirstKey()
    ensures tick.segSts.Some? && s.bagHash.keys == [] ==> r.next.bagId == EMPTY_KEY
    // the value is looked up exactly when the oldest key is not -1, even if -1 was inserted
    ensures tick.segSts.Some? && s.bagHash.GetFirstKey() == EMPTY_KEY ==> r.next.scannerPkt == s.scannerPkt
    ensures tick.segSts.Some? && s.bagHash.GetFirstKey() != EMPTY_KEY ==>
              r.next.scannerPkt == Some(s.bagHash.GetValue(s.bagHash.GetFirstKey()))
    ensures r.toScanner != [] <==>
              tick.segSts.Some? && s.scannerRunning == CONTROL_PKT_MSG_TURN_OFF &&
              s.bagCount < RESUME_THRESHOLD
    ensures r.toScanner != [] ==>
              r.toScanner == [Command(tick.now, CONTROL_PKT_MSG_TURN_ON)] &&
              r.next.scannerRunning == CONTROL_PKT_MSG_TURN_ON
    ensures r.toScanner == [] ==> r.next.scannerRunning == s.scannerRunning
  {
    match tick.segSts
    case None => PhaseOut(s, [])
    case Some(_) =>
      var id := s.bagHash.GetFirstKey();
      var pkt := if EMPTY_KEY != id then Some(s.bagHash.GetValue(id)) else s.scannerPkt;
      var s1 := s.(bagId := id, scannerPkt := pkt);
      if CONTROL_PKT_MSG_TURN_OFF == s.scannerRunning && s.bagCount < RESUME_THRESHOLD then
        PhaseOut(s1.(scannerRunning := CONTROL_PKT_MSG_TURN_ON), [Command(tick.now, CONTROL_PKT_MSG_TURN_ON)])
      else
        PhaseOut(s1, [])
  }

  datatype ControlStepOut = ControlStepOut(next: ControlState, toScanner: seq<ControlPacket>, stop: bool)

  /** One pass of the main loop of `control_system_thread`; `stop` is the
      `break` taken when the budget reaches zero. */
  function ControlStep(s: ControlState, tick: ControlTick): (r: ControlStepOut)
    requires s.bagHash.Valid()
    ensures r.next.bagHash.Valid()
    // bag_count grows by one per scanner status until it would overflow
    ensures tick.scannerSts.Some? && s.bagCount < INT32_MAX ==> r.next.bagCount as int == s.bagCount as int + 1
    ensures tick.scannerSts.None? ==> r.next.bagCount == s.bagCount
    // at most one command per tick; a command always flips the recorded switch to itself
    ensures |r.toScanner| <= 1
    ensures r.toScanner == [] ==> r.next.scannerRunning == s.scannerRunning
    ensures r.toScanner != [] ==>
              r.toScanner[0].timestamp == tick.now && r.toScanner[0].data == 0 &&
              r.toScanner[0].msg == r.next.scannerRunning && r.next.scannerRunning != s.scannerRunning
    // hysteresis: stop at MAX_NUMBER_BAGS_IN_SYSTEM, resume only below MAX - HYSTERESIS
    ensures r.toScanner != [] && r.toScanner[0].msg == CONTROL_PKT_MSG_TURN_OFF ==>
              r.next.bagCount >= MAX_NUMBER_BAGS_IN_SYSTEM && tick.scannerSts.Some?
    ensures r.toScanner != [] && r.toScanner[0].msg == CONTROL_PKT_MSG_TURN_ON ==>
              r.next.bagCount < RESUME_THRESHOLD && tick.segSts.Some?
    ensures s.scannerRunning == CONTROL_PKT_MSG_TURN_ON && tick.scannerSts.Some? &&
            r.next.bagCount >= MAX_NUMBER_BAGS_IN_SYSTEM ==>
              r.toScanner == [Command(tick.now, CONTROL_PKT_MSG_TURN_OFF)]
    ensures s.scannerRunning == CONTROL_PKT_MSG_TURN_OFF && tick.segSts.Some? &&
            r.next.bagCount < RESUME_THRESHOLD ==>
              r.toScanner == [Command(tick.now, CONTROL_PKT_MSG_TURN_ON)]
    // the loop budget
    ensures r.next.loopCount == Dec32(s.loopCount) && (r.stop <==> r.next.loopCount == 0)
  {
    var a := ScannerStatusPhase(s, tick);
    var b := SegmentStatusPhase(a.next, tick);
    var count := Dec32(b.next.loopCount);
    ControlStepOut(b.next.(loopCount := count), a.toScanner + b.toScanner, 0 == count)
  }

  /** The boundary of the hysteresis band: a stopped scanner with a segment
      status and no new bag is restarted at a count of 11, but not at 12. */
  lemma HysteresisBoundary(s: ControlState, now: Time, seg: ConveyorStsPacket)
    requires s.bagHash.Valid() && s.scannerRunning == CONTROL_PKT_MSG_TURN_OFF
    ensures s.bagCount == RESUME_THRESHOLD - 1 ==>
              ControlStep(s, ControlTick(now, None, Some(seg))).toScanner == [Command(now, CONTROL_PKT_MSG_TURN_ON)]
    ensures s.bagCount >= RESUME_THRESHOLD ==>
              ControlStep(s, ControlTick(now, None, Some(seg))).toScanner == []
  {
  }

  datatype ControlTrace = ControlTrace(state: ControlState, toScanner: seq<ControlPacket>, iterations: nat, stopped: bool)

  /** What one more tick does to the loop: nothing once it has broken out,
      otherwise one pass whose commands are appended. */
  function ControlRunStep(tr: ControlTrace, tick: ControlTick): (tr': ControlTrace)
    requires tr.state.bagHash.Valid()
    ensures tr'.state.bagHash.Valid()
    ensures tr.stopped ==> tr' == tr
    ensures !tr.stopped ==> tr'.iterations == tr.iterations + 1
  {
    if tr.stopped then tr
    else
      var r := ControlStep(tr.state, tick);
      ControlTrace(r.next, tr.toScanner + r.toScanner, tr.iterations + 1, r.stop)
  }

  /** The main loop over a sequence of ticks: it stops consuming ticks once
      the budget check has broken out of the loop. */
  function ControlRun(s: ControlState, ticks: seq<ControlTick>): (tr: ControlTrace)
    requires s.bagHash.Valid()
    ensures tr.state.bagHash.Valid()
    ensures tr.iterations <= |ticks| && (!tr.stopped ==> tr.iterations == |ticks|)
    decreases |ticks|
  {
    if ticks == [] then ControlTrace(s, [], 0, false)
    else ControlRunStep(ControlRun(s, ticks[..|ticks| - 1]), ticks[|ticks| - 1])
  }

  /** The loop budget: a positive budget runs exactly that many passes and
      then breaks; a budget of zero or less never reaches the `== 0` test
      for as long as the counter does not pass INT32_MIN. */
  lemma {:induction false} ControlLoopBudget(s: ControlState, ticks: seq<ControlTick>)
    requires s.bagHash.Valid()
    ensures var tr := ControlRun(s, ticks);
            s.loopCount > 0 && |ticks| < s.loopCount as int ==>
              !tr.stopped && tr.iterations == |ticks| && tr.state.loopCount as int == s.loopCount as int - |ticks|
    ensures var tr := ControlRun(s, ticks);
            s.loopCount > 0 && |ticks| >= s.loopCount as int ==>
              tr.stopped && tr.iterations == s.loopCount as int && tr.state.loopCount == 0
    ensures var tr := ControlRun(s, ticks);
            s.loopCount <= 0 && |ticks| <= s.loopCount as int - INT32_MIN as int ==>
              !tr.stopped && tr.iterations == |ticks| && tr.state.loopCount as int == s.loopCount as int - |ticks|
    decreases |ticks|
  {
    if ticks != [] {
      ControlLoopBudget(s, ticks[..|ticks| - 1]);
    }
  }

  /** The number of ticks that delivered a scanner status. */
  function ScannerStatusCount(ticks: seq<ControlTick>): (n: nat)
    ensures n <= |ticks|
    decreases |ticks|
  {
    if ticks == [] then 0
    else ScannerStatusCount(ticks[..|ticks| - 1]) + (if ticks[|ticks| - 1].scannerSts.Some? then 1 else 0)
  }

  /**
   * The states reachable after start-up, with the commands sent to the
   * scanner so far: the switch is on below MAX_NUMBER_BAGS_IN_SYSTEM and off
   * from there on, and the commands are the start-up TURN_ON, followed by a
   * single TURN_OFF once the count has reached the maximum.
   */
  ghost predicate Admitted(s: ControlState, sent: seq<ControlPacket>)
  {
    s.bagHash.Valid() && 0 <= s.bagCount &&
    s.scannerRunning == (if s.bagCount >= MAX_NUMBER_BAGS_IN_SYSTEM then CONTROL_PKT_MSG_TURN_OFF else CONTROL_PKT_MSG_TURN_ON) &&
    |sent| == (if s.bagCount >= MAX_NUMBER_BAGS_IN_SYSTEM then 2 else 1) &&
    sent[0].msg == CONTROL_PKT_MSG_TURN_ON &&
    (|sent| == 2 ==> sent[1].msg == CONTROL_PKT_MSG_TURN_OFF)
  }

  /** At INT32_MAX a scanner status wraps `bag_count` to INT32_MIN, so the
      count only grows while it is below INT32_MAX. */
  lemma ControlStepBagCountWraps(s: ControlState, tick: ControlTick)
    requires s.bagHash.Valid() && tick.scannerSts.Some? && s.bagCount == INT32_MAX
    ensures ControlStep(s, tick).next.bagCount == INT32_MIN
  {
  }

  /** One tick keeps a state admitted (as long as the count does not wrap). */
  lemma AdmittedStep(s: ControlState, sent: seq<ControlPacket>, tick: ControlTick)
    requires Admitted(s, sent) && s.bagCount < INT32_MAX
    ensures Admitted(ControlStep(s, tick).next, sent + ControlStep(s, tick).toScanner)
  {
    var r := ControlStep(s, tick);
    var a := ScannerStatusPhase(s, tick);
    if a.toScanner != [] {
      assert a.next.bagCount >= MAX_NUMBER_BAGS_IN_SYSTEM;
    }
  }

  /** One more pass of a running loop keeps its trace admitted. */
  lemma AdmittedRunStep(tr: ControlTrace, sent: seq<ControlPacket>, tick: ControlTick)
    requires Admitted(tr.state, sent + tr.toScanner) && tr.state.bagCount < INT32_MAX
    ensures Admitted(ControlRunStep(tr, tick).state, sent + ControlRunStep(tr, tick).toScanner)
  {
    if !tr.stopped {
      AdmittedStep(tr.state, sent + tr.toScanner, tick);
      var r := ControlStep(tr.state, tick);
      assert sent + (tr.toScanner + r.toScanner) == (sent + tr.toScanner) + r.toScanner;
    }
  }

  /** `bag_count` after a run is its starting value plus the number of
      scanner statuses the executed ticks delivered (it is never decremented). */
  lemma {:induction false} ControlRunBagCount(s: ControlState, ticks: seq<ControlTick>)
    requires s.bagHash.Valid() && 0 <= s.bagCount
    requires s.bagCount as int + |ticks| <= INT32_MAX as int
    ensures var tr := ControlRun(s, ticks);
            tr.state.bagCount as int == s.bagCount as int + ScannerStatusCount(ticks[..tr.iterations])
    decreases |ticks|
  {
    if ticks != [] {
      var prefix := ticks[..|ticks| - 1];
      var tr := ControlRun(s, prefix);
      ControlRunBagCount(s, prefix);
      if tr.stopped {
        assert ticks[..tr.iterations] == prefix[..tr.iterations];
      } else {
        assert prefix[..tr.iterations] == prefix;
        assert ticks[..tr.iterations + 1] == ticks;
      }
    }
  }

  /** A run of ticks keeps a state admitted. */
  lemma {:induction false} AdmittedRun(s: ControlState, sent: seq<ControlPacket>, ticks: seq<ControlTick>)
    requires Admitted(s, sent)
    requires s.bagCount as int + |ticks| <= INT32_MAX as int
    ensures Admitted(ControlRun(s, ticks).state, sent + ControlRun(s, ticks).toScanner)
    decreases |ticks|
  {
    if ticks != [] {
      var prefix := ticks[..|ticks| - 1];
      var last := ticks[|ticks| - 1];
      var tr := ControlRun(s, prefix);
      assert ControlRun(s, ticks) == ControlRunStep(tr, last);
      AdmittedRun(s, sent, prefix);
      if !tr.stopped {
        ControlRunBagCount(s, prefix);
        assert prefix[..tr.iterations] == prefix;
        assert tr.state.bagCount as int <= s.bagCount as int + |prefix| < INT32_MAX as int;
        AdmittedRunStep(tr, sent, last);
      }
    }
  }

  datatype ThreadOut = ThreadOut(state: ControlState, toScanner: seq<ControlPacket>, toSegments: seq<ControlPacket>,
                                 iterations: nat, stopped: bool)

  /** `control_system_thread` from construction: start-up, then the main loop. */
  function ControlThread(cslCount: int32, now: Time, ticks: seq<ControlTick>): ThreadOut
  {
    var st := ControlStartup(ControlInit(cslCount), now);
    var tr := ControlRun(st.next, ticks);
    ThreadOut(tr.state, [st.toScanner] + tr.toScanner, st.toSegments, tr.iterations, tr.stopped)
  }

  /**
   * Because `bag_count` is never decremented, the scanner hears exactly
   * TURN_ON at start-up and then a single TURN_OFF once it has announced
   * MAX_NUMBER_BAGS_IN_SYSTEM bags; once TURN_OFF has been sent, TURN_ON is
   * never sent again, and consecutive commands alternate.
   */
  lemma ScannerCommandsOnThenOff(cslCount: int32, now: Time, ticks: seq<ControlTick>)
    requires |ticks| <= INT32_MAX as int
    ensures var out := ControlThread(cslCount, now, ticks);
            var bags := ScannerStatusCount(ticks[..out.iterations]);
            |out.toScanner| == (if bags >= MAX_NUMBER_BAGS_IN_SYSTEM as int then 2 else 1) &&
            out.toScanner[0].msg == CONTROL_PKT_MSG_TURN_ON &&
            (|out.toScanner| == 2 ==> out.toScanner[1].msg == CONTROL_PKT_MSG_TURN_OFF) &&
            out.state.bagCount as int == bags
    ensures var m := ControlThread(cslCount, now, ticks).toScanner;
            forall i, j :: 0 <= i < j < |m| && m[i].msg == CONTROL_PKT_MSG_TURN_OFF ==> m[j].msg != CONTROL_PKT_MSG_TURN_ON
    ensures var m := ControlThread(cslCount, now, ticks).toScanner;
            forall i :: 0 <= i < |m| - 1 ==> m[i].msg != m[i + 1].msg
  {
    var st := ControlStartup(ControlInit(cslCount), now);
    assert Admitted(st.next, [st.toScanner]);
    AdmittedRun(st.next, [st.toScanner], ticks);
    ControlRunBagCount(st.next, ticks);
  }

  class ControlSystem {
    var index: int32
    var bagId: int32
    var bagCount: int32
    var scannerRunning: int32
    var loopCount: int32
    var bagHash: BagTracker
    var scannerPkt: Option<ScannerStsPacket>

    function State(): ControlState
      reads this
    {
      ControlState(bagId, bagCount, scannerRunning, loopCount, bagHash, scannerPkt)
    }

    constructor (cslCount: int32)
      ensures State() == ControlInit(cslCount) && index == 0
    {
      loopCount := cslCount;
      bagHash := EmptyTracker;
      index := 0;
      bagId := 0;
      bagCount := 0;
      scannerRunning := 0;
      scannerPkt := None;
    }

    /** The start of `control_system_thread`, before its main loop. */
    method Startup(now: Time) returns (toScanner: ControlPacket, toSegments: seq<ControlPacket>)
      modifies this
      ensures var st := ControlStartup(old(State()), now);
              State() == st.next && toScanner == st.toScanner && toSegments == st.toSegments
      ensures index == NUM_CONVEYOR_SEGMENTS
    {
      var controlPkt := NewControlPacket();
      controlPkt := controlPkt.SetTimestamp(now);
      controlPkt := controlPkt.SetMsg(CONTROL_PKT_MSG_TURN_ON);
      controlPkt := controlPkt.SetData(0);
      toScanner := controlPkt;
      scannerRunning := CONTROL_PKT_MSG_TURN_ON;

      toSegments := [];
      index := 0;
      while index < NUM_CONVEYOR_SEGMENTS
        invariant 0 <= index <= NUM_CONVEYOR_SEGMENTS
        invariant State() == old(State()).(scannerRunning := CONTROL_PKT_MSG_TURN_ON)
        invariant toSegments == seq(index as int, _ => Command(now, CONTROL_PKT_MSG_TURN_ON))
      {
        controlPkt := NewControlPacket();
        controlPkt := controlPkt.SetTimestamp(now);
        controlPkt := controlPkt.SetMsg(CONTROL_PKT_MSG_TURN_ON);
        controlPkt := controlPkt.SetData(0);
        toSegments := toSegments + [controlPkt];
        index := index + 1;
      }
    }

    /** The scanner-status block of a pass of the main loop. */
    method ScannerStatusBlock(tick: ControlTick) returns (toScanner: seq<ControlPacket>)
      requires bagHash.Valid()
      modifies this
      ensures PhaseOut(State(), toScanner) == ScannerStatusPhase(old(State()), tick)
      ensures index == old(index)
    {
      toScanner := [];
      if tick.scannerSts.Some? {
        var pkt := tick.scannerSts.value;
        scannerPkt := Some(pkt);
        bagHash := bagHash.Insert(pkt.bagId, pkt);
        bagCount := Inc32(bagCount);
        if scannerRunning == CONTROL_PKT_MSG_TURN_ON && bagCount >= MAX_NUMBER_BAGS_IN_SYSTEM {
          var controlPkt := NewControlPacket();
          controlPkt := controlPkt.SetTimestamp(tick.now);
          controlPkt := controlPkt.SetMsg(CONTROL_PKT_MSG_TURN_OFF);
          controlPkt := controlPkt.SetData(0);
          toScanner := toScanner + [controlPkt];
          scannerRunning := CONTROL_PKT_MSG_TURN_OFF;
        }
      }
    }

    /** The segment-status block of a pass of the main loop. */
    method SegmentStatusBlock(tick: ControlTick) returns (toScanner: seq<ControlPacket>)
      requires bagHash.Valid()
      modifies this
      ensures PhaseOut(State(), toScanner) == SegmentStatusPhase(old(State()), tick)
      ensures index == old(index)
    {
      toScanner := [];
      if tick.segSts.Some? {
        bagId := bagHash.GetFirstKey();
        if EMPTY_KEY != bagId {
          scannerPkt := Some(bagHash.GetValue(bagId));
        }
        if CONTROL_PKT_MSG_TURN_OFF == scannerRunning && bagCount < MAX_NUMBER_BAGS_IN_SYSTEM - BAG_COUNT_HYSTERESIS {
          var controlPkt := NewControlPacket();
          controlPkt := controlPkt.SetTimestamp(tick.now);
          controlPkt := controlPkt.SetMsg(CONTROL_PKT_MSG_TURN_ON);
          controlPkt := controlPkt.SetData(0);
          toScanner := toScanner + [controlPkt];
          scannerRunning := CONTROL_PKT_MSG_TURN_ON;
        }
      }
    }

    /** One pass of the main loop of `control_system_thread`: the two blocks,
        then the budget decrement and its `== 0` break test. */
    method Iteration(tick: ControlTick) returns (toScanner: seq<ControlPacket>, stop: bool)
      requires bagHash.Valid()
      modifies this
      ensures ControlStepOut(State(), toScanner, stop) == ControlStep(old(State()), tick)
      ensures index == old(index)
    {
      var fromScannerSts := ScannerStatusBlock(tick);
      var fromSegSts := SegmentStatusBlock(tick);
      toScanner := fromScannerSts + fromSegSts;
      loopCount := Dec32(loopCount);
      stop := 0 == loopCount;
    }

    /** The main `while (true)` loop of `control_system_thread`, over the
        ticks it is given, until the budget check breaks out. */
    method MainLoop(ticks: seq<ControlTick>) returns (sent: seq<ControlPacket>, iterations: nat, stop: bool)
      requires bagHash.Valid()
      modifies this
      ensures var tr := ControlRun(old(State()), ticks);
              State() == tr.state && sent == tr.toScanner && iterations == tr.iterations && stop == tr.stopped
      ensures index == old(index)
    {
      ghost var start := State();
      sent, iterations, stop := [], 0, false;
      ghost var tr := ControlRun(start, []);
      while iterations < |ticks| && !stop
        invariant 0 <= iterations <= |ticks|
        invariant tr == ControlRun(start, ticks[..iterations])
        invariant tr.state == State() && tr.toScanner == sent
        invariant tr.iterations == iterations && tr.stopped == stop
        invariant bagHash.Valid() && index == old(index)
        decreases |ticks| - iterations
      {
        ControlRunNext(start, ticks, iterations);
        var out;
        out, stop := Iteration(ticks[iterations]);
        tr := ControlRunStep(tr, ticks[iterations]);
        sent := sent + out;
        iterations := iterations + 1;
      }
      ControlRunStopped(start, ticks, iterations);
    }

    /** `control_system_thread` from construction, over the ticks it is given. */
    method ControlSystemThread(now: Time, ticks: seq<ControlTick>)
      returns (toScanner: seq<ControlPacket>, toSegments: seq<ControlPacket>, iterations: nat)
      requires State() == ControlInit(loopCount)
      modifies this
      ensures var out := ControlThread(old(loopCount), now, ticks);
              State() == out.state && toScanner == out.toScanner &&
              toSegments == out.toSegments && iterations == out.iterations
      ensures index == NUM_CONVEYOR_SEGMENTS
    {
      var first;
      first, toSegments := Startup(now);
      var sent, stop;
      sent, iterations, stop := MainLoop(ticks);
      toScanner := [first] + sent;
    }
  }

  /** One more tick of the loop is one `ControlRunStep`. */
  lemma ControlRunNext(s: ControlState, ticks: seq<ControlTick>, i: nat)
    requires s.bagHash.Valid() && i < |ticks|
    ensures ControlRun(s, ticks[..i + 1]) == ControlRunStep(ControlRun(s, ticks[..i]), ticks[i])
  {
    assert ticks[..i + 1][..i] == ticks[..i];
  }

  /** Once the loop has broken out, further ticks are never consumed. */
  lemma {:induction false} ControlRunStopped(s: ControlState, ticks: seq<ControlTick>, n: nat)
    requires s.bagHash.Valid() && n <= |ticks|
    requires n == |ticks| || ControlRun(s, ticks[..n]).stopped
    ensures ControlRun(s, ticks) == ControlRun(s, ticks[..n])
    decreases |ticks|
  {
    if n < |ticks| {
      assert ticks[..|ticks| - 1][..n] == ticks[..n];
      ControlRunStopped(s, ticks[..|ticks| - 1], n);
    } else {
      assert ticks[..n] == ticks;
    }
  }
}
