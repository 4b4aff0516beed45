/** What the Master firmware's `loop()` guarantees over a run: the
    bookkeeping of the sequence check, the exact conditions under which a
    run succeeds or a line advances it, the two prechecks that never fail a
    run, and the serial commands.

    Each property is proved first about the stage function that `loop()`
    dispatches to, one branch of the stage per helper lemma, and then
    lifted to `Step` through `PreludeKeepsRun`. */
module MasterProperties {
  import opened Wrappers
  import opened Text
  import opened MasterFirmware

  /** Only lines before `e` are marked as risen. */
  ghost predicate MarksBelow(marks: seq<bool>, e: int) {
    forall i :: 0 <= i < |marks| && marks[i] ==> i < e
  }

  /** The run's bookkeeping in each state: no marks and nothing expected
      yet during the prechecks; during SEQUENCE only lines before the
      expected one can be marked; SUCCESS only after the last line. While
      a run is under way its FAIL line has not been printed. */
  ghost predicate Inv(v: Vars) {
    && WellFormed(v)
    && v.expectedIndex <= NUM_TEST_PINS
    && (v.state == WaitAllHigh || v.state == WaitAllLow ==> v.expectedIndex == 0 && MarksBelow(v.pinWasHigh, 0))
    && (v.state == Sequence ==> v.expectedIndex < NUM_TEST_PINS && MarksBelow(v.pinWasHigh, v.expectedIndex))
    && (v.state == Success ==> v.expectedIndex == NUM_TEST_PINS)
    && (v.state == WaitAllHigh || v.state == WaitAllLow || v.state == Sequence ==> !v.beginFailPrinted)
  }

  /** A fresh run, entered at `stamp`: ALL_HIGH with nothing marked or
      expected, the prechecks not passed and the START request consumed. */
  ghost predicate FreshRun(r: Vars, stamp: Millis) {
    && Inv(r) && r.state == WaitAllHigh && r.stateStartMs == stamp
    && r.expectedIndex == 0 && r.pinWasHigh == NoMarks()
    && !r.startRequested && !r.precheckAllHighOk && !r.precheckAllLowOk
  }

  /** Exactly line `k` reads HIGH. */
  predicate OnlyHigh(levels: seq<bool>, k: int) {
    forall i :: 0 <= i < |levels| ==> levels[i] == (i == k)
  }

  /** The globals that the serial command and the button edge leave alone:
      everything but the START request, the edge tracking and the output. */
  predicate SameRun(a: Vars, b: Vars) {
    && a.state == b.state && a.stateStartMs == b.stateStartMs && a.lastBlinkMs == b.lastBlinkMs
    && a.expectedIndex == b.expectedIndex && a.pinWasHigh == b.pinWasHigh
    && a.precheckAllHighOk == b.precheckAllHighOk && a.precheckAllLowOk == b.precheckAllLowOk
    && a.beginAllHighPrinted == b.beginAllHighPrinted && a.beginAllLowPrinted == b.beginAllLowPrinted
    && a.beginSequencePrinted == b.beginSequencePrinted && a.beginFailPrinted == b.beginFailPrinted
  }

  /** The globals after the serial command and the button edge, at the top
      of `loop()`. */
  function Prelude(v: Vars, t: Tick): Vars {
    TrackButton(HandleCommand(v, t.command), t.button, t.now)
  }

  lemma SetupEstablishesInv(stamp: Millis)
    ensures Inv(Setup(stamp)) && Setup(stamp).state == WaitButton && Setup(stamp).out == [MSG_READY]
  {
  }

  // The serial command and the button.

  lemma StartCommandFrame(v: Vars, c: string)
    requires IsStart(c)
    ensures HandleCommand(v, Some(c)).(startRequested := v.startRequested, out := v.out) == v
    ensures HandleCommand(v, Some(c)).startRequested
  {
  }

  lemma FlashCommandFrame(v: Vars, c: string)
    requires !IsStart(c) && IsFlash(c)
    ensures HandleCommand(v, Some(c)).(out := v.out) == v
  {
  }

  lemma OtherCommandFrame(v: Vars, c: string)
    requires !IsStart(c) && !IsFlash(c)
    ensures HandleCommand(v, Some(c)) == v
  {
  }

  /** A serial command only touches the START request and the output, and
      START sets the request. */
  lemma CommandKeepsRun(v: Vars, command: Option<string>)
    ensures HandleCommand(v, command).(startRequested := v.startRequested, out := v.out) == v
    ensures command.Some? && IsStart(command.value) ==> HandleCommand(v, command).startRequested
  {
    if command.None? {
    } else if IsStart(command.value) {
      StartCommandFrame(v, command.value);
    } else if IsFlash(command.value) {
      FlashCommandFrame(v, command.value);
    } else {
      OtherCommandFrame(v, command.value);
    }
  }

  /** The debouncer only touches its edge tracking. */
  lemma ButtonKeepsRun(v: Vars, button: bool, now: Millis)
    ensures TrackButton(v, button, now).(lastButtonEdgeMs := v.lastButtonEdgeMs, lastButtonState := v.lastButtonState) == v
  {
  }

  /** The command and the button leave the run alone, and the step is the
      stage of the state it started in, applied to what they leave. */
  lemma PreludeKeepsRun(v: Vars, t: Tick)
    requires WellFormed(v) && |t.levels| == NUM_TEST_PINS
    ensures SameRun(Prelude(v, t), v)
    ensures t.command.Some? && IsStart(t.command.value) ==> Prelude(v, t).startRequested
    ensures Step(v, t) == Dispatch(Prelude(v, t), Pressed(Prelude(v, t), t.button, t.now), t)
  {
    CommandKeepsRun(v, t.command);
    ButtonKeepsRun(HandleCommand(v, t.command), t.button, t.now);
  }

  // Counting the HIGH lines.

  /** The counting loop finds no HIGH line exactly when every line is LOW. */
  lemma {:induction false} NoHighIff(levels: seq<bool>)
    ensures HighCount(levels) == 0 <==> AllAt(levels, LOW)
  {
    if levels != [] {
      var n := |levels| - 1;
      NoHighIff(levels[..n]);
      assert AllAt(levels, LOW) <==> AllAt(levels[..n], LOW) && !levels[n];
    }
  }

  /** The counting loop reports one HIGH line at `k` exactly when `k` is
      the only HIGH line. */
  lemma {:induction false} SingleHigh(levels: seq<bool>, k: int)
    requires 0 <= k < |levels|
    ensures HighCount(levels) == 1 && HighIdx(levels) == k <==> OnlyHigh(levels, k)
  {
    var n := |levels| - 1;
    var pre := levels[..n];
    assert OnlyHigh(levels, k) <==> (forall i :: 0 <= i < n ==> pre[i] == (i == k)) && levels[n] == (n == k);
    if k == n {
      NoHighIff(pre);
    } else if !levels[n] {
      SingleHigh(pre, k);
    }
  }

  /** Clearing the marks of LOW lines never sets a mark. */
  lemma ClearedMarksBelow(marks: seq<bool>, levels: seq<bool>, e: int)
    requires |marks| == |levels| && MarksBelow(marks, e)
    ensures MarksBelow(ClearedMarks(marks, levels), e)
  {
    var m := ClearedMarks(marks, levels);
    forall i | 0 <= i < |m| && m[i] ensures i < e {
      assert marks[i];
    }
  }

  // WAIT_BUTTON and FAIL.

  /** Starting or restarting a run clears its bookkeeping. */
  lemma StartClearsRun(v: Vars, stamp: Millis)
    ensures FreshRun(StartTest(v, stamp), stamp) && FreshRun(RestartTest(v, stamp), stamp)
  {
  }

  /** The heartbeat touches only its clock and the output. */
  lemma HeartbeatKeepsRun(v: Vars, now: Millis)
    ensures Heartbeat(v, now).(lastBlinkMs := v.lastBlinkMs, out := v.out) == v
  {
    if Elapsed(now, v.lastBlinkMs) >= IDLE_PERIOD_MS {
      HeartbeatBeats(v, now);
    }
  }

  lemma HeartbeatBeats(v: Vars, now: Millis)
    requires Elapsed(now, v.lastBlinkMs) >= IDLE_PERIOD_MS
    ensures Heartbeat(v, now) == v.(out := v.out + [MSG_IDLE], lastBlinkMs := now)
  {
  }

  /** The FAIL line and the blink touch only their flag, their clock and
      the output. */
  lemma FailBlinkKeepsRun(v: Vars, now: Millis)
    ensures FailBlink(v, now).(beginFailPrinted := v.beginFailPrinted, lastBlinkMs := v.lastBlinkMs, out := v.out) == v
  {
    if Elapsed(now, v.lastBlinkMs) >= FAIL_BLINK_MS {
      FailBlinkBlinks(v, now);
    }
  }

  lemma FailBlinkBlinks(v: Vars, now: Millis)
    requires Elapsed(now, v.lastBlinkMs) >= FAIL_BLINK_MS
    ensures FailBlink(v, now).(lastBlinkMs := v.lastBlinkMs) ==
      if !v.beginFailPrinted then v.(out := v.out + [MSG_FAIL], beginFailPrinted := true) else v
  {
  }

  /** WAIT_BUTTON starts a fresh run on a press or a pending START, and
      waits otherwise. */
  lemma WaitButtonOutcome(v: Vars, pressed: bool, now: Millis, stamp: Millis)
    requires Inv(v) && v.state == WaitButton
    ensures var r := WaitButtonStage(v, pressed, now, stamp);
      && Inv(r)
      && (pressed || v.startRequested ==> FreshRun(r, stamp))
      && (!pressed && !v.startRequested ==> r.state == WaitButton && !r.startRequested)
  {
    HeartbeatKeepsRun(v, now);
    StartClearsRun(Heartbeat(v, now), stamp);
  }

  /** FAIL restarts with a fresh run on a press or a pending START, and
      stays otherwise. */
  lemma FailOutcome(v: Vars, pressed: bool, now: Millis, stamp: Millis)
    requires Inv(v) && v.state == Fail
    ensures var r := FailStage(v, pressed, now, stamp);
      && Inv(r)
      && (pressed || v.startRequested ==> FreshRun(r, stamp))
      && (!pressed && !v.startRequested ==> r.state == Fail && !r.startRequested)
  {
    FailBlinkKeepsRun(v, now);
    StartClearsRun(FailBlink(v, now), stamp);
  }

  /** SUCCESS reports once and returns to WAIT_BUTTON. */
  lemma SuccessOutcome(v: Vars, stamp: Millis)
    requires Inv(v) && v.state == Success
    ensures var r := SuccessStage(v, stamp);
      Inv(r) && r.state == WaitButton && r.out == v.out + [MSG_SUCCESS] && r.startRequested == v.startRequested
  {
  }

  // The two prechecks.

  lemma BeginAllHighKeepsRun(v: Vars)
    ensures BeginAllHigh(v).(beginAllHighPrinted := v.beginAllHighPrinted, out := v.out) == v
  {
  }

  /** ALL_HIGH never fails a run: it moves on to ALL_LOW when every line
      reads HIGH or when its timeout has passed, and waits otherwise; the
      precheck flag records a pass. */
  lemma AllHighOutcome(v: Vars, levels: seq<bool>, now: Millis, stamp: Millis)
    requires Inv(v) && v.state == WaitAllHigh && |levels| == NUM_TEST_PINS
    ensures var r := AllHighStage(v, levels, now, stamp);
      && Inv(r) && r.startRequested == v.startRequested
      && (r.state == WaitAllHigh || r.state == WaitAllLow)
      && (r.state == WaitAllLow <==> AllAt(levels, HIGH) || Elapsed(now, v.stateStartMs) > PRECHECK_TIMEOUT_MS)
      && r.precheckAllHighOk == (v.precheckAllHighOk || AllAt(levels, HIGH))
  {
    BeginAllHighKeepsRun(v);
    if AllAt(levels, HIGH) {
      AllHighPasses(v, levels, now, stamp);
    } else if Elapsed(now, v.stateStartMs) > PRECHECK_TIMEOUT_MS {
      AllHighTimesOut(v, levels, now, stamp);
    } else {
      AllHighWaits(v, levels, now, stamp);
    }
  }

  lemma AllHighPasses(v: Vars, levels: seq<bool>, now: Millis, stamp: Millis)
    requires |levels| == NUM_TEST_PINS && AllAt(levels, HIGH)
    ensures AllHighStage(v, levels, now, stamp) == PassAllHigh(BeginAllHigh(v), stamp)
  {
  }

  lemma AllHighTimesOut(v: Vars, levels: seq<bool>, now: Millis, stamp: Millis)
    requires |levels| == NUM_TEST_PINS && !AllAt(levels, HIGH) && Elapsed(now, v.stateStartMs) > PRECHECK_TIMEOUT_MS
    ensures AllHighStage(v, levels, now, stamp) == FailAllHigh(BeginAllHigh(v), levels, stamp)
  {
    BeginAllHighKeepsRun(v);
  }

  lemma AllHighWaits(v: Vars, levels: seq<bool>, now: Millis, stamp: Millis)
    requires |levels| == NUM_TEST_PINS && !AllAt(levels, HIGH) && Elapsed(now, v.stateStartMs) <= PRECHECK_TIMEOUT_MS
    ensures AllHighStage(v, levels, now, stamp) == BeginAllHigh(v)
  {
    BeginAllHighKeepsRun(v);
  }

  lemma BeginAllLowKeepsRun(v: Vars)
    ensures BeginAllLow(v).(beginAllLowPrinted := v.beginAllLowPrinted, out := v.out) == v
  {
  }

  /** ALL_LOW never fails a run: it moves on to SEQUENCE when every line
      reads LOW or when its timeout has passed, and waits otherwise; the
      precheck flag records a pass. */
  lemma AllLowOutcome(v: Vars, levels: seq<bool>, now: Millis, stamp: Millis)
    requires Inv(v) && v.state == WaitAllLow && |levels| == NUM_TEST_PINS
    ensures var r := AllLowStage(v, levels, now, stamp);
      && Inv(r) && r.startRequested == v.startRequested
      && (r.state == WaitAllLow || r.state == Sequence)
      && (r.state == Sequence <==> AllAt(levels, LOW) || Elapsed(now, v.stateStartMs) > LOW_STAGE_TIMEOUT_MS)
      && r.precheckAllLowOk == (v.precheckAllLowOk || AllAt(levels, LOW))
  {
    BeginAllLowKeepsRun(v);
    if AllAt(levels, LOW) {
      AllLowPasses(v, levels, now, stamp);
    } else if Elapsed(now, v.stateStartMs) > LOW_STAGE_TIMEOUT_MS {
      AllLowTimesOut(v, levels, now, stamp);
    } else {
      AllLowWaits(v, levels, now, stamp);
    }
  }

  lemma AllLowPasses(v: Vars, levels: seq<bool>, now: Millis, stamp: Millis)
    requires |levels| == NUM_TEST_PINS && AllAt(levels, LOW)
    ensures AllLowStage(v, levels, now, stamp) == PassAllLow(BeginAllLow(v), stamp)
  {
  }

  lemma AllLowTimesOut(v: Vars, levels: seq<bool>, now: Millis, stamp: Millis)
    requires |levels| == NUM_TEST_PINS && !AllAt(levels, LOW) && Elapsed(now, v.stateStartMs) > LOW_STAGE_TIMEOUT_MS
    ensures AllLowStage(v, levels, now, stamp) == FailAllLow(BeginAllLow(v), levels, stamp)
  {
    BeginAllLowKeepsRun(v);
  }

  lemma AllLowWaits(v: Vars, levels: seq<bool>, now: Millis, stamp: Millis)
    requires |levels| == NUM_TEST_PINS && !AllAt(levels, LOW) && Elapsed(now, v.stateStartMs) <= LOW_STAGE_TIMEOUT_MS
    ensures AllLowStage(v, levels, now, stamp) == BeginAllLow(v)
  {
    BeginAllLowKeepsRun(v);
  }

  // SEQUENCE.

  lemma BeginSequenceKeepsRun(v: Vars)
    ensures BeginSequence(v).(beginSequencePrinted := v.beginSequencePrinted, out := v.out) == v
  {
  }

  /** The SEQUENCE timeout either leaves the run alone or fails it; the
      marks and the expected line stay as they were. */
  lemma TimeoutOnlyFails(v: Vars, now: Millis, stamp: Millis)
    ensures var r := SequenceTimeout(v, now, stamp);
      && (r.state == v.state || r.state == Fail)
      && (r.state == Fail <==> v.state == Fail || Elapsed(now, v.stateStartMs) > SEQUENCE_TIMEOUT_MS)
      && r.expectedIndex == v.expectedIndex && r.pinWasHigh == v.pinWasHigh
      && r.startRequested == v.startRequested
  {
  }

  lemma JudgeLast(v: Vars, h: nat, stamp: Millis)
    requires h == v.expectedIndex == NUM_TEST_PINS - 1
    ensures var r := Judge(v, h, stamp);
      && r.1 && r.0.state == Success && r.0.expectedIndex == NUM_TEST_PINS
      && r.0.pinWasHigh == v.pinWasHigh && r.0.startRequested == v.startRequested
  {
  }

  lemma JudgeNext(v: Vars, h: nat, stamp: Millis)
    requires h == v.expectedIndex < NUM_TEST_PINS - 1
    ensures var r := Judge(v, h, stamp);
      && !r.1 && r.0.state == v.state && r.0.expectedIndex == h + 1
      && r.0.pinWasHigh == v.pinWasHigh && r.0.startRequested == v.startRequested
  {
  }

  lemma JudgeWrong(v: Vars, h: nat, stamp: Millis)
    requires h != v.expectedIndex && h < NUM_TEST_PINS
    ensures var r := Judge(v, h, stamp);
      && r.1 && r.0.state == Fail && r.0.expectedIndex == v.expectedIndex
      && r.0.pinWasHigh == v.pinWasHigh && r.0.startRequested == v.startRequested
  {
    if h > v.expectedIndex {
    } else {
    }
  }

  /** A rise of the expected line advances the run, and succeeds after the
      last line; a rise of any other line fails it. */
  lemma JudgeOutcome(v: Vars, h: nat, stamp: Millis)
    requires v.state == Sequence && h < NUM_TEST_PINS
    ensures var r := Judge(v, h, stamp);
      && r.0.pinWasHigh == v.pinWasHigh && r.0.startRequested == v.startRequested
      && r.0.expectedIndex == (if h == v.expectedIndex then h + 1 else v.expectedIndex)
      && (r.0.state == Success <==> h == v.expectedIndex == NUM_TEST_PINS - 1)
      && (h != v.expectedIndex ==> r.0.state == Fail)
      && (!r.1 ==> r.0.state == Sequence)
  {
    if h != v.expectedIndex {
      JudgeWrong(v, h, stamp);
    } else if h == NUM_TEST_PINS - 1 {
      JudgeLast(v, h, stamp);
    } else {
      JudgeNext(v, h, stamp);
    }
  }

  /** A rising edge on `h` marks it and keeps the rest of the run. */
  lemma MarkRiseSets(v: Vars, h: nat)
    requires WellFormed(v) && h < NUM_TEST_PINS
    ensures var m := MarkRise(v, h);
      && m.(pinWasHigh := v.pinWasHigh, out := v.out) == v
      && m.pinWasHigh == v.pinWasHigh[h := true]
  {
  }

  lemma SequenceSeveral(v: Vars, levels: seq<bool>, now: Millis, stamp: Millis)
    requires WellFormed(v) && |levels| == NUM_TEST_PINS && HighCount(levels) > 1
    ensures SequenceStage(v, levels, now, stamp) == FailPins(BeginSequence(v), levels, stamp)
  {
  }

  lemma SequenceSingle(v: Vars, levels: seq<bool>, now: Millis, stamp: Millis)
    requires WellFormed(v) && |levels| == NUM_TEST_PINS && HighCount(levels) == 1
    ensures BeginSequence(v).pinWasHigh == v.pinWasHigh
    ensures var r := Rise(BeginSequence(v), HighIdx(levels), stamp);
      SequenceStage(v, levels, now, stamp) == if r.1 then r.0 else SequenceTimeout(r.0, now, stamp)
  {
    BeginSequenceKeepsRun(v);
  }

  lemma SequenceNone(v: Vars, levels: seq<bool>, now: Millis, stamp: Millis)
    requires WellFormed(v) && |levels| == NUM_TEST_PINS && HighCount(levels) == 0
    ensures var v1 := BeginSequence(v);
      SequenceStage(v, levels, now, stamp) == SequenceTimeout(v1.(pinWasHigh := ClearedMarks(v1.pinWasHigh, levels)), now, stamp)
  {
  }

  /** A single HIGH line keeps the bookkeeping; when the step goes on to
      the timeout check, the run is still in SEQUENCE. */
  lemma RiseKeepsInv(v: Vars, h: nat, stamp: Millis)
    requires Inv(v) && v.state == Sequence && h < NUM_TEST_PINS
    ensures Inv(Rise(v, h, stamp).0)
    ensures !Rise(v, h, stamp).1 ==> Rise(v, h, stamp).0.state == Sequence
  {
    if !v.pinWasHigh[h] {
      MarkRiseSets(v, h);
      var m := MarkRise(v, h);
      JudgeOutcome(m, h, stamp);
      if h == v.expectedIndex {
        assert MarksBelow(m.pinWasHigh, h + 1);
      }
    }
  }

  /** One step of SEQUENCE keeps the bookkeeping. */
  lemma SequenceKeepsInv(v: Vars, levels: seq<bool>, now: Millis, stamp: Millis)
    requires Inv(v) && v.state == Sequence && |levels| == NUM_TEST_PINS
    ensures Inv(SequenceStage(v, levels, now, stamp))
  {
    var v1 := BeginSequence(v);
    BeginSequenceKeepsRun(v);
    var count := HighCount(levels);
    if count > 1 {
      SequenceSeveral(v, levels, now, stamp);
    } else if count == 1 {
      SequenceSingle(v, levels, now, stamp);
      var h := HighIdx(levels);
      RiseKeepsInv(v1, h, stamp);
      TimeoutOnlyFails(Rise(v1, h, stamp).0, now, stamp);
    } else {
      SequenceNone(v, levels, now, stamp);
      ClearedMarksBelow(v1.pinWasHigh, levels, v1.expectedIndex);
      TimeoutOnlyFails(v1.(pinWasHigh := ClearedMarks(v1.pinWasHigh, levels)), now, stamp);
    }
  }

  /** The single HIGH line `h`, already marked, is only held: the step
      goes on to the timeout check with the run as it was. */
  lemma HeldLine(v: Vars, levels: seq<bool>, now: Millis, stamp: Millis, h: nat)
    requires Inv(v) && v.state == Sequence && |levels| == NUM_TEST_PINS
    requires h < NUM_TEST_PINS && OnlyHigh(levels, h) && v.pinWasHigh[h]
    ensures var r := SequenceStage(v, levels, now, stamp);
      && r.state != Success && r.expectedIndex == v.expectedIndex && r.startRequested == v.startRequested
  {
    SingleHigh(levels, h);
    SequenceSingle(v, levels, now, stamp);
    TimeoutOnlyFails(BeginSequence(v), now, stamp);
  }

  /** The single HIGH line `h`, not yet marked, is judged. */
  lemma RisenLine(v: Vars, levels: seq<bool>, now: Millis, stamp: Millis, h: nat)
    requires Inv(v) && v.state == Sequence && |levels| == NUM_TEST_PINS
    requires h < NUM_TEST_PINS && OnlyHigh(levels, h) && !v.pinWasHigh[h]
    ensures var r := SequenceStage(v, levels, now, stamp);
      && (r.state == Success <==> h == v.expectedIndex == NUM_TEST_PINS - 1)
      && r.expectedIndex == (if h == v.expectedIndex then h + 1 else v.expectedIndex)
      && (h != v.expectedIndex ==> r.state == Fail)
      && r.startRequested == v.startRequested
  {
    SingleHigh(levels, h);
    SequenceSingle(v, levels, now, stamp);
    var v1 := BeginSequence(v);
    BeginSequenceKeepsRun(v);
    MarkRiseSets(v1, h);
    JudgeOutcome(MarkRise(v1, h), h, stamp);
    TimeoutOnlyFails(Judge(MarkRise(v1, h), h, stamp).0, now, stamp);
  }

  /** No single HIGH line: the step cannot succeed or advance. */
  lemma NoSingleLine(v: Vars, levels: seq<bool>, now: Millis, stamp: Millis)
    requires Inv(v) && v.state == Sequence && |levels| == NUM_TEST_PINS && HighCount(levels) != 1
    ensures var r := SequenceStage(v, levels, now, stamp);
      && r.state != Success && r.expectedIndex == v.expectedIndex && r.startRequested == v.startRequested
  {
    var v1 := BeginSequence(v);
    BeginSequenceKeepsRun(v);
    if HighCount(levels) > 1 {
      SequenceSeveral(v, levels, now, stamp);
    } else {
      SequenceNone(v, levels, now, stamp);
      TimeoutOnlyFails(v1.(pinWasHigh := ClearedMarks(v1.pinWasHigh, levels)), now, stamp);
    }
  }

  /** How one step of SEQUENCE ends: it succeeds exactly when the last line
      rises alone while it is the one expected, and the expected line
      advances by one exactly when it rises alone. */
  lemma SequenceOutcome(v: Vars, levels: seq<bool>, now: Millis, stamp: Millis)
    requires Inv(v) && v.state == Sequence && |levels| == NUM_TEST_PINS
    ensures var r := SequenceStage(v, levels, now, stamp);
      && (r.state == Success <==> v.expectedIndex == NUM_TEST_PINS - 1 && OnlyHigh(levels, NUM_TEST_PINS - 1))
      && r.expectedIndex == (if OnlyHigh(levels, v.expectedIndex) then v.expectedIndex + 1 else v.expectedIndex)
      && r.startRequested == v.startRequested
  {
    var e := v.expectedIndex;
    if OnlyHigh(levels, e) {
      SingleHigh(levels, e);
    }
    if OnlyHigh(levels, NUM_TEST_PINS - 1) {
      SingleHigh(levels, NUM_TEST_PINS - 1);
    }
    if HighCount(levels) == 1 {
      var h := HighIdx(levels);
      SingleHigh(levels, h);
      if v.pinWasHigh[h] {
        HeldLine(v, levels, now, stamp, h);
      } else {
        RisenLine(v, levels, now, stamp, h);
      }
    } else {
      NoSingleLine(v, levels, now, stamp);
    }
  }

  // One call of `loop()`.

  /** Every call of `loop()` keeps the bookkeeping. */
  lemma StepPreservesInv(v: Vars, t: Tick)
    requires Inv(v) && |t.levels| == NUM_TEST_PINS
    ensures Inv(Step(v, t))
  {
    PreludeKeepsRun(v, t);
    var v1 := Prelude(v, t);
    var pressed := Pressed(v1, t.button, t.now);
    match v.state
    case WaitButton => WaitButtonOutcome(v1, pressed, t.now, t.stamp);
    case WaitAllHigh => AllHighOutcome(v1, t.levels, t.now, t.stamp);
    case WaitAllLow => AllLowOutcome(v1, t.levels, t.now, t.stamp);
    case Sequence => SequenceKeepsInv(v1, t.levels, t.now, t.stamp);
    case Success => SuccessOutcome(v1, t.stamp);
    case Fail => FailOutcome(v1, pressed, t.now, t.stamp);
  }

  /** A run succeeds exactly when the last line rises alone while it is the
      one expected. */
  lemma SuccessExactlyOnLastRise(v: Vars, t: Tick)
    requires Inv(v) && v.state == Sequence && |t.levels| == NUM_TEST_PINS
    ensures Step(v, t).state == Success <==>
      v.expectedIndex == NUM_TEST_PINS - 1 && OnlyHigh(t.levels, NUM_TEST_PINS - 1)
  {
    PreludeKeepsRun(v, t);
    SequenceOutcome(Prelude(v, t), t.levels, t.now, t.stamp);
  }

  /** In SEQUENCE the expected line advances by one exactly when it is the
      only HIGH line, and stays put otherwise. */
  lemma SequenceAdvance(v: Vars, t: Tick)
    requires Inv(v) && v.state == Sequence && |t.levels| == NUM_TEST_PINS
    ensures Step(v, t).expectedIndex ==
      if OnlyHigh(t.levels, v.expectedIndex) then v.expectedIndex + 1 else v.expectedIndex
  {
    PreludeKeepsRun(v, t);
    SequenceOutcome(Prelude(v, t), t.levels, t.now, t.stamp);
  }

  /** Two or more HIGH lines at once fail the run, naming them. */
  lemma SeveralHighFail(v: Vars, t: Tick)
    requires Inv(v) && v.state == Sequence && |t.levels| == NUM_TEST_PINS
    requires HighCount(t.levels) > 1
    ensures Step(v, t).state == Fail
    ensures Step(v, t).out[|Step(v, t).out| - 1] == MSG_SEQ_FAIL_PINS + PinsByLevel(t.levels, HIGH)
  {
    PreludeKeepsRun(v, t);
    SequenceSeveral(Prelude(v, t), t.levels, t.now, t.stamp);
  }

  /** A line rising alone ahead of the expected one, or again after its
      turn once its mark was cleared, fails the run. */
  lemma WrongRiseFails(v: Vars, t: Tick, h: nat)
    requires Inv(v) && v.state == Sequence && |t.levels| == NUM_TEST_PINS
    requires h < NUM_TEST_PINS && OnlyHigh(t.levels, h) && h != v.expectedIndex && !v.pinWasHigh[h]
    ensures Step(v, t).state == Fail
  {
    PreludeKeepsRun(v, t);
    RisenLine(Prelude(v, t), t.levels, t.now, t.stamp, h);
  }

  /** ALL_HIGH never fails a run: it moves on to ALL_LOW when every line
      reads HIGH or when its timeout has passed, and waits otherwise. */
  lemma AllHighMovesOn(v: Vars, t: Tick)
    requires Inv(v) && v.state == WaitAllHigh && |t.levels| == NUM_TEST_PINS
    ensures Step(v, t).state == WaitAllHigh || Step(v, t).state == WaitAllLow
    ensures Step(v, t).state == WaitAllLow <==>
      AllAt(t.levels, HIGH) || Elapsed(t.now, v.stateStartMs) > PRECHECK_TIMEOUT_MS
    ensures Step(v, t).precheckAllHighOk == (v.precheckAllHighOk || AllAt(t.levels, HIGH))
  {
    PreludeKeepsRun(v, t);
    AllHighOutcome(Prelude(v, t), t.levels, t.now, t.stamp);
  }

  /** ALL_LOW never fails a run: it moves on to SEQUENCE when every line
      reads LOW or when its timeout has passed, and waits otherwise. */
  lemma AllLowMovesOn(v: Vars, t: Tick)
    requires Inv(v) && v.state == WaitAllLow && |t.levels| == NUM_TEST_PINS
    ensures Step(v, t).state == WaitAllLow || Step(v, t).state == Sequence
    ensures Step(v, t).state == Sequence <==>
      AllAt(t.levels, LOW) || Elapsed(t.now, v.stateStartMs) > LOW_STAGE_TIMEOUT_MS
    ensures Step(v, t).precheckAllLowOk == (v.precheckAllLowOk || AllAt(t.levels, LOW))
  {
    PreludeKeepsRun(v, t);
    AllLowOutcome(Prelude(v, t), t.levels, t.now, t.stamp);
  }

  /** A START command while idle or after a failure starts a fresh run at
      once, whatever the button does. */
  lemma StartCommandStartsRun(v: Vars, t: Tick)
    requires Inv(v) && (v.state == WaitButton || v.state == Fail) && |t.levels| == NUM_TEST_PINS
    requires t.command.Some? && IsStart(t.command.value)
    ensures FreshRun(Step(v, t), t.stamp)
  {
    PreludeKeepsRun(v, t);
    var v1 := Prelude(v, t);
    var pressed := Pressed(v1, t.button, t.now);
    if v.state == WaitButton {
      WaitButtonOutcome(v1, pressed, t.now, t.stamp);
    } else {
      FailOutcome(v1, pressed, t.now, t.stamp);
    }
  }

  /** A START command during a run, or on the step that reports SUCCESS,
      is remembered for the next time the firmware waits for the button. */
  lemma StartCommandRemembered(v: Vars, t: Tick)
    requires Inv(v) && v.state != WaitButton && v.state != Fail
    requires |t.levels| == NUM_TEST_PINS && t.command.Some? && IsStart(t.command.value)
    ensures Step(v, t).startRequested
  {
    PreludeKeepsRun(v, t);
    var v1 := Prelude(v, t);
    match v.state
    case WaitAllHigh => AllHighOutcome(v1, t.levels, t.now, t.stamp);
    case WaitAllLow => AllLowOutcome(v1, t.levels, t.now, t.stamp);
    case Sequence => SequenceOutcome(v1, t.levels, t.now, t.stamp);
    case Success => SuccessOutcome(v1, t.stamp);
  }

  /** A FLASH or DFU command prints its notice and two reset lines and
      leaves the test where it was. */
  lemma FlashCommandResetsTwice(v: Vars, c: string)
    requires !IsStart(c) && IsFlash(c)
    ensures HandleCommand(v, Some(c)).out == v.out + [MSG_FLASH_RECEIVED] + [MSG_SENT_RESET] + [MSG_SENT_RESET]
    ensures HandleCommand(v, Some(c)).(out := v.out) == v
  {
  }

  // The command words.

  /** The command words differ even ignoring case. */
  lemma WordsDiffer()
    ensures !EqualsIgnoreCase("START", "FLASH") && !EqualsIgnoreCase("START", "DFU")
  {
    assert Upper("START")[0] == 'S' && Upper("FLASH")[0] == 'F';
  }

  /** No command text is both START and a FLASH command, so the order of
      the two tests in `loop()` never matters. */
  lemma StartAndFlashExclusive(c: string)
    ensures !(IsStart(c) && IsFlash(c))
  {
    WordsDiffer();
  }

  lemma StartUntrimmed()
    ensures ArduinoTrim("START") == "START"
  {
    TrimUntouched("START", C_WHITESPACE);
  }

  lemma FlashUntrimmed()
    ensures ArduinoTrim("FLASH") == "FLASH"
  {
    TrimUntouched("FLASH", C_WHITESPACE);
  }

  lemma DfuUntrimmed()
    ensures ArduinoTrim("Dfu") == "Dfu"
  {
    TrimUntouched("Dfu", C_WHITESPACE);
  }

  lemma NoLeadingBlank()
    ensures TrimLeft("start\r", C_WHITESPACE) == "start\r"
  {
    TrimLeftStops("start\r", C_WHITESPACE);
  }

  lemma LeadingBlankTrimmed()
    ensures TrimLeft(" start\r", C_WHITESPACE) == "start\r"
  {
    TrimLeftSkips(" start\r", C_WHITESPACE);
    assert " start\r"[1..] == "start\r";
    NoLeadingBlank();
  }

  lemma TrailingReturnTrimmed()
    ensures TrimRight("start\r", C_WHITESPACE) == "start"
  {
    assert "start\r"[..5] == "start";
  }

  /** `String::trim()` removes the leading blank and the carriage return
      that `readStringUntil('\n')` leaves. */
  lemma PaddedTrimmed()
    ensures ArduinoTrim(" start\r") == "start"
  {
    LeadingBlankTrimmed();
    TrailingReturnTrimmed();
  }

  lemma LowerStartMatches()
    ensures EqualsIgnoreCase("start", "START")
  {
  }

  /** "START" as the desktop controller sends it. */
  lemma StartWordRecognised()
    ensures IsStart("START") && !IsFlash("START")
  {
    StartUntrimmed();
    WordsDiffer();
  }

  /** "FLASH" as the desktop controller sends it. */
  lemma FlashWordRecognised()
    ensures IsFlash("FLASH") && !IsStart("FLASH")
  {
    FlashUntrimmed();
    WordsDiffer();
  }

  /** Surrounding white space and letter case do not matter to START. */
  lemma PaddedStartRecognised()
    ensures IsStart(" start\r")
  {
    PaddedTrimmed();
    LowerStartMatches();
  }

  lemma DfuMatches()
    ensures EqualsIgnoreCase("Dfu", "DFU")
  {
  }

  /** DFU is a FLASH command in any letter case. */
  lemma DfuRecognised()
    ensures IsFlash("Dfu")
  {
    DfuUntrimmed();
    DfuMatches();
  }
}
