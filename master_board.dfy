/** The Master firmware's globals and its `setup()` and `loop()` as the
    board runs them, proved to follow the step function of `MasterFirmware`
    one call of `loop()` at a time. */
module MasterBoard {
  import opened Wrappers
  import opened Text
  import opened MasterFirmware
  import MF = MasterFirmware

  /** The firmware's globals. The serial port is the sequence of lines
      printed so far. */
  class Board {
    var state: TestState
    var stateStartMs: Millis
    var lastBlinkMs: Millis
    var lastButtonEdgeMs: Millis
    var lastButtonState: bool
    var expectedIndex: nat
    const pinWasHigh: array<bool>
    var precheckAllHighOk: bool
    var precheckAllLowOk: bool
    var startRequested: bool
    var beginAllHighPrinted: bool
    var beginAllLowPrinted: bool
    var beginSequencePrinted: bool
    var beginFailPrinted: bool
    var out: seq<string>

    predicate Valid()
      reads this
    {
      pinWasHigh.Length == NUM_TEST_PINS
    }

    /** The globals as a value of `Vars`. */
    function Globals(): Vars
      reads this, pinWasHigh
    {
      Vars(state, stateStartMs, lastBlinkMs, lastButtonEdgeMs, lastButtonState, expectedIndex, pinWasHigh[..],
        precheckAllHighOk, precheckAllLowOk, startRequested, beginAllHighPrinted, beginAllLowPrinted,
        beginSequencePrinted, beginFailPrinted, out)
    }

    /** `setup()`; `toState(STATE_WAIT_BUTTON)` reads `stamp`. */
    constructor (stamp: Millis)
      ensures Valid() && fresh(pinWasHigh)
      ensures Globals() == MF.Setup(stamp)
    {
      state := WaitButton;
      stateStartMs := 0;
      lastBlinkMs := 0;
      lastButtonEdgeMs := 0;
      lastButtonState := HIGH;
      expectedIndex := 0;
      precheckAllHighOk := false;
      precheckAllLowOk := false;
      startRequested := false;
      beginAllHighPrinted := false;
      beginAllLowPrinted := false;
      beginSequencePrinted := false;
      beginFailPrinted := false;
      out := [];
      pinWasHigh := new bool[NUM_TEST_PINS];
      new;
      ClearMarks();
      Println(MSG_READY);
      ToState(WaitButton, stamp);
    }

    /** `Serial.println(line)` */
    method Println(line: string)
      modifies this`out
      ensures out == old(out) + [line]
    {
      out := out + [line];
    }

    /** `toState(s)`; `millis()` reads `stamp`. */
    method ToState(s: TestState, stamp: Millis)
      modifies this`state, this`stateStartMs
      ensures state == s && stateStartMs == stamp
    {
      state := s;
      stateStartMs := stamp;
    }

    /** `enterFlashMode()` */
    method EnterFlashMode()
      modifies this`out
      ensures out == old(out) + [MSG_FLASH_RECEIVED] + [MSG_SENT_RESET] + [MSG_SENT_RESET]
    {
      Println(MSG_FLASH_RECEIVED);
      PulseReset();
      PulseReset();
    }

    /** `pulseReset()` */
    method PulseReset()
      modifies this`out
      ensures out == old(out) + [MSG_SENT_RESET]
    {
      Println(MSG_SENT_RESET);
    }

    /** Every mark cleared, one test line at a time. */
    method ClearMarks()
      requires Valid()
      modifies pinWasHigh
      ensures pinWasHigh[..] == NoMarks()
    {
      for i := 0 to NUM_TEST_PINS
        invariant forall k :: 0 <= k < i ==> !pinWasHigh[k]
      {
        pinWasHigh[i] := false;
      }
    }

    /** The `Serial.print(prefix)` and `printDynamicPinsByLevel(level)` pair:
        one line naming the lines sampled at `level`, separated by ", ". */
    method PrintPinsByLevel(prefix: string, levels: seq<bool>, level: bool)
      requires |levels| == NUM_TEST_PINS
      modifies this`out
      ensures out == old(out) + [prefix + PinsByLevel(levels, level)]
    {
      var text := prefix;
      var first := true;
      ghost var labels: seq<string> := [];
      for i := 0 to NUM_TEST_PINS
        invariant labels == LabelsAt(levels[..i], level)
        invariant text == prefix + Join(labels, ", ")
        invariant first <==> labels == []
        invariant out == old(out)
      {
        NextLabel(prefix, levels, level, i, labels);
        if levels[i] == level {
          var name := TEST_LABELS[i];
          if !first {
            text := text + ", ";
          }
          text := text + name;
          first := false;
          labels := labels + [name];
        }
      }
      assert levels[..NUM_TEST_PINS] == levels;
      Println(text);
    }

    /** The loop of ALL_HIGH and ALL_LOW: stop at the first line not at `level`. */
    static method ReadAll(levels: seq<bool>, level: bool) returns (all: bool)
      ensures all <==> AllAt(levels, level)
    {
      all := true;
      for i := 0 to |levels|
        invariant all <==> AllAt(levels[..i], level)
      {
        if levels[i] != level {
          all := false;
          break;
        }
      }
    }

    /** The counting loop of SEQUENCE. */
    static method CountHigh(levels: seq<bool>) returns (highCount: nat, highIdx: int)
      ensures highCount == HighCount(levels) && highIdx == HighIdx(levels)
    {
      highCount, highIdx := 0, -1;
      for i := 0 to |levels|
        invariant highCount == HighCount(levels[..i]) && highIdx == HighIdx(levels[..i])
      {
        assert levels[..i + 1][..i] == levels[..i];
        if levels[i] == HIGH {
          highCount := highCount + 1;
          highIdx := i;
        }
      }
      assert levels[..|levels|] == levels;
    }

    /** The loop that clears the mark of every line sampled LOW. */
    method ClearLowMarks(levels: seq<bool>)
      requires Valid() && |levels| == NUM_TEST_PINS
      modifies pinWasHigh
      ensures pinWasHigh[..] == ClearedMarks(old(pinWasHigh[..]), levels)
    {
      for i := 0 to NUM_TEST_PINS
        invariant forall k :: 0 <= k < i ==> pinWasHigh[k] == (old(pinWasHigh[k]) && levels[k])
        invariant forall k :: i <= k < NUM_TEST_PINS ==> pinWasHigh[k] == old(pinWasHigh[k])
      {
        if levels[i] == LOW {
          pinWasHigh[i] := false;
        }
      }
    }

    /** One call of `loop()`. */
    method Loop(t: Tick)
      requires Valid() && |t.levels| == NUM_TEST_PINS
      modifies this, pinWasHigh
      ensures Globals() == Step(old(Globals()), t)
    {
      ReadCommand(t.command);
      var pressed := ReadButton(t.button, t.now);
      match state
      case WaitButton => WaitButtonStage(pressed, t.now, t.stamp);
      case WaitAllHigh => AllHighStage(t.levels, t.now, t.stamp);
      case WaitAllLow => AllLowStage(t.levels, t.now, t.stamp);
      case Sequence => SequenceStage(t.levels, t.now, t.stamp);
      case Success => SuccessStage(t.stamp);
      case Fail => FailStage(pressed, t.now, t.stamp);
    }

    /** The serial command at the top of `loop()`. */
    method ReadCommand(command: Option<string>)
      modifies this`startRequested, this`out
      ensures Globals() == HandleCommand(old(Globals()), command)
    {
      if command.Some? {
        if IsStart(command.value) {
          startRequested := true;
          Println(MSG_START_RECEIVED);
        } else if IsFlash(command.value) {
          EnterFlashMode();
        }
      }
    }

    /** The debouncer: record an edge, then decide whether the button is pressed. */
    method ReadButton(button: bool, now: Millis) returns (pressed: bool)
      modifies this`lastButtonEdgeMs, this`lastButtonState
      ensures Globals() == TrackButton(old(Globals()), button, now)
      ensures pressed == Pressed(Globals(), button, now)
    {
      if button != lastButtonState {
        lastButtonEdgeMs := now;
        lastButtonState := button;
      }
      pressed := button == LOW && Elapsed(now, lastButtonEdgeMs) > DEBOUNCE_MS;
    }

    /** STATE_WAIT_BUTTON */
    method WaitButtonStage(pressed: bool, now: Millis, stamp: Millis)
      requires Valid()
      modifies this, pinWasHigh
      ensures Globals() == MF.WaitButtonStage(old(Globals()), pressed, now, stamp)
    {
      Heartbeat(now);
      if pressed || startRequested {
        StartTest(stamp);
      }
    }

    /** The heartbeat of STATE_WAIT_BUTTON. */
    method Heartbeat(now: Millis)
      modifies this`out, this`lastBlinkMs
      ensures Globals() == MF.Heartbeat(old(Globals()), now)
    {
      if Elapsed(now, lastBlinkMs) >= IDLE_PERIOD_MS {
        Println(MSG_IDLE);
        lastBlinkMs := now;
      }
    }

    /** The start from STATE_WAIT_BUTTON. */
    method StartTest(stamp: Millis)
      requires Valid()
      modifies this, pinWasHigh
      ensures Globals() == MF.StartTest(old(Globals()), stamp)
    {
      Announce();
      ClearRun();
      ToState(WaitAllHigh, stamp);
    }

    /** The opening of a run: "START" and a reset pulse. */
    method Announce()
      modifies this`startRequested, this`out
      ensures Globals() == MF.Announce(old(Globals()))
    {
      startRequested := false;
      Println(MSG_START);
      PulseReset();
    }

    /** The clearing of the previous run's marks and flags. */
    method ClearRun()
      requires Valid()
      modifies this`precheckAllHighOk, this`precheckAllLowOk, this`expectedIndex, pinWasHigh
      modifies this`beginAllHighPrinted, this`beginFailPrinted
      ensures Globals() == MF.ClearRun(old(Globals()))
    {
      precheckAllHighOk := false;
      precheckAllLowOk := false;
      expectedIndex := 0;
      ClearMarks();
      beginAllHighPrinted := false;
      beginFailPrinted := false;
    }

    /** The first-step BEGIN line of STATE_WAIT_ALL_HIGH. */
    method BeginAllHigh()
      modifies this`out, this`beginAllHighPrinted
      ensures Globals() == MF.BeginAllHigh(old(Globals()))
    {
      if !beginAllHighPrinted {
        Println(MSG_ALL_HIGH_BEGIN);
        beginAllHighPrinted := true;
      }
    }

    /** The first-step BEGIN line of STATE_WAIT_ALL_LOW. */
    method BeginAllLow()
      modifies this`out, this`beginAllLowPrinted
      ensures Globals() == MF.BeginAllLow(old(Globals()))
    {
      if !beginAllLowPrinted {
        Println(MSG_ALL_LOW_BEGIN);
        beginAllLowPrinted := true;
      }
    }

    /** The first-step BEGIN line of STATE_SEQUENCE. */
    method BeginSequence()
      modifies this`out, this`beginSequencePrinted
      ensures Globals() == MF.BeginSequence(old(Globals()))
    {
      if !beginSequencePrinted {
        Println(MSG_SEQ_BEGIN);
        beginSequencePrinted := true;
      }
    }

    /** STATE_WAIT_ALL_HIGH */
    method AllHighStage(levels: seq<bool>, now: Millis, stamp: Millis)
      requires Valid() && |levels| == NUM_TEST_PINS
      modifies this
      ensures Globals() == MF.AllHighStage(old(Globals()), levels, now, stamp)
    {
      BeginAllHigh();
      var allHigh := ReadAll(levels, HIGH);
      if allHigh {
        PassAllHigh(stamp);
      } else if Elapsed(now, stateStartMs) > PRECHECK_TIMEOUT_MS {
        FailAllHigh(levels, stamp);
      }
    }

    /** ALL_HIGH: OK, and on to STATE_WAIT_ALL_LOW. */
    method PassAllHigh(stamp: Millis)
      modifies this`out, this`precheckAllHighOk, this`beginAllLowPrinted, this`state, this`stateStartMs
      ensures Globals() == MF.PassAllHigh(old(Globals()), stamp)
    {
      Println(MSG_ALL_HIGH_OK);
      precheckAllHighOk := true;
      beginAllLowPrinted := false;
      ToState(WaitAllLow, stamp);
    }

    /** ALL_HIGH: ERROR with the LOW lines, and on to STATE_WAIT_ALL_LOW regardless. */
    method FailAllHigh(levels: seq<bool>, stamp: Millis)
      requires |levels| == NUM_TEST_PINS
      modifies this`out, this`beginAllLowPrinted, this`state, this`stateStartMs
      ensures Globals() == MF.FailAllHigh(old(Globals()), levels, stamp)
    {
      PrintPinsByLevel(MSG_ALL_HIGH_ERROR, levels, LOW);
      beginAllLowPrinted := false;
      ToState(WaitAllLow, stamp);
    }

    /** STATE_WAIT_ALL_LOW */
    method AllLowStage(levels: seq<bool>, now: Millis, stamp: Millis)
      requires Valid() && |levels| == NUM_TEST_PINS
      modifies this
      ensures Globals() == MF.AllLowStage(old(Globals()), levels, now, stamp)
    {
      BeginAllLow();
      var allLow := ReadAll(levels, LOW);
      if allLow {
        PassAllLow(stamp);
      } else if Elapsed(now, stateStartMs) > LOW_STAGE_TIMEOUT_MS {
        FailAllLow(levels, stamp);
      }
    }

    /** ALL_LOW: OK, and on to STATE_SEQUENCE. */
    method PassAllLow(stamp: Millis)
      modifies this`out, this`precheckAllLowOk, this`beginSequencePrinted, this`state, this`stateStartMs
      ensures Globals() == MF.PassAllLow(old(Globals()), stamp)
    {
      Println(MSG_ALL_LOW_OK);
      precheckAllLowOk := true;
      beginSequencePrinted := false;
      ToState(Sequence, stamp);
    }

    /** ALL_LOW: ERROR with the HIGH lines, and on to STATE_SEQUENCE regardless. */
    method FailAllLow(levels: seq<bool>, stamp: Millis)
      requires |levels| == NUM_TEST_PINS
      modifies this`out, this`beginSequencePrinted, this`state, this`stateStartMs
      ensures Globals() == MF.FailAllLow(old(Globals()), levels, stamp)
    {
      PrintPinsByLevel(MSG_ALL_LOW_ERROR, levels, HIGH);
      beginSequencePrinted := false;
      ToState(Sequence, stamp);
    }

    /** STATE_SEQUENCE */
    method SequenceStage(levels: seq<bool>, now: Millis, stamp: Millis)
      requires Valid() && |levels| == NUM_TEST_PINS
      modifies this, pinWasHigh
      ensures Globals() == MF.SequenceStage(old(Globals()), levels, now, stamp)
    {
      BeginSequence();
      var highCount, highIdx := CountHigh(levels);
      if highCount > 1 {
        FailPins(levels, stamp);
        return;
      }
      if highCount == 1 {
        var brk := Rise(highIdx, stamp);
        if brk {
          return;
        }
      } else {
        ClearLowMarks(levels);
      }
      SequenceTimeout(now, stamp);
    }

    /** SEQUENCE: ERROR with every HIGH line, and on to STATE_FAIL. */
    method FailPins(levels: seq<bool>, stamp: Millis)
      requires |levels| == NUM_TEST_PINS
      modifies this`out, this`state, this`stateStartMs
      ensures Globals() == MF.FailPins(old(Globals()), levels, stamp)
    {
      PrintPinsByLevel(MSG_SEQ_FAIL_PINS, levels, HIGH);
      ToState(Fail, stamp);
    }

    /** The single HIGH line `h` of STATE_SEQUENCE; `brk` is the `break`. */
    method Rise(h: nat, stamp: Millis) returns (brk: bool)
      requires Valid() && h < NUM_TEST_PINS
      modifies this, pinWasHigh
      ensures (Globals(), brk) == MF.Rise(old(Globals()), h, stamp)
    {
      brk := false;
      if !pinWasHigh[h] {
        MarkRise(h);
        brk := Judge(h, stamp);
      }
    }

    /** The mark of a rising line, and its OK line. */
    method MarkRise(h: nat)
      requires Valid() && h < NUM_TEST_PINS
      modifies this`out, pinWasHigh
      ensures Globals() == MF.MarkRise(old(Globals()), h)
    {
      pinWasHigh[h] := true;
      Println(MSG_SEQ_RISE + TEST_LABELS[h]);
    }

    /** The verdict on the rise of `h`. */
    method Judge(h: nat, stamp: Millis) returns (brk: bool)
      requires h < NUM_TEST_PINS
      modifies this`out, this`expectedIndex, this`state, this`stateStartMs
      ensures (Globals(), brk) == MF.Judge(old(Globals()), h, stamp)
    {
      brk := false;
      if h == expectedIndex {
        expectedIndex := expectedIndex + 1;
        if expectedIndex == NUM_TEST_PINS {
          Println(MSG_SEQ_ALL_OK);
          ToState(Success, stamp);
          brk := true;
        }
      } else if h > expectedIndex {
        Println(OrderLine(expectedIndex, h));
        ToState(Fail, stamp);
        brk := true;
      } else {
        Println(MSG_SEQ_EARLIER + TEST_LABELS[h]);
        ToState(Fail, stamp);
        brk := true;
      }
    }

    /** The timeout check at the end of STATE_SEQUENCE. */
    method SequenceTimeout(now: Millis, stamp: Millis)
      modifies this
      ensures Globals() == MF.SequenceTimeout(old(Globals()), now, stamp)
    {
      if Elapsed(now, stateStartMs) > SEQUENCE_TIMEOUT_MS {
        var expected := if expectedIndex < NUM_TEST_PINS then TEST_LABELS[expectedIndex] else "end";
        Println(MSG_SEQ_TIMEOUT + expected);
        ToState(Fail, stamp);
      }
    }

    /** STATE_SUCCESS */
    method SuccessStage(stamp: Millis)
      modifies this
      ensures Globals() == MF.SuccessStage(old(Globals()), stamp)
    {
      Println(MSG_SUCCESS);
      ToState(WaitButton, stamp);
    }

    /** STATE_FAIL */
    method FailStage(pressed: bool, now: Millis, stamp: Millis)
      requires Valid()
      modifies this, pinWasHigh
      ensures Globals() == MF.FailStage(old(Globals()), pressed, now, stamp)
    {
      FailBlink(now);
      if pressed || startRequested {
        RestartTest(stamp);
      }
    }

    /** The FAIL line and the blink clock of STATE_FAIL. */
    method FailBlink(now: Millis)
      modifies this`out, this`beginFailPrinted, this`lastBlinkMs
      ensures Globals() == MF.FailBlink(old(Globals()), now)
    {
      if !beginFailPrinted {
        Println(MSG_FAIL);
        beginFailPrinted := true;
      }
      if Elapsed(now, lastBlinkMs) >= FAIL_BLINK_MS {
        lastBlinkMs := now;
      }
    }

    /** The restart from STATE_FAIL. */
    method RestartTest(stamp: Millis)
      requires Valid()
      modifies this, pinWasHigh
      ensures Globals() == MF.RestartTest(old(Globals()), stamp)
    {
      Announce();
      ClearRun();
      beginAllLowPrinted := false;
      beginSequencePrinted := false;
      ToState(WaitAllHigh, stamp);
    }
  }

  /** One more line of `printDynamicPinsByLevel`: its label joins the list
      when it reads `level`, after a separator unless it is the first. */
  lemma NextLabel(prefix: string, levels: seq<bool>, level: bool, i: nat, labels: seq<string>)
    requires |levels| == NUM_TEST_PINS && i < NUM_TEST_PINS && labels == LabelsAt(levels[..i], level)
    ensures LabelsAt(levels[..i + 1], level) == labels + (if levels[i] == level then [TEST_LABELS[i]] else [])
    ensures prefix + Join(labels + [TEST_LABELS[i]], ", ") ==
      (if labels == [] then prefix + Join(labels, ", ") else prefix + Join(labels, ", ") + ", ") + TEST_LABELS[i]
  {
    assert levels[..i + 1][..i] == levels[..i];
    JoinSnoc(labels, TEST_LABELS[i], ", ");
  }
}
