/** The Master firmware (mcu_firmwares/master_firmware/src/main.cpp): the
    bench controller that resets the Target, samples the nineteen test lines
    and reports each stage of the test on its serial port.

    One call of `loop()` is one step. What the step reads from the hardware
    is given to it as a `Tick`:
    - the text of the serial command, when one is available;
    - the button level (true is HIGH, the released state of the pull-up);
    - `now`, the value of `millis()` at the top of `loop()`, and `stamp`,
      the value `toState` reads when the step changes state;
    - one sample of every test line, in `TEST_PINS` order (true is HIGH).
    Serial output is the sequence of complete lines the step prints. */
module MasterFirmware {
  import opened Wrappers
  import opened Text

  /** The test lines, in the order the Target raises them. Index 0 is the
      Target's power rail, read on P1_07. */
  const TEST_PINS: seq<string> := [
    "P1_07", "P0_31", "P0_29", "P0_02", "P1_15", "P1_13", "P1_11", "P0_10", "P0_09", "P1_06",
    "P1_04", "P0_11", "P1_00", "P0_24", "P0_22", "P0_20", "P0_17", "P0_08", "P0_06"]

  /** The console label of each test line. */
  const TEST_LABELS: seq<string> := [
    "P1_07(VCC)", "P0_31", "P0_29", "P0_02", "P1_15", "P1_13", "P1_11", "P0_10", "P0_09", "P1_06",
    "P1_04", "P0_11", "P1_00", "P0_24", "P0_22", "P0_20", "P0_17", "P0_08", "P0_06"]

  const NUM_TEST_PINS := 19

  const PRECHECK_TIMEOUT_MS := 3000
  const LOW_STAGE_TIMEOUT_MS := 3000
  const SEQUENCE_TIMEOUT_MS := 15000
  const DEBOUNCE_MS := 50
  /** Heartbeat period while idle, and blink period after a failure. */
  const IDLE_PERIOD_MS := 500
  const FAIL_BLINK_MS := 150

  const HIGH := true
  const LOW := false

  const MSG_READY := "Master: READY"
  const MSG_SENT_RESET := "Master: SENT RESET"
  const MSG_FLASH_RECEIVED := "Master: FLASH command received."
  const MSG_START_RECEIVED := "Master: START command received."
  const MSG_IDLE := "Master: STAGE \U{2014} IDLE: OK"
  const MSG_START := "Master: START"
  const MSG_ALL_HIGH_BEGIN := "Master: STAGE \U{2014} ALL_HIGH: BEGIN"
  const MSG_ALL_HIGH_OK := "Master: STAGE \U{2014} ALL_HIGH: OK"
  const MSG_ALL_HIGH_ERROR := "Master: STAGE \U{2014} ALL_HIGH: ERROR. LOW_PINS: "
  const MSG_ALL_LOW_BEGIN := "Master: STAGE \U{2014} ALL_LOW: BEGIN"
  const MSG_ALL_LOW_OK := "Master: STAGE \U{2014} ALL_LOW: OK"
  const MSG_ALL_LOW_ERROR := "Master: STAGE \U{2014} ALL_LOW: ERROR. HIGH_PINS: "
  const MSG_SEQ_BEGIN := "Master: STAGE \U{2014} SEQUENCE: BEGIN"
  const MSG_SEQ_FAIL_PINS := "Master: STAGE \U{2014} SEQUENCE: ERROR. FAIL_PINS: "
  const MSG_SEQ_RISE := "Master: STAGE \U{2014} SEQUENCE: OK \U{2014} "
  const MSG_SEQ_ALL_OK := "Master: STAGE \U{2014} SEQUENCE: ALL OK"
  const MSG_SEQ_ORDER := "Master: STAGE \U{2014} SEQUENCE: ERROR. THE ORDER OF SEQUENCE IS VIOLATED. EXPECTED: "
  const MSG_SEQ_RECEIVED := ", RECIVED "
  const MSG_SEQ_EARLIER := "Master: STAGE \U{2014} SEQUENCE: ERROR. REPEATED/EARLIER RAISE "
  const MSG_SEQ_TIMEOUT := "Master: STAGE \U{2014} SEQUENCE: ERROR. TIMEOUT. EXPECTED: "
  const MSG_SUCCESS := "Master: STAGE \U{2014} SUCCESS: OK"
  const MSG_FAIL := "Master: FAIL"

  /** A value of `millis()` or of an `unsigned long` holding one. */
  type Millis = x: int | 0 <= x < 0x1_0000_0000

  /** `now - since` in `unsigned long` arithmetic: wraps around modulo 2^32. */
  function Elapsed(now: Millis, since: Millis): (d: Millis)
    ensures since <= now ==> d == now - since
    ensures now < since ==> d == now - since + 0x1_0000_0000
  {
    (now - since) % 0x1_0000_0000
  }

  datatype TestState = WaitButton | WaitAllHigh | WaitAllLow | Sequence | Success | Fail

  /** What one call of `loop()` reads. */
  datatype Tick = Tick(command: Option<string>, button: bool, now: Millis, stamp: Millis, levels: seq<bool>)

  /** The firmware's globals, and the serial output so far. */
  datatype Vars = Vars(
    state: TestState,
    stateStartMs: Millis,
    lastBlinkMs: Millis,
    lastButtonEdgeMs: Millis,
    lastButtonState: bool,
    expectedIndex: nat,
    pinWasHigh: seq<bool>,
    precheckAllHighOk: bool,
    precheckAllLowOk: bool,
    startRequested: bool,
    beginAllHighPrinted: bool,
    beginAllLowPrinted: bool,
    beginSequencePrinted: bool,
    beginFailPrinted: bool,
    out: seq<string>)

  /** `pinWasHigh` has one mark per test line. */
  predicate WellFormed(v: Vars) {
    |v.pinWasHigh| == NUM_TEST_PINS
  }

  /** No test line marked as risen. */
  function NoMarks(): (m: seq<bool>)
    ensures |m| == NUM_TEST_PINS && forall i :: 0 <= i < |m| ==> !m[i]
  {
    seq(NUM_TEST_PINS, i => false)
  }

  /** The globals after `setup()`, whose `toState(STATE_WAIT_BUTTON)` reads
      `stamp`. */
  function Setup(stamp: Millis): (v: Vars) {
    Vars(WaitButton, stamp, 0, 0, HIGH, 0, NoMarks(), false, false, false, false, false, false, false, [MSG_READY])
  }

  /** The command text after `String::trim()` is "START", ignoring case. */
  predicate IsStart(command: string) {
    EqualsIgnoreCase(ArduinoTrim(command), "START")
  }

  /** The command text after `String::trim()` is "FLASH" or "DFU", ignoring case. */
  predicate IsFlash(command: string) {
    var cmd := ArduinoTrim(command);
    EqualsIgnoreCase(cmd, "FLASH") || EqualsIgnoreCase(cmd, "DFU")
  }

  /** The serial command at the top of `loop()`. */
  function HandleCommand(v: Vars, command: Option<string>): (r: Vars)
    ensures r.state == v.state && r.pinWasHigh == v.pinWasHigh && r.expectedIndex == v.expectedIndex
  {
    if command.None? then v
    else if IsStart(command.value) then v.(startRequested := true, out := v.out + [MSG_START_RECEIVED])
    else if IsFlash(command.value) then v.(out := v.out + [MSG_FLASH_RECEIVED] + [MSG_SENT_RESET] + [MSG_SENT_RESET])
    else v
  }

  /** The debouncer's edge tracking. */
  function TrackButton(v: Vars, button: bool, now: Millis): (r: Vars)
    ensures r.state == v.state && r.pinWasHigh == v.pinWasHigh && r.expectedIndex == v.expectedIndex
  {
    if button != v.lastButtonState then v.(lastButtonEdgeMs := now, lastButtonState := button) else v
  }

  /** The button reads LOW and has done so for more than `DEBOUNCE_MS`. */
  predicate Pressed(v: Vars, button: bool, now: Millis) {
    button == LOW && Elapsed(now, v.lastButtonEdgeMs) > DEBOUNCE_MS
  }

  /** The labels of the test lines whose sample is `level`, in `TEST_PINS`
      order. */
  function LabelsAt(levels: seq<bool>, level: bool): (r: seq<string>)
    requires |levels| <= NUM_TEST_PINS
    ensures |r| <= |levels|
  {
    if levels == [] then []
    else
      var i := |levels| - 1;
      LabelsAt(levels[..i], level) + (if levels[i] == level then [TEST_LABELS[i]] else [])
  }

  /** What `printDynamicPinsByLevel(level)` prints before its newline. */
  function PinsByLevel(levels: seq<bool>, level: bool): string
    requires |levels| <= NUM_TEST_PINS
  {
    Join(LabelsAt(levels, level), ", ")
  }

  /** Every sample is `level`. */
  predicate AllAt(levels: seq<bool>, level: bool) {
    forall i :: 0 <= i < |levels| ==> levels[i] == level
  }

  /** The number of HIGH samples. */
  function HighCount(levels: seq<bool>): (n: nat)
    ensures n <= |levels|
  {
    if levels == [] then 0
    else HighCount(levels[..|levels| - 1]) + (if levels[|levels| - 1] then 1 else 0)
  }

  /** The index of the last HIGH sample, or -1 when there is none. */
  function HighIdx(levels: seq<bool>): (k: int)
    ensures -1 <= k < |levels|
    ensures k == -1 <==> HighCount(levels) == 0
  {
    if levels == [] then -1
    else if levels[|levels| - 1] then |levels| - 1
    else HighIdx(levels[..|levels| - 1])
  }

  /** The marks after the loop that clears the mark of every LOW line. */
  function ClearedMarks(marks: seq<bool>, levels: seq<bool>): (r: seq<bool>)
    requires |marks| == |levels|
  {
    seq(|marks|, i requires 0 <= i < |marks| => marks[i] && levels[i])
  }

  /** "START" and a reset pulse, with the START request consumed. */
  function Announce(v: Vars): Vars {
    v.(startRequested := false, out := v.out + [MSG_START] + [MSG_SENT_RESET])
  }

  /** The marks, the expected index and the flags of the previous run cleared. */
  function ClearRun(v: Vars): Vars {
    v.(precheckAllHighOk := false, precheckAllLowOk := false, expectedIndex := 0, pinWasHigh := NoMarks(),
       beginAllHighPrinted := false, beginFailPrinted := false)
  }

  /** A press or a START command in WAIT_BUTTON starts the test. */
  function StartTest(v: Vars, stamp: Millis): Vars {
    ClearRun(Announce(v)).(state := WaitAllHigh, stateStartMs := stamp)
  }

  /** A press or a START command in FAIL restarts the test; unlike the start
      from WAIT_BUTTON it also clears the ALL_LOW and SEQUENCE markers. */
  function RestartTest(v: Vars, stamp: Millis): Vars {
    ClearRun(Announce(v)).(beginAllLowPrinted := false, beginSequencePrinted := false,
                           state := WaitAllHigh, stateStartMs := stamp)
  }

  /** The idle heartbeat: one "IDLE: OK" line every `IDLE_PERIOD_MS`. */
  function Heartbeat(v: Vars, now: Millis): Vars {
    if Elapsed(now, v.lastBlinkMs) >= IDLE_PERIOD_MS then v.(out := v.out + [MSG_IDLE], lastBlinkMs := now) else v
  }

  function WaitButtonStage(v: Vars, pressed: bool, now: Millis, stamp: Millis): Vars {
    var v1 := Heartbeat(v, now);
    if pressed || v1.startRequested then StartTest(v1, stamp) else v1
  }

  /** The BEGIN line of ALL_HIGH, printed on the stage's first step. */
  function BeginAllHigh(v: Vars): Vars {
    if !v.beginAllHighPrinted then v.(out := v.out + [MSG_ALL_HIGH_BEGIN], beginAllHighPrinted := true) else v
  }

  /** Every line read HIGH: ALL_HIGH passes. */
  function PassAllHigh(v: Vars, stamp: Millis): Vars {
    v.(out := v.out + [MSG_ALL_HIGH_OK], precheckAllHighOk := true, beginAllLowPrinted := false,
       state := WaitAllLow, stateStartMs := stamp)
  }

  /** ALL_HIGH timed out: the LOW lines are reported and the test goes on. */
  function FailAllHigh(v: Vars, levels: seq<bool>, stamp: Millis): Vars
    requires |levels| == NUM_TEST_PINS
  {
    v.(out := v.out + [MSG_ALL_HIGH_ERROR + PinsByLevel(levels, LOW)], beginAllLowPrinted := false,
       state := WaitAllLow, stateStartMs := stamp)
  }

  function AllHighStage(v: Vars, levels: seq<bool>, now: Millis, stamp: Millis): Vars
    requires |levels| == NUM_TEST_PINS
  {
    var v1 := BeginAllHigh(v);
    if AllAt(levels, HIGH) then PassAllHigh(v1, stamp)
    else if Elapsed(now, v1.stateStartMs) > PRECHECK_TIMEOUT_MS then FailAllHigh(v1, levels, stamp)
    else v1
  }

  /** The BEGIN line of ALL_LOW, printed on the stage's first step. */
  function BeginAllLow(v: Vars): Vars {
    if !v.beginAllLowPrinted then v.(out := v.out + [MSG_ALL_LOW_BEGIN], beginAllLowPrinted := true) else v
  }

  /** Every line read LOW: ALL_LOW passes. */
  function PassAllLow(v: Vars, stamp: Millis): Vars {
    v.(out := v.out + [MSG_ALL_LOW_OK], precheckAllLowOk := true, beginSequencePrinted := false,
       state := Sequence, stateStartMs := stamp)
  }

  /** ALL_LOW timed out: the HIGH lines are reported and the test goes on. */
  function FailAllLow(v: Vars, levels: seq<bool>, stamp: Millis): Vars
    requires |levels| == NUM_TEST_PINS
  {
    v.(out := v.out + [MSG_ALL_LOW_ERROR + PinsByLevel(levels, HIGH)], beginSequencePrinted := false,
       state := Sequence, stateStartMs := stamp)
  }

  function AllLowStage(v: Vars, levels: seq<bool>, now: Millis, stamp: Millis): Vars
    requires |levels| == NUM_TEST_PINS
  {
    var v1 := BeginAllLow(v);
    if AllAt(levels, LOW) then PassAllLow(v1, stamp)
    else if Elapsed(now, v1.stateStartMs) > LOW_STAGE_TIMEOUT_MS then FailAllLow(v1, levels, stamp)
    else v1
  }

  /** The line that ends the run when `h` rises out of order. */
  function OrderLine(expected: nat, h: nat): string
    requires expected < h < NUM_TEST_PINS
  {
    MSG_SEQ_ORDER + TEST_LABELS[expected] + MSG_SEQ_RECEIVED + TEST_LABELS[h]
  }

  /** A rising edge on `h`: its mark is set and the rise is reported. */
  function MarkRise(v: Vars, h: nat): Vars
    requires WellFormed(v) && h < NUM_TEST_PINS
  {
    v.(pinWasHigh := v.pinWasHigh[h := true], out := v.out + [MSG_SEQ_RISE + TEST_LABELS[h]])
  }

  /** The verdict on a rise of `h`: the expected line advances the run, and
      ends it after the last line; any other line fails it. The flag says
      whether the step ends here (`break`). */
  function Judge(v: Vars, h: nat, stamp: Millis): (Vars, bool)
    requires h < NUM_TEST_PINS
  {
    if h == v.expectedIndex then
      if h + 1 == NUM_TEST_PINS then
        (v.(out := v.out + [MSG_SEQ_ALL_OK], expectedIndex := h + 1, state := Success, stateStartMs := stamp), true)
      else (v.(expectedIndex := h + 1), false)
    else if h > v.expectedIndex then
      (v.(out := v.out + [OrderLine(v.expectedIndex, h)], state := Fail, stateStartMs := stamp), true)
    else (v.(out := v.out + [MSG_SEQ_EARLIER + TEST_LABELS[h]], state := Fail, stateStartMs := stamp), true)
  }

  /** The single HIGH line `h` in SEQUENCE: only a rising edge counts. The
      flag says whether the step ends here rather than going on to the
      timeout check. */
  function Rise(v: Vars, h: nat, stamp: Millis): (Vars, bool)
    requires WellFormed(v) && h < NUM_TEST_PINS
  {
    if v.pinWasHigh[h] then (v, false) else Judge(MarkRise(v, h), h, stamp)
  }

  /** The SEQUENCE timeout, measured from the stage's `toState` stamp. */
  function SequenceTimeout(v: Vars, now: Millis, stamp: Millis): Vars {
    if Elapsed(now, v.stateStartMs) > SEQUENCE_TIMEOUT_MS then
      var expected := if v.expectedIndex < NUM_TEST_PINS then TEST_LABELS[v.expectedIndex] else "end";
      v.(out := v.out + [MSG_SEQ_TIMEOUT + expected], state := Fail, stateStartMs := stamp)
    else v
  }

  /** The BEGIN line of SEQUENCE, printed on the stage's first step. */
  function BeginSequence(v: Vars): Vars {
    if !v.beginSequencePrinted then v.(out := v.out + [MSG_SEQ_BEGIN], beginSequencePrinted := true) else v
  }

  /** More than one line HIGH at once: they are reported and the run fails. */
  function FailPins(v: Vars, levels: seq<bool>, stamp: Millis): Vars
    requires |levels| == NUM_TEST_PINS
  {
    v.(out := v.out + [MSG_SEQ_FAIL_PINS + PinsByLevel(levels, HIGH)], state := Fail, stateStartMs := stamp)
  }

  function SequenceStage(v: Vars, levels: seq<bool>, now: Millis, stamp: Millis): Vars
    requires WellFormed(v) && |levels| == NUM_TEST_PINS
  {
    var v1 := BeginSequence(v);
    var count := HighCount(levels);
    if count > 1 then FailPins(v1, levels, stamp)
    else if count == 1 then
      var r := Rise(v1, HighIdx(levels), stamp);
      if r.1 then r.0 else SequenceTimeout(r.0, now, stamp)
    else SequenceTimeout(v1.(pinWasHigh := ClearedMarks(v1.pinWasHigh, levels)), now, stamp)
  }

  function SuccessStage(v: Vars, stamp: Millis): Vars {
    v.(out := v.out + [MSG_SUCCESS], state := WaitButton, stateStartMs := stamp)
  }

  /** The FAIL line once, then the fast blink's clock. */
  function FailBlink(v: Vars, now: Millis): Vars {
    var v1 := if !v.beginFailPrinted then v.(out := v.out + [MSG_FAIL], beginFailPrinted := true) else v;
    if Elapsed(now, v1.lastBlinkMs) >= FAIL_BLINK_MS then v1.(lastBlinkMs := now) else v1
  }

  function FailStage(v: Vars, pressed: bool, now: Millis, stamp: Millis): Vars {
    var v1 := FailBlink(v, now);
    if pressed || v1.startRequested then RestartTest(v1, stamp) else v1
  }

  /** The state switch of `loop()`, after the command and the button. */
  function Dispatch(v: Vars, pressed: bool, t: Tick): Vars
    requires WellFormed(v) && |t.levels| == NUM_TEST_PINS
  {
    match v.state
    case WaitButton => WaitButtonStage(v, pressed, t.now, t.stamp)
    case WaitAllHigh => AllHighStage(v, t.levels, t.now, t.stamp)
    case WaitAllLow => AllLowStage(v, t.levels, t.now, t.stamp)
    case Sequence => SequenceStage(v, t.levels, t.now, t.stamp)
    case Success => SuccessStage(v, t.stamp)
    case Fail => FailStage(v, pressed, t.now, t.stamp)
  }

  /** One call of `loop()`. */
  function Step(v: Vars, t: Tick): Vars
    requires WellFormed(v) && |t.levels| == NUM_TEST_PINS
  {
    var v1 := TrackButton(HandleCommand(v, t.command), t.button, t.now);
    Dispatch(v1, Pressed(v1, t.button, t.now), t)
  }
}
