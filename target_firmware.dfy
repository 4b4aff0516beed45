/** The Target firmware (mcu_firmwares/target_firmware/src/main.cpp): the
    board under test. After power-up it drives its nineteen test lines
    through the three stages the Master checks (all HIGH, all LOW, then one
    line at a time in table order), reporting each stage on its serial
    port, and then only reports that it is idle.

    The board's observable behaviour is a trace of events: a printed line,
    or the test lines held at fixed levels for the length of a `delay()`.
    Between two delays the writes to the lines take no time. */
module TargetFirmware {
  import opened Text

  /** The test lines, in the order the sequence stage raises them. Index 0
      is `VCC_CTRL_PIN`, the line that powers the rest of the board. */
  const TEST_PINS: seq<string> := [
    "P0_13", "P0_31", "P0_29", "P0_02", "P1_15", "P1_13", "P1_11", "P0_10", "P0_09", "P1_06",
    "P1_04", "P0_11", "P1_00", "P0_24", "P0_22", "P0_20", "P0_17", "P0_08", "P0_06"]

  const NUM_TEST_PINS := 19

  const HOLD_ALL_HIGH_MS := 1000
  const HOLD_ALL_LOW_MS := 1000
  const SEQ_HIGH_MS := 150
  const SEQ_LOW_MS := 150

  const HIGH := true
  const LOW := false

  /** Every line the board prints starts with its name. */
  const NAME := "Target"

  /** The lines the board prints. */
  datatype Message =
    | Ready | AllHighBegin | AllHighOk | AllLowBegin | AllLowOk | SequenceBegin | SequenceAllOk | Idle

  /** The text of each line. */
  function TextOf(m: Message): string {
    NAME + Detail(m)
  }

  /** The text of each line after the board's name. */
  function Detail(m: Message): string {
    match m
    case Ready => ": READY"
    case AllHighBegin => ": STAGE \U{2014} ALL_HIGH: BEGIN"
    case AllHighOk => ": STAGE \U{2014} ALL_HIGH: OK"
    case AllLowBegin => ": STAGE \U{2014} ALL_LOW: BEGIN"
    case AllLowOk => ": STAGE \U{2014} ALL_LOW: OK"
    case SequenceBegin => ": STAGE \U{2014} SEQUENCE: BEGIN"
    case SequenceAllOk => ": STAGE \U{2014} SEQUENCE: ALL OK"
    case Idle => ": STAGE \U{2014} IDLE: OK"
  }

  /** What the board does that can be observed from outside: a line on the
      serial port, or the test lines held at `levels` for `ms`
      milliseconds. */
  datatype Event = Line(msg: Message) | Hold(levels: seq<bool>, ms: nat)

  /** Every test line at `level`. */
  function Uniform(level: bool): (r: seq<bool>)
    ensures |r| == NUM_TEST_PINS && forall i :: 0 <= i < |r| ==> r[i] == level
  {
    seq(NUM_TEST_PINS, i => level)
  }

  /** Line `k` HIGH and every other line LOW. */
  function OnlyAt(k: int): (r: seq<bool>)
    ensures |r| == NUM_TEST_PINS && forall i :: 0 <= i < |r| ==> r[i] == (i == k)
  {
    seq(NUM_TEST_PINS, i => i == k)
  }

  /** The holds of the sequence stage for its first `n` lines: each line
      HIGH alone, then every line LOW. */
  function SequenceHolds(n: nat): (r: seq<Event>)
    ensures |r| == 2 * n && forall i :: 0 <= i < |r| ==> r[i].Hold? && |r[i].levels| == NUM_TEST_PINS
  {
    if n == 0 then []
    else SequenceHolds(n - 1) + [Hold(OnlyAt(n - 1), SEQ_HIGH_MS), Hold(Uniform(LOW), SEQ_LOW_MS)]
  }

  function AllHighTrace(): seq<Event> {
    [Line(AllHighBegin), Hold(Uniform(HIGH), HOLD_ALL_HIGH_MS), Line(AllHighOk)]
  }

  function AllLowTrace(): seq<Event> {
    [Line(AllLowBegin), Hold(Uniform(LOW), HOLD_ALL_LOW_MS), Line(AllLowOk)]
  }

  function SequenceTrace(): seq<Event> {
    [Line(SequenceBegin)] + SequenceHolds(NUM_TEST_PINS) + [Line(SequenceAllOk)]
  }

  /** Everything `setup()` does that can be observed. */
  function SetupTrace(): seq<Event> {
    [Line(Ready)] + AllHighTrace() + AllLowTrace() + SequenceTrace()
  }

  /** `setup()`'s trace is its four parts one after the other. */
  lemma SetupTraceStages(before: seq<Event>)
    ensures before + SetupTrace() == before + [Line(Ready)] + AllHighTrace() + AllLowTrace() + SequenceTrace()
  {
  }

  /** The sequence stage's trace is its BEGIN line, its holds and its
      ALL OK line, one after the other. */
  lemma SequenceTraceParts(before: seq<Event>)
    ensures before + SequenceTrace() == before + [Line(SequenceBegin)] + SequenceHolds(NUM_TEST_PINS) + [Line(SequenceAllOk)]
  {
  }

  /** One more turn of the sequence loop adds its two holds. */
  lemma SequenceHoldsSnoc(before: seq<Event>, i: nat)
    ensures before + SequenceHolds(i + 1) ==
      before + SequenceHolds(i) + [Hold(OnlyAt(i), SEQ_HIGH_MS), Hold(Uniform(LOW), SEQ_LOW_MS)]
  {
  }

  /** The printed lines of a trace, in order. */
  function Lines(trace: seq<Event>): (r: seq<Message>)
    ensures |r| <= |trace|
  {
    if trace == [] then []
    else Lines(trace[..|trace| - 1]) + (if trace[|trace| - 1].Line? then [trace[|trace| - 1].msg] else [])
  }

  /** The board: its test lines, its status LED and what it has done so far. */
  class Target {
    const levels: array<bool>
    var led: bool
    var trace: seq<Event>

    predicate Valid()
      reads this
    {
      levels.Length == NUM_TEST_PINS
    }

    /** The board at power-up, before `setup()`: nothing printed yet. */
    constructor ()
      ensures Valid() && fresh(levels) && trace == []
    {
      levels := new bool[NUM_TEST_PINS];
      led := LOW;
      trace := [];
    }

    /** `setAll(level)`: every test line, and only the test lines, driven
        to `level`. */
    method SetAll(level: bool)
      requires Valid()
      modifies levels
      ensures levels[..] == Uniform(level)
    {
      for i := 0 to levels.Length
        invariant forall k :: 0 <= k < i ==> levels[k] == level
      {
        levels[i] := level;
      }
    }

    /** `Serial.println` of the text of `m`. */
    method Println(m: Message)
      modifies this
      ensures trace == old(trace) + [Line(m)] && led == old(led)
    {
      trace := trace + [Line(m)];
    }

    /** `delay(ms)`: the lines keep their levels for `ms` milliseconds. */
    method Delay(ms: nat)
      requires Valid()
      modifies this
      ensures trace == old(trace) + [Hold(levels[..], ms)] && led == old(led)
    {
      trace := trace + [Hold(levels[..], ms)];
    }

    /** The start of `setup()`: the READY line, the LED off, the power line
        and then every test line made an output and driven LOW. */
    method Prepare()
      requires Valid()
      modifies this, levels
      ensures trace == old(trace) + [Line(Ready)]
      ensures levels[..] == Uniform(LOW) && led == LOW
    {
      Println(Ready);
      led := LOW;
      levels[0] := LOW;
      SetAll(LOW);
    }

    /** Stage 1: every line HIGH, with the LED on, for `HOLD_ALL_HIGH_MS`. */
    method StageAllHigh()
      requires Valid()
      modifies this, levels
      ensures trace == old(trace) + AllHighTrace()
      ensures levels[..] == Uniform(HIGH) && led == HIGH
    {
      Println(AllHighBegin);
      SetAll(HIGH);
      led := HIGH;
      Delay(HOLD_ALL_HIGH_MS);
      Println(AllHighOk);
    }

    /** Stage 2: every line LOW, with the LED off, for `HOLD_ALL_LOW_MS`. */
    method StageAllLow()
      requires Valid()
      modifies this, levels
      ensures trace == old(trace) + AllLowTrace()
      ensures levels[..] == Uniform(LOW) && led == LOW
    {
      Println(AllLowBegin);
      SetAll(LOW);
      led := LOW;
      Delay(HOLD_ALL_LOW_MS);
      Println(AllLowOk);
    }

    /** Stage 3: each line in turn HIGH for `SEQ_HIGH_MS`, then LOW for
        `SEQ_LOW_MS`, starting from every line LOW. */
    method StageSequence()
      requires Valid() && levels[..] == Uniform(LOW)
      modifies this, levels
      ensures trace == old(trace) + SequenceTrace()
      ensures levels[..] == Uniform(LOW) && led == old(led)
    {
      SequenceTraceParts(trace);
      Println(SequenceBegin);
      ghost var begun := trace;
      for i := 0 to levels.Length
        invariant trace == begun + SequenceHolds(i)
        invariant levels[..] == Uniform(LOW) && led == old(led)
      {
        SequenceHoldsSnoc(begun, i);
        Pulse(i);
      }
      Println(SequenceAllOk);
    }

    /** One turn of the sequence loop: line `i` HIGH, then LOW again. */
    method Pulse(i: nat)
      requires Valid() && i < NUM_TEST_PINS && levels[..] == Uniform(LOW)
      modifies this, levels
      ensures trace == old(trace) + [Hold(OnlyAt(i), SEQ_HIGH_MS), Hold(Uniform(LOW), SEQ_LOW_MS)]
      ensures levels[..] == Uniform(LOW) && led == old(led)
    {
      levels[i] := HIGH;
      assert levels[..] == OnlyAt(i);
      Delay(SEQ_HIGH_MS);
      levels[i] := LOW;
      assert levels[..] == Uniform(LOW);
      Delay(SEQ_LOW_MS);
    }

    /** `setup()`, after the wait for a USB host: the three stages, ending
        with every line LOW and the LED off. */
    method Setup()
      requires Valid()
      modifies this, levels
      ensures trace == old(trace) + SetupTrace()
      ensures levels[..] == Uniform(LOW) && led == LOW
    {
      SetupTraceStages(trace);
      Prepare();
      StageAllHigh();
      StageAllLow();
      StageSequence();
    }

    /** `loop()`: the IDLE line, nothing else. */
    method Loop()
      modifies this
      ensures trace == old(trace) + [Line(Idle)] && led == old(led)
    {
      Println(Idle);
    }
  }

  // What the trace shows.

  /** The sequence stage holds line `k` HIGH alone at position `2k` and
      every line LOW right after it, so each line is back LOW before the
      next one rises. */
  lemma {:induction false} SequenceHoldsShape(n: nat, i: nat)
    requires i < 2 * n
    ensures SequenceHolds(n)[i] ==
      if i % 2 == 0 then Hold(OnlyAt(i / 2), SEQ_HIGH_MS) else Hold(Uniform(LOW), SEQ_LOW_MS)
  {
    if i < 2 * (n - 1) {
      SequenceHoldsShape(n - 1, i);
    }
  }

  /** Two HIGH lines seen in the sequence stage, the first one earlier,
      were raised in table order: at most one line is HIGH in any hold, and
      the rising edges follow `TEST_PINS`. */
  lemma RisesInTableOrder(i: nat, j: nat, a: nat, b: nat)
    requires i <= j < 2 * NUM_TEST_PINS && a < NUM_TEST_PINS && b < NUM_TEST_PINS
    requires SequenceHolds(NUM_TEST_PINS)[i].levels[a] && SequenceHolds(NUM_TEST_PINS)[j].levels[b]
    ensures a <= b && (i == j ==> a == b)
  {
    SequenceHoldsShape(NUM_TEST_PINS, i);
    SequenceHoldsShape(NUM_TEST_PINS, j);
  }

  /** The lines of a trace followed by more events. */
  lemma {:induction false} LinesAppend(a: seq<Event>, b: seq<Event>)
    ensures Lines(a + b) == Lines(a) + Lines(b)
    decreases |b|
  {
    if b != [] {
      var n := |b| - 1;
      var last := if b[n].Line? then [b[n].msg] else [];
      assert (a + b)[..|a + b| - 1] == a + b[..n];
      assert (a + b)[|a + b| - 1] == b[n];
      assert Lines(a + b) == Lines(a + b[..n]) + last;
      LinesAppend(a, b[..n]);
      assert Lines(b) == Lines(b[..n]) + last;
    } else {
      assert a + b == a;
    }
  }

  /** The sequence stage prints nothing between its BEGIN and ALL OK lines. */
  lemma {:induction false} SequenceHoldsSilent(n: nat)
    ensures Lines(SequenceHolds(n)) == []
  {
    if n > 0 {
      var pair := [Hold(OnlyAt(n - 1), SEQ_HIGH_MS), Hold(Uniform(LOW), SEQ_LOW_MS)];
      SequenceHoldsSilent(n - 1);
      LinesAppend(SequenceHolds(n - 1), pair);
      assert pair[..1] == [pair[0]];
    }
  }

  /** `setup()` prints, in this order: READY, the BEGIN and OK lines of
      ALL_HIGH, those of ALL_LOW, and the BEGIN and ALL OK lines of
      SEQUENCE. */
  lemma SetupLines()
    ensures Lines(SetupTrace()) == [Ready, AllHighBegin, AllHighOk, AllLowBegin, AllLowOk, SequenceBegin, SequenceAllOk]
  {
    var ready: seq<Event> := [Line(Ready)];
    LinesAppend(ready, AllHighTrace());
    LinesAppend(ready + AllHighTrace(), AllLowTrace());
    LinesAppend(ready + AllHighTrace() + AllLowTrace(), SequenceTrace());
    LinesAppend([Line(SequenceBegin)], SequenceHolds(NUM_TEST_PINS));
    LinesAppend([Line(SequenceBegin)] + SequenceHolds(NUM_TEST_PINS), [Line(SequenceAllOk)]);
    SequenceHoldsSilent(NUM_TEST_PINS);
    AllHighLines();
    AllLowLines();
  }

  lemma AllHighLines()
    ensures Lines(AllHighTrace()) == [AllHighBegin, AllHighOk]
  {
    var t := AllHighTrace();
    assert t[..2][..1] == [Line(AllHighBegin)];
  }

  lemma AllLowLines()
    ensures Lines(AllLowTrace()) == [AllLowBegin, AllLowOk]
  {
    var t := AllLowTrace();
    assert t[..2][..1] == [Line(AllLowBegin)];
  }

  /** Every line the board prints starts with its name. */
  lemma EveryLineNamed(m: Message)
    ensures StartsWith(TextOf(m), NAME)
  {
    assert TextOf(m)[..|NAME|] == NAME;
  }
}
