/** The bench as a whole: the Target firmware's output read by the Master
    firmware and by the desktop controller.

    The Master samples the test lines once per call of `loop()`, far more
    often than the Target changes them, so each of the Target's holds is
    sampled at least once and the samples of one hold come before those of
    the next. */
module Bench {
  import opened Text
  import opened MasterFirmware
  import opened MasterProperties
  import TF = TargetFirmware
  import Protocol

  // The pin tables.

  /** Both firmwares list nineteen test lines, and the same pins from index
      1 on. Index 0 is the Target's power line, which the Master reads on a
      pin of its own. */
  lemma TablesAligned()
    ensures |TF.TEST_PINS| == TF.NUM_TEST_PINS == |TEST_PINS| == NUM_TEST_PINS
    ensures forall i :: 1 <= i < NUM_TEST_PINS ==> TF.TEST_PINS[i] == TEST_PINS[i]
    ensures TF.TEST_PINS[0] != TEST_PINS[0]
  {
  }

  // The Target's lines at the desktop controller.

  /** Every line the Target prints passes the controller's check that a
      line on the Target port comes from the Target, so it is handled and
      not reported as a port mix-up. */
  lemma TargetLinesAccepted(g: Protocol.Gui, m: TF.Message, link: Protocol.MasterLink)
    ensures StartsWith(TF.TextOf(m), Protocol.TARGET_PREFIX)
    ensures Protocol.OnSerialLine(g, Protocol.TARGET_ROLE, TF.TextOf(m), link) ==
      Protocol.TargetLine(g, TF.TextOf(m), link)
  {
    TF.EveryLineNamed(m);
  }

  // The Target's holds at the Master.

  /** Every sample reads the nineteen test lines. */
  ghost predicate Sized(ticks: seq<Tick>) {
    forall i :: 0 <= i < |ticks| ==> |ticks[i].levels| == NUM_TEST_PINS
  }

  lemma SizedPrefix(ticks: seq<Tick>, n: nat)
    requires Sized(ticks) && n <= |ticks|
    ensures Sized(ticks[..n])
  {
  }

  /** The Master's globals after one call of `loop()` per sample. */
  ghost function Run(v: Vars, ticks: seq<Tick>): (r: Vars)
    requires Inv(v) && Sized(ticks)
    ensures Inv(r)
    decreases |ticks|
  {
    if ticks == [] then v
    else
      var prev := Run(v, ticks[..|ticks| - 1]);
      StepPreservesInv(prev, ticks[|ticks| - 1]);
      Step(prev, ticks[|ticks| - 1])
  }

  /** The levels of hold `j` of the Target's sequence stage. */
  function SequenceLevels(j: int): (r: seq<bool>)
    requires 0 <= j < 2 * NUM_TEST_PINS
    ensures r == if j % 2 == 0 then TF.OnlyAt(j / 2) else TF.Uniform(LOW)
  {
    TF.SequenceHoldsShape(TF.NUM_TEST_PINS, j);
    TF.SequenceHolds(TF.NUM_TEST_PINS)[j].levels
  }

  /** Sample `i` reads hold `at[i]` of the sequence stage; the first sample
      reads the first hold and no hold is skipped. */
  ghost predicate Follows(ticks: seq<Tick>, at: seq<int>) {
    && |at| == |ticks| && Sized(ticks)
    && (|at| > 0 ==> at[0] == 0)
    && (forall i :: 0 < i < |at| ==> at[i - 1] <= at[i] <= at[i - 1] + 1)
    && (forall i :: 0 <= i < |at| ==> 0 <= at[i] < 2 * NUM_TEST_PINS && ticks[i].levels == SequenceLevels(at[i]))
  }

  /** Every sample is taken before SEQUENCE, entered at `start`, times out. */
  ghost predicate InTime(ticks: seq<Tick>, start: Millis) {
    forall i :: 0 <= i < |ticks| ==> Elapsed(ticks[i].now, start) <= SEQUENCE_TIMEOUT_MS
  }

  /** The Master in SEQUENCE, entered at `start`, after samples up to hold
      `j` of the Target's sequence (-1: none yet): every line raised so far
      has been passed, and only the line still HIGH is marked. */
  ghost predicate Phase(r: Vars, j: int, start: Millis) {
    && Inv(r) && r.state == Sequence && r.stateStartMs == start
    && r.expectedIndex == (j + 2) / 2
    && r.pinWasHigh == if j >= 0 && j % 2 == 0 then NoMarks()[j / 2 := true] else NoMarks()
  }

  /** Every line LOW, in time: the marks are cleared and the run goes on. */
  lemma QuietStage(v: Vars, levels: seq<bool>, now: Millis, stamp: Millis)
    requires WellFormed(v) && v.state == Sequence && |levels| == NUM_TEST_PINS && AllAt(levels, LOW)
    requires Elapsed(now, v.stateStartMs) <= SEQUENCE_TIMEOUT_MS
    ensures var r := SequenceStage(v, levels, now, stamp);
      && r.state == Sequence && r.stateStartMs == v.stateStartMs
      && r.expectedIndex == v.expectedIndex && r.pinWasHigh == NoMarks()
  {
    NoHighIff(levels);
    SequenceNone(v, levels, now, stamp);
    BeginSequenceKeepsRun(v);
    assert ClearedMarks(v.pinWasHigh, levels) == NoMarks();
  }

  /** The expected line, not the last, rises alone in time: it is marked
      and the next line is expected. */
  lemma FirstRiseStage(v: Vars, levels: seq<bool>, now: Millis, stamp: Millis)
    requires WellFormed(v) && v.state == Sequence && |levels| == NUM_TEST_PINS
    requires v.expectedIndex + 1 < NUM_TEST_PINS && OnlyHigh(levels, v.expectedIndex)
    requires !v.pinWasHigh[v.expectedIndex] && Elapsed(now, v.stateStartMs) <= SEQUENCE_TIMEOUT_MS
    ensures var r := SequenceStage(v, levels, now, stamp);
      && r.state == Sequence && r.stateStartMs == v.stateStartMs
      && r.expectedIndex == v.expectedIndex + 1 && r.pinWasHigh == v.pinWasHigh[v.expectedIndex := true]
  {
    var e := v.expectedIndex;
    SingleHigh(levels, e);
    SequenceSingle(v, levels, now, stamp);
    var v1 := BeginSequence(v);
    BeginSequenceKeepsRun(v);
    MarkRiseSets(v1, e);
    JudgeNext(MarkRise(v1, e), e, stamp);
  }

  /** A marked line still HIGH alone, in time: nothing changes. */
  lemma HeldStage(v: Vars, levels: seq<bool>, now: Millis, stamp: Millis, k: nat)
    requires WellFormed(v) && v.state == Sequence && |levels| == NUM_TEST_PINS
    requires k < NUM_TEST_PINS && OnlyHigh(levels, k) && v.pinWasHigh[k]
    requires Elapsed(now, v.stateStartMs) <= SEQUENCE_TIMEOUT_MS
    ensures var r := SequenceStage(v, levels, now, stamp);
      && r.state == Sequence && r.stateStartMs == v.stateStartMs
      && r.expectedIndex == v.expectedIndex && r.pinWasHigh == v.pinWasHigh
  {
    SingleHigh(levels, k);
    SequenceSingle(v, levels, now, stamp);
    BeginSequenceKeepsRun(v);
  }

  lemma QuietSample(v: Vars, t: Tick)
    requires WellFormed(v) && v.state == Sequence && |t.levels| == NUM_TEST_PINS && AllAt(t.levels, LOW)
    requires Elapsed(t.now, v.stateStartMs) <= SEQUENCE_TIMEOUT_MS
    ensures var r := Step(v, t);
      && r.state == Sequence && r.stateStartMs == v.stateStartMs
      && r.expectedIndex == v.expectedIndex && r.pinWasHigh == NoMarks()
  {
    PreludeKeepsRun(v, t);
    QuietStage(Prelude(v, t), t.levels, t.now, t.stamp);
  }

  lemma FirstRise(v: Vars, t: Tick)
    requires WellFormed(v) && v.state == Sequence && |t.levels| == NUM_TEST_PINS
    requires v.expectedIndex + 1 < NUM_TEST_PINS && OnlyHigh(t.levels, v.expectedIndex)
    requires !v.pinWasHigh[v.expectedIndex] && Elapsed(t.now, v.stateStartMs) <= SEQUENCE_TIMEOUT_MS
    ensures var r := Step(v, t);
      && r.state == Sequence && r.stateStartMs == v.stateStartMs
      && r.expectedIndex == v.expectedIndex + 1 && r.pinWasHigh == v.pinWasHigh[v.expectedIndex := true]
  {
    PreludeKeepsRun(v, t);
    FirstRiseStage(Prelude(v, t), t.levels, t.now, t.stamp);
  }

  lemma HeldRise(v: Vars, t: Tick, k: nat)
    requires WellFormed(v) && v.state == Sequence && |t.levels| == NUM_TEST_PINS
    requires k < NUM_TEST_PINS && OnlyHigh(t.levels, k) && v.pinWasHigh[k]
    requires Elapsed(t.now, v.stateStartMs) <= SEQUENCE_TIMEOUT_MS
    ensures var r := Step(v, t);
      && r.state == Sequence && r.stateStartMs == v.stateStartMs
      && r.expectedIndex == v.expectedIndex && r.pinWasHigh == v.pinWasHigh
  {
    PreludeKeepsRun(v, t);
    HeldStage(Prelude(v, t), t.levels, t.now, t.stamp, k);
  }

  /** A sample of the same hold as the last one, or of the next hold, keeps
      the Master in step with the Target, up to the last line's hold. */
  lemma PhaseStep(v: Vars, t: Tick, j: int, j2: int, start: Millis)
    requires Phase(v, j, start) && -1 <= j && (j2 == j || j2 == j + 1) && 0 <= j2 < 2 * NUM_TEST_PINS - 2
    requires |t.levels| == NUM_TEST_PINS && t.levels == SequenceLevels(j2)
    requires Elapsed(t.now, start) <= SEQUENCE_TIMEOUT_MS
    ensures Phase(Step(v, t), j2, start)
  {
    if j2 % 2 == 1 {
      PhaseQuiet(v, t, j, j2, start);
    } else if j2 == j + 1 {
      PhaseRise(v, t, j, j2, start);
    } else {
      PhaseHeld(v, t, j, start);
    }
  }

  lemma PhaseQuiet(v: Vars, t: Tick, j: int, j2: int, start: Millis)
    requires Phase(v, j, start) && -1 <= j && (j2 == j || j2 == j + 1) && 0 <= j2 < 2 * NUM_TEST_PINS && j2 % 2 == 1
    requires |t.levels| == NUM_TEST_PINS && AllAt(t.levels, LOW)
    requires Elapsed(t.now, start) <= SEQUENCE_TIMEOUT_MS
    ensures Phase(Step(v, t), j2, start)
  {
    StepPreservesInv(v, t);
    QuietSample(v, t);
  }

  lemma PhaseRise(v: Vars, t: Tick, j: int, j2: int, start: Millis)
    requires Phase(v, j, start) && j2 == j + 1 && 0 <= j2 < 2 * NUM_TEST_PINS - 2 && j2 % 2 == 0
    requires |t.levels| == NUM_TEST_PINS && OnlyHigh(t.levels, j2 / 2)
    requires Elapsed(t.now, start) <= SEQUENCE_TIMEOUT_MS
    ensures Phase(Step(v, t), j2, start)
  {
    assert v.expectedIndex == j2 / 2 && v.pinWasHigh == NoMarks();
    StepPreservesInv(v, t);
    FirstRise(v, t);
  }

  lemma PhaseHeld(v: Vars, t: Tick, j: int, start: Millis)
    requires Phase(v, j, start) && 0 <= j < 2 * NUM_TEST_PINS && j % 2 == 0
    requires |t.levels| == NUM_TEST_PINS && OnlyHigh(t.levels, j / 2)
    requires Elapsed(t.now, start) <= SEQUENCE_TIMEOUT_MS
    ensures Phase(Step(v, t), j, start)
  {
    StepPreservesInv(v, t);
    HeldRise(v, t, j / 2);
  }

  /** Running one more sample is one more step. */
  lemma RunSnoc(v: Vars, ticks: seq<Tick>, n: nat)
    requires Inv(v) && 0 < n <= |ticks| && Sized(ticks)
    ensures Sized(ticks[..n]) && Sized(ticks[..n - 1])
    ensures Run(v, ticks[..n]) == Step(Run(v, ticks[..n - 1]), ticks[n - 1])
  {
    SizedPrefix(ticks, n);
    SizedPrefix(ticks, n - 1);
    assert ticks[..n][..n - 1] == ticks[..n - 1];
  }

  /** The first `n` samples, none of the last line's hold, leave the Master
      in step with the Target. */
  lemma {:induction false} FollowPhases(v: Vars, ticks: seq<Tick>, at: seq<int>, n: nat)
    requires Phase(v, -1, v.stateStartMs) && Follows(ticks, at) && InTime(ticks, v.stateStartMs)
    requires n <= |ticks| && forall i :: 0 <= i < n ==> at[i] < 2 * NUM_TEST_PINS - 2
    ensures Phase(Run(v, ticks[..n]), if n == 0 then -1 else at[n - 1], v.stateStartMs)
  {
    SizedPrefix(ticks, n);
    if n == 0 {
      assert ticks[..0] == [];
    } else {
      FollowPhases(v, ticks, at, n - 1);
      RunSnoc(v, ticks, n);
      var j := if n == 1 then -1 else at[n - 2];
      assert at[n - 1] == j || at[n - 1] == j + 1;
      PhaseStep(Run(v, ticks[..n - 1]), ticks[n - 1], j, at[n - 1], v.stateStartMs);
    }
  }

  /** Fed the Target's sequence stage, the Master passes every line and
      reports success on its first sample of the last line, provided every
      sample is taken in time. */
  lemma TargetSequencePasses(v: Vars, ticks: seq<Tick>, at: seq<int>)
    requires Phase(v, -1, v.stateStartMs) && Follows(ticks, at) && InTime(ticks, v.stateStartMs)
    requires |ticks| > 0 && at[|at| - 1] == 2 * NUM_TEST_PINS - 2
    requires forall i :: 0 <= i < |at| - 1 ==> at[i] < 2 * NUM_TEST_PINS - 2
    ensures Run(v, ticks).state == Success
  {
    var n := |ticks| - 1;
    FollowPhases(v, ticks, at, n);
    RunSnoc(v, ticks, n + 1);
    assert ticks[..n + 1] == ticks;
    PhaseLast(Run(v, ticks[..n]), ticks[n], at[n - 1], v.stateStartMs);
  }

  /** ... and not before: until the last line's hold is sampled, the
      Master stays in SEQUENCE. */
  lemma InSequenceBeforeLast(v: Vars, ticks: seq<Tick>, at: seq<int>)
    requires Phase(v, -1, v.stateStartMs) && Follows(ticks, at) && InTime(ticks, v.stateStartMs)
    requires forall i :: 0 <= i < |at| - 1 ==> at[i] < 2 * NUM_TEST_PINS - 2
    ensures forall n :: 0 <= n < |ticks| ==> Sized(ticks[..n]) && Run(v, ticks[..n]).state == Sequence
  {
    forall n | 0 <= n < |ticks| ensures Sized(ticks[..n]) && Run(v, ticks[..n]).state == Sequence {
      SizedPrefix(ticks, n);
      FollowPhases(v, ticks, at, n);
    }
  }

  /** The first sample of the last line's hold, right after the hold
      before it, ends the run with success. */
  lemma PhaseLast(p: Vars, t: Tick, j: int, start: Millis)
    requires Phase(p, j, start) && j == 2 * NUM_TEST_PINS - 3
    requires |t.levels| == NUM_TEST_PINS && t.levels == SequenceLevels(2 * NUM_TEST_PINS - 2)
    ensures Step(p, t).state == Success
  {
    SuccessExactlyOnLastRise(p, t);
  }

  /** Fed one sample of each of the Target's two precheck holds, the
      Master passes both prechecks and enters SEQUENCE in step with the
      Target, timed from the second sample. */
  lemma TargetPrechecksPass(v: Vars, t1: Tick, t2: Tick)
    requires Inv(v) && v.state == WaitAllHigh && v.pinWasHigh == NoMarks()
    requires t1.levels == TF.Uniform(HIGH) && t2.levels == TF.Uniform(LOW)
    ensures var r := Step(Step(v, t1), t2);
      && Phase(r, -1, t2.stamp) && r.precheckAllHighOk && r.precheckAllLowOk
  {
    var p1 := Prelude(v, t1);
    PreludeKeepsRun(v, t1);
    AllHighPasses(p1, t1.levels, t1.now, t1.stamp);
    BeginAllHighKeepsRun(p1);
    var v2 := Step(v, t1);
    StepPreservesInv(v, t1);
    var p2 := Prelude(v2, t2);
    PreludeKeepsRun(v2, t2);
    AllLowPasses(p2, t2.levels, t2.now, t2.stamp);
    BeginAllLowKeepsRun(p2);
    StepPreservesInv(v2, t2);
  }
}
