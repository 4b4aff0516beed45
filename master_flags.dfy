/** The Master firmware's once-only report lines: each stage prints its
    BEGIN line on its first call of `loop()` and never again until the
    stage is entered anew, and FAIL prints "Master: FAIL" once per failed
    run. The four `begin...Printed` globals carry this, and every
    transition into a stage clears that stage's flag. Also: SEQUENCE ends
    on the first call of `loop()` after its 15-second timeout. */
module MasterFlags {
  import opened Wrappers
  import opened MasterFirmware
  import opened MasterProperties

  /** `after` continues `before`, and none of the lines it adds is `line`. */
  ghost predicate AddsNo(before: seq<string>, after: seq<string>, line: string) {
    && |before| <= |after| && after[..|before|] == before
    && forall i :: |before| <= i < |after| ==> after[i] != line
  }

  lemma AddsNoTrans(a: seq<string>, b: seq<string>, c: seq<string>, line: string)
    requires AddsNo(a, b, line) && AddsNo(b, c, line)
    ensures AddsNo(a, c, line)
  {
    assert c[..|a|] == c[..|b|][..|a|];
    forall i | |a| <= i < |c| ensures c[i] != line {
      if i < |b| {
        assert c[i] == c[..|b|][i];
      }
    }
  }

  lemma AddsOne(a: seq<string>, x: string, line: string)
    requires x != line
    ensures AddsNo(a, a + [x], line)
  {
    assert (a + [x])[..|a|] == a;
  }

  /** A line that starts differently from `line` is not `line`, whatever
      follows its first part. */
  lemma HeadDiffers(head: string, tail: string, line: string, k: nat)
    requires k < |head| && k < |line| && head[k] != line[k]
    ensures head + tail != line
  {
    assert (head + tail)[k] == head[k];
  }

  /** The first line a continuation adds after `a + [x]`'s prefix `a` is `x`. */
  lemma FirstAdded(a: seq<string>, x: string, c: seq<string>, line: string)
    requires AddsNo(a + [x], c, line)
    ensures |c| > |a| && c[|a|] == x
  {
    assert c[|a|] == c[..|a| + 1][|a|];
  }

  // The serial command and the button.

  lemma StartCommandPrints(v: Vars, c: string)
    requires IsStart(c)
    ensures HandleCommand(v, Some(c)).out == v.out + [MSG_START_RECEIVED]
  {
  }

  lemma OtherCommandPrints(v: Vars, c: string)
    requires !IsStart(c) && !IsFlash(c)
    ensures HandleCommand(v, Some(c)).out == v.out
  {
  }

  /** The command prints nothing, START's acknowledgement, or FLASH's
      acknowledgement and the two reset notices. */
  lemma CommandOut(v: Vars, command: Option<string>)
    ensures var o := HandleCommand(v, command).out;
      || o == v.out || o == v.out + [MSG_START_RECEIVED]
      || o == v.out + [MSG_FLASH_RECEIVED] + [MSG_SENT_RESET] + [MSG_SENT_RESET]
  {
    if command.Some? {
      if IsStart(command.value) {
        StartCommandPrints(v, command.value);
      } else if IsFlash(command.value) {
        FlashCommandResetsTwice(v, command.value);
      } else {
        OtherCommandPrints(v, command.value);
      }
    }
  }

  /** The command and the button print only the command's acknowledgements. */
  lemma PreludeAddsNo(v: Vars, t: Tick, line: string)
    requires line != MSG_START_RECEIVED && line != MSG_FLASH_RECEIVED && line != MSG_SENT_RESET
    ensures AddsNo(v.out, Prelude(v, t).out, line)
  {
    var c := HandleCommand(v, t.command);
    ButtonKeepsRun(c, t.button, t.now);
    CommandOut(v, t.command);
    var o1 := v.out + [MSG_FLASH_RECEIVED];
    var o2 := o1 + [MSG_SENT_RESET];
    if c.out == v.out {
      assert v.out[..|v.out|] == v.out;
    } else if c.out == v.out + [MSG_START_RECEIVED] {
      AddsOne(v.out, MSG_START_RECEIVED, line);
    } else {
      AddsOne(v.out, MSG_FLASH_RECEIVED, line);
      AddsOne(o1, MSG_SENT_RESET, line);
      AddsOne(o2, MSG_SENT_RESET, line);
      AddsNoTrans(v.out, o1, o2, line);
      AddsNoTrans(v.out, o2, o2 + [MSG_SENT_RESET], line);
    }
  }

  // Each stage function.

  /** After its BEGIN line ALL_HIGH prints no other BEGIN line, keeps its
      flag set, and enters ALL_LOW with that stage's flag clear. */
  lemma AllHighTail(v: Vars, levels: seq<bool>, now: Millis, stamp: Millis)
    requires v.state == WaitAllHigh && |levels| == NUM_TEST_PINS
    ensures var r := AllHighStage(v, levels, now, stamp);
      && AddsNo(BeginAllHigh(v).out, r.out, MSG_ALL_HIGH_BEGIN)
      && r.beginAllHighPrinted && (r.state == WaitAllHigh || r.state == WaitAllLow)
      && (r.state == WaitAllLow ==> !r.beginAllLowPrinted)
  {
    var v1 := BeginAllHigh(v);
    if AllAt(levels, HIGH) {
      AllHighPasses(v, levels, now, stamp);
      AddsOne(v1.out, MSG_ALL_HIGH_OK, MSG_ALL_HIGH_BEGIN);
    } else if Elapsed(now, v.stateStartMs) > PRECHECK_TIMEOUT_MS {
      AllHighTimesOut(v, levels, now, stamp);
      HeadDiffers(MSG_ALL_HIGH_ERROR, PinsByLevel(levels, LOW), MSG_ALL_HIGH_BEGIN, 26);
      AddsOne(v1.out, MSG_ALL_HIGH_ERROR + PinsByLevel(levels, LOW), MSG_ALL_HIGH_BEGIN);
    } else {
      AllHighWaits(v, levels, now, stamp);
      assert v1.out[..|v1.out|] == v1.out;
    }
  }

  /** ALL_HIGH prints its BEGIN line first when its flag is clear and not
      at all when it is set, and enters ALL_LOW with that stage's flag
      clear. */
  lemma AllHighBeginOnce(v: Vars, levels: seq<bool>, now: Millis, stamp: Millis)
    requires v.state == WaitAllHigh && |levels| == NUM_TEST_PINS
    ensures var r := AllHighStage(v, levels, now, stamp);
      && r.beginAllHighPrinted
      && (v.beginAllHighPrinted ==> AddsNo(v.out, r.out, MSG_ALL_HIGH_BEGIN))
      && (!v.beginAllHighPrinted ==>
            |r.out| > |v.out| && r.out[|v.out|] == MSG_ALL_HIGH_BEGIN
            && AddsNo(v.out + [MSG_ALL_HIGH_BEGIN], r.out, MSG_ALL_HIGH_BEGIN))
      && (r.state == WaitAllLow ==> !r.beginAllLowPrinted)
  {
    AllHighTail(v, levels, now, stamp);
    if !v.beginAllHighPrinted {
      FirstAdded(v.out, MSG_ALL_HIGH_BEGIN, AllHighStage(v, levels, now, stamp).out, MSG_ALL_HIGH_BEGIN);
    }
  }

  /** After its BEGIN line ALL_LOW prints no other BEGIN line, keeps its
      flag set, and enters SEQUENCE with that stage's flag clear. */
  lemma AllLowTail(v: Vars, levels: seq<bool>, now: Millis, stamp: Millis)
    requires v.state == WaitAllLow && |levels| == NUM_TEST_PINS
    ensures var r := AllLowStage(v, levels, now, stamp);
      && AddsNo(BeginAllLow(v).out, r.out, MSG_ALL_LOW_BEGIN)
      && r.beginAllLowPrinted && (r.state == WaitAllLow || r.state == Sequence)
      && (r.state == Sequence ==> !r.beginSequencePrinted)
  {
    var v1 := BeginAllLow(v);
    if AllAt(levels, LOW) {
      AllLowPasses(v, levels, now, stamp);
      AddsOne(v1.out, MSG_ALL_LOW_OK, MSG_ALL_LOW_BEGIN);
    } else if Elapsed(now, v.stateStartMs) > LOW_STAGE_TIMEOUT_MS {
      AllLowTimesOut(v, levels, now, stamp);
      HeadDiffers(MSG_ALL_LOW_ERROR, PinsByLevel(levels, HIGH), MSG_ALL_LOW_BEGIN, 25);
      AddsOne(v1.out, MSG_ALL_LOW_ERROR + PinsByLevel(levels, HIGH), MSG_ALL_LOW_BEGIN);
    } else {
      AllLowWaits(v, levels, now, stamp);
      assert v1.out[..|v1.out|] == v1.out;
    }
  }

  /** ALL_LOW prints its BEGIN line first when its flag is clear and not at
      all when it is set, and enters SEQUENCE with that stage's flag clear. */
  lemma AllLowBeginOnce(v: Vars, levels: seq<bool>, now: Millis, stamp: Millis)
    requires v.state == WaitAllLow && |levels| == NUM_TEST_PINS
    ensures var r := AllLowStage(v, levels, now, stamp);
      && r.beginAllLowPrinted
      && (v.beginAllLowPrinted ==> AddsNo(v.out, r.out, MSG_ALL_LOW_BEGIN))
      && (!v.beginAllLowPrinted ==>
            |r.out| > |v.out| && r.out[|v.out|] == MSG_ALL_LOW_BEGIN
            && AddsNo(v.out + [MSG_ALL_LOW_BEGIN], r.out, MSG_ALL_LOW_BEGIN))
      && (r.state == Sequence ==> !r.beginSequencePrinted)
  {
    AllLowTail(v, levels, now, stamp);
    if !v.beginAllLowPrinted {
      FirstAdded(v.out, MSG_ALL_LOW_BEGIN, AllLowStage(v, levels, now, stamp).out, MSG_ALL_LOW_BEGIN);
    }
  }

  /** The SEQUENCE timeout prints its own report only, and leaves the
      flags alone. */
  lemma TimeoutTail(v: Vars, now: Millis, stamp: Millis)
    ensures var r := SequenceTimeout(v, now, stamp);
      && AddsNo(v.out, r.out, MSG_SEQ_BEGIN)
      && r.beginSequencePrinted == v.beginSequencePrinted && r.beginFailPrinted == v.beginFailPrinted
      && r.state == (if Elapsed(now, v.stateStartMs) > SEQUENCE_TIMEOUT_MS then Fail else v.state)
  {
    if Elapsed(now, v.stateStartMs) > SEQUENCE_TIMEOUT_MS {
      var expected := if v.expectedIndex < NUM_TEST_PINS then TEST_LABELS[v.expectedIndex] else "end";
      HeadDiffers(MSG_SEQ_TIMEOUT, expected, MSG_SEQ_BEGIN, 26);
      AddsOne(v.out, MSG_SEQ_TIMEOUT + expected, MSG_SEQ_BEGIN);
    } else {
      assert v.out[..|v.out|] == v.out;
    }
  }

  /** The verdict on a rise prints ALL OK or an error report only, and
      leaves the flags alone. */
  lemma JudgeTail(v: Vars, h: nat, stamp: Millis)
    requires h < NUM_TEST_PINS
    ensures var r := Judge(v, h, stamp).0;
      && AddsNo(v.out, r.out, MSG_SEQ_BEGIN)
      && r.beginSequencePrinted == v.beginSequencePrinted && r.beginFailPrinted == v.beginFailPrinted
      && (Judge(v, h, stamp).1 ==> r.state == Success || r.state == Fail)
      && (!Judge(v, h, stamp).1 ==> r.state == v.state && r.stateStartMs == v.stateStartMs)
  {
    var added: seq<string>;
    if h == v.expectedIndex {
      if h + 1 == NUM_TEST_PINS {
        added := [MSG_SEQ_ALL_OK];
        JudgeLastPrints(v, h, stamp);
      } else {
        added := [];
        JudgeNextPrints(v, h, stamp);
      }
    } else if h > v.expectedIndex {
      OrderLineDiffers(v.expectedIndex, h);
      added := [OrderLine(v.expectedIndex, h)];
      JudgeLaterPrints(v, h, stamp);
    } else {
      HeadDiffers(MSG_SEQ_EARLIER, TEST_LABELS[h], MSG_SEQ_BEGIN, 26);
      added := [MSG_SEQ_EARLIER + TEST_LABELS[h]];
      JudgeEarlierPrints(v, h, stamp);
    }
    AddsAll(v.out, added, MSG_SEQ_BEGIN);
  }

  lemma JudgeLastPrints(v: Vars, h: nat, stamp: Millis)
    requires h == v.expectedIndex == NUM_TEST_PINS - 1
    ensures var r := Judge(v, h, stamp).0;
      && r.out == v.out + [MSG_SEQ_ALL_OK]
      && r.beginSequencePrinted == v.beginSequencePrinted && r.beginFailPrinted == v.beginFailPrinted
      && Judge(v, h, stamp).1 && r.state == Success
  {
  }

  lemma JudgeNextPrints(v: Vars, h: nat, stamp: Millis)
    requires h == v.expectedIndex < NUM_TEST_PINS - 1
    ensures var r := Judge(v, h, stamp).0;
      && r.out == v.out
      && r.beginSequencePrinted == v.beginSequencePrinted && r.beginFailPrinted == v.beginFailPrinted
      && !Judge(v, h, stamp).1 && r.state == v.state && r.stateStartMs == v.stateStartMs
  {
  }

  lemma JudgeLaterPrints(v: Vars, h: nat, stamp: Millis)
    requires v.expectedIndex < h < NUM_TEST_PINS
    ensures var r := Judge(v, h, stamp).0;
      && r.out == v.out + [OrderLine(v.expectedIndex, h)]
      && r.beginSequencePrinted == v.beginSequencePrinted && r.beginFailPrinted == v.beginFailPrinted
      && Judge(v, h, stamp).1 && r.state == Fail
  {
  }

  lemma JudgeEarlierPrints(v: Vars, h: nat, stamp: Millis)
    requires h < v.expectedIndex && h < NUM_TEST_PINS
    ensures var r := Judge(v, h, stamp).0;
      && r.out == v.out + [MSG_SEQ_EARLIER + TEST_LABELS[h]]
      && r.beginSequencePrinted == v.beginSequencePrinted && r.beginFailPrinted == v.beginFailPrinted
      && Judge(v, h, stamp).1 && r.state == Fail
  {
  }

  lemma AddsAll(a: seq<string>, added: seq<string>, line: string)
    requires line !in added
    ensures AddsNo(a, a + added, line)
  {
    assert (a + added)[..|a|] == a;
    forall i | |a| <= i < |a + added| ensures (a + added)[i] != line {
      assert (a + added)[i] == added[i - |a|];
    }
  }

  lemma OrderLineDiffers(expected: nat, h: nat)
    requires expected < h < NUM_TEST_PINS
    ensures OrderLine(expected, h) != MSG_SEQ_BEGIN
  {
    var a := MSG_SEQ_ORDER + TEST_LABELS[expected];
    var b := a + MSG_SEQ_RECEIVED;
    assert a[26] == MSG_SEQ_ORDER[26];
    assert b[26] == a[26];
    assert OrderLine(expected, h)[26] == b[26];
  }

  /** A rise prints its report and the verdict only, and leaves the flags
      alone. */
  lemma RiseTail(v: Vars, h: nat, stamp: Millis)
    requires WellFormed(v) && h < NUM_TEST_PINS
    ensures var r := Rise(v, h, stamp).0;
      && AddsNo(v.out, r.out, MSG_SEQ_BEGIN)
      && r.beginSequencePrinted == v.beginSequencePrinted && r.beginFailPrinted == v.beginFailPrinted
      && (Rise(v, h, stamp).1 ==> r.state == Success || r.state == Fail)
      && (!Rise(v, h, stamp).1 ==> r.state == v.state && r.stateStartMs == v.stateStartMs)
  {
    if v.pinWasHigh[h] {
      assert v.out[..|v.out|] == v.out;
    } else {
      var m := MarkRise(v, h);
      HeadDiffers(MSG_SEQ_RISE, TEST_LABELS[h], MSG_SEQ_BEGIN, 26);
      AddsOne(v.out, MSG_SEQ_RISE + TEST_LABELS[h], MSG_SEQ_BEGIN);
      JudgeTail(m, h, stamp);
      AddsNoTrans(v.out, m.out, Judge(m, h, stamp).0.out, MSG_SEQ_BEGIN);
    }
  }

  /** After its BEGIN line SEQUENCE prints no other BEGIN line, keeps its
      flag set, and leaves the FAIL flag as it was. */
  lemma SequenceTail(v: Vars, levels: seq<bool>, now: Millis, stamp: Millis)
    requires WellFormed(v) && v.state == Sequence && |levels| == NUM_TEST_PINS
    ensures var r := SequenceStage(v, levels, now, stamp);
      && AddsNo(BeginSequence(v).out, r.out, MSG_SEQ_BEGIN)
      && r.beginSequencePrinted && r.beginFailPrinted == v.beginFailPrinted
      && (r.state == Sequence || r.state == Fail || r.state == Success)
      && (Elapsed(now, v.stateStartMs) > SEQUENCE_TIMEOUT_MS ==> r.state != Sequence)
  {
    var v1 := BeginSequence(v);
    BeginSequenceKeepsRun(v);
    var count := HighCount(levels);
    if count > 1 {
      SequenceSeveral(v, levels, now, stamp);
      assert SequenceStage(v, levels, now, stamp).state == Fail;
      HeadDiffers(MSG_SEQ_FAIL_PINS, PinsByLevel(levels, HIGH), MSG_SEQ_BEGIN, 26);
      AddsOne(v1.out, MSG_SEQ_FAIL_PINS + PinsByLevel(levels, HIGH), MSG_SEQ_BEGIN);
    } else if count == 1 {
      SequenceSingle(v, levels, now, stamp);
      var h := HighIdx(levels);
      var r := Rise(v1, h, stamp);
      RiseTail(v1, h, stamp);
      if !r.1 {
        TimeoutTail(r.0, now, stamp);
        AddsNoTrans(v1.out, r.0.out, SequenceTimeout(r.0, now, stamp).out, MSG_SEQ_BEGIN);
      }
    } else {
      SequenceNone(v, levels, now, stamp);
      TimeoutTail(v1.(pinWasHigh := ClearedMarks(v1.pinWasHigh, levels)), now, stamp);
    }
  }

  /** SEQUENCE prints its BEGIN line first when its flag is clear and not
      at all when it is set. */
  lemma SequenceBeginOnce(v: Vars, levels: seq<bool>, now: Millis, stamp: Millis)
    requires WellFormed(v) && v.state == Sequence && |levels| == NUM_TEST_PINS
    ensures var r := SequenceStage(v, levels, now, stamp);
      && r.beginSequencePrinted && r.beginFailPrinted == v.beginFailPrinted
      && (v.beginSequencePrinted ==> AddsNo(v.out, r.out, MSG_SEQ_BEGIN))
      && (!v.beginSequencePrinted ==>
            |r.out| > |v.out| && r.out[|v.out|] == MSG_SEQ_BEGIN
            && AddsNo(v.out + [MSG_SEQ_BEGIN], r.out, MSG_SEQ_BEGIN))
  {
    SequenceTail(v, levels, now, stamp);
    if !v.beginSequencePrinted {
      FirstAdded(v.out, MSG_SEQ_BEGIN, SequenceStage(v, levels, now, stamp).out, MSG_SEQ_BEGIN);
    }
  }

  /** FAIL prints "Master: FAIL" first when its flag is clear and not at
      all when it is set; it stays with the flag set, or restarts with the
      flags of the new run clear. */
  lemma FailOnce(v: Vars, pressed: bool, now: Millis, stamp: Millis)
    requires v.state == Fail
    ensures var r := FailStage(v, pressed, now, stamp);
      && (r.state == Fail || r.state == WaitAllHigh)
      && (r.state == Fail ==> r.beginFailPrinted)
      && (r.state == WaitAllHigh ==> !r.beginAllHighPrinted && !r.beginFailPrinted)
      && (v.beginFailPrinted ==> AddsNo(v.out, r.out, MSG_FAIL))
      && (!v.beginFailPrinted ==>
            |r.out| > |v.out| && r.out[|v.out|] == MSG_FAIL && AddsNo(v.out + [MSG_FAIL], r.out, MSG_FAIL))
  {
    var v1 := FailBlink(v, now);
    FailBlinkPrints(v, now);
    var o := v1.out;
    var r := FailStage(v, pressed, now, stamp);
    if pressed || v1.startRequested {
      RestartPrints(v1, stamp);
      AddsAll(o, [MSG_START, MSG_SENT_RESET], MSG_FAIL);
      assert o + [MSG_START] + [MSG_SENT_RESET] == o + [MSG_START, MSG_SENT_RESET];
    } else {
      assert r == v1;
      assert o[..|o|] == o;
    }
    if !v.beginFailPrinted {
      FirstAdded(v.out, MSG_FAIL, r.out, MSG_FAIL);
    }
  }

  lemma FailBlinkPrints(v: Vars, now: Millis)
    ensures var r := FailBlink(v, now);
      && r.out == (if v.beginFailPrinted then v.out else v.out + [MSG_FAIL])
      && r.beginFailPrinted && r.state == v.state
  {
  }

  lemma RestartPrints(v: Vars, stamp: Millis)
    ensures var r := RestartTest(v, stamp);
      && r.out == v.out + [MSG_START] + [MSG_SENT_RESET]
      && r.state == WaitAllHigh && !r.beginAllHighPrinted && !r.beginFailPrinted
  {
  }

  /** WAIT_BUTTON enters ALL_HIGH with the flags of the new run clear. */
  lemma WaitButtonEntry(v: Vars, pressed: bool, now: Millis, stamp: Millis)
    requires v.state == WaitButton
    ensures var r := WaitButtonStage(v, pressed, now, stamp);
      && (r.state == WaitButton || r.state == WaitAllHigh)
      && (r.state == WaitAllHigh ==> !r.beginAllHighPrinted && !r.beginFailPrinted)
  {
    HeartbeatKeepsRun(v, now);
  }

  // One call of `loop()`.

  lemma AllHighStep(v: Vars, t: Tick)
    requires WellFormed(v) && v.state == WaitAllHigh && |t.levels| == NUM_TEST_PINS
    ensures var r := Step(v, t);
      && r.beginAllHighPrinted
      && (v.beginAllHighPrinted ==> AddsNo(v.out, r.out, MSG_ALL_HIGH_BEGIN))
      && (r.state == WaitAllHigh || (r.state == WaitAllLow && !r.beginAllLowPrinted))
  {
    PreludeKeepsRun(v, t);
    var v1 := Prelude(v, t);
    AllHighTail(v1, t.levels, t.now, t.stamp);
    PreludeAddsNo(v, t, MSG_ALL_HIGH_BEGIN);
    if v.beginAllHighPrinted {
      AddsNoTrans(v.out, v1.out, Step(v, t).out, MSG_ALL_HIGH_BEGIN);
    }
  }

  lemma AllLowStep(v: Vars, t: Tick)
    requires WellFormed(v) && v.state == WaitAllLow && |t.levels| == NUM_TEST_PINS
    ensures var r := Step(v, t);
      && r.beginAllLowPrinted
      && (v.beginAllLowPrinted ==> AddsNo(v.out, r.out, MSG_ALL_LOW_BEGIN))
      && (r.state == WaitAllLow || (r.state == Sequence && !r.beginSequencePrinted))
  {
    PreludeKeepsRun(v, t);
    var v1 := Prelude(v, t);
    AllLowTail(v1, t.levels, t.now, t.stamp);
    PreludeAddsNo(v, t, MSG_ALL_LOW_BEGIN);
    if v.beginAllLowPrinted {
      AddsNoTrans(v.out, v1.out, Step(v, t).out, MSG_ALL_LOW_BEGIN);
    }
  }

  lemma SequenceStep(v: Vars, t: Tick)
    requires WellFormed(v) && v.state == Sequence && |t.levels| == NUM_TEST_PINS
    ensures var r := Step(v, t);
      && r.beginSequencePrinted
      && (v.beginSequencePrinted ==> AddsNo(v.out, r.out, MSG_SEQ_BEGIN))
      && (r.state == Sequence || r.state == Success || (r.state == Fail && r.beginFailPrinted == v.beginFailPrinted))
      && (Elapsed(t.now, v.stateStartMs) > SEQUENCE_TIMEOUT_MS ==> r.state != Sequence)
  {
    PreludeKeepsRun(v, t);
    var v1 := Prelude(v, t);
    SequenceTail(v1, t.levels, t.now, t.stamp);
    PreludeAddsNo(v, t, MSG_SEQ_BEGIN);
    if v.beginSequencePrinted {
      AddsNoTrans(v.out, v1.out, Step(v, t).out, MSG_SEQ_BEGIN);
    }
  }

  lemma FailStep(v: Vars, t: Tick)
    requires WellFormed(v) && v.state == Fail && |t.levels| == NUM_TEST_PINS
    ensures var r := Step(v, t);
      && (r.state == Fail ==> r.beginFailPrinted)
      && (v.beginFailPrinted ==> AddsNo(v.out, r.out, MSG_FAIL))
      && (r.state == Fail || (r.state == WaitAllHigh && !r.beginAllHighPrinted && !r.beginFailPrinted))
  {
    PreludeKeepsRun(v, t);
    var v1 := Prelude(v, t);
    FailOnce(v1, Pressed(v1, t.button, t.now), t.now, t.stamp);
    PreludeAddsNo(v, t, MSG_FAIL);
    if v.beginFailPrinted {
      AddsNoTrans(v.out, v1.out, Step(v, t).out, MSG_FAIL);
    }
  }

  lemma WaitButtonStep(v: Vars, t: Tick)
    requires WellFormed(v) && v.state == WaitButton && |t.levels| == NUM_TEST_PINS
    ensures var r := Step(v, t);
      r.state == WaitButton || (r.state == WaitAllHigh && !r.beginAllHighPrinted && !r.beginFailPrinted)
  {
    PreludeKeepsRun(v, t);
    var v1 := Prelude(v, t);
    WaitButtonEntry(v1, Pressed(v1, t.button, t.now), t.now, t.stamp);
  }

  lemma SuccessStep(v: Vars, t: Tick)
    requires WellFormed(v) && v.state == Success && |t.levels| == NUM_TEST_PINS
    ensures Step(v, t).state == WaitButton
  {
    PreludeKeepsRun(v, t);
  }

  /** Every transition into a stage clears that stage's flag, so the stage
      prints its BEGIN line (or FAIL its FAIL line) on its first call of
      `loop()`; a run under way enters FAIL with the FAIL line not yet
      printed. */
  lemma StageEnteredWithFlagClear(v: Vars, t: Tick)
    requires Inv(v) && |t.levels| == NUM_TEST_PINS
    ensures var r := Step(v, t);
      && (r.state == WaitAllHigh && v.state != WaitAllHigh ==> !r.beginAllHighPrinted)
      && (r.state == WaitAllLow && v.state != WaitAllLow ==> !r.beginAllLowPrinted)
      && (r.state == Sequence && v.state != Sequence ==> !r.beginSequencePrinted)
      && (r.state == Fail && v.state != Fail ==> !r.beginFailPrinted)
  {
    match v.state
    case WaitButton => WaitButtonStep(v, t);
    case WaitAllHigh => AllHighStep(v, t);
    case WaitAllLow => AllLowStep(v, t);
    case Sequence => SequenceStep(v, t);
    case Success => SuccessStep(v, t);
    case Fail => FailStep(v, t);
  }

  /** A call of `loop()` in a stage whose flag is set prints no BEGIN line
      for it (in FAIL, no FAIL line), and every call in a stage leaves its
      flag set. With `StageEnteredWithFlagClear`, each stage prints its
      line once per entry. */
  lemma BeginNotRepeated(v: Vars, t: Tick)
    requires Inv(v) && |t.levels| == NUM_TEST_PINS
    ensures var r := Step(v, t);
      && (v.state == WaitAllHigh ==> r.beginAllHighPrinted)
      && (v.state == WaitAllLow ==> r.beginAllLowPrinted)
      && (v.state == Sequence ==> r.beginSequencePrinted)
      && (v.state == Fail && r.state == Fail ==> r.beginFailPrinted)
      && (v.state == WaitAllHigh && v.beginAllHighPrinted ==> AddsNo(v.out, r.out, MSG_ALL_HIGH_BEGIN))
      && (v.state == WaitAllLow && v.beginAllLowPrinted ==> AddsNo(v.out, r.out, MSG_ALL_LOW_BEGIN))
      && (v.state == Sequence && v.beginSequencePrinted ==> AddsNo(v.out, r.out, MSG_SEQ_BEGIN))
      && (v.state == Fail && v.beginFailPrinted ==> AddsNo(v.out, r.out, MSG_FAIL))
  {
    match v.state
    case WaitButton =>
    case WaitAllHigh => AllHighStep(v, t);
    case WaitAllLow => AllLowStep(v, t);
    case Sequence => SequenceStep(v, t);
    case Success =>
    case Fail => FailStep(v, t);
  }

  /** SEQUENCE never outlives its timeout: the first call of `loop()` after
      more than 15 seconds in the stage ends the run, in FAIL or, when that
      call sees the last line rise, in SUCCESS. */
  lemma SequenceTimeoutEndsRun(v: Vars, t: Tick)
    requires Inv(v) && v.state == Sequence && |t.levels| == NUM_TEST_PINS
    requires Elapsed(t.now, v.stateStartMs) > SEQUENCE_TIMEOUT_MS
    ensures Step(v, t).state == Fail || Step(v, t).state == Success
  {
    SequenceStep(v, t);
  }
}
