/** The flashing worker (app/ui.py, `FlashWorker`): wait for the DFU port the
    Master's FLASH command makes appear, flash the Target firmware, then wait
    for the Target's normal port to come back.

    What the worker cannot see is given to it:
    - each call to `list_ports.comports()` is one snapshot, listed in the
      order in which iterating over the set of device names visits them;
    - the polls that fit before a deadline are a finite sequence of such
      snapshots;
    - `stop()` comes from another thread, so the value of `_stop` at each
      stop check is given by `stopAt`: from the check numbered `stopAt` on
      the flag reads true;
    - the flashing tool either finishes or raises. */
module Flashing {
  import opened Wrappers

  const CANCELLED := "Cancelled"
  const UPLOAD_FAILED := "Firmware upload failed: "
  const MSG_WAITING := "Flash: waiting for DFU port"
  const MSG_DFU_FOUND := "Flash: DFU port detected: "
  const MSG_DFU_MISSING := "Flash: DFU port not detected, will rely on auto-detection"
  const MSG_FINISHED := "Flash: firmware upload finished"

  /** What the call to `flash_firmware` did. */
  datatype FlashOutcome = Flashed | FlashThrew(msg: string)

  /** The call made to `flash_firmware`: with the DFU port and baud rate, or
      with the firmware path alone so that the tool finds the port. */
  datatype FlashCall = ToPort(hexPath: string, port: string, baud: int) | AutoDetect(hexPath: string)

  /** The signal the worker ends with: `done(dfu_port, new_target)`, where a
      port that was not found is "", or `failed(message)`. */
  datatype Outcome = Done(dfuPort: string, newTarget: string) | Failed(msg: string)

  /** Everything the worker learns from outside during one run. */
  datatype Env = Env(stopAt: Option<nat>, dfuPolls: seq<seq<string>>, flash: FlashOutcome, targetPolls: seq<seq<string>>)

  /** `_stop` as read at stop check number `check`. */
  predicate StopSeen(stopped: bool, stopAt: Option<nat>, check: nat) {
    stopped || (stopAt.Some? && stopAt.value <= check)
  }

  /** Python truthiness of an optional port name. */
  predicate Truthy(port: Option<string>) {
    port.Some? && port.value != ""
  }

  /** `port or ""` */
  function OrEmpty(port: Option<string>): string {
    if Truthy(port) then port.value else ""
  }

  /** `[d for d in now if d not in exclude]`: the snapshot's devices outside
      `exclude`, in the same order. */
  function Candidates(now: seq<string>, exclude: set<string>): (c: seq<string>)
    ensures |c| <= |now|
  {
    if now == [] then []
    else (if now[0] in exclude then [] else [now[0]]) + Candidates(now[1..], exclude)
  }

  /** The candidates are exactly the devices of the snapshot outside `exclude`. */
  lemma {:induction false} CandidatesExactly(now: seq<string>, exclude: set<string>, d: string)
    ensures d in Candidates(now, exclude) <==> d in now && d !in exclude
  {
    if now != [] {
      CandidatesExactly(now[1..], exclude, d);
      assert now == [now[0]] + now[1..];
    }
  }

  /** `_wait_for_new_port_local`, from stop check number `check` on: the
      port it returns and the number of the next stop check. */
  function Wait(polls: seq<seq<string>>, exclude: set<string>, stopped: bool, stopAt: Option<nat>, check: nat): (r: (Option<string>, nat))
    ensures check <= r.1 <= check + |polls|
    ensures r.0.Some? ==> r.0.value !in exclude
    decreases |polls|
  {
    if polls == [] then (None, check)
    else if StopSeen(stopped, stopAt, check) then (None, check + 1)
    else
      var c := Candidates(polls[0], exclude);
      if c != [] then
        CandidatesExactly(polls[0], exclude, c[0]);
        (Some(c[0]), check + 1)
      else Wait(polls[1..], exclude, stopped, stopAt, check + 1)
  }

  /** One poll of a wait, seen from poll `i` on. */
  lemma WaitStep(polls: seq<seq<string>>, i: nat, exclude: set<string>, stopped: bool, stopAt: Option<nat>, check: nat)
    requires i < |polls|
    ensures Wait(polls[i..], exclude, stopped, stopAt, check) ==
      if StopSeen(stopped, stopAt, check) then (None, check + 1)
      else if Candidates(polls[i], exclude) != [] then (Some(Candidates(polls[i], exclude)[0]), check + 1)
      else Wait(polls[i + 1..], exclude, stopped, stopAt, check + 1)
  {
    assert polls[i..][0] == polls[i] && polls[i..][1..] == polls[i + 1..];
  }

  /** Poll `k` of a wait is made, with the stop flag still clear, and finds
      a candidate, while no earlier poll found one. */
  ghost predicate Hit(polls: seq<seq<string>>, exclude: set<string>, stopped: bool, stopAt: Option<nat>, check: nat, k: int) {
    && 0 <= k < |polls|
    && !StopSeen(stopped, stopAt, check + k)
    && Candidates(polls[k], exclude) != []
    && forall j :: 0 <= j < k ==> Candidates(polls[j], exclude) == []
  }

  /** The port a wait returns was present in one of its polls. */
  lemma {:induction false} WaitFromPolls(polls: seq<seq<string>>, exclude: set<string>, stopped: bool, stopAt: Option<nat>, check: nat)
    ensures var r := Wait(polls, exclude, stopped, stopAt, check);
      r.0.Some? ==> exists k :: 0 <= k < |polls| && r.0.value in polls[k]
    decreases |polls|
  {
    var r := Wait(polls, exclude, stopped, stopAt, check);
    if polls != [] && !StopSeen(stopped, stopAt, check) {
      var c := Candidates(polls[0], exclude);
      if c != [] {
        CandidatesExactly(polls[0], exclude, c[0]);
      } else {
        WaitFromPolls(polls[1..], exclude, stopped, stopAt, check + 1);
        if r.0.Some? {
          var k :| 0 <= k < |polls| - 1 && r.0.value in polls[1..][k];
          assert r.0.value in polls[k + 1];
        }
      }
    }
  }

  /** A wait that returns a port has a poll that hit. */
  lemma {:induction false} WaitSomeHasHit(polls: seq<seq<string>>, exclude: set<string>, stopped: bool, stopAt: Option<nat>, check: nat)
    requires Wait(polls, exclude, stopped, stopAt, check).0.Some?
    ensures exists k :: Hit(polls, exclude, stopped, stopAt, check, k)
    decreases |polls|
  {
    if Candidates(polls[0], exclude) != [] {
      assert Hit(polls, exclude, stopped, stopAt, check, 0);
    } else {
      WaitSomeHasHit(polls[1..], exclude, stopped, stopAt, check + 1);
      var k :| Hit(polls[1..], exclude, stopped, stopAt, check + 1, k);
      HitShift(polls, exclude, stopped, stopAt, check, k);
    }
  }

  /** A poll that hits decides what the wait returns: its first candidate. */
  lemma {:induction false} HitReturned(polls: seq<seq<string>>, exclude: set<string>, stopped: bool, stopAt: Option<nat>, check: nat, k: int)
    requires Hit(polls, exclude, stopped, stopAt, check, k)
    ensures Wait(polls, exclude, stopped, stopAt, check).0 == Some(Candidates(polls[k], exclude)[0])
    decreases |polls|
  {
    if k > 0 {
      assert !StopSeen(stopped, stopAt, check) && Candidates(polls[0], exclude) == [];
      HitShift(polls, exclude, stopped, stopAt, check, k - 1);
      HitReturned(polls[1..], exclude, stopped, stopAt, check + 1, k - 1);
      assert polls[1..][k - 1] == polls[k];
    }
  }

  /** After a first poll that found nothing, the polls that hit are those of
    the rest, shifted by one. */
  lemma HitShift(polls: seq<seq<string>>, exclude: set<string>, stopped: bool, stopAt: Option<nat>, check: nat, k: int)
    requires 0 <= k < |polls| - 1
    requires Candidates(polls[0], exclude) == [] && !StopSeen(stopped, stopAt, check)
    ensures Hit(polls[1..], exclude, stopped, stopAt, check + 1, k) <==> Hit(polls, exclude, stopped, stopAt, check, k + 1)
  {
    var tail := polls[1..];
    assert tail[k] == polls[k + 1];
    if Hit(tail, exclude, stopped, stopAt, check + 1, k) {
      forall j | 0 <= j < k + 1 ensures Candidates(polls[j], exclude) == [] {
        if j > 0 {
          assert polls[j] == tail[j - 1];
        }
      }
    }
    if Hit(polls, exclude, stopped, stopAt, check, k + 1) {
      forall j | 0 <= j < k ensures Candidates(tail[j], exclude) == [] {
        assert tail[j] == polls[j + 1];
      }
    }
  }

  /** The wait returns the first candidate of the first poll made that has
      one, and returns None exactly when no poll made found a candidate. */
  lemma WaitFirstCandidate(polls: seq<seq<string>>, exclude: set<string>, stopped: bool, stopAt: Option<nat>, check: nat)
    ensures var r := Wait(polls, exclude, stopped, stopAt, check);
      r.0.Some? <==> exists k :: Hit(polls, exclude, stopped, stopAt, check, k)
    ensures var r := Wait(polls, exclude, stopped, stopAt, check);
      forall k :: Hit(polls, exclude, stopped, stopAt, check, k) ==> r.0 == Some(Candidates(polls[k], exclude)[0])
  {
    if Wait(polls, exclude, stopped, stopAt, check).0.Some? {
      WaitSomeHasHit(polls, exclude, stopped, stopAt, check);
    }
    forall k | Hit(polls, exclude, stopped, stopAt, check, k)
      ensures Wait(polls, exclude, stopped, stopAt, check).0 == Some(Candidates(polls[k], exclude)[0])
    {
      HitReturned(polls, exclude, stopped, stopAt, check, k);
    }
  }

  /** The wait for the DFU port, made after a first stop check numbered
      `check` that read false: it excludes the ports present before FLASH. */
  function DfuWait(env: Env, before: set<string>, check: nat): (Option<string>, nat) {
    Wait(env.dfuPolls, before, false, env.stopAt, check + 1)
  }

  /** The ports the wait for the Target's normal port excludes. */
  function TargetExclude(before: set<string>, dfu: Option<string>): set<string> {
    before + if Truthy(dfu) then {dfu.value} else {}
  }

  /** Whether a run ends in "Cancelled": `_stop` reads true at the check on
      entry, at the check after the DFU wait (which also covers a stop that
      ended the wait), at the check before the flash, or, when the flash
      succeeded, at the check after it. */
  predicate Cancelled(stopped: bool, check: nat, env: Env, before: set<string>) {
    || StopSeen(stopped, env.stopAt, check)
    || (var c1 := DfuWait(env, before, check).1;
        || StopSeen(false, env.stopAt, c1)
        || StopSeen(false, env.stopAt, c1 + 1)
        || (env.flash.Flashed? && StopSeen(false, env.stopAt, c1 + 2)))
  }

  /** The signal `run()` ends with, for a worker whose `_stop` is `stopped`
      and whose next stop check is numbered `check`. */
  function RunOutcome(stopped: bool, check: nat, env: Env, before: set<string>): Outcome {
    if Cancelled(stopped, check, env, before) then Failed(CANCELLED)
    else if env.flash.FlashThrew? then Failed(UPLOAD_FAILED + env.flash.msg)
    else
      var (dfu, c1) := DfuWait(env, before, check);
      Done(OrEmpty(dfu), OrEmpty(Wait(env.targetPolls, TargetExclude(before, dfu), false, env.stopAt, c1 + 3).0))
  }

  /** A run reports "Cancelled" exactly when a stop check before the wait for
      the Target's port read true; no upload error reads "Cancelled". */
  lemma RunCancelledExactly(stopped: bool, check: nat, env: Env, before: set<string>)
    ensures RunOutcome(stopped, check, env, before) == Failed(CANCELLED) <==> Cancelled(stopped, check, env, before)
  {
    if env.flash.FlashThrew? {
      assert |UPLOAD_FAILED + env.flash.msg| > |CANCELLED|;
    }
  }

  /** The ports a finished run reports: the DFU port is new and was seen by
      a DFU poll; the Target's port is new, differs from the DFU port, and
      was seen by a Target poll. */
  lemma RunDonePorts(stopped: bool, check: nat, env: Env, before: set<string>)
    ensures var o := RunOutcome(stopped, check, env, before);
      o.Done? ==>
        && (o.dfuPort != "" ==> o.dfuPort !in before && exists k :: 0 <= k < |env.dfuPolls| && o.dfuPort in env.dfuPolls[k])
        && (o.newTarget != "" ==>
              && o.newTarget !in before && o.newTarget != o.dfuPort
              && exists k :: 0 <= k < |env.targetPolls| && o.newTarget in env.targetPolls[k])
  {
    if !Cancelled(stopped, check, env, before) && env.flash.Flashed? {
      var (dfu, c1) := DfuWait(env, before, check);
      WaitFromPolls(env.dfuPolls, before, false, env.stopAt, check + 1);
      WaitFromPolls(env.targetPolls, TargetExclude(before, dfu), false, env.stopAt, c1 + 3);
    }
  }

  /** Without a stop, a run always reaches the flash: a successful flash
      ends in `done`, a failed one in the upload error. */
  lemma RunUninterrupted(check: nat, env: Env, before: set<string>)
    requires env.stopAt.None?
    ensures RunOutcome(false, check, env, before) ==
      if env.flash.Flashed? then
        var (dfu, c1) := DfuWait(env, before, check);
        Done(OrEmpty(dfu), OrEmpty(Wait(env.targetPolls, TargetExclude(before, dfu), false, env.stopAt, c1 + 3).0))
      else Failed(UPLOAD_FAILED + env.flash.msg)
  {
  }

  class FlashWorker {
    const hexPath: string
    const baud: int
    /** `before_ports`: the devices present before FLASH was sent. */
    const beforePorts: set<string>
    /** `_stop` */
    var stopRequested: bool
    /** Number of times `_stop` has been read. */
    var checks: nat
    /** Every `progress` message, in order. */
    var progress: seq<string>
    /** Every call made to the flashing tool. */
    var flashCalls: seq<FlashCall>

    constructor (hexPath: string, baud: int, beforePorts: Option<set<string>>)
      ensures this.hexPath == hexPath && this.baud == baud
      ensures this.beforePorts == if beforePorts.Some? then beforePorts.value else {}
      ensures !stopRequested && checks == 0 && progress == [] && flashCalls == []
    {
      this.hexPath := hexPath;
      this.baud := baud;
      this.beforePorts := if beforePorts.Some? then beforePorts.value else {};
      stopRequested := false;
      checks := 0;
      progress := [];
      flashCalls := [];
    }

    method Stop()
      modifies this`stopRequested
      ensures stopRequested
    {
      stopRequested := true;
    }

    /** One read of `_stop`. */
    method CheckStop(stopAt: Option<nat>) returns (stop: bool)
      modifies this`stopRequested, this`checks
      ensures stop == StopSeen(old(stopRequested), stopAt, old(checks))
      ensures stopRequested == stop && checks == old(checks) + 1
    {
      if StopSeen(stopRequested, stopAt, checks) {
        stopRequested := true;
      }
      checks := checks + 1;
      stop := stopRequested;
    }

    /** `_wait_for_new_port_local(exclude, timeout_s)` over the polls made
      before the deadline. */
    method WaitForNewPort(exclude: set<string>, polls: seq<seq<string>>, stopAt: Option<nat>) returns (port: Option<string>)
      modifies this`stopRequested, this`checks
      ensures (port, checks) == Wait(polls, exclude, old(stopRequested), stopAt, old(checks))
      ensures old(stopRequested) ==> stopRequested
      ensures !old(stopRequested) ==> (stopRequested <==> checks > old(checks) && StopSeen(false, stopAt, checks - 1))
    {
      ghost var stopped0, check0 := stopRequested, checks;
      ghost var w := Wait(polls, exclude, stopped0, stopAt, check0);
      var i := 0;
      while i < |polls|
        invariant 0 <= i <= |polls| && checks == check0 + i
        invariant stopRequested == stopped0
        invariant i > 0 ==> !StopSeen(stopped0, stopAt, checks - 1)
        invariant Wait(polls[i..], exclude, stopped0, stopAt, checks) == w
      {
        WaitStep(polls, i, exclude, stopped0, stopAt, checks);
        var stop := CheckStop(stopAt);
        if stop {
          return None;
        }
        var candidates := Candidates(polls[i], exclude);
        if candidates != [] {
          return Some(candidates[0]);
        }
        i := i + 1;
      }
      assert polls[i..] == [];
      return None;
    }

    /** `run()` */
    method Run(env: Env) returns (outcome: Outcome)
      modifies this`stopRequested, this`checks, this`progress, this`flashCalls
      ensures outcome == RunOutcome(old(stopRequested), old(checks), env, beforePorts)
      ensures outcome.Done? ==>
        && |progress| > 0 && progress[|progress| - 1] == MSG_FINISHED
        && |flashCalls| == |old(flashCalls)| + 1 && env.flash.Flashed?
        && (outcome.dfuPort == "" || outcome.dfuPort !in beforePorts)
        && (outcome.newTarget == "" || (outcome.newTarget !in beforePorts && outcome.newTarget != outcome.dfuPort))
        && (flashCalls[|flashCalls| - 1] == if outcome.dfuPort == "" then AutoDetect(hexPath) else ToPort(hexPath, outcome.dfuPort, baud))
      ensures outcome.Failed? ==>
        || (outcome.msg == CANCELLED && stopRequested)
        || (env.flash.FlashThrew? && outcome.msg == UPLOAD_FAILED + env.flash.msg && |flashCalls| == |old(flashCalls)| + 1)
      ensures |old(flashCalls)| <= |flashCalls| <= |old(flashCalls)| + 1 && flashCalls[..|old(flashCalls)|] == old(flashCalls)
      ensures old(stopRequested) ==> outcome == Failed(CANCELLED) && progress == old(progress) && flashCalls == old(flashCalls)
      ensures !old(stopRequested) && env.stopAt.None? ==>
        (if env.flash.Flashed? then outcome.Done? else outcome == Failed(UPLOAD_FAILED + env.flash.msg))
    {
      var stop := CheckStop(env.stopAt);
      if stop {
        return Failed(CANCELLED);
      }
      progress := progress + [MSG_WAITING];
      // Step 1: wait for the DFU port.
      var dfu := WaitForNewPort(beforePorts, env.dfuPolls, env.stopAt);
      ghost var c1 := checks;
      assert (dfu, c1) == DfuWait(env, beforePorts, old(checks));
      assert stopRequested ==> StopSeen(false, env.stopAt, c1);
      stop := CheckStop(env.stopAt);
      if stop {
        return Failed(CANCELLED);
      }
      if Truthy(dfu) {
        progress := progress + [MSG_DFU_FOUND + dfu.value];
      } else {
        progress := progress + [MSG_DFU_MISSING];
      }
      // Step 2: flash.
      stop := CheckStop(env.stopAt);
      if stop {
        return Failed(CANCELLED);
      }
      var call := if Truthy(dfu) then ToPort(hexPath, dfu.value, baud) else AutoDetect(hexPath);
      flashCalls := flashCalls + [call];
      if env.flash.FlashThrew? {
        return Failed(UPLOAD_FAILED + env.flash.msg);
      }
      progress := progress + [MSG_FINISHED];
      stop := CheckStop(env.stopAt);
      if stop {
        return Failed(CANCELLED);
      }
      // Step 3: wait for the Target's normal port.
      var exclude := TargetExclude(beforePorts, dfu);
      var newTarget := WaitForNewPort(exclude, env.targetPolls, env.stopAt);
      return Done(OrEmpty(dfu), OrEmpty(newTarget));
    }
  }
}
