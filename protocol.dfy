/** The desktop controller's reaction to serial lines and to its buttons
    (app/ui.py, `MainWindow`), as pure functions over the window's state.
    Colours are abstracted to the enumerations below; the serial and port
    outcomes the handlers depend on are parameters.

    `_last_action` is read with `getattr(self, "_last_action", "")` before it
    is first set and is set to None after a success; both behave the same in
    every comparison, so both are `NoAction`. */
module Protocol {
  import opened Wrappers
  import opened Text
  import Pins
  import ComPorts

  const MASTER_ROLE := "master"
  const TARGET_ROLE := "target"
  const MASTER_PREFIX := "Master"
  const TARGET_PREFIX := "Target"
  const START_COMMAND := "START"
  const FLASH_COMMAND := "FLASH"

  const MSG_FLASH_SENDING := "Flash: sending FLASH to Master (DFU enter)"
  const MSG_FLASH_RUN_SENDING := "Flash&Run: sending FLASH to Master (DFU enter)"
  const MSG_FLASH_RUN_NEW_TARGET := "Flash&Run: new Target COM detected: "
  const MSG_FLASH_RUN_NO_TARGET := "Flash&Run: new Target COM not detected, keeping previous selection"
  const MSG_FLASH_NEW_TARGET := "Flash: new Target COM detected: "
  const MSG_FLASH_ERROR := "Flash: error \U{2014} "

  /** `_last_action` */
  datatype Action = NoAction | RunAction | FlashAction | FlashRunAction

  /** The colour of a stage box: default, the palette's bright colour while
      a test is starting, yellow, green, red. */
  datatype Stage = NotStarted | Pending | Begin | StageOk | StageError

  /** The pin-out view: idle, testing, success or failure circles. */
  datatype Session = SessionIdle | Testing | Passed | Failed

  /** `_set_btn_state`: default, yellow, green, red. */
  datatype Button = Idle | Busy | Succeeded | Errored

  /** The window state the handlers read and write. */
  datatype Gui = Gui(
    problemPins: set<string>,
    lastAction: Action,
    masterIdleSeen: bool,
    targetIdleSeen: bool,
    awaitTargetReady: bool,
    masterReady: bool,
    targetReady: bool,
    masterSelectorError: bool,
    targetSelectorError: bool,
    masterLog: seq<string>,
    targetLog: seq<string>,
    allHigh: Stage,
    allLow: Stage,
    sequence: Stage,
    session: Session,
    runButton: Button,
    flashButton: Button,
    flashRunButton: Button,
    flashEnabled: bool,
    flashRunEnabled: bool,
    masterItem: string,
    targetItem: string)

  /** The buttons, the action in progress and the selected items agree. */
  predicate SameControls(a: Gui, b: Gui) {
    && a.lastAction == b.lastAction && a.runButton == b.runButton && a.flashButton == b.flashButton
    && a.flashRunButton == b.flashRunButton && a.flashEnabled == b.flashEnabled
    && a.flashRunEnabled == b.flashRunEnabled && a.masterItem == b.masterItem && a.targetItem == b.targetItem
  }

  /** The window right after construction, with the two selected combo items. */
  function Init(masterItem: string, targetItem: string): (g: Gui)
    ensures g.problemPins == {} && g.lastAction == NoAction && !g.awaitTargetReady
    ensures g.session == SessionIdle && g.masterLog == [] && g.targetLog == []
  {
    Gui({}, NoAction, false, false, false, false, false, false, false, [], [],
      NotStarted, NotStarted, NotStarted, SessionIdle, Idle, Idle, Idle, true, true,
      masterItem, targetItem)
  }

  /** How a command reached the Master: queued on its reader, or written
      directly to the device. */
  datatype Route = ByReader | ByPort(device: string)
  datatype Sent = Sent(command: string, route: Route)

  /** What sending to the Master will meet: whether the Master reader exists
      and accepts the line, and the serial library for the direct fallback. */
  datatype MasterLink = MasterLink(readerAccepts: bool, port: ComPorts.DirectPort)

  /** A handler's new state and the commands it sent to the Master. */
  datatype Out = Out(gui: Gui, sent: seq<Sent>)

  /** `_log_info`: the text goes to both logs. */
  function LogInfo(g: Gui, text: string): (r: Gui)
    ensures r == g.(masterLog := g.masterLog + [text], targetLog := g.targetLog + [text])
  {
    g.(masterLog := g.masterLog + [text], targetLog := g.targetLog + [text])
  }

  /** Send a command to the Master as `on_run_test` and `_send_master_flash`
      do: through the reader, else with a one-shot write of the
      newline-terminated command to the selected device. Nothing is sent
      when both fail. */
  function SendToMaster(masterItem: string, command: string, link: MasterLink): (sent: seq<Sent>)
    ensures |sent| <= 1
    ensures sent == [] <==>
      !link.readerAccepts && !ComPorts.SendCommandToPortItem(masterItem, command + "\n", link.port).Written?
    ensures link.readerAccepts ==> sent == [Sent(command, ByReader)]
    ensures !link.readerAccepts && sent != [] ==>
      && sent[0].command == command + "\n" && sent[0].route.ByPort?
      && ComPorts.ParseDeviceFromItem(Some(masterItem)) == Some(sent[0].route.device)
      && ComPorts.Selectable(Some(sent[0].route.device))
  {
    if link.readerAccepts then [Sent(command, ByReader)]
    else
      var d := ComPorts.SendCommandToPortItem(masterItem, command + "\n", link.port);
      if d.Written? then [Sent(d.data, ByPort(d.device))] else []
  }

  /** The window after a send: the Master selector is flagged when nothing
      could be sent (`mark_combo_error`). */
  function AfterSend(g: Gui, sent: seq<Sent>): Out {
    Out(if sent == [] then g.(masterSelectorError := true) else g, sent)
  }

  /** `set_testing_state` together with clearing the pins and the logs. */
  function BeginSession(g: Gui): Gui {
    g.(problemPins := {}, allHigh := Pending, allLow := Pending, sequence := Pending,
       session := Testing, masterLog := [], targetLog := [])
  }

  /** The part of `on_run_test` before the send: a new session, and the
      buttons of a Run or of the test phase of a Flash&Run. */
  function RunControls(g: Gui): (r: Gui)
    ensures r.problemPins == {} && r.session == Testing && r.masterLog == [] && r.targetLog == []
    ensures r.allHigh == r.allLow == r.sequence == Pending
    ensures r.lastAction == if g.lastAction == FlashRunAction then FlashRunAction else RunAction
    ensures r.runButton == Busy
    ensures g.lastAction == FlashRunAction ==> r.flashRunButton == Busy && r.flashButton == g.flashButton
    ensures g.lastAction != FlashRunAction ==> r.flashRunButton == Idle && r.flashButton == Idle
    ensures r.awaitTargetReady == g.awaitTargetReady && r.masterSelectorError == g.masterSelectorError
    ensures r.masterIdleSeen == g.masterIdleSeen && r.targetIdleSeen == g.targetIdleSeen
    ensures r.flashEnabled == g.flashEnabled && r.flashRunEnabled == g.flashRunEnabled
    ensures r.masterItem == g.masterItem && r.targetItem == g.targetItem
  {
    var action := if g.lastAction != FlashRunAction then RunAction else FlashRunAction;
    var g1 := BeginSession(g).(lastAction := action, runButton := Busy);
    if action == FlashRunAction then g1.(flashRunButton := Busy)
    else g1.(flashButton := Idle, flashRunButton := Idle)
  }

  /** `on_run_test` */
  function OnRunTest(g: Gui, link: MasterLink): (o: Out)
    ensures o.gui.problemPins == {} && o.gui.session == Testing
    ensures o.gui.allHigh == o.gui.allLow == o.gui.sequence == Pending
    ensures o.gui.lastAction == if g.lastAction == FlashRunAction then FlashRunAction else RunAction
    ensures o.gui.runButton == Busy
    ensures g.lastAction == FlashRunAction ==> o.gui.flashRunButton == Busy && o.gui.flashButton == g.flashButton
    ensures g.lastAction != FlashRunAction ==> o.gui.flashRunButton == Idle && o.gui.flashButton == Idle
    ensures o.gui.awaitTargetReady == g.awaitTargetReady
    ensures o.sent == [] || o.sent[0].command in {START_COMMAND, START_COMMAND + "\n"}
    ensures o.sent == [] <==>
      !link.readerAccepts && !ComPorts.SendCommandToPortItem(g.masterItem, START_COMMAND + "\n", link.port).Written?
    ensures o.sent == [] ==> o.gui.masterSelectorError
    ensures o.sent == SendToMaster(g.masterItem, START_COMMAND, link)
    ensures o.gui.masterLog == [] && o.gui.targetLog == []
    ensures o.gui.masterIdleSeen == g.masterIdleSeen && o.gui.targetIdleSeen == g.targetIdleSeen
    ensures o.gui.flashEnabled == g.flashEnabled && o.gui.flashRunEnabled == g.flashRunEnabled
    ensures o.gui.masterItem == g.masterItem && o.gui.targetItem == g.targetItem
  {
    AfterSend(RunControls(g), SendToMaster(g.masterItem, START_COMMAND, link))
  }

  /** `on_run_test` takes two steps: the session, logs and buttons, then
      the send. */
  lemma OnRunTestSteps(g: Gui, link: MasterLink)
    ensures OnRunTest(g, link) == AfterSend(RunControls(g), SendToMaster(g.masterItem, START_COMMAND, link))
  {
  }

  /** `on_flash`, up to starting the worker. */
  function OnFlash(g: Gui, link: MasterLink): (o: Out)
    ensures o.gui.lastAction == FlashAction && !o.gui.awaitTargetReady
    ensures o.gui.flashButton == Busy && o.gui.runButton == Idle && o.gui.flashRunButton == Idle
    ensures !o.gui.flashEnabled && !o.gui.flashRunEnabled
    ensures o.gui.masterLog == g.masterLog + [MSG_FLASH_SENDING]
    ensures o.gui.problemPins == g.problemPins && o.gui.session == g.session
    ensures o.sent == [] || o.sent[0].command in {FLASH_COMMAND, FLASH_COMMAND + "\n"}
    ensures o.sent == SendToMaster(g.masterItem, FLASH_COMMAND, link)
    ensures o.sent == [] ==> o.gui.masterSelectorError
  {
    AfterSend(FlashControls(g), SendToMaster(g.masterItem, FLASH_COMMAND, link))
  }

  /** The part of `on_flash` before the send: Flash yellow, the other two
      buttons back to default, both Flash buttons disabled, and the notice
      in both logs. */
  function FlashControls(g: Gui): Gui {
    var g1 := g.(lastAction := FlashAction, awaitTargetReady := false, flashButton := Busy,
                 runButton := Idle, flashRunButton := Idle, flashEnabled := false, flashRunEnabled := false);
    LogInfo(g1, MSG_FLASH_SENDING)
  }

  lemma OnFlashSteps(g: Gui, link: MasterLink)
    ensures OnFlash(g, link) == AfterSend(FlashControls(g), SendToMaster(g.masterItem, FLASH_COMMAND, link))
  {
  }

  /** `on_flash_and_run` as written: unlike `on_flash` it leaves
      `_await_target_ready` as it was. */
  function OnFlashAndRunAsWritten(g: Gui, link: MasterLink): (o: Out)
    ensures o.gui.lastAction == FlashRunAction && o.gui.awaitTargetReady == g.awaitTargetReady
    ensures o.gui.flashRunButton == Busy && o.gui.flashButton == Busy && o.gui.runButton == Idle
    ensures !o.gui.flashEnabled && !o.gui.flashRunEnabled
    ensures o.sent == SendToMaster(g.masterItem, FLASH_COMMAND, link)
    ensures o.sent == [] ==> o.gui.masterSelectorError
  {
    AfterSend(FlashRunControls(g), SendToMaster(g.masterItem, FLASH_COMMAND, link))
  }

  /** The part of `on_flash_and_run` before the send: Flash&Run and Flash
      yellow, Run default, both Flash buttons disabled, and the notice in
      both logs. */
  function FlashRunControls(g: Gui): Gui {
    var g1 := g.(lastAction := FlashRunAction, flashRunButton := Busy, flashButton := Busy,
                 runButton := Idle, flashEnabled := false, flashRunEnabled := false);
    LogInfo(g1, MSG_FLASH_RUN_SENDING)
  }

  /** `on_flash_and_run` with the readiness flag cleared as `on_flash` clears
      it, so that only the Target line after this run's own flash starts the
      test. */
  function OnFlashAndRun(g: Gui, link: MasterLink): (o: Out)
    ensures o.gui.lastAction == FlashRunAction && !o.gui.awaitTargetReady
    ensures o.gui.flashRunButton == Busy && o.gui.flashButton == Busy && o.gui.runButton == Idle
    ensures !o.gui.flashEnabled && !o.gui.flashRunEnabled
    ensures o.gui.masterLog == g.masterLog + [MSG_FLASH_RUN_SENDING]
    ensures o.gui.problemPins == g.problemPins && o.gui.session == g.session
    ensures o.sent == [] || o.sent[0].command in {FLASH_COMMAND, FLASH_COMMAND + "\n"}
    ensures o.sent == SendToMaster(g.masterItem, FLASH_COMMAND, link)
    ensures o.sent == [] ==> o.gui.masterSelectorError
  {
    OnFlashAndRunAsWritten(g.(awaitTargetReady := false), link)
  }

  /** The correction touches nothing but the readiness flag: the corrected
      handler is the handler as written with the flag cleared. */
  lemma CorrectionOnlyClearsReadiness(g: Gui, link: MasterLink)
    ensures var w := OnFlashAndRunAsWritten(g, link);
      OnFlashAndRun(g, link) == Out(w.gui.(awaitTargetReady := false), w.sent)
    ensures !g.awaitTargetReady ==> OnFlashAndRun(g, link) == OnFlashAndRunAsWritten(g, link)
  {
  }

  lemma OnFlashAndRunSteps(g: Gui, link: MasterLink)
    ensures OnFlashAndRun(g, link) ==
      AfterSend(FlashRunControls(g.(awaitTargetReady := false)), SendToMaster(g.masterItem, FLASH_COMMAND, link))
  {
  }

  /** The scan of `_set_combo_to_device`: the first item satisfying `p`,
      or the first item, which the refreshed combo already shows, when none
      does. */
  function SelectFirst(items: seq<string>, p: string -> bool): (r: string)
    requires |items| >= 1
    ensures r in items
    decreases |items|
  {
    if p(items[0]) || |items| == 1 then items[0]
    else
      var r := SelectFirst(items[1..], p);
      if p(r) then r else items[0]
  }

  /** The selected item is the first one satisfying `p`, or the first item
      when none does. */
  lemma {:induction false} SelectFirstIsFirstMatch(items: seq<string>, p: string -> bool)
    requires |items| >= 1
    ensures (exists i :: 0 <= i < |items| && p(items[i])) ==>
      exists j :: 0 <= j < |items| && SelectFirst(items, p) == items[j] && p(items[j])
        && forall k :: 0 <= k < j ==> !p(items[k])
    ensures (forall i :: 0 <= i < |items| ==> !p(items[i])) ==> SelectFirst(items, p) == items[0]
    decreases |items|
  {
    if p(items[0]) || |items| == 1 {
    } else {
      var tail := items[1..];
      SelectFirstIsFirstMatch(tail, p);
      if exists i :: 0 <= i < |items| && p(items[i]) {
        var i :| 0 <= i < |items| && p(items[i]);
        assert tail[i - 1] == items[i];
        var j :| 0 <= j < |tail| && SelectFirst(tail, p) == tail[j] && p(tail[j])
          && forall k :: 0 <= k < j ==> !p(tail[k]);
        assert items[j + 1] == tail[j];
        forall k | 0 <= k < j + 1 ensures !p(items[k]) {
          if k > 0 {
            assert items[k] == tail[k - 1];
          }
        }
      } else {
        assert SelectFirst(tail, p) in tail;
      }
    }
  }

  /** The combo item names `device` (`parse_device_from_item(text) or ""`
      compared with a non-empty device). */
  predicate NamesDevice(item: string, device: string) {
    device != "" && ComPorts.ParseDeviceFromItem(Some(item)) == Some(device)
  }

  /** `_set_combo_to_device` right after `refresh_ports_for`. */
  function SelectDevice(items: seq<string>, device: string): (r: string)
    requires |items| >= 1
    ensures r in items
  {
    SelectFirst(items, item => NamesDevice(item, device))
  }

  /** The equal-port check at the end of `restart_readers`: both selectors
      name the same real device. */
  predicate CrossWired(masterItem: string, targetItem: string) {
    var m := ComPorts.ParseDeviceFromItem(Some(masterItem));
    var t := ComPorts.ParseDeviceFromItem(Some(targetItem));
    ComPorts.Truthy(m) && ComPorts.Truthy(t) && !StartsWith(m.value, "<") && m == t
  }

  /** What `restart_readers` does to the window state (the readers
      themselves belong to the window object). */
  function RestartReaders(g: Gui): (r: Gui)
    ensures CrossWired(g.masterItem, g.targetItem) ==> r.masterSelectorError && r.targetSelectorError
    ensures r.masterItem == g.masterItem && r.targetItem == g.targetItem
    ensures r.(masterSelectorError := g.masterSelectorError, targetSelectorError := g.targetSelectorError) == g
    ensures !CrossWired(g.masterItem, g.targetItem) ==> r == g
  {
    if CrossWired(g.masterItem, g.targetItem) then g.(masterSelectorError := true, targetSelectorError := true)
    else g
  }

  /** A new Target port was reported: log it, refresh the Target combo and
      select the port, then restart the readers. */
  function Retarget(g: Gui, notice: string, newTarget: string, ports: ComPorts.Enumeration): (r: Gui)
    ensures r.lastAction == g.lastAction && r.problemPins == g.problemPins && r.session == g.session
    ensures r.masterItem == g.masterItem && r.awaitTargetReady == g.awaitTargetReady
    ensures r.flashEnabled == g.flashEnabled && r.flashRunEnabled == g.flashRunEnabled
    ensures r.flashButton == g.flashButton && r.flashRunButton == g.flashRunButton
  {
    RestartReaders(LogInfo(g, notice + newTarget).(targetItem := SelectDevice(ComPorts.GetPortsList(ports), newTarget)))
  }

  /** `_on_flash_worker_done(dfu_port, new_target)`; `ports` is what the port
      enumeration returns when the Target combo is refreshed. The second
      component says whether the readers are restarted. */
  function OnFlashWorkerDone(g: Gui, dfuPort: string, newTarget: string, ports: ComPorts.Enumeration): (r: (Gui, bool))
    ensures r.0.flashEnabled && r.0.flashRunEnabled && r.0.flashButton == Succeeded
    ensures r.0.awaitTargetReady <==> g.lastAction == FlashRunAction || g.awaitTargetReady
    ensures g.lastAction == FlashRunAction ==> r.0.flashRunButton == Busy
    ensures r.1 <==> newTarget != ""
    ensures newTarget == "" ==> r.0.targetItem == g.targetItem
    ensures r.0.lastAction == g.lastAction && r.0.problemPins == g.problemPins && r.0.session == g.session
    ensures r.0.masterItem == g.masterItem
  {
    var g1 := FlashSucceeded(g);
    (if g.lastAction == FlashRunAction then FinishFlashRun(g1, newTarget, ports) else FinishFlash(g1, newTarget, ports),
     newTarget != "")
  }

  /** Both Flash buttons enabled again, Flash green. */
  function FlashSucceeded(g: Gui): (r: Gui)
    ensures r.flashEnabled && r.flashRunEnabled && r.flashButton == Succeeded
    ensures r.awaitTargetReady == g.awaitTargetReady && r.lastAction == g.lastAction
    ensures r.problemPins == g.problemPins && r.session == g.session && r.targetItem == g.targetItem
    ensures r.masterItem == g.masterItem
  {
    g.(flashEnabled := true, flashRunEnabled := true, flashButton := Succeeded)
  }

  /** The Flash&Run branch of `_on_flash_worker_done`: Flash&Run stays
      yellow, the Target combo follows the new port if there is one, and
      the window waits for the Target's first line. */
  function FinishFlashRun(g: Gui, newTarget: string, ports: ComPorts.Enumeration): (r: Gui)
    ensures r.awaitTargetReady && r.flashRunButton == Busy
    ensures r.flashEnabled == g.flashEnabled && r.flashRunEnabled == g.flashRunEnabled && r.flashButton == g.flashButton
    ensures r.lastAction == g.lastAction && r.problemPins == g.problemPins && r.session == g.session
    ensures newTarget == "" ==> r.targetItem == g.targetItem
    ensures r.masterItem == g.masterItem
  {
    var g1 := g.(flashRunButton := Busy);
    var g2 := if newTarget != "" then Retarget(g1, MSG_FLASH_RUN_NEW_TARGET, newTarget, ports)
              else LogInfo(g1, MSG_FLASH_RUN_NO_TARGET);
    g2.(awaitTargetReady := true)
  }

  /** The plain Flash branch: the Target combo follows the new port if there
      is one. */
  function FinishFlash(g: Gui, newTarget: string, ports: ComPorts.Enumeration): (r: Gui)
    ensures r.awaitTargetReady == g.awaitTargetReady && r.flashRunButton == g.flashRunButton
    ensures r.flashEnabled == g.flashEnabled && r.flashRunEnabled == g.flashRunEnabled && r.flashButton == g.flashButton
    ensures r.lastAction == g.lastAction && r.problemPins == g.problemPins && r.session == g.session
    ensures newTarget == "" ==> r == g
    ensures r.masterItem == g.masterItem
  {
    if newTarget != "" then Retarget(g, MSG_FLASH_NEW_TARGET, newTarget, ports) else g
  }

  /** `_on_flash_worker_failed(message)` */
  function OnFlashWorkerFailed(g: Gui, message: string): (r: Gui)
    ensures r.flashEnabled && r.flashRunEnabled && r.flashButton == Errored
    ensures r.flashRunButton == if g.lastAction == FlashRunAction then Errored else g.flashRunButton
    ensures r.masterLog == g.masterLog + [MSG_FLASH_ERROR + message]
    ensures r.targetLog == g.targetLog + [MSG_FLASH_ERROR + message]
    ensures r.awaitTargetReady == g.awaitTargetReady && r.lastAction == g.lastAction
  {
    var g1 := LogInfo(g.(flashEnabled := true, flashRunEnabled := true), MSG_FLASH_ERROR + message);
    if g.lastAction == FlashRunAction then g1.(flashRunButton := Errored, flashButton := Errored)
    else g1.(flashButton := Errored)
  }

  // ---------------------------------------------------------------------
  // Serial lines

  /** A heartbeat line: mentions both "STAGE" and "IDLE: OK" once upper-cased. */
  predicate IsIdleOk(line: string) {
    var u := Upper(line);
    Contains(u, "STAGE") && Contains(u, "IDLE: OK")
  }

  /** The logging part of `on_serial_line`: the role's ready box turns
      green; a heartbeat is logged only when the previous logged line of
      that role was not one, any other line always. */
  function LogLine(g: Gui, isMaster: bool, line: string): (r: Gui)
    ensures isMaster ==> r.masterReady && r.targetLog == g.targetLog && r.targetIdleSeen == g.targetIdleSeen
    ensures !isMaster ==> r.targetReady && r.masterLog == g.masterLog && r.masterIdleSeen == g.masterIdleSeen
    ensures isMaster ==> (r.masterIdleSeen == IsIdleOk(line) &&
      r.masterLog == g.masterLog + (if IsIdleOk(line) && g.masterIdleSeen then [] else [line]))
    ensures !isMaster ==> (r.targetIdleSeen == IsIdleOk(line) &&
      r.targetLog == g.targetLog + (if IsIdleOk(line) && g.targetIdleSeen then [] else [line]))
    ensures r.problemPins == g.problemPins && r.lastAction == g.lastAction && r.awaitTargetReady == g.awaitTargetReady
    ensures r.session == g.session && r.allHigh == g.allHigh && r.allLow == g.allLow && r.sequence == g.sequence
    ensures SameControls(r, g)
  {
    var idle := IsIdleOk(line);
    if isMaster then
      var g1 := g.(masterReady := true);
      if idle then
        if !g.masterIdleSeen then g1.(masterLog := g.masterLog + [line], masterIdleSeen := true) else g1
      else g1.(masterLog := g.masterLog + [line], masterIdleSeen := false)
    else
      var g1 := g.(targetReady := true);
      if idle then
        if !g.targetIdleSeen then g1.(targetLog := g.targetLog + [line], targetIdleSeen := true) else g1
      else g1.(targetLog := g.targetLog + [line], targetIdleSeen := false)
  }

  /** The keyword that decides how a Master line is handled, tried in this
      order on the upper-cased line. */
  datatype Keyword = StartWord | AllHighWord | AllLowWord | SequenceWord | SuccessWord | FailureWord | NoKeyword

  function Classify(u: string): Keyword
  {
    if Contains(u, "START") then StartWord
    else if Contains(u, "ALL_HIGH") then AllHighWord
    else if Contains(u, "ALL_LOW") then AllLowWord
    else if Contains(u, "SEQUENCE") then SequenceWord
    else if Contains(u, "SUCCESS") then SuccessWord
    else if Contains(u, "FAIL") || Contains(u, "ERROR") then FailureWord
    else NoKeyword
  }

  /** The first keyword found decides: each class is reported exactly when
      its keyword occurs and none of the earlier ones does. */
  lemma ClassifyPrecedence(u: string)
    ensures Classify(u) == StartWord <==> Contains(u, "START")
    ensures Classify(u) == AllHighWord <==> !Contains(u, "START") && Contains(u, "ALL_HIGH")
    ensures Classify(u) == AllLowWord <==> !Contains(u, "START") && !Contains(u, "ALL_HIGH") && Contains(u, "ALL_LOW")
    ensures Classify(u) == SequenceWord <==>
      !Contains(u, "START") && !Contains(u, "ALL_HIGH") && !Contains(u, "ALL_LOW") && Contains(u, "SEQUENCE")
    ensures Classify(u) == SuccessWord <==>
      !Contains(u, "START") && !Contains(u, "ALL_HIGH") && !Contains(u, "ALL_LOW") && !Contains(u, "SEQUENCE") &&
      Contains(u, "SUCCESS")
    ensures Classify(u) == NoKeyword <==>
      !Contains(u, "START") && !Contains(u, "ALL_HIGH") && !Contains(u, "ALL_LOW") && !Contains(u, "SEQUENCE") &&
      !Contains(u, "SUCCESS") && !Contains(u, "FAIL") && !Contains(u, "ERROR")
  {
  }

  /** What a stage line reports, tried in the order BEGIN, OK, ERROR. */
  datatype Qualifier = BeginQ | OkQ | ErrorQ | NoQualifier

  /** The OK test of the SEQUENCE branch: "ALL OK", or "OK" and "ALL". */
  predicate SequenceOk(u: string) {
    Contains(u, "ALL OK") || (Contains(u, "OK") && Contains(u, "ALL"))
  }

  function StageQualifier(u: string, isSequence: bool): Qualifier
  {
    if Contains(u, "BEGIN") then BeginQ
    else if (if isSequence then SequenceOk(u) else Contains(u, "OK")) then OkQ
    else if Contains(u, "ERROR") then ErrorQ
    else NoQualifier
  }

  /** BEGIN wins over OK, and OK over ERROR. */
  lemma QualifierPrecedence(u: string, isSequence: bool)
    ensures StageQualifier(u, isSequence) == BeginQ <==> Contains(u, "BEGIN")
    ensures StageQualifier(u, isSequence) == ErrorQ <==>
      !Contains(u, "BEGIN") && !(if isSequence then SequenceOk(u) else Contains(u, "OK")) && Contains(u, "ERROR")
  {
  }

  /** The red-button update shared by the stage errors and the failure. */
  function ErrorButtons(g: Gui): (r: Gui)
    ensures r.problemPins == g.problemPins && r.lastAction == g.lastAction && r.session == g.session
    ensures r.awaitTargetReady == g.awaitTargetReady
    ensures r.masterLog == g.masterLog && r.targetLog == g.targetLog
    ensures g.lastAction in {RunAction, FlashRunAction} ==> r.runButton == Errored
    ensures r.flashRunButton == if g.lastAction == FlashRunAction then Errored else g.flashRunButton
    ensures r.flashButton == g.flashButton
    ensures r.allHigh == g.allHigh && r.allLow == g.allLow && r.sequence == g.sequence
    ensures g.lastAction !in {RunAction, FlashRunAction} ==> r == g
  {
    if g.lastAction == RunAction then g.(runButton := Errored)
    else if g.lastAction == FlashRunAction then g.(runButton := Errored, flashRunButton := Errored)
    else g
  }

  datatype StageId = AllHighStage | AllLowStage | SequenceStage

  function SetStage(g: Gui, id: StageId, s: Stage): (r: Gui)
    ensures r.problemPins == g.problemPins && r.lastAction == g.lastAction
    ensures r.session == g.session && r.awaitTargetReady == g.awaitTargetReady
    ensures r.masterLog == g.masterLog && r.targetLog == g.targetLog
  {
    match id
    case AllHighStage => g.(allHigh := s)
    case AllLowStage => g.(allLow := s)
    case SequenceStage => g.(sequence := s)
  }

  /** One of the three stage branches. */
  function StageLine(g: Gui, id: StageId, line: string): (r: Gui)
    ensures r.lastAction == g.lastAction && r.session == g.session && r.awaitTargetReady == g.awaitTargetReady
    ensures r.masterLog == g.masterLog && r.targetLog == g.targetLog
    ensures StageQualifier(Upper(line), id == SequenceStage) == ErrorQ ==>
      r.problemPins == g.problemPins + Pins.ExtractPins(line)
    ensures StageQualifier(Upper(line), id == SequenceStage) != ErrorQ ==>
      && r.problemPins == g.problemPins && r.runButton == g.runButton
      && r.flashButton == g.flashButton && r.flashRunButton == g.flashRunButton
  {
    var q := StageQualifier(Upper(line), id == SequenceStage);
    if q == BeginQ then SetStage(g, id, Begin)
    else if q == OkQ then SetStage(g, id, StageOk)
    else if q == ErrorQ then
      var marked := SetStage(g, id, StageError);
      ErrorButtons(marked.(problemPins := g.problemPins + Pins.ExtractPins(line)))
    else g
  }

  /** The part of `on_serial_line` that only Master lines reach. */
  function Dispatch(g: Gui, line: string): (r: Gui)
    ensures r.awaitTargetReady == g.awaitTargetReady
    ensures Classify(Upper(line)) != StartWord ==> r.masterLog == g.masterLog && r.targetLog == g.targetLog
    ensures Classify(Upper(line)) == StartWord ==>
      if g.lastAction in {RunAction, FlashRunAction} then
        && r.problemPins == {} && r.session == Testing && r.masterLog == [] && r.targetLog == []
        && r.allHigh == r.allLow == r.sequence == Pending && SameControls(r, g)
      else r == g
    ensures Classify(Upper(line)) == SuccessWord ==>
      && r.session == Passed && r.lastAction == NoAction && r.problemPins == g.problemPins
      && r.allHigh == r.allLow == r.sequence == StageOk
      && r.runButton == r.flashButton == r.flashRunButton == Idle
    ensures Classify(Upper(line)) == FailureWord ==>
      && r.session == Failed && r.lastAction == g.lastAction && r.problemPins == g.problemPins
      && r.allHigh == r.allLow == r.sequence == StageError
      && r.runButton == (if g.lastAction in {RunAction, FlashRunAction} then Errored else g.runButton)
      && r.flashRunButton == (if g.lastAction == FlashRunAction then Errored else g.flashRunButton)
      && r.flashButton == g.flashButton
    ensures Classify(Upper(line)) in {AllHighWord, AllLowWord, SequenceWord} ==>
      && r.session == g.session && r.lastAction == g.lastAction
      && (if StageErrorLine(line) then r.problemPins == g.problemPins + Pins.ExtractPins(line)
          else && r.problemPins == g.problemPins && r.runButton == g.runButton
               && r.flashButton == g.flashButton && r.flashRunButton == g.flashRunButton)
    ensures Classify(Upper(line)) == NoKeyword ==> r == g
  {
    match Classify(Upper(line))
    case StartWord =>
      if g.lastAction in {RunAction, FlashRunAction} then BeginSession(g) else g
    case AllHighWord => StageLine(g, AllHighStage, line)
    case AllLowWord => StageLine(g, AllLowStage, line)
    case SequenceWord => StageLine(g, SequenceStage, line)
    case SuccessWord => SuccessLine(g)
    case FailureWord => FailureLine(g)
    case NoKeyword => g
  }

  /** The SUCCESS branch: every stage green, the buttons back to default and
      the action forgotten. */
  function SuccessLine(g: Gui): (r: Gui)
    ensures r.session == Passed && r.lastAction == NoAction && r.problemPins == g.problemPins
    ensures r.allHigh == r.allLow == r.sequence == StageOk
    ensures r.runButton == r.flashButton == r.flashRunButton == Idle
    ensures r.awaitTargetReady == g.awaitTargetReady && r.masterLog == g.masterLog && r.targetLog == g.targetLog
  {
    g.(allHigh := StageOk, allLow := StageOk, sequence := StageOk, session := Passed,
       runButton := Idle, flashButton := Idle, flashRunButton := Idle, lastAction := NoAction)
  }

  /** The FAIL/ERROR branch: every stage red and the buttons of the action
      in progress red. */
  function FailureLine(g: Gui): (r: Gui)
    ensures r.session == Failed && r.lastAction == g.lastAction && r.problemPins == g.problemPins
    ensures r.allHigh == r.allLow == r.sequence == StageError
    ensures r.runButton == (if g.lastAction in {RunAction, FlashRunAction} then Errored else g.runButton)
    ensures r.flashRunButton == (if g.lastAction == FlashRunAction then Errored else g.flashRunButton)
    ensures r.flashButton == g.flashButton
    ensures r.awaitTargetReady == g.awaitTargetReady && r.masterLog == g.masterLog && r.targetLog == g.targetLog
  {
    var red := g.(allHigh := StageError, allLow := StageError, sequence := StageError, session := Failed);
    ErrorButtons(red)
  }

  /** `on_serial_line(role, line)`; `link` is what the automatic start after
      Flash&Run meets when it sends START. */
  function OnSerialLine(g: Gui, role: string, line: string, link: MasterLink): (o: Out)
    ensures role != MASTER_ROLE && role != TARGET_ROLE ==> o == Out(g, [])
    ensures role == MASTER_ROLE && !StartsWith(line, MASTER_PREFIX) ==> o == Out(g.(masterSelectorError := true), [])
    ensures role == TARGET_ROLE && !StartsWith(line, TARGET_PREFIX) ==> o == Out(g.(targetSelectorError := true), [])
    ensures role == MASTER_ROLE ==> o.sent == [] && o.gui.awaitTargetReady == g.awaitTargetReady
    ensures role == TARGET_ROLE && !g.awaitTargetReady ==>
      && o.sent == [] && !o.gui.awaitTargetReady
      && o.gui.problemPins == g.problemPins && o.gui.session == g.session && o.gui.lastAction == g.lastAction
      && o.gui.allHigh == g.allHigh && o.gui.allLow == g.allLow && o.gui.sequence == g.sequence
  {
    if role == MASTER_ROLE then
      if !StartsWith(line, MASTER_PREFIX) then Out(g.(masterSelectorError := true), [])
      else Out(MasterLine(g, line), [])
    else if role == TARGET_ROLE then
      if !StartsWith(line, TARGET_PREFIX) then Out(g.(targetSelectorError := true), [])
      else TargetLine(g, line, link)
    else Out(g, [])
  }

  /** A line with the Master prefix from the Master reader: logged, then
      dispatched on its keyword. */
  function MasterLine(g: Gui, line: string): (r: Gui)
    ensures r.awaitTargetReady == g.awaitTargetReady
  {
    Dispatch(LogLine(g, true, line), line)
  }

  /** A line with the Target prefix from the Target reader: the awaited
      automatic start, if any, then the line is logged. */
  function TargetLine(g: Gui, line: string, link: MasterLink): (o: Out)
    ensures !o.gui.awaitTargetReady
    ensures g.awaitTargetReady ==> o.sent == OnRunTest(g.(awaitTargetReady := false), link).sent
    ensures !g.awaitTargetReady ==> o.sent == [] && o.gui == LogLine(g, false, line)
  {
    var started := if g.awaitTargetReady then OnRunTest(g.(awaitTargetReady := false), link) else Out(g, []);
    Out(LogLine(started.gui, false, line), started.sent)
  }

  // ---------------------------------------------------------------------
  // Traces

  /** Something the window reacts to. */
  datatype Event =
    | RunClicked(link: MasterLink)
    | FlashClicked(link: MasterLink)
    | FlashRunClicked(link: MasterLink)
    | WorkerDone(dfuPort: string, newTarget: string, ports: ComPorts.Enumeration)
    | WorkerFailed(message: string)
    | LineReceived(role: string, line: string, link: MasterLink)

  function Apply(g: Gui, e: Event): Out {
    match e
    case RunClicked(link) => OnRunTest(g, link)
    case FlashClicked(link) => OnFlash(g, link)
    case FlashRunClicked(link) => OnFlashAndRun(g, link)
    case WorkerDone(dfu, newTarget, ports) => Out(OnFlashWorkerDone(g, dfu, newTarget, ports).0, [])
    case WorkerFailed(message) => Out(OnFlashWorkerFailed(g, message), [])
    case LineReceived(role, line, link) => OnSerialLine(g, role, line, link)
  }

  /** The state after a sequence of events, and everything sent to the
      Master on the way, in order. */
  function Replay(g: Gui, events: seq<Event>): Out
    decreases |events|
  {
    if events == [] then Out(g, [])
    else
      var first := Apply(g, events[0]);
      var rest := Replay(first.gui, events[1..]);
      Out(rest.gui, first.sent + rest.sent)
  }

  /** A Master line that carries no keyword changes nothing but the log. */
  lemma NoKeywordOnlyLogs(g: Gui, line: string, link: MasterLink)
    requires StartsWith(line, MASTER_PREFIX) && Classify(Upper(line)) == NoKeyword
    ensures OnSerialLine(g, MASTER_ROLE, line, link) == Out(LogLine(g, true, line), [])
  {
  }

  /** `n` copies of one event. */
  function Repeat(e: Event, n: nat): (r: seq<Event>)
    ensures |r| == n && forall i :: 0 <= i < n ==> r[i] == e
  {
    if n == 0 then [] else [e] + Repeat(e, n - 1)
  }

  /** Heartbeat suppression: any number of consecutive Master heartbeats
      adds the line to the Master log at most once, and only when the
      previous logged Master line was not a heartbeat. */
  lemma {:induction false} HeartbeatsLoggedOnce(g: Gui, line: string, link: MasterLink, n: nat)
    requires StartsWith(line, MASTER_PREFIX) && IsIdleOk(line) && Classify(Upper(line)) == NoKeyword
    requires n >= 1
    ensures var r := Replay(g, Repeat(LineReceived(MASTER_ROLE, line, link), n));
      && r.gui.masterLog == g.masterLog + (if g.masterIdleSeen then [] else [line])
      && r.gui.masterIdleSeen && r.sent == []
      && r.gui.problemPins == g.problemPins && r.gui.session == g.session
    decreases n
  {
    var e := LineReceived(MASTER_ROLE, line, link);
    var rest := Repeat(e, n - 1);
    assert Repeat(e, n) == [e] + rest;
    ReplayCons(g, e, rest);
    NoKeywordOnlyLogs(g, line, link);
    var g1 := LogLine(g, true, line);
    assert Apply(g, e) == Out(g1, []);
    if n > 1 {
      HeartbeatsLoggedOnce(g1, line, link, n - 1);
    } else {
      assert rest == [];
    }
  }

  /** A Master START line restarts the session only when the test was
      started from the window (Run or Flash&Run) and not yet finished. */
  lemma StartNeedsWindowAction(g: Gui, line: string, link: MasterLink)
    requires StartsWith(line, MASTER_PREFIX) && Classify(Upper(line)) == StartWord
    ensures var r := OnSerialLine(g, MASTER_ROLE, line, link).gui;
      if g.lastAction == RunAction || g.lastAction == FlashRunAction then
        r.problemPins == {} && r.session == Testing && r.masterLog == [] && r.targetLog == []
        && r.allHigh == r.allLow == r.sequence == Pending
      else
        r == LogLine(g, true, line)
  {
  }

  /** Whether a Master line is the ERROR report of one of the three stages. */
  predicate StageErrorLine(line: string) {
    var u := Upper(line);
    && Classify(u) in {AllHighWord, AllLowWord, SequenceWord}
    && StageQualifier(u, Classify(u) == SequenceWord) == ErrorQ
  }

  /** The problem pins change only in three ways: a Master START line after
      Run or Flash&Run and a Target line awaited after Flash&Run empty them
      for a new session, and a stage ERROR line adds the pins it names. */
  lemma ProblemPinsChangeOnlyOnErrorOrRestart(g: Gui, role: string, line: string, link: MasterLink)
    ensures var r := OnSerialLine(g, role, line, link).gui;
      || r.problemPins == g.problemPins
      || (&& role == MASTER_ROLE && StartsWith(line, MASTER_PREFIX) && Classify(Upper(line)) == StartWord
          && g.lastAction in {RunAction, FlashRunAction} && r.problemPins == {} && r.session == Testing)
      || (&& role == TARGET_ROLE && StartsWith(line, TARGET_PREFIX) && g.awaitTargetReady
          && r.problemPins == {} && r.session == Testing)
      || (&& role == MASTER_ROLE && StartsWith(line, MASTER_PREFIX) && StageErrorLine(line)
          && r.problemPins == g.problemPins + Pins.ExtractPins(line))
  {
    if role == MASTER_ROLE && StartsWith(line, MASTER_PREFIX) {
      var g1 := LogLine(g, true, line);
      var u := Upper(line);
      match Classify(u)
      case StartWord =>
      case AllHighWord =>
      case AllLowWord =>
      case SequenceWord =>
      case SuccessWord =>
      case FailureWord =>
      case NoKeyword =>
    }
  }

  /** The Master log after a line from the Master that passed the check. */
  lemma MasterLineLogged(g: Gui, line: string, link: MasterLink)
    requires StartsWith(line, MASTER_PREFIX) && !IsIdleOk(line) && Classify(Upper(line)) != StartWord
    ensures OnSerialLine(g, MASTER_ROLE, line, link).gui.masterLog == g.masterLog + [line]
  {
  }

  /** A Target line consumes the readiness flag set after Flash&Run: the
      test starts, START goes to the Master, and the line opens the new
      Target log. */
  lemma TargetLineStartsAwaitedTest(g: Gui, line: string, link: MasterLink)
    requires StartsWith(line, TARGET_PREFIX) && g.awaitTargetReady
    ensures var o := OnSerialLine(g, TARGET_ROLE, line, link);
      && SameControls(o.gui, OnRunTest(g.(awaitTargetReady := false), link).gui)
      && !o.gui.awaitTargetReady
      && o.gui.session == Testing && o.gui.problemPins == {}
      && o.sent == SendToMaster(g.masterItem, START_COMMAND, link)
      && o.gui.targetLog == (if IsIdleOk(line) && g.targetIdleSeen then [] else [line])
      && o.gui.masterLog == []
  {
  }

  /** After a Flash&Run click, Target lines send nothing until the worker
      reports back. */
  lemma {:induction false} TargetLinesWaitForWorker(g: Gui, lines: seq<string>, link: MasterLink)
    requires !g.awaitTargetReady
    ensures var r := Replay(g, seq(|lines|, i requires 0 <= i < |lines| => LineReceived(TARGET_ROLE, lines[i], link)));
      r.sent == [] && !r.gui.awaitTargetReady && r.gui.session == g.session && r.gui.problemPins == g.problemPins
    decreases |lines|
  {
    var events := seq(|lines|, i requires 0 <= i < |lines| => LineReceived(TARGET_ROLE, lines[i], link));
    if lines != [] {
      var first := Apply(g, events[0]);
      assert events[1..] == seq(|lines[1..]|, i requires 0 <= i < |lines[1..]| => LineReceived(TARGET_ROLE, lines[1..][i], link));
      TargetLinesWaitForWorker(first.gui, lines[1..], link);
    }
  }

  /** Flash&Run end to end: the click, the worker's report, then the first
      Target line starts the test with Flash green and Flash&Run yellow;
      FLASH goes to the Master on the click and START on the line. */
  lemma FlashRunStartsOnTargetLine(g: Gui, l1: MasterLink, dfu: string, newTarget: string,
                                   ports: ComPorts.Enumeration, line: string, l2: MasterLink)
    requires StartsWith(line, TARGET_PREFIX)
    ensures var o1 := OnFlashAndRun(g, l1);
      var g2 := OnFlashWorkerDone(o1.gui, dfu, newTarget, ports).0;
      var o3 := OnSerialLine(g2, TARGET_ROLE, line, l2);
      && o3.gui.session == Testing && o3.gui.lastAction == FlashRunAction && !o3.gui.awaitTargetReady
      && o3.gui.flashButton == Succeeded && o3.gui.flashRunButton == Busy && o3.gui.runButton == Busy
      && o3.gui.flashEnabled && o3.gui.flashRunEnabled
      && o1.sent == SendToMaster(g.masterItem, FLASH_COMMAND, l1)
      && o3.sent == SendToMaster(g2.masterItem, START_COMMAND, l2)
  {
    var o1 := OnFlashAndRun(g, l1);
    var g2 := OnFlashWorkerDone(o1.gui, dfu, newTarget, ports).0;
    TargetLineStartsAwaitedTest(g2, line, l2);
  }

  /** The same end to end run holds for `on_flash_and_run` as written: the
      worker's report sets the readiness flag either way. */
  lemma FlashRunStartsOnTargetLineAsWritten(g: Gui, l1: MasterLink, dfu: string, newTarget: string,
                                            ports: ComPorts.Enumeration, line: string, l2: MasterLink)
    requires StartsWith(line, TARGET_PREFIX)
    ensures var o1 := OnFlashAndRunAsWritten(g, l1);
      var g2 := OnFlashWorkerDone(o1.gui, dfu, newTarget, ports).0;
      var o3 := OnSerialLine(g2, TARGET_ROLE, line, l2);
      && o3.gui.session == Testing && o3.gui.lastAction == FlashRunAction && !o3.gui.awaitTargetReady
      && o3.gui.flashButton == Succeeded && o3.gui.flashRunButton == Busy && o3.gui.runButton == Busy
      && o3.gui.flashEnabled && o3.gui.flashRunEnabled
      && o1.sent == SendToMaster(g.masterItem, FLASH_COMMAND, l1)
      && o3.sent == SendToMaster(g2.masterItem, START_COMMAND, l2)
  {
    var o1 := OnFlashAndRunAsWritten(g, l1);
    var g2 := OnFlashWorkerDone(o1.gui, dfu, newTarget, ports).0;
    TargetLineStartsAwaitedTest(g2, line, l2);
  }

  /** A finished session stays finished: after the Master's SUCCESS line a
      Master START line is only logged, since the success forgot the action
      that started the test. */
  lemma StartAfterSuccessOnlyLogged(g: Gui, success: string, start: string, l1: MasterLink, l2: MasterLink)
    requires StartsWith(success, MASTER_PREFIX) && Classify(Upper(success)) == SuccessWord
    requires StartsWith(start, MASTER_PREFIX) && Classify(Upper(start)) == StartWord
    ensures var g1 := OnSerialLine(g, MASTER_ROLE, success, l1).gui;
      && g1.session == Passed
      && OnSerialLine(g1, MASTER_ROLE, start, l2) == Out(LogLine(g1, true, start), [])
  {
    var g1 := OnSerialLine(g, MASTER_ROLE, success, l1).gui;
    assert g1.lastAction == NoAction;
  }

  lemma ReplayCons(g: Gui, e: Event, rest: seq<Event>)
    ensures var first := Apply(g, e);
      Replay(g, [e] + rest) == Out(Replay(first.gui, rest).gui, first.sent + Replay(first.gui, rest).sent)
  {
    assert ([e] + rest)[1..] == rest;
  }

  /** SEQUENCE's OK test reduces to "OK" and "ALL": every line containing
      "ALL OK" contains both. */
  lemma SequenceOkIsOkAndAll(u: string)
    ensures SequenceOk(u) <==> Contains(u, "OK") && Contains(u, "ALL")
  {
    if Contains(u, "ALL OK") {
      var i :| OccursAt(u, "ALL OK", i);
      assert u[i..i + 3] == u[i..i + 6][..3];
      assert OccursAt(u, "ALL", i);
      assert u[i + 4..i + 6] == u[i..i + 6][4..];
      assert OccursAt(u, "OK", i + 4);
    }
  }

  /** Finding, as written: after a Flash&Run whose Target stayed silent, a
      second Flash&Run keeps the stale readiness flag, so the first Target
      line starts the test while the new flash is still running. */
  lemma StaleReadinessStartsDuringFlash(g: Gui, link: MasterLink, ports: ComPorts.Enumeration, line: string)
    requires link.readerAccepts && StartsWith(line, TARGET_PREFIX)
    ensures var g1 := OnFlashAndRunAsWritten(g, link).gui;
      var g2 := OnFlashWorkerDone(g1, "", "", ports).0;
      var g3 := OnFlashAndRunAsWritten(g2, link).gui;
      var o := OnSerialLine(g3, TARGET_ROLE, line, link);
      && !g3.flashEnabled && o.sent == [Sent(START_COMMAND, ByReader)] && o.gui.session == Testing
  {
  }

  /** The corrected Flash&Run: the same events send nothing until the
      second worker reports back. */
  lemma FreshReadinessWaitsForFlash(g: Gui, link: MasterLink, ports: ComPorts.Enumeration, line: string)
    ensures var g1 := OnFlashAndRun(g, link).gui;
      var g2 := OnFlashWorkerDone(g1, "", "", ports).0;
      var g3 := OnFlashAndRun(g2, link).gui;
      var o := OnSerialLine(g3, TARGET_ROLE, line, link);
      && !g3.flashEnabled && o.sent == [] && o.gui.session == g3.session
  {
  }
}
