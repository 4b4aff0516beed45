/** The desktop controller's window object (app/ui.py, `MainWindow`): the
    state its handlers update in place, the two serial readers it owns and
    the flash worker it starts. Every handler is proved to leave the window
    state exactly as the corresponding function of `Protocol` says, and
    commands to the Master land on the Master reader's queue or, when that
    reader is missing or stopped, on the one-shot write trace. */
module Window {
  import opened Wrappers
  import opened Text
  import ComPorts
  import Protocol
  import SerialLink
  import Flashing

  /** The firmware image the flash worker uploads, and the DFU baud rate. */
  const HEX_PATH := "app/mcu_firmware/firmware_target.hex"
  const FLASH_BAUD := 115200

  class MainWindow {
    /** The window's visible state: logs, stage boxes, buttons, selectors. */
    var state: Protocol.Gui
    /** `master_reader`, `target_reader` */
    var masterReader: SerialLink.SerialReader?
    var targetReader: SerialLink.SerialReader?
    /** `_flash_worker` */
    var flashWorker: Flashing.FlashWorker?
    /** Every command written by `send_command_to_port_item`, in order. */
    var directWrites: seq<Protocol.Sent>

    /** Each reader serves its own role, and the two are different objects. */
    predicate Valid()
      reads this`masterReader, this`targetReader
    {
      && (masterReader != null ==> masterReader.role == Protocol.MASTER_ROLE)
      && (targetReader != null ==> targetReader.role == Protocol.TARGET_ROLE)
      && (masterReader != null && targetReader != null ==> masterReader != targetReader)
    }

    /** `reader` runs on the device `item` names, and exists exactly when
        that device is one a reader is started on. */
    static predicate ReaderFollows(reader: SerialLink.SerialReader?, item: string) {
      && (reader != null <==> ComPorts.Selectable(ComPorts.ParseDeviceFromItem(Some(item))))
      && (reader != null ==> Some(reader.device) == ComPorts.ParseDeviceFromItem(Some(item)))
    }

    /** Both readers follow the selected items. */
    predicate ReadersFollow(masterItem: string, targetItem: string)
      reads this`masterReader, this`targetReader
    {
      ReaderFollows(masterReader, masterItem) && ReaderFollows(targetReader, targetItem)
    }

    /** What a send to the Master meets: `send_line` on the Master reader
        succeeds exactly when the reader exists and has not been stopped. */
    function Link(port: ComPorts.DirectPort): (l: Protocol.MasterLink)
      reads this`masterReader, ({masterReader} - {null})`stopRequested
      ensures l.readerAccepts <==> masterReader != null && !masterReader.stopRequested
      ensures l.port == port
    {
      Protocol.MasterLink(masterReader != null && !masterReader.stopRequested, port)
    }

    /** `__init__` up to the deferred reader start: no reader, no worker. */
    constructor (masterItem: string, targetItem: string)
      ensures state == Protocol.Init(masterItem, targetItem)
      ensures masterReader == null && targetReader == null && flashWorker == null && directWrites == []
      ensures Valid()
    {
      state := Protocol.Init(masterItem, targetItem);
      masterReader := null;
      targetReader := null;
      flashWorker := null;
      directWrites := [];
    }

    /** The send of `on_run_test` and `_send_master_flash`: `send_line` on the
        Master reader, else a one-shot write to the selected Master item. */
    method SendToMaster(command: string, port: ComPorts.DirectPort) returns (sent: seq<Protocol.Sent>)
      modifies this`directWrites, ({masterReader} - {null})`queue
      ensures sent == Protocol.SendToMaster(state.masterItem, command, old(Link(port)))
      ensures masterReader != null ==>
        masterReader.queue == old(masterReader.queue) + (if old(Link(port)).readerAccepts then [command] else [])
      ensures directWrites == old(directWrites) + (if old(Link(port)).readerAccepts then [] else sent)
    {
      var ok := false;
      if masterReader != null {
        ok := masterReader.SendLine(command);
      }
      if ok {
        sent := [Protocol.Sent(command, Protocol.ByReader)];
      } else {
        var d := ComPorts.SendCommandToPortItem(state.masterItem, command + "\n", port);
        if d.Written? {
          sent := [Protocol.Sent(d.data, Protocol.ByPort(d.device))];
          directWrites := directWrites + sent;
        } else {
          sent := [];
        }
      }
    }

    /** `on_run_test` */
    method OnRunTest(port: ComPorts.DirectPort) returns (sent: seq<Protocol.Sent>)
      requires Valid()
      modifies this`state, this`directWrites, ({masterReader} - {null})`queue
      ensures Valid()
      ensures state == Protocol.OnRunTest(old(state), old(Link(port))).gui
      ensures sent == Protocol.OnRunTest(old(state), old(Link(port))).sent
      ensures masterReader != null ==>
        masterReader.queue == old(masterReader.queue) + (if old(Link(port)).readerAccepts then [Protocol.START_COMMAND] else [])
      ensures directWrites == old(directWrites) + (if old(Link(port)).readerAccepts then [] else sent)
    {
      ghost var link := Link(port);
      ghost var g0 := state;
      BeginRun();
      sent := SendToMaster(Protocol.START_COMMAND, port);
      if sent == [] {
        state := state.(masterSelectorError := true);
      }
      Protocol.OnRunTestSteps(g0, link);
    }

    /** The first part of `on_run_test`: clear the pins, the stage boxes and
        the logs, then colour the buttons. */
    method BeginRun()
      modifies this`state
      ensures state == Protocol.RunControls(old(state))
    {
      state := Protocol.BeginSession(state);
      if state.lastAction != Protocol.FlashRunAction {
        state := state.(lastAction := Protocol.RunAction);
      }
      state := state.(runButton := Protocol.Busy);
      if state.lastAction == Protocol.FlashRunAction {
        state := state.(flashRunButton := Protocol.Busy);
      } else {
        state := state.(flashButton := Protocol.Idle, flashRunButton := Protocol.Idle);
      }
    }

    /** `on_flash`: `before` is the port snapshot `_list_ports()` took. */
    method OnFlash(port: ComPorts.DirectPort, before: Option<set<string>>) returns (sent: seq<Protocol.Sent>)
      requires Valid()
      modifies this`state, this`directWrites, this`flashWorker, ({masterReader} - {null})`queue
      ensures Valid()
      ensures state == Protocol.OnFlash(old(state), old(Link(port))).gui
      ensures sent == Protocol.SendToMaster(old(state).masterItem, Protocol.FLASH_COMMAND, old(Link(port)))
      ensures masterReader != null ==>
        masterReader.queue == old(masterReader.queue) + (if old(Link(port)).readerAccepts then [Protocol.FLASH_COMMAND] else [])
      ensures flashWorker != null && fresh(flashWorker)
      ensures flashWorker.beforePorts == (if before.Some? then before.value else {})
      ensures !flashWorker.stopRequested && flashWorker.flashCalls == [] && flashWorker.hexPath == HEX_PATH
    {
      ghost var link := Link(port);
      ghost var g0 := state;
      BeginFlash();
      sent := SendToMaster(Protocol.FLASH_COMMAND, port);
      if sent == [] {
        state := state.(masterSelectorError := true);
      }
      Protocol.OnFlashSteps(g0, link);
      flashWorker := new Flashing.FlashWorker(HEX_PATH, FLASH_BAUD, before);
    }

    /** The first part of `on_flash`: buttons, then the notice. */
    method BeginFlash()
      modifies this`state
      ensures state == Protocol.FlashControls(old(state))
    {
      state := state.(lastAction := Protocol.FlashAction, awaitTargetReady := false, flashButton := Protocol.Busy,
                      runButton := Protocol.Idle, flashRunButton := Protocol.Idle,
                      flashEnabled := false, flashRunEnabled := false);
      state := Protocol.LogInfo(state, Protocol.MSG_FLASH_SENDING);
    }

    /** `on_flash_and_run`, with the readiness flag cleared (see `Protocol.OnFlashAndRun`). */
    method OnFlashAndRun(port: ComPorts.DirectPort, before: Option<set<string>>) returns (sent: seq<Protocol.Sent>)
      requires Valid()
      modifies this`state, this`directWrites, this`flashWorker, ({masterReader} - {null})`queue
      ensures Valid()
      ensures state == Protocol.OnFlashAndRun(old(state), old(Link(port))).gui
      ensures sent == Protocol.OnFlashAndRun(old(state), old(Link(port))).sent
      ensures masterReader != null ==>
        masterReader.queue == old(masterReader.queue) + (if old(Link(port)).readerAccepts then [Protocol.FLASH_COMMAND] else [])
      ensures flashWorker != null && fresh(flashWorker)
      ensures flashWorker.beforePorts == (if before.Some? then before.value else {})
      ensures !flashWorker.stopRequested && flashWorker.flashCalls == [] && flashWorker.hexPath == HEX_PATH
    {
      ghost var link := Link(port);
      ghost var g0 := state;
      BeginFlashRun();
      sent := SendToMaster(Protocol.FLASH_COMMAND, port);
      if sent == [] {
        state := state.(masterSelectorError := true);
      }
      Protocol.OnFlashAndRunSteps(g0, link);
      flashWorker := new Flashing.FlashWorker(HEX_PATH, FLASH_BAUD, before);
    }

    /** The first part of `on_flash_and_run`: buttons, then the notice; the
        readiness flag is cleared here. */
    method BeginFlashRun()
      modifies this`state
      ensures state == Protocol.FlashRunControls(old(state).(awaitTargetReady := false))
    {
      state := state.(lastAction := Protocol.FlashRunAction, awaitTargetReady := false,
                      flashRunButton := Protocol.Busy, flashButton := Protocol.Busy, runButton := Protocol.Idle,
                      flashEnabled := false, flashRunEnabled := false);
      state := Protocol.LogInfo(state, Protocol.MSG_FLASH_RUN_SENDING);
    }

    /** The worker's `progress` signal, connected to `_log_info`. */
    method OnProgress(text: string)
      modifies this`state
      ensures state == Protocol.LogInfo(old(state), text)
    {
      state := Protocol.LogInfo(state, text);
    }

    /** `start_reader(role, combo)`: a reader on the parsed device, unless it
        is missing or a placeholder. */
    method StartReader(role: string, item: string) returns (reader: SerialLink.SerialReader?)
      ensures ReaderFollows(reader, item)
      ensures reader != null ==>
        && fresh(reader) && reader.role == role
        && !reader.stopRequested && reader.queue == [] && reader.emitted == []
    {
      var dev := ComPorts.ParseDeviceFromItem(Some(item));
      if dev.None? || dev.value == "" || StartsWith(dev.value, "<") {
        return null;
      }
      reader := new SerialLink.SerialReader(dev.value, role, 115200);
    }

    /** `restart_readers`: stop both readers, start new ones on the selected
        items, and flag both selectors when they name the same device. */
    method RestartReaders()
      modifies this`state, this`masterReader, this`targetReader, ({masterReader} - {null})`stopRequested, ({targetReader} - {null})`stopRequested
      ensures Valid()
      ensures state == Protocol.RestartReaders(old(state))
      ensures old(masterReader) != null ==> old(masterReader).stopRequested
      ensures old(targetReader) != null ==> old(targetReader).stopRequested
      ensures ReadersFollow(state.masterItem, state.targetItem)
      ensures masterReader != null ==> fresh(masterReader) && !masterReader.stopRequested && masterReader.queue == []
      ensures targetReader != null ==> fresh(targetReader) && !targetReader.stopRequested && targetReader.queue == []
    {
      if masterReader != null {
        masterReader.Stop();
        masterReader := null;
      }
      if targetReader != null {
        targetReader.Stop();
        targetReader := null;
      }
      masterReader := StartReader(Protocol.MASTER_ROLE, state.masterItem);
      targetReader := StartReader(Protocol.TARGET_ROLE, state.targetItem);
      if Protocol.CrossWired(state.masterItem, state.targetItem) {
        state := state.(masterSelectorError := true, targetSelectorError := true);
      }
    }

    /** `_on_flash_worker_done(dfu_port, new_target)`; `ports` is what the
        enumeration returns when the Target combo is refreshed. */
    method OnFlashWorkerDone(dfuPort: string, newTarget: string, ports: ComPorts.Enumeration)
      requires Valid()
      modifies this`state, this`masterReader, this`targetReader, this`flashWorker
      modifies ({masterReader} - {null})`stopRequested, ({targetReader} - {null})`stopRequested
      ensures Valid()
      ensures state == Protocol.OnFlashWorkerDone(old(state), dfuPort, newTarget, ports).0
      ensures flashWorker == null
      ensures newTarget == "" ==> masterReader == old(masterReader) && targetReader == old(targetReader)
      ensures newTarget != "" ==>
        && (old(masterReader) != null ==> old(masterReader).stopRequested)
        && (old(targetReader) != null ==> old(targetReader).stopRequested)
        && ReadersFollow(state.masterItem, state.targetItem)
        && (targetReader != null ==> targetReader != old(targetReader))
    {
      ghost var g0 := state;
      state := state.(flashEnabled := true, flashRunEnabled := true, flashButton := Protocol.Succeeded);
      assert state == Protocol.FlashSucceeded(g0);
      if state.lastAction == Protocol.FlashRunAction {
        DoneAfterFlashRun(newTarget, ports);
      } else {
        DoneAfterFlash(newTarget, ports);
      }
      flashWorker := null;
    }

    /** The plain Flash branch of `_on_flash_worker_done`. */
    method DoneAfterFlash(newTarget: string, ports: ComPorts.Enumeration)
      modifies this`state, this`masterReader, this`targetReader
      modifies ({masterReader} - {null})`stopRequested, ({targetReader} - {null})`stopRequested
      requires Valid()
      ensures Valid()
      ensures state == Protocol.FinishFlash(old(state), newTarget, ports)
      ensures newTarget == "" ==> masterReader == old(masterReader) && targetReader == old(targetReader)
      ensures newTarget != "" ==>
        && (old(masterReader) != null ==> old(masterReader).stopRequested)
        && (old(targetReader) != null ==> old(targetReader).stopRequested)
        && ReadersFollow(state.masterItem, state.targetItem)
        && (targetReader != null ==> targetReader != old(targetReader))
    {
      if newTarget != "" {
        Retarget(Protocol.MSG_FLASH_NEW_TARGET, newTarget, ports);
      }
    }

    /** The Flash&Run branch of `_on_flash_worker_done`. */
    method DoneAfterFlashRun(newTarget: string, ports: ComPorts.Enumeration)
      modifies this`state, this`masterReader, this`targetReader
      modifies ({masterReader} - {null})`stopRequested, ({targetReader} - {null})`stopRequested
      requires Valid()
      ensures Valid()
      ensures state == Protocol.FinishFlashRun(old(state), newTarget, ports)
      ensures newTarget == "" ==> masterReader == old(masterReader) && targetReader == old(targetReader)
      ensures newTarget != "" ==>
        && (old(masterReader) != null ==> old(masterReader).stopRequested)
        && (old(targetReader) != null ==> old(targetReader).stopRequested)
        && ReadersFollow(state.masterItem, state.targetItem)
        && (targetReader != null ==> targetReader != old(targetReader))
    {
      state := state.(flashRunButton := Protocol.Busy);
      if newTarget != "" {
        Retarget(Protocol.MSG_FLASH_RUN_NEW_TARGET, newTarget, ports);
      } else {
        state := Protocol.LogInfo(state, Protocol.MSG_FLASH_RUN_NO_TARGET);
      }
      state := state.(awaitTargetReady := true);
    }

    /** Log the new Target port, `refresh_ports_for` and `_set_combo_to_device`
        on the Target combo, then `restart_readers`. */
    method Retarget(notice: string, newTarget: string, ports: ComPorts.Enumeration)
      modifies this`state, this`masterReader, this`targetReader
      modifies ({masterReader} - {null})`stopRequested, ({targetReader} - {null})`stopRequested
      ensures Valid()
      ensures state == Protocol.Retarget(old(state), notice, newTarget, ports)
      ensures old(masterReader) != null ==> old(masterReader).stopRequested
      ensures old(targetReader) != null ==> old(targetReader).stopRequested
      ensures ReadersFollow(state.masterItem, state.targetItem)
      ensures targetReader != null ==> fresh(targetReader)
    {
      state := Protocol.LogInfo(state, notice + newTarget);
      state := state.(targetItem := Protocol.SelectDevice(ComPorts.GetPortsList(ports), newTarget));
      RestartReaders();
    }

    /** `_on_flash_worker_failed(message)` */
    method OnFlashWorkerFailed(message: string)
      modifies this`state, this`flashWorker
      ensures state == Protocol.OnFlashWorkerFailed(old(state), message)
      ensures flashWorker == null
    {
      state := state.(flashEnabled := true, flashRunEnabled := true);
      state := Protocol.LogInfo(state, Protocol.MSG_FLASH_ERROR + message);
      if state.lastAction == Protocol.FlashRunAction {
        state := state.(flashRunButton := Protocol.Errored, flashButton := Protocol.Errored);
      } else {
        state := state.(flashButton := Protocol.Errored);
      }
      flashWorker := null;
    }

    /** `on_serial_line(role, line)` as the readers' `line_received` signal
        delivers it. */
    method OnSerialLine(role: string, line: string, port: ComPorts.DirectPort) returns (sent: seq<Protocol.Sent>)
      requires Valid()
      modifies this`state, this`directWrites, ({masterReader} - {null})`queue
      ensures Valid()
      ensures state == Protocol.OnSerialLine(old(state), role, line, old(Link(port))).gui
      ensures sent == Protocol.OnSerialLine(old(state), role, line, old(Link(port))).sent
      ensures masterReader != null ==>
        masterReader.queue == old(masterReader.queue) + (if sent != [] && old(Link(port)).readerAccepts then [Protocol.START_COMMAND] else [])
      ensures directWrites == old(directWrites) + (if old(Link(port)).readerAccepts then [] else sent)
    {
      sent := [];
      if role == Protocol.MASTER_ROLE {
        if !StartsWith(line, Protocol.MASTER_PREFIX) {
          state := state.(masterSelectorError := true);
        } else {
          state := Protocol.MasterLine(state, line);
        }
      } else if role == Protocol.TARGET_ROLE {
        if !StartsWith(line, Protocol.TARGET_PREFIX) {
          state := state.(targetSelectorError := true);
        } else {
          sent := OnTargetLine(line, port);
        }
      }
    }

    /** A Target line that passed the provenance check: the automatic start
        of a Flash&Run that waits for the Target, then logging. */
    method OnTargetLine(line: string, port: ComPorts.DirectPort) returns (sent: seq<Protocol.Sent>)
      requires Valid()
      modifies this`state, this`directWrites, ({masterReader} - {null})`queue
      ensures Valid()
      ensures state == Protocol.TargetLine(old(state), line, old(Link(port))).gui
      ensures sent == Protocol.TargetLine(old(state), line, old(Link(port))).sent
      ensures masterReader != null ==>
        masterReader.queue == old(masterReader.queue) + (if sent != [] && old(Link(port)).readerAccepts then [Protocol.START_COMMAND] else [])
      ensures directWrites == old(directWrites) + (if old(Link(port)).readerAccepts then [] else sent)
    {
      sent := [];
      if state.awaitTargetReady {
        state := state.(awaitTargetReady := false);
        sent := OnRunTest(port);
      }
      state := Protocol.LogLine(state, false, line);
    }
  }
}
