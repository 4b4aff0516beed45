# cn_tester in Dafny

A model of the C!N connector tester: two nRF52840 boards and a desktop
controller.

- The **Target** board drives nineteen test lines through three stages.
  First every line is HIGH, then every line is LOW. Then each line in
  turn goes HIGH alone.
- The **Master** board samples the same lines and judges each stage. It
  reports on its serial port and accepts `START` and `FLASH`/`DFU`
  commands.
- The **desktop controller** (`MainWindow` in `app/ui.py`) reads both
  serial ports through `SerialReader` workers. It colours the stage boxes,
  the buttons and the pin-out from the Master's lines. It sends `START` or
  `FLASH` to the Master. Through `FlashWorker` it reflashes the Target and
  follows its new serial port.

Modules, one per file:

| file | module | what it holds |
|---|---|---|
| `text.dfy` | `Text` | Python and Arduino string operations: `in`, `strip()`, `String::trim()`, `equalsIgnoreCase`, `split(sep, 1)[0]`, `join` |
| `wrappers.dfy` | `Wrappers` | `Option` |
| `com_ports.dfy` | `ComPorts` | port items, `_extract_device`, `get_ports_list`, the guard of `send_command_to_port_item` (pure) |
| `pins.dfy` | `Pins` | the pin-id scan of `_extract_pins_from_message` |
| `serial_reader.dfy` | `SerialLink` | class `SerialReader`: its receive loop and its outbound queue |
| `flash_worker.dfy` | `Flashing` | class `FlashWorker`: port waits, stop checks, the flash call |
| `protocol.dfy` | `Protocol` | the window's handlers as functions over a `Gui` record, and lemmas over event traces |
| `window.dfy` | `Window` | class `MainWindow`: the handlers as methods, proved equal to `Protocol` |
| `master_firmware.dfy` | `MasterFirmware` | the Master's globals as a value, and one call of `loop()` as the function `Step` |
| `master_board.dfy` | `MasterBoard` | class `Board`: `setup()` and `loop()` over the globals and the `pinWasHigh` array, proved to follow `Step` |
| `master_properties.dfy` | `MasterProperties` | the run invariant, the outcome of each stage, success and failure conditions, command parsing |
| `master_flags.dfy` | `MasterFlags` | the once-only BEGIN and FAIL lines and the SEQUENCE timeout over whole `loop()` calls |
| `target_firmware.dfy` | `TargetFirmware` | class `Target`: `setAll`, `setup()`, `loop()` over the pin array, with the observable trace |
| `bench.dfy` | `Bench` | the two firmwares and the controller together |

Hardware, time and threads are inputs.

- One call of the Master's `loop()` reads a `Tick`. It holds the serial
  command, the button, `millis()` and one sample of every test line.
- The Target's observable behaviour is a trace. The trace holds the lines
  it prints and, for each `delay`, the level of each test line during it.
- The serial port and the port enumeration are oracles given as
  parameters, and so are the flashing tool and the moment `stop()` arrives.

## Model

| member | source | states |
|---|---|---|
| Text.Contains | app/ui.py:1069 | Python's `t in s`: true exactly when `t` occurs in `s` at some position |
| Text.Trim | app/com_ports.py:61-62 | the stripped text neither starts nor ends with a character of the whitespace set |
| Text.TrimIsTrimmedAt | app/com_ports.py:61-62 | the stripped text is an infix of the original, and everything cut off on either side is whitespace |
| Text.BeforeFirst | app/com_ports.py:61 | `s.split(sep, 1)[0]` is a prefix of `s` with no occurrence of `sep` in it, and `sep` follows it unless it is all of `s` |
| Text.BeforeFirstOfJoin | app/com_ports.py:61 | splitting `a + sep + b`, where `sep` does not start inside `a`, gives back `a` |
| Text.JoinSnoc | mcu_firmwares/master_firmware/src/main.cpp:96-102 | appending a label to a `", "`-joined list adds one separator, except when the list was empty |
| ComPorts.FormatItems | app/com_ports.py:17-20 | one combo item per port, in port order, each formatted from its port |
| ComPorts.GetPortsList | app/com_ports.py:9-27 | never empty: the pyserial placeholder when the library is missing, the no-ports placeholder on an exception or an empty list, otherwise one item per port |
| ComPorts.ExtractDevice | app/com_ports.py:54-64 | no device exactly when the text is missing or empty |
| ComPorts.ExtractFormatRoundTrip | app/com_ports.py:17-20 | parsing the item formatted for a port gives back its device, when the device has no `" ("` and no surrounding blanks |
| ComPorts.ListedItemsParse | app/com_ports.py:92-94 | every item of a successful enumeration parses back to its port's device |
| ComPorts.PlaceholdersNotSelectable | app/com_ports.py:22-26 | both placeholders parse to a name starting with `<`, which the send guard refuses |
| ComPorts.PlaceholderNotSelectable | app/com_ports.py:79-80 | an item in angle brackets with no `(` parses to itself, which starts with `<` |
| ComPorts.SendCommandToPortItem | app/com_ports.py:67-89 | nothing is opened without pyserial or when the parsed device is empty or starts with `<`; a write happens exactly when the library is present, the device passes the guard and the write succeeds; it goes to the parsed device and carries the command unchanged |
| Pins.NoOverlap | app/ui.py:1041 | two matches of `P[01][._]\d\d` never overlap |
| Pins.FindFromExactly | app/ui.py:182-186 | the left-to-right scan from a position finds exactly the ids of the matches at or after that position |
| Pins.ExtractPinsExactly | app/ui.py:1038-1043 | a pin id is extracted exactly when some substring matches the pattern and canonicalises to it |
| Pins.ExtractedAreCanonical | app/ui.py:1038-1043 | every extracted id has the form `P{0,1}_dd` |
| Pins.SeparatorIrrelevant | app/ui.py:1040-1042 | writing `_` for `.` in a match leaves the extracted set unchanged |
| Pins.FoundAt | app/ui.py:1038-1043 | the id of every match is extracted |
| SerialLink.TerminatedIdempotent | app/ui.py:341-342 | a terminated command ends with a newline, and terminating it again changes nothing |
| SerialLink.PutBackKeepsWire | app/ui.py:345-348 | putting the failed, already terminated command back at the head of the queue leaves what will reach the wire unchanged |
| SerialLink.DrainedOutbound | app/ui.py:327-356 | a drain that stopped after `k` writes leaves the written commands plus the queue equal to what was owed before |
| SerialLink.Accepted | app/ui.py:327-356 | the number of leading successful writes, between the start and the queue length |
| SerialLink.AcceptedIsFirstFailure | app/ui.py:340-356 | the accepted writes are exactly those before the first failed one |
| SerialLink.PassLines | app/ui.py:319-324 | one pass delivers at most one line, the stripped read text, only when it is non-empty; and it delivers exactly that line whenever the port is open, the read returns data and the stripped text is non-empty |
| SerialLink.SerialReader.constructor | app/ui.py:246-254 | a new reader: not stopped, not connected, nothing queued, written or emitted |
| SerialLink.SerialReader.Stop | app/ui.py:364-365 | sets the stop flag |
| SerialLink.SerialReader.SendLine | app/ui.py:367-376 | refused once stopped; otherwise the line joins the tail of the queue, and the outbound text grows by the terminated line |
| SerialLink.SerialReader.Drain | app/ui.py:327-356 | writes the queue head-first until the first failed write; on a failure it puts the terminated command back and drops the port; nothing is lost or duplicated; with no port open nothing moves |
| SerialLink.SerialReader.Pass | app/ui.py:261-356 | one pass of the worker loop: emits the pass's line, if any, and keeps the outbound text; connection state and queue length follow `PassState` |
| SerialLink.SerialReader.Passes | app/ui.py:261-356 | the lines emitted by a sequence of passes are the delivered lines in order, and no command is lost |
| SerialLink.SerialReader.Run | app/ui.py:256-362 | without pyserial, or when stopped before the thread starts, nothing is emitted and the queue is kept; otherwise the passes' lines are emitted in order and the port is closed at the end |
| Flashing.Candidates | app/ui.py:414 | the candidates are no more than the snapshot's devices |
| Flashing.CandidatesExactly | app/ui.py:414 | a device is a candidate exactly when the snapshot has it and it is not excluded |
| Flashing.Wait | app/ui.py:408-418 | the wait makes at most one stop check per poll, and the port it returns is never excluded |
| Flashing.WaitFromPolls | app/ui.py:413-416 | the port a wait returns was present in one of its polls |
| Flashing.WaitSomeHasHit | app/ui.py:410-416 | a wait that returns a port has a poll that found a candidate with the stop flag clear |
| Flashing.HitReturned | app/ui.py:410-416 | the first poll that finds a candidate decides the result: its first candidate |
| Flashing.WaitFirstCandidate | app/ui.py:408-418 | the wait returns a port exactly when a poll made before a stop found a candidate, and then the first candidate of that poll |
| Flashing.FlashWorker.constructor | app/ui.py:390-396 | the before-snapshot defaults to the empty set; not stopped; no progress and no flash call yet |
| Flashing.FlashWorker.Stop | app/ui.py:398-399 | sets the stop flag |
| Flashing.FlashWorker.CheckStop | app/ui.py:411-412 | one read of the stop flag, counted |
| Flashing.FlashWorker.WaitForNewPort | app/ui.py:408-418 | the loop returns what `Wait` specifies and makes the same number of stop checks; the flag becomes set exactly when a check saw it |
| Flashing.FlashWorker.Run | app/ui.py:420-466 | `done` comes after "upload finished" and exactly one flash call. That call goes to the DFU port when one was found, and auto-detects otherwise. The DFU port is new, and the new Target port is new and differs from the DFU port. `failed` is "Cancelled" after a stop, or the upload error after the one flash call. With no stop, a successful flash always ends in `done`. The outcome is the one `RunOutcome` computes from the stop checks and the two `Wait`s |
| Flashing.RunCancelledExactly | app/ui.py:420-466 | the run ends "Cancelled" exactly when the stop flag reads true at the check on entry, after the DFU wait, before the flash, or after a flash that succeeded; a failed flash's message is never "Cancelled" |
| Flashing.RunDonePorts | app/ui.py:427-465 | a `done` DFU port is new and was seen by a DFU poll; a `done` Target port is new, differs from the DFU port and was seen by a Target poll |
| Flashing.RunUninterrupted | app/ui.py:420-466 | with no stop, a successful flash ends in `done` with the ports of the two waits (the Target wait excluding the snapshot and the DFU port), and a failed one in "Firmware upload failed: " and its message |
| Protocol.Init | app/ui.py:688-692 | the window starts with no problem pins, no action, idle pin-out, empty logs and no readiness wait |
| Protocol.SendToMaster | app/ui.py:929-938 | through the reader when it accepts the line; otherwise one direct write of the newline-terminated command to the parsed, guarded device; nothing when both fail |
| Protocol.RunControls | app/ui.py:907-927 | a new session with cleared pins and logs; Run busy; a Flash&Run in progress stays Flash&Run with Flash left as it is; otherwise the action becomes Run and both Flash buttons go back to default |
| Protocol.OnRunTest | app/ui.py:907-938 | the session, button and action updates of `RunControls`; START is sent; when nothing could be sent the Master selector is flagged; the readiness wait is left alone |
| Protocol.OnFlash | app/ui.py:868-905 | action Flash, readiness wait cleared, Flash busy, the other two default, both Flash buttons disabled, the notice logged; the commands sent are `SendToMaster`'s for FLASH, and when none could be sent the Master selector is flagged; the session is untouched |
| Protocol.OnFlashAndRunAsWritten | app/ui.py:940-975 | as written: action Flash&Run, Flash&Run and Flash busy, Run default, both Flash buttons disabled, FLASH sent (the Master selector flagged when nothing could be sent), and the readiness wait kept from before |
| Protocol.OnFlashAndRun | app/ui.py:940-975 | the corrected handler: as written, but the readiness wait is cleared as `on_flash` clears it |
| Protocol.CorrectionOnlyClearsReadiness | app/ui.py:940-975 | the corrected handler differs from the as-written one only in the cleared readiness wait, and not at all when the wait was already clear |
| Protocol.SelectFirst | app/ui.py:702-714 | the selected item is one of the items |
| Protocol.SelectFirstIsFirstMatch | app/ui.py:702-714 | the combo lands on the first item that names the device, or stays on the first item of the refreshed list when none does |
| Protocol.SelectDevice | app/ui.py:702-714 | the selection after a refresh is one of the refreshed items |
| Protocol.RestartReaders | app/ui.py:1022-1027 | both selectors are flagged when they name the same real device; otherwise the window is unchanged; only the selector flags ever change |
| Protocol.Retarget | app/ui.py:1225-1233 | a new Target port changes only the logs, the Target selection and the selector flags |
| Protocol.OnFlashWorkerDone | app/ui.py:1206-1256 | both Flash buttons enabled again and Flash green. After Flash&Run, Flash&Run stays busy and the window waits for the Target. Otherwise the readiness wait is unchanged. The readers restart exactly when a new Target port was found, and the Target selection is kept when none was |
| Protocol.FlashSucceeded | app/ui.py:1211-1224 | both Flash buttons enabled again and Flash green, nothing else |
| Protocol.FinishFlashRun | app/ui.py:1218-1237 | Flash&Run stays busy and the window awaits the Target's first line; without a new port the Target selection is kept |
| Protocol.FinishFlash | app/ui.py:1238-1253 | without a new port nothing changes; the readiness wait and the buttons are untouched |
| Protocol.OnFlashWorkerFailed | app/ui.py:1260-1280 | both Flash buttons enabled again, Flash red, Flash&Run red only after Flash&Run, the error in both logs |
| Protocol.LogLine | app/ui.py:1065-1089 | the role's ready box turns green; a heartbeat is logged only when that role's previous logged line was not one; any other line is always logged and clears the heartbeat flag; the other role is untouched |
| Protocol.ClassifyPrecedence | app/ui.py:1095-1193 | the first keyword in the order START, ALL_HIGH, ALL_LOW, SEQUENCE, SUCCESS, FAIL/ERROR decides how a Master line is handled |
| Protocol.QualifierPrecedence | app/ui.py:1111-1116 | within a stage line BEGIN wins over OK, and OK over ERROR |
| Protocol.ErrorButtons | app/ui.py:1120-1130 | Run turns red after Run or Flash&Run, Flash&Run too after Flash&Run, nothing otherwise |
| Protocol.SetStage | app/ui.py:1110-1175 | colours one stage box and nothing else |
| Protocol.StageLine | app/ui.py:1110-1175 | an ERROR line adds the pins it names to the problem pins; no other stage line touches them or the buttons |
| Protocol.SuccessLine | app/ui.py:1177-1191 | SUCCESS: session Passed, action cleared, every stage box green, all three buttons default, pins kept |
| Protocol.FailureLine | app/ui.py:1193-1204 | FAIL or ERROR: session Failed, every stage box red, Run red after Run or Flash&Run, Flash&Run red after Flash&Run, Flash and the pins kept |
| Protocol.Dispatch | app/ui.py:1095-1204 | per keyword: START restarts the session (pins and logs cleared, stages pending) after Run or Flash&Run and changes nothing otherwise; SUCCESS and FAIL/ERROR as `SuccessLine` and `FailureLine`; a stage line changes only its box, plus the pins it names and the buttons on ERROR; no keyword changes nothing. The readiness wait is never touched |
| Protocol.OnSerialLine | app/ui.py:1045-1204 | an unknown role changes nothing; a line without its role's prefix only flags that selector; Master lines never send anything; a Target line sends nothing and leaves the test alone unless the window awaits the Target |
| Protocol.MasterLine | app/ui.py:1065-1204 | a Master line leaves the readiness wait alone |
| Protocol.TargetLine | app/ui.py:1055-1089 | a Target line always clears the readiness wait; when it was set the test starts as `on_run_test` starts it; otherwise the line is only logged |
| Protocol.NoKeywordOnlyLogs | app/ui.py:1091-1204 | a Master line without a keyword only logs |
| Protocol.HeartbeatsLoggedOnce | app/ui.py:1067-1078 | any run of consecutive Master heartbeats adds the line to the log at most once, and only when the previous logged line was not a heartbeat |
| Protocol.StartNeedsWindowAction | app/ui.py:1095-1104 | a Master START line restarts the session only after Run or Flash&Run; otherwise it is only logged |
| Protocol.ProblemPinsChangeOnlyOnErrorOrRestart | app/ui.py:1099-1175 | the problem pins change on exactly three events: a Master START line after Run or Flash&Run clears them, a Target line while the window awaits the Target clears them, and a Master stage ERROR line adds the pins it names |
| Protocol.StartAfterSuccessOnlyLogged | app/ui.py:1095-1191 | after a SUCCESS line has cleared the action, a Master START line is only logged and sends nothing |
| Protocol.MasterLineLogged | app/ui.py:1076-1078 | a Master line that is not a heartbeat and not START ends up at the end of the Master log |
| Protocol.TargetLineStartsAwaitedTest | app/ui.py:1055-1061 | when the window awaits the Target, its first line starts the test, sends START, clears the wait and opens the new Target log |
| Protocol.TargetLinesWaitForWorker | app/ui.py:1051-1061 | while the window does not await the Target, any number of Target lines send nothing and leave the session and pins alone |
| Protocol.FlashRunStartsOnTargetLine | app/ui.py:940-1061 | Flash&Run end to end: the click sends FLASH; after the worker's report the first Target line sends START; the test then runs with Flash green and Flash&Run and Run busy |
| Protocol.FlashRunStartsOnTargetLineAsWritten | app/ui.py:940-1061 | the same Flash&Run sequence, click, worker report, first Target line, through the as-written handler, from any window: FLASH then START sent and the test running with Flash green and Flash&Run and Run busy |
| Protocol.SequenceOkIsOkAndAll | app/ui.py:1158 | the SEQUENCE OK test reduces to the line containing both "OK" and "ALL" |
| Protocol.StaleReadinessStartsDuringFlash | app/ui.py:940-975 | as written: after a Flash&Run whose Target stayed silent, a second Flash&Run keeps the stale wait, so a Target line starts the test while the new flash runs |
| Protocol.FreshReadinessWaitsForFlash | app/ui.py:874 | with the wait cleared, the same events send nothing until the second worker reports |
| Window.MainWindow.Link | app/ui.py:929-934 | `send_line` on the Master reader succeeds exactly when the reader exists and is not stopped |
| Window.MainWindow.constructor | app/ui.py:494-692 | the initial window state; no reader, no worker, no direct write |
| Window.MainWindow.SendToMaster | app/ui.py:977-988 | the commands sent are `Protocol.SendToMaster`'s; an accepting reader's queue grows by the command; a direct write is recorded otherwise |
| Window.MainWindow.OnRunTest | app/ui.py:907-938 | the window state and the commands sent are those of `Protocol.OnRunTest`; START lands on the reader's queue or on the direct-write trace |
| Window.MainWindow.BeginRun | app/ui.py:908-927 | the state after the first part of `on_run_test` is `Protocol.RunControls` |
| Window.MainWindow.OnFlash | app/ui.py:868-905 | the state and the commands are those of `Protocol.OnFlash`; a fresh, unstopped worker with the port snapshot and the firmware path |
| Window.MainWindow.BeginFlash | app/ui.py:872-885 | the state after the button updates and the notice is `Protocol.FlashControls` |
| Window.MainWindow.OnFlashAndRun | app/ui.py:940-975 | the state and the commands are those of the corrected `Protocol.OnFlashAndRun`; a fresh, unstopped worker |
| Window.MainWindow.BeginFlashRun | app/ui.py:944-955 | the state after the button updates, the cleared wait and the notice |
| Window.MainWindow.OnProgress | app/ui.py:897 | a progress message is logged to both panes |
| Window.MainWindow.StartReader | app/ui.py:1029-1036 | a reader exists exactly when the parsed device passes the guard, runs on that device with the given role, and starts unstopped with an empty queue |
| Window.MainWindow.RestartReaders | app/ui.py:1005-1027 | the old readers are stopped; the new ones follow the selected items; the selector flags follow `Protocol.RestartReaders` |
| Window.MainWindow.OnFlashWorkerDone | app/ui.py:1206-1256 | the state is `Protocol.OnFlashWorkerDone`'s, and the worker reference is cleared. With a new Target port the old readers are stopped and new ones follow the selection; otherwise the readers are kept |
| Window.MainWindow.DoneAfterFlash | app/ui.py:1238-1253 | the plain Flash branch follows `Protocol.FinishFlash` |
| Window.MainWindow.DoneAfterFlashRun | app/ui.py:1218-1237 | the Flash&Run branch follows `Protocol.FinishFlashRun` |
| Window.MainWindow.Retarget | app/ui.py:1225-1233 | log, refresh, select, restart: the state is `Protocol.Retarget`'s and the readers follow the new selection |
| Window.MainWindow.OnFlashWorkerFailed | app/ui.py:1260-1280 | the state is `Protocol.OnFlashWorkerFailed`'s and the worker reference is cleared |
| Window.MainWindow.OnSerialLine | app/ui.py:1045-1204 | the state and the commands are those of `Protocol.OnSerialLine`; an automatic START lands on the reader's queue or the direct-write trace |
| Window.MainWindow.OnTargetLine | app/ui.py:1055-1089 | the awaited automatic start, then logging, as `Protocol.TargetLine` says |
| MasterFirmware.Elapsed | mcu_firmwares/master_firmware/src/main.cpp:175 | `now - since` in 32-bit unsigned arithmetic: the plain difference, or the difference plus 2^32 after `millis()` wraps |
| MasterFirmware.NoMarks | mcu_firmwares/master_firmware/src/main.cpp:129-132 | nineteen cleared marks |
| MasterFirmware.HandleCommand | mcu_firmwares/master_firmware/src/main.cpp:158-167 | a command never changes the state, the marks or the expected line |
| MasterFirmware.TrackButton | mcu_firmwares/master_firmware/src/main.cpp:170-174 | the debouncer never changes the state, the marks or the expected line |
| MasterFirmware.LabelsAt | mcu_firmwares/master_firmware/src/main.cpp:94-105 | no more labels than samples |
| MasterFirmware.HighCount | mcu_firmwares/master_firmware/src/main.cpp:256-264 | the count of HIGH lines is at most the number of lines |
| MasterFirmware.HighIdx | mcu_firmwares/master_firmware/src/main.cpp:256-264 | the last HIGH line's index, and -1 exactly when no line is HIGH |
| MasterBoard.Board.constructor | mcu_firmwares/master_firmware/src/main.cpp:76-135 | the globals after `setup()`: WAIT_BUTTON, no marks, only "READY" printed |
| MasterBoard.Board.Println | mcu_firmwares/master_firmware/src/main.cpp:133 | one more line on the serial port |
| MasterBoard.Board.ToState | mcu_firmwares/master_firmware/src/main.cpp:107-110 | the new state and its start time |
| MasterBoard.Board.EnterFlashMode | mcu_firmwares/master_firmware/src/main.cpp:146-151 | the FLASH notice, then two reset lines |
| MasterBoard.Board.PulseReset | mcu_firmwares/master_firmware/src/main.cpp:138-143 | one "SENT RESET" line |
| MasterBoard.Board.ClearMarks | mcu_firmwares/master_firmware/src/main.cpp:129-132 | every mark cleared |
| MasterBoard.Board.PrintPinsByLevel | mcu_firmwares/master_firmware/src/main.cpp:94-105 | one line: the prefix, then the labels of the lines at the level, in table order, separated by ", " |
| MasterBoard.Board.ReadAll | mcu_firmwares/master_firmware/src/main.cpp:209-211 | true exactly when every line reads the level |
| MasterBoard.Board.CountHigh | mcu_firmwares/master_firmware/src/main.cpp:256-264 | the number of HIGH lines and the index of the last one |
| MasterBoard.Board.ClearLowMarks | mcu_firmwares/master_firmware/src/main.cpp:302-307 | a mark survives exactly when its line reads HIGH |
| MasterBoard.Board.Loop | mcu_firmwares/master_firmware/src/main.cpp:154-352 | one call of `loop()` leaves the globals and the output as `Step` says |
| MasterBoard.Board.ReadCommand | mcu_firmwares/master_firmware/src/main.cpp:158-167 | the command handling follows `HandleCommand` |
| MasterBoard.Board.ReadButton | mcu_firmwares/master_firmware/src/main.cpp:169-175 | the edge tracking follows `TrackButton`, and "pressed" is LOW held for more than 50 ms |
| MasterBoard.Board.WaitButtonStage | mcu_firmwares/master_firmware/src/main.cpp:178-199 | STATE_WAIT_BUTTON follows its stage function |
| MasterBoard.Board.Heartbeat | mcu_firmwares/master_firmware/src/main.cpp:180-184 | the IDLE line every 500 ms |
| MasterBoard.Board.StartTest | mcu_firmwares/master_firmware/src/main.cpp:185-198 | the start from WAIT_BUTTON |
| MasterBoard.Board.Announce | mcu_firmwares/master_firmware/src/main.cpp:186-189 | the START request consumed, "START" and a reset line printed |
| MasterBoard.Board.ClearRun | mcu_firmwares/master_firmware/src/main.cpp:190-196 | the prechecks, the marks, the expected line and two BEGIN flags cleared |
| MasterBoard.Board.BeginAllHigh | mcu_firmwares/master_firmware/src/main.cpp:204-207 | ALL_HIGH's BEGIN line once |
| MasterBoard.Board.BeginAllLow | mcu_firmwares/master_firmware/src/main.cpp:228-231 | ALL_LOW's BEGIN line once |
| MasterBoard.Board.BeginSequence | mcu_firmwares/master_firmware/src/main.cpp:251-254 | SEQUENCE's BEGIN line once |
| MasterBoard.Board.AllHighStage | mcu_firmwares/master_firmware/src/main.cpp:201-223 | STATE_WAIT_ALL_HIGH follows its stage function |
| MasterBoard.Board.PassAllHigh | mcu_firmwares/master_firmware/src/main.cpp:212-216 | ALL_HIGH OK, on to ALL_LOW |
| MasterBoard.Board.FailAllHigh | mcu_firmwares/master_firmware/src/main.cpp:217-222 | ALL_HIGH ERROR with the LOW lines, on to ALL_LOW regardless |
| MasterBoard.Board.AllLowStage | mcu_firmwares/master_firmware/src/main.cpp:225-247 | STATE_WAIT_ALL_LOW follows its stage function |
| MasterBoard.Board.PassAllLow | mcu_firmwares/master_firmware/src/main.cpp:236-240 | ALL_LOW OK, on to SEQUENCE |
| MasterBoard.Board.FailAllLow | mcu_firmwares/master_firmware/src/main.cpp:241-246 | ALL_LOW ERROR with the HIGH lines, on to SEQUENCE regardless |
| MasterBoard.Board.SequenceStage | mcu_firmwares/master_firmware/src/main.cpp:249-314 | STATE_SEQUENCE follows its stage function |
| MasterBoard.Board.FailPins | mcu_firmwares/master_firmware/src/main.cpp:266-271 | every HIGH line reported, on to FAIL |
| MasterBoard.Board.Rise | mcu_firmwares/master_firmware/src/main.cpp:273-301 | only a line not yet marked is judged; the result says whether the step breaks |
| MasterBoard.Board.MarkRise | mcu_firmwares/master_firmware/src/main.cpp:275-278 | the line is marked and its OK line printed |
| MasterBoard.Board.Judge | mcu_firmwares/master_firmware/src/main.cpp:280-300 | the expected line advances, and ends in SUCCESS after the last line; a later line is an order error, an earlier one a repeated rise |
| MasterBoard.Board.SequenceTimeout | mcu_firmwares/master_firmware/src/main.cpp:309-313 | after 15 s in SEQUENCE the run fails, naming the expected line or "end" |
| MasterBoard.Board.SuccessStage | mcu_firmwares/master_firmware/src/main.cpp:316-320 | the SUCCESS line, back to WAIT_BUTTON |
| MasterBoard.Board.FailStage | mcu_firmwares/master_firmware/src/main.cpp:322-351 | STATE_FAIL follows its stage function |
| MasterBoard.Board.FailBlink | mcu_firmwares/master_firmware/src/main.cpp:324-331 | the FAIL line once, then the blink clock |
| MasterBoard.Board.RestartTest | mcu_firmwares/master_firmware/src/main.cpp:332-349 | the restart from FAIL, which also clears the ALL_LOW and SEQUENCE markers |
| MasterBoard.NextLabel | mcu_firmwares/master_firmware/src/main.cpp:96-102 | one more turn of the printing loop adds the line's label, after a separator unless it is the first |
| MasterProperties.SetupEstablishesInv | mcu_firmwares/master_firmware/src/main.cpp:113-135 | after `setup()` the run invariant holds, in WAIT_BUTTON, with only "READY" printed |
| MasterProperties.CommandKeepsRun | mcu_firmwares/master_firmware/src/main.cpp:158-167 | a serial command changes only the START request and the output, and a START command sets the request |
| MasterProperties.ButtonKeepsRun | mcu_firmwares/master_firmware/src/main.cpp:170-174 | the debouncer changes only its edge tracking |
| MasterProperties.PreludeKeepsRun | mcu_firmwares/master_firmware/src/main.cpp:154-177 | the command and the button leave the run alone, and the step is the state switch after them |
| MasterProperties.NoHighIff | mcu_firmwares/master_firmware/src/main.cpp:256-264 | no HIGH line is counted exactly when every line reads LOW |
| MasterProperties.SingleHigh | mcu_firmwares/master_firmware/src/main.cpp:256-264 | the loop reports exactly one HIGH line at `k` exactly when only line `k` is HIGH |
| MasterProperties.ClearedMarksBelow | mcu_firmwares/master_firmware/src/main.cpp:302-307 | clearing the marks of LOW lines never sets a mark |
| MasterProperties.StartClearsRun | mcu_firmwares/master_firmware/src/main.cpp:185-198 | both the start and the restart begin a fresh run in ALL_HIGH |
| MasterProperties.HeartbeatKeepsRun | mcu_firmwares/master_firmware/src/main.cpp:180-184 | the heartbeat touches only its clock and the output |
| MasterProperties.HeartbeatBeats | mcu_firmwares/master_firmware/src/main.cpp:180-184 | after 500 ms the IDLE line is printed and the clock reset |
| MasterProperties.FailBlinkKeepsRun | mcu_firmwares/master_firmware/src/main.cpp:324-331 | the FAIL line and the blink touch only their flag, their clock and the output |
| MasterProperties.FailBlinkBlinks | mcu_firmwares/master_firmware/src/main.cpp:328-331 | after 150 ms the blink clock is reset |
| MasterProperties.WaitButtonOutcome | mcu_firmwares/master_firmware/src/main.cpp:178-199 | a press or a pending START begins a fresh run; otherwise the board stays in WAIT_BUTTON |
| MasterProperties.FailOutcome | mcu_firmwares/master_firmware/src/main.cpp:322-351 | a press or a pending START restarts with a fresh run; otherwise the board stays in FAIL |
| MasterProperties.SuccessOutcome | mcu_firmwares/master_firmware/src/main.cpp:316-320 | SUCCESS prints its line and returns to WAIT_BUTTON, keeping the invariant |
| MasterProperties.AllHighOutcome | mcu_firmwares/master_firmware/src/main.cpp:201-223 | ALL_HIGH never fails a run; it moves on exactly when every line is HIGH or the 3 s timeout has passed, and records a pass |
| MasterProperties.AllHighPasses | mcu_firmwares/master_firmware/src/main.cpp:212-216 | every line HIGH: the pass branch |
| MasterProperties.AllHighTimesOut | mcu_firmwares/master_firmware/src/main.cpp:217-222 | a line LOW after the timeout: the error branch |
| MasterProperties.AllHighWaits | mcu_firmwares/master_firmware/src/main.cpp:201-223 | a line LOW before the timeout: only the BEGIN line |
| MasterProperties.AllLowOutcome | mcu_firmwares/master_firmware/src/main.cpp:225-247 | ALL_LOW never fails a run; it moves on exactly when every line is LOW or the 3 s timeout has passed, and records a pass |
| MasterProperties.AllLowPasses | mcu_firmwares/master_firmware/src/main.cpp:236-240 | every line LOW: the pass branch |
| MasterProperties.AllLowTimesOut | mcu_firmwares/master_firmware/src/main.cpp:241-246 | a line HIGH after the timeout: the error branch |
| MasterProperties.AllLowWaits | mcu_firmwares/master_firmware/src/main.cpp:225-247 | a line HIGH before the timeout: only the BEGIN line |
| MasterProperties.TimeoutOnlyFails | mcu_firmwares/master_firmware/src/main.cpp:309-313 | the timeout either leaves the state alone or fails the run, and fails it exactly when more than 15 s have passed; marks and expected line kept |
| MasterProperties.JudgeLast | mcu_firmwares/master_firmware/src/main.cpp:280-287 | the last expected line ends the run in SUCCESS |
| MasterProperties.JudgeNext | mcu_firmwares/master_firmware/src/main.cpp:280-282 | an earlier expected line advances the run by one |
| MasterProperties.JudgeWrong | mcu_firmwares/master_firmware/src/main.cpp:288-300 | any other line fails the run |
| MasterProperties.JudgeOutcome | mcu_firmwares/master_firmware/src/main.cpp:280-300 | the expected line advances the run, and succeeds only as the last line; any other rise fails it |
| MasterProperties.MarkRiseSets | mcu_firmwares/master_firmware/src/main.cpp:275-278 | a rising edge sets its mark and keeps the rest |
| MasterProperties.SequenceSeveral | mcu_firmwares/master_firmware/src/main.cpp:266-271 | several HIGH lines take the FAIL_PINS branch |
| MasterProperties.SequenceSingle | mcu_firmwares/master_firmware/src/main.cpp:273-301 | one HIGH line takes the rise branch |
| MasterProperties.SequenceNone | mcu_firmwares/master_firmware/src/main.cpp:302-307 | no HIGH line clears the marks, then the timeout check |
| MasterProperties.RiseKeepsInv | mcu_firmwares/master_firmware/src/main.cpp:273-301 | a single HIGH line keeps the run invariant; the step stays in SEQUENCE unless it breaks |
| MasterProperties.SequenceKeepsInv | mcu_firmwares/master_firmware/src/main.cpp:249-314 | one step of SEQUENCE keeps the run invariant |
| MasterProperties.HeldLine | mcu_firmwares/master_firmware/src/main.cpp:273-275 | a line already marked and still HIGH alone neither succeeds nor moves the expected line |
| MasterProperties.RisenLine | mcu_firmwares/master_firmware/src/main.cpp:273-300 | a line not yet marked and HIGH alone is judged |
| MasterProperties.NoSingleLine | mcu_firmwares/master_firmware/src/main.cpp:266-313 | without a single HIGH line a step neither succeeds nor advances |
| MasterProperties.SequenceOutcome | mcu_firmwares/master_firmware/src/main.cpp:249-314 | a SEQUENCE step succeeds exactly when the last line rises alone while expected, and the expected line advances exactly when it rises alone |
| MasterProperties.StepPreservesInv | mcu_firmwares/master_firmware/src/main.cpp:154-352 | every call of `loop()` keeps the run invariant |
| MasterProperties.SuccessExactlyOnLastRise | mcu_firmwares/master_firmware/src/main.cpp:280-287 | a run succeeds exactly when the last line rises alone while it is expected |
| MasterProperties.SequenceAdvance | mcu_firmwares/master_firmware/src/main.cpp:280-282 | in SEQUENCE the expected line advances by one exactly when it is the only HIGH line |
| MasterProperties.SeveralHighFail | mcu_firmwares/master_firmware/src/main.cpp:266-271 | two or more HIGH lines fail the run and the last line printed names them |
| MasterProperties.WrongRiseFails | mcu_firmwares/master_firmware/src/main.cpp:288-300 | a line rising alone out of turn fails the run |
| MasterProperties.AllHighMovesOn | mcu_firmwares/master_firmware/src/main.cpp:201-223 | a whole `loop()` call in ALL_HIGH stays or moves to ALL_LOW, exactly on a pass or a timeout |
| MasterProperties.AllLowMovesOn | mcu_firmwares/master_firmware/src/main.cpp:225-247 | a whole `loop()` call in ALL_LOW stays or moves to SEQUENCE, exactly on a pass or a timeout |
| MasterProperties.StartCommandStartsRun | mcu_firmwares/master_firmware/src/main.cpp:158-198 | a START command while idle or failed starts a fresh run on the same call |
| MasterProperties.StartCommandRemembered | mcu_firmwares/master_firmware/src/main.cpp:161-163 | a START command during a run is remembered for later |
| MasterProperties.FlashCommandResetsTwice | mcu_firmwares/master_firmware/src/main.cpp:164-166 | FLASH or DFU prints its notice and two reset lines, and changes nothing else |
| MasterProperties.WordsDiffer | mcu_firmwares/master_firmware/src/main.cpp:161-164 | START is neither FLASH nor DFU, ignoring case |
| MasterProperties.StartAndFlashExclusive | mcu_firmwares/master_firmware/src/main.cpp:161-164 | no command is both START and FLASH/DFU |
| MasterFlags.CommandOut | mcu_firmwares/master_firmware/src/main.cpp:158-167 | a command prints nothing, "START received", or the FLASH notice and two reset lines |
| MasterFlags.PreludeAddsNo | mcu_firmwares/master_firmware/src/main.cpp:154-175 | the command and the button print no line other than those three |
| MasterFlags.AllHighTail | mcu_firmwares/master_firmware/src/main.cpp:201-223 | after its BEGIN line ALL_HIGH prints no other BEGIN line and keeps its flag set; it stays or enters ALL_LOW with that flag clear |
| MasterFlags.AllHighBeginOnce | mcu_firmwares/master_firmware/src/main.cpp:201-223 | ALL_HIGH prints its BEGIN line first when its flag is clear and never when it is set; it enters ALL_LOW with that stage's flag clear |
| MasterFlags.AllLowTail | mcu_firmwares/master_firmware/src/main.cpp:225-247 | after its BEGIN line ALL_LOW prints no other BEGIN line and keeps its flag set; it stays or enters SEQUENCE with that flag clear |
| MasterFlags.AllLowBeginOnce | mcu_firmwares/master_firmware/src/main.cpp:225-247 | ALL_LOW prints its BEGIN line first when its flag is clear and never when it is set; it enters SEQUENCE with that stage's flag clear |
| MasterFlags.TimeoutTail | mcu_firmwares/master_firmware/src/main.cpp:309-313 | the SEQUENCE timeout prints no BEGIN line, keeps the flags, and moves to FAIL exactly after more than 15 s |
| MasterFlags.JudgeTail | mcu_firmwares/master_firmware/src/main.cpp:280-300 | judging a rise prints no SEQUENCE BEGIN line and keeps the flags; a judged rise that ends the stage ends it in SUCCESS or FAIL, any other leaves the state and its start time |
| MasterFlags.RiseTail | mcu_firmwares/master_firmware/src/main.cpp:273-301 | a single HIGH line prints no SEQUENCE BEGIN line and keeps the flags; when it ends the stage it ends it in SUCCESS or FAIL, otherwise the state and its start time are kept |
| MasterFlags.SequenceTail | mcu_firmwares/master_firmware/src/main.cpp:249-314 | after its BEGIN line SEQUENCE prints no other, keeps its flag set, ends in SEQUENCE, FAIL or SUCCESS, and never stays in SEQUENCE past the timeout |
| MasterFlags.SequenceBeginOnce | mcu_firmwares/master_firmware/src/main.cpp:249-314 | SEQUENCE prints its BEGIN line first when its flag is clear and never when it is set |
| MasterFlags.FailOnce | mcu_firmwares/master_firmware/src/main.cpp:322-351 | FAIL prints "Master: FAIL" first when its flag is clear and never when it is set; it stays with the flag set or restarts with the new run's flags clear |
| MasterFlags.WaitButtonEntry | mcu_firmwares/master_firmware/src/main.cpp:178-199 | WAIT_BUTTON stays or enters ALL_HIGH with the new run's flags clear |
| MasterFlags.AllHighStep | mcu_firmwares/master_firmware/src/main.cpp:154-223 | a whole `loop()` call in ALL_HIGH sets its flag, prints no BEGIN line when the flag was set, and stays or enters ALL_LOW with that flag clear |
| MasterFlags.AllLowStep | mcu_firmwares/master_firmware/src/main.cpp:154-247 | a whole `loop()` call in ALL_LOW sets its flag, prints no BEGIN line when the flag was set, and stays or enters SEQUENCE with that flag clear |
| MasterFlags.SequenceStep | mcu_firmwares/master_firmware/src/main.cpp:154-314 | a whole `loop()` call in SEQUENCE sets its flag, prints no BEGIN line when the flag was set, enters FAIL with the FAIL flag as it was, and never stays past the timeout |
| MasterFlags.FailStep | mcu_firmwares/master_firmware/src/main.cpp:154-351 | a whole `loop()` call in FAIL prints no FAIL line when the flag was set, and stays with it set or restarts with the new run's flags clear |
| MasterFlags.WaitButtonStep | mcu_firmwares/master_firmware/src/main.cpp:154-199 | a whole `loop()` call in WAIT_BUTTON stays or enters ALL_HIGH with the new run's flags clear |
| MasterFlags.SuccessStep | mcu_firmwares/master_firmware/src/main.cpp:316-320 | a whole `loop()` call in SUCCESS returns to WAIT_BUTTON |
| MasterFlags.StageEnteredWithFlagClear | mcu_firmwares/master_firmware/src/main.cpp:154-352 | every transition into ALL_HIGH, ALL_LOW, SEQUENCE or FAIL leaves that stage's flag clear, so its line is printed on the stage's first call |
| MasterFlags.BeginNotRepeated | mcu_firmwares/master_firmware/src/main.cpp:154-352 | a call in a stage leaves its flag set, and a call in a stage whose flag is set prints no BEGIN line (in FAIL, no FAIL line) |
| MasterFlags.SequenceTimeoutEndsRun | mcu_firmwares/master_firmware/src/main.cpp:249-314 | the first `loop()` call after more than 15 s in SEQUENCE ends the run in FAIL or SUCCESS |
| MasterProperties.PaddedTrimmed | mcu_firmwares/master_firmware/src/main.cpp:159-160 | `trim()` removes a leading blank and the carriage return |
| MasterProperties.StartWordRecognised | mcu_firmwares/master_firmware/src/main.cpp:161 | "START" is a START command and not a FLASH command |
| MasterProperties.FlashWordRecognised | mcu_firmwares/master_firmware/src/main.cpp:164 | "FLASH" is a FLASH command and not a START command |
| MasterProperties.PaddedStartRecognised | mcu_firmwares/master_firmware/src/main.cpp:159-161 | " start\r" is a START command |
| MasterProperties.DfuRecognised | mcu_firmwares/master_firmware/src/main.cpp:164 | "Dfu" is a FLASH command |
| TargetFirmware.Uniform | mcu_firmwares/target_firmware/src/main.cpp:50-54 | nineteen lines, all at the level |
| TargetFirmware.OnlyAt | mcu_firmwares/target_firmware/src/main.cpp:95-100 | nineteen lines, only line `k` HIGH |
| TargetFirmware.SequenceHolds | mcu_firmwares/target_firmware/src/main.cpp:95-100 | two holds per line, each over all nineteen lines |
| TargetFirmware.Target.constructor | mcu_firmwares/target_firmware/src/main.cpp:17-38 | a board with nineteen test lines and nothing done yet |
| TargetFirmware.Target.SetAll | mcu_firmwares/target_firmware/src/main.cpp:50-54 | every test line at the level |
| TargetFirmware.Target.Println | mcu_firmwares/target_firmware/src/main.cpp:66 | one more line in the trace |
| TargetFirmware.Target.Delay | mcu_firmwares/target_firmware/src/main.cpp:83 | one hold of the current levels |
| TargetFirmware.Target.Prepare | mcu_firmwares/target_firmware/src/main.cpp:66-77 | READY printed, the LED off, every line LOW |
| TargetFirmware.Target.StageAllHigh | mcu_firmwares/target_firmware/src/main.cpp:79-84 | the ALL_HIGH trace: BEGIN, every line HIGH for 1000 ms, OK; the LED on |
| TargetFirmware.Target.StageAllLow | mcu_firmwares/target_firmware/src/main.cpp:86-91 | the ALL_LOW trace: BEGIN, every line LOW for 1000 ms, OK; the LED off |
| TargetFirmware.Target.StageSequence | mcu_firmwares/target_firmware/src/main.cpp:93-101 | the SEQUENCE trace: BEGIN, each line alone HIGH for 150 ms then all LOW for 150 ms, in table order, ALL OK |
| TargetFirmware.Target.Pulse | mcu_firmwares/target_firmware/src/main.cpp:96-99 | one turn of the sequence loop: line `i` alone HIGH, then all LOW |
| TargetFirmware.Target.Setup | mcu_firmwares/target_firmware/src/main.cpp:60-103 | the whole `setup()` trace, ending with every line LOW and the LED off |
| TargetFirmware.Target.Loop | mcu_firmwares/target_firmware/src/main.cpp:108-110 | the IDLE line and nothing else |
| TargetFirmware.SequenceHoldsShape | mcu_firmwares/target_firmware/src/main.cpp:95-100 | hold `2k` has line `k` alone HIGH for 150 ms, and hold `2k+1` has every line LOW for 150 ms |
| TargetFirmware.RisesInTableOrder | mcu_firmwares/target_firmware/src/main.cpp:95-100 | lines go HIGH in table order, and never two at once |
| TargetFirmware.LinesAppend | mcu_firmwares/target_firmware/src/main.cpp:60-110 | the printed lines of two traces are concatenated |
| TargetFirmware.SequenceHoldsSilent | mcu_firmwares/target_firmware/src/main.cpp:95-100 | the sequence loop prints nothing |
| TargetFirmware.SetupLines | mcu_firmwares/target_firmware/src/main.cpp:60-103 | `setup()` prints READY, then BEGIN and OK of ALL_HIGH and ALL_LOW, then SEQUENCE BEGIN and ALL OK, in that order |
| TargetFirmware.AllHighLines | mcu_firmwares/target_firmware/src/main.cpp:80-84 | ALL_HIGH prints BEGIN then OK |
| TargetFirmware.AllLowLines | mcu_firmwares/target_firmware/src/main.cpp:87-91 | ALL_LOW prints BEGIN then OK |
| TargetFirmware.EveryLineNamed | mcu_firmwares/target_firmware/src/main.cpp:66-109 | every line the Target prints starts with "Target" |
| Bench.TablesAligned | mcu_firmwares/target_firmware/src/main.cpp:17-38 | both firmwares list nineteen lines, the same pins from index 1 on; index 0 is the power line, driven on P0_13 and read on P1_07 |
| Bench.TargetLinesAccepted | app/ui.py:1051-1054 | every Target line passes the controller's provenance check on the Target port |
| Bench.Run | mcu_firmwares/master_firmware/src/main.cpp:154-352 | the run invariant holds after any number of `loop()` calls |
| Bench.SequenceLevels | mcu_firmwares/target_firmware/src/main.cpp:95-100 | the levels of the Target's hold `j`: line `j/2` alone HIGH for even `j`, all LOW for odd `j` |
| Bench.QuietStage | mcu_firmwares/master_firmware/src/main.cpp:302-313 | all lines LOW in time: marks cleared, the run goes on |
| Bench.FirstRiseStage | mcu_firmwares/master_firmware/src/main.cpp:273-282 | the expected line rising alone, not the last, in time: marked, and the next line expected |
| Bench.HeldStage | mcu_firmwares/master_firmware/src/main.cpp:273-275 | a marked line still HIGH alone, in time: nothing changes |
| Bench.QuietSample | mcu_firmwares/master_firmware/src/main.cpp:154-313 | the same, for a whole `loop()` call |
| Bench.FirstRise | mcu_firmwares/master_firmware/src/main.cpp:154-282 | the same, for a whole `loop()` call |
| Bench.HeldRise | mcu_firmwares/master_firmware/src/main.cpp:154-275 | the same, for a whole `loop()` call |
| Bench.PhaseStep | mcu_firmwares/master_firmware/src/main.cpp:249-314 | a sample of the same hold, or of the next one, keeps the Master in step with the Target |
| Bench.PhaseQuiet | mcu_firmwares/master_firmware/src/main.cpp:302-307 | an all-LOW hold keeps the Master in step |
| Bench.PhaseRise | mcu_firmwares/master_firmware/src/main.cpp:273-282 | a new single-HIGH hold advances the Master in step |
| Bench.PhaseHeld | mcu_firmwares/master_firmware/src/main.cpp:273-275 | another sample of a single-HIGH hold keeps the Master in step |
| Bench.RunSnoc | mcu_firmwares/master_firmware/src/main.cpp:154 | one more sample is one more `loop()` call |
| Bench.FollowPhases | mcu_firmwares/master_firmware/src/main.cpp:249-314 | samples that follow the Target's holds keep the Master in step, up to the last line's hold |
| Bench.TargetSequencePasses | mcu_firmwares/master_firmware/src/main.cpp:249-314 | fed the Target's sequence stage in time, the Master reports success on its first sample of the last line's hold |
| Bench.InSequenceBeforeLast | mcu_firmwares/master_firmware/src/main.cpp:249-314 | and not before: until then the Master stays in SEQUENCE |
| Bench.PhaseLast | mcu_firmwares/master_firmware/src/main.cpp:280-287 | the first sample of the last line's hold ends the run in SUCCESS |
| Bench.TargetPrechecksPass | mcu_firmwares/master_firmware/src/main.cpp:201-247 | one sample of the Target's all-HIGH hold and one of its all-LOW hold pass both prechecks and bring the Master into SEQUENCE in step with the Target |

## Left out

- Qt itself is not modelled: widgets, colours, style sheets, the pin-out circles, palette lookups, `QSettings` (`_save_ports`, `_load_saved_ports`), `closeEvent` and the logs page. Colours become the enumerations `Stage`, `Button` and `Session`.
- Threads and signals are not modelled. Each handler runs to completion, in the order the events are given. The readers' queue lock and `reader.wait(500)` are left out.
- `flash_nrf.flash_firmware` is not part of this model. Its outcome, success or an exception message, is an input.
- Time is not modelled. `QThread.msleep`, `time.sleep`, deadlines and `time.monotonic` are left out. The polls made before a deadline are given as a finite sequence of port snapshots.
- Flashing.FlashWorker.Run: the firmware path's `os.path` resolution is replaced by the fixed fallback path.
- The import of `flash_nrf` is assumed to succeed.
- UTF-8 decoding with `errors='ignore'` is not modelled: a read yields already-decoded text.
- Only ASCII letters are upper-cased, and only ASCII whitespace is stripped. `\d` matches only ASCII digits, where Python also accepts other Unicode digits.
- Exceptions are modelled only where the source branches on them: an open, read or write failure, a missing pyserial, a failing enumeration, a failing flash. Exceptions swallowed around Qt calls are left out.
- Both firmwares: the LED writes on the Master, the reset line's electrical level, `delay()`, the USB wait in `setup()` and the button-release busy-wait are not modelled. A reset pulse is its printed line.
- One call of `loop()` takes one sample of each test line. The Master reads each line up to three times per call; here the line does not change within a call.
- MasterFirmware.Step: `millis()` is an input. `now` is read at the top of `loop()` and `stamp` is the value `toState` reads. Their 32-bit wrap-around is modelled.
- `Serial.readStringUntil('\n')` is modelled as delivering one whole command. Its one-second timeout and partial reads are left out. `Serial.print` followed by `println` is one line.
- TargetFirmware.Target.SetAll: the transient while `setAll` has switched only some lines is not a hold. It lasts no longer than the loop and no `delay` falls inside it.
- TargetFirmware.Target.Prepare: the test lines' level before `setup()` drives them is taken as LOW.
- Bench.TargetPrechecksPass: it takes one sample per precheck hold. Several samples of one hold, or samples taken before the Target drives its lines, are not covered.
- Bench.TargetSequencePasses: it assumes every sample falls inside the 15 s SEQUENCE window and that the Master samples every hold at least once. The Target's 38 holds of 150 ms take 5.7 s.
- Protocol.OnFlashWorkerDone: the readers' restart is a flag in the pure model; `Window.MainWindow.OnFlashWorkerDone` models the readers themselves.
- `refresh_ports_for` and `attach_auto_refresh` are modelled only as `GetPortsList` feeding `SelectDevice`.
- `_list_ports` and `_wait_for_new_port` of the window duplicate the worker's code and are not used by the modelled handlers; the before-snapshot is an input.
- `on_flash` and `on_flash_and_run` catch any exception and log it. Here the handlers do not raise.
- Window.MainWindow.OnFlashAndRun: it follows the corrected `Protocol.OnFlashAndRun`, which clears `_await_target_ready` where `on_flash_and_run` (app/ui.py:940-975) does not; the as-written handler is `Protocol.OnFlashAndRunAsWritten` (see Findings).
- Window.MainWindow.BeginFlashRun: it clears the readiness wait as the corrected handler does; app/ui.py:944-955 leaves it as it was.
- Protocol.OnFlashAndRun: the corrected handler; it differs from the as-written `Protocol.OnFlashAndRunAsWritten` only in the cleared wait, as `Protocol.CorrectionOnlyClearsReadiness` proves.
- Protocol.Apply: a Flash&Run click event goes through the corrected handler, so event traces replay the corrected window, not the one app/ui.py:940-975 builds.
- Protocol.FlashRunStartsOnTargetLine: it is stated for the corrected handler; `Protocol.FlashRunStartsOnTargetLineAsWritten` states the same for the as-written one.
- Protocol.Retarget: a change of the Target selection during the refresh (app/ui.py:711) fires `currentTextChanged`, which app/ui.py:695-696 wires to `restart_readers`, while `refresh_ports_for` (app/com_ports.py:34-35) repopulates the combo; that re-entry is not modelled, and in the source it can flag both selectors while the lists are half refilled.

## Findings

| source | as written | input that shows it | evidently intended | confidence | as-written member | corrected member |
|---|---|---|---|---|---|---|
| app/ui.py:940-975 | `on_flash_and_run` does not clear `_await_target_ready`, although `on_flash` clears it (line 874) | Flash&Run, worker done with the Target silent, Flash&Run again, then any Target line before the second worker reports: the test starts and START goes to the Master while the Target is being flashed | only a Target line after this run's own flash starts the test, so the flag is cleared on the click | not executed | Protocol.StaleReadinessStartsDuringFlash | Protocol.FreshReadinessWaitsForFlash |
