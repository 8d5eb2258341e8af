# HVAC serial control panel — verified model of the control core

The application drives an air-conditioning test rig over a serial port. It
polls two banks of temperature/humidity sensors (the six AIRCON sensors and
the twelve DSCT sensors) and an air-quality sensor (PT02: CO2, PM2.5,
temperature, humidity). It switches fans and dampers from a manual tab and
runs an automatic mode with temperature, CO2 and PM2.5 setpoints. It keeps
its readings in CSV files, which it prunes. This project models the managers
that hold that logic and proves what they promise:

- `command_queue.dfy` — the three-band priority command queue with its pause
  gate, minimum spacing, bounded retries and counters.
- `sensor_scheduler.dfy` — the polling state machine (IDLE → AIRCON → DSCT →
  INTERVAL_WAITING → IDLE, plus PAUSED) with its response timeout, cycle
  interval and rate-limited health check.
- `sensor_lines.dfy`, `sensor_table.dfy`, `air_sensor_manager.dfy`,
  `sensor_manager.dfy` — the three line formats of the AIRCON and DSCT
  sensors and the per-sensor status tables they update.
- `pt02_sensor_manager.dfy` — the two PT02 line formats, the latest record,
  the save counter, the rotating CSV file name and the pruning of old files.
- `auto_manager.dfy` — the AUTO tab: clamped setpoints, the four-command
  SAVE sequence, GETSET replies and the PT02 display.
- `button_state.dfy`, `button_manager.dfy`, `speed_manager.dfy` — the manual
  tab's on/off button groups and the two 0..10 fan-speed controls they gate.
- `config_manager.dfy` — the JSON settings and their refresh intervals.
- `csv_cleaner.dfy` — the count, age and size retention rules.
- `common.dfy` (Python-like text and number helpers), `serial_link.dfy` (the
  shared serial object), `data_directory.dfy` (a directory as a list of
  name/mtime/size records) — support for the above.

Each stateful manager is a class whose methods are proved against pure
transition functions of the old state (`View() == F(old(View()), …)`). The
properties the source promises are proved about those functions as lemmas.

Time is a `real` number of seconds passed in by the caller. Signals and
callbacks are an event log. The serial port is an object with `connected`
and `healthy` flags, a log of `send_serial_command` calls and a log of raw
writes. The outcome of a send, a file removal or a file write is a
parameter.

Some behaviours of the source are surprising; the model keeps each as written
and states it in a lemma:

- A completion signal that arrives while the scheduler is paused starts the
  next request anyway. After its timeout the scheduler sits in
  INTERVAL_WAITING with the main timer stopped, where `resume_scheduling`
  cannot reach it (`SensorScheduler.CompletionWhilePausedStrands`).
- `parse_getset_response` stores a TEMPSET value before it reads the
  hysteresis, so a reply with a bad hysteresis changes the value and still
  returns False (`AutoMode.TempValueStoredBeforeRefusal`).
- Raising the SEMI time from 9990 stops at 9999, and lowering it then gives
  9989, off the 10-second grid (`AutoMode.PressTimeCeiling`).
- `cleanup_by_count` with `max_files = 0` deletes nothing, and with a
  negative value deletes the oldest files (`CsvCleaner.CountPicksOldest`,
  `CsvCleaner.CountNegative`).
- The settings' `refresh_intervals` object is the defaults' object (shallow
  copies), so `reset_to_defaults` brings back the last saved intervals, not
  5 s (`Config.ResetKeepsSavedInterval`).
- A JSON `true` is a valid refresh interval of 1 s, since Python's `bool` is
  an `int` (`Config.IsValidInterval`).

## Model

| member | source | states |
|---|---|---|
| CommandQueue.InitialValid | managers/command_queue_manager.py:37-64 | the queue starts empty, well formed, with a 50 ms minimum spacing |
| CommandQueue.NewCommand | managers/command_queue_manager.py:20-27 | a new command has retry_count 0, max_retries 3 and belongs in its priority's band |
| CommandQueue.Add | managers/command_queue_manager.py:71-92 | add_command appends to the back of exactly its own band, other bands unchanged, size +1, a status signal, well-formedness kept |
| CommandQueue.Clear | managers/command_queue_manager.py:98-113 | clear_queue empties the given band (all bands for None), leaves the others, signals the new size |
| CommandQueue.Next | managers/command_queue_manager.py:137-147 | _get_next_command returns None exactly when all bands are empty, else the head of the highest non-empty band, removed FIFO |
| CommandQueue.Failure | managers/command_queue_manager.py:173-199 | a failed attempt counts a retry; with retries left HIGH goes back to the front, others to the back; otherwise the callback gets False and total_failed +1 |
| CommandQueue.Send | managers/command_queue_manager.py:149-171 | an accepted send counts total_sent +1 and calls back True once; a refusal or exception goes to the failure handler with its error text |
| CommandQueue.Tick | managers/command_queue_manager.py:115-135 | _process_queue changes nothing when paused, busy, disconnected, too soon or empty; otherwise takes at most one command and stamps last_command_time |
| CommandQueue.DispatchesHead | managers/command_queue_manager.py:115-153 | when the gate is open and a command is waiting, the port receives exactly the head of the highest-priority non-empty band, the other bands are unchanged and last_command_time becomes the tick time |
| CommandQueue.WithInterval | managers/command_queue_manager.py:218-221 | set_command_interval clamps to [0.01, 1.0] s and keeps an in-range value |
| CommandQueue.HighRetries | managers/command_queue_manager.py:115-199 | a HIGH head whose sends keep failing stays at the front with its count rising, until its last retry removes it with one failure report |
| CommandQueue.HeadFails | managers/command_queue_manager.py:115-199 | one failing send of a HIGH head puts it back at the front with one more attempt counted, or on its last retry drops it with one failure report; nothing else in the queues changes |
| CommandQueue.UrgentCommandTriedThreeTimes | managers/command_queue_manager.py:94-96 | an urgent command that is always refused is attempted exactly three times, then reported failed once |
| CommandQueue.NormalRetryGoesToBack | managers/command_queue_manager.py:180-187 | a refused NORMAL command with retries left goes to the back of its band |
| CommandQueue.SentCommandLeaves | managers/command_queue_manager.py:153-165 | a successful send removes the command for good, counts it and calls back once |
| CommandQueue.CommandQueueManager.constructor | managers/command_queue_manager.py:37-64 | the manager starts in the initial queue state |
| CommandQueue.CommandQueueManager.SetSerialManager | managers/command_queue_manager.py:66-69 | the serial manager is replaced |
| CommandQueue.CommandQueueManager.UpdateQueueStatus | managers/command_queue_manager.py:201-204 | emits the current total size |
| CommandQueue.CommandQueueManager.AddCommand | managers/command_queue_manager.py:71-92 | returns True and the state becomes Add of the old state |
| CommandQueue.CommandQueueManager.AddUrgentCommand | managers/command_queue_manager.py:94-96 | adds with HIGH priority |
| CommandQueue.CommandQueueManager.ClearQueue | managers/command_queue_manager.py:98-113 | the state becomes Clear of the old state |
| CommandQueue.CommandQueueManager.ProcessQueue | managers/command_queue_manager.py:115-153 | the state becomes Tick of the old state, with the link's connected flag; the serial link receives the payload of the command taken (nothing when the gate is closed or the queue empty) and its connection flags are unchanged |
| CommandQueue.CommandQueueManager.GetNextCommand | managers/command_queue_manager.py:137-147 | result and state are Next of the old state |
| CommandQueue.CommandQueueManager.SendCommand | managers/command_queue_manager.py:149-171 | every attempt hands the payload to send_serial_command (when a link is set), then the state becomes Send of the old state |
| CommandQueue.CommandQueueManager.HandleSendFailure | managers/command_queue_manager.py:173-199 | the state becomes Failure of the old state |
| CommandQueue.CommandQueueManager.GetQueueInfo | managers/command_queue_manager.py:206-216 | the three band sizes add up to the queue size; the counters and busy flag are reported |
| CommandQueue.CommandQueueManager.SetCommandInterval | managers/command_queue_manager.py:218-221 | the state becomes WithInterval of the old state |
| CommandQueue.CommandQueueManager.PauseQueue | managers/command_queue_manager.py:223-226 | the queue is paused |
| CommandQueue.CommandQueueManager.ResumeQueue | managers/command_queue_manager.py:228-230 | the queue is resumed |
| SensorScheduler.InitialValid | managers/sensor_scheduler.py:29-64 | the scheduler starts well formed with a 5 s cycle |
| SensorScheduler.Enter | managers/sensor_scheduler.py:152-158 | _set_state sets the state and signals only when it differs |
| SensorScheduler.Start | managers/sensor_scheduler.py:94-109 | start_scheduling does nothing when running or unhealthy; otherwise running, IDLE, main timer on |
| SensorScheduler.Stop | managers/sensor_scheduler.py:111-118 | stop_scheduling stops both timers and leaves PAUSED, not running |
| SensorScheduler.Pause | managers/sensor_scheduler.py:120-126 | pause_scheduling acts only while running: PAUSED, both timers stopped |
| SensorScheduler.Resume | managers/sensor_scheduler.py:128-133 | resume_scheduling returns to IDLE only when running and PAUSED |
| SensorScheduler.WithCycleInterval | managers/sensor_scheduler.py:147-150 | set_cycle_interval clamps to [1, 360] s and keeps an in-range value |
| SensorScheduler.StartDsct | managers/sensor_scheduler.py:229-248 | without a DSCT manager goes to INTERVAL_WAITING; otherwise requests and waits with the timeout armed for 10 s |
| SensorScheduler.ToDsct | managers/sensor_scheduler.py:250-255 | _move_to_dsct starts DSCT when enabled, else INTERVAL_WAITING |
| SensorScheduler.StartAircon | managers/sensor_scheduler.py:212-227 | without an AIRCON manager falls through to DSCT; otherwise requests and waits with the timeout armed |
| SensorScheduler.Request | managers/sensor_scheduler.py:212-248 | a request enters REQUESTING, records its start, arms the 10 s timeout, asks that group's manager and enters WAITING; nothing else changes |
| SensorScheduler.Dispatch | managers/sensor_scheduler.py:175-210 | after the health check a pause order pauses with both timers stopped; waiting and PAUSED states are left as they are |
| SensorScheduler.TickPauses | managers/sensor_scheduler.py:167-173 | a due health check on an unhealthy link records the check time and pauses |
| SensorScheduler.Tick | managers/sensor_scheduler.py:160-210 | a tick is delivered only while the main timer runs; it does nothing unless running, runs the health check at most every 5 s and pauses on an unhealthy link, leaves waiting states alone |
| SensorScheduler.Timeout | managers/sensor_scheduler.py:257-267 | fires only while the timer is armed and no earlier than its deadline; a timeout in AIRCON_WAITING moves on to DSCT, in DSCT_WAITING to INTERVAL_WAITING, elsewhere changes nothing but the timer |
| SensorScheduler.AirconDone | managers/sensor_scheduler.py:273-279 | an AIRCON completion forwards the data and moves on to DSCT or INTERVAL_WAITING |
| SensorScheduler.DsctDone | managers/sensor_scheduler.py:285-291 | a DSCT completion stops the timeout and enters INTERVAL_WAITING |
| SensorScheduler.IdleTick | managers/sensor_scheduler.py:175-188 | in IDLE nothing happens before the cycle interval; after it AIRCON, else DSCT, else INTERVAL_WAITING |
| SensorScheduler.IntervalTick | managers/sensor_scheduler.py:206-210 | a tick in INTERVAL_WAITING stamps the cycle time and returns to IDLE |
| SensorScheduler.TimeoutsEndWaiting | managers/sensor_scheduler.py:223-267 | a timer firing at or after the deadline of a waiting state either ends the wait in INTERVAL_WAITING, or starts DSCT with a fresh deadline response_timeout later whose firing ends it with no timer armed |
| SensorScheduler.WaitOverByDeadline | managers/sensor_scheduler.py:223-267 | a waiting state reaches INTERVAL_WAITING when its timer fires at the deadline, or at the latest when the DSCT timer it starts fires response_timeout after that |
| SensorScheduler.FullCycle | managers/sensor_scheduler.py:160-291 | one full cycle with both banks answering emits exactly the expected state changes, requests and forwards and returns to IDLE |
| SensorScheduler.CycleStarts | managers/sensor_scheduler.py:175-227 | a tick in IDLE after the interval requests the AIRCON data: REQUESTING, the request, WAITING |
| SensorScheduler.AirconHandsOver | managers/sensor_scheduler.py:273-279 | the AIRCON data arriving forwards it and starts the DSCT request |
| SensorScheduler.DsctFinishes | managers/sensor_scheduler.py:285-291 | the DSCT data arriving forwards it and enters INTERVAL_WAITING |
| SensorScheduler.IntervalEnds | managers/sensor_scheduler.py:206-210 | the next tick in INTERVAL_WAITING stamps the cycle time and returns to IDLE with one state change |
| SensorScheduler.CompletionWhilePausedStrands | managers/sensor_scheduler.py:128-133 | a completion while PAUSED followed by the timeout firing response_timeout later leaves the scheduler in INTERVAL_WAITING with no main timer, where resume does nothing |
| SensorScheduler.HealthCheckRateLimited | managers/sensor_scheduler.py:167-173 | after a health check the next one is not due for 5 s |
| SensorScheduler.SensorScheduler.constructor | managers/sensor_scheduler.py:29-64 | the scheduler starts in the initial state |
| SensorScheduler.SensorScheduler.SetSensorManagers | managers/sensor_scheduler.py:66-80 | records which sensor managers exist |
| SensorScheduler.SensorScheduler.SetSerialManager | managers/sensor_scheduler.py:82-84 | the scheduler's serial manager is replaced |
| SensorScheduler.SensorScheduler.SetState | managers/sensor_scheduler.py:152-158 | the state becomes Enter of the old state |
| SensorScheduler.SensorScheduler.StartScheduling | managers/sensor_scheduler.py:94-109 | the state becomes Start of the old state and link health |
| SensorScheduler.SensorScheduler.StopScheduling | managers/sensor_scheduler.py:111-118 | the state becomes Stop of the old state |
| SensorScheduler.SensorScheduler.PauseScheduling | managers/sensor_scheduler.py:120-126 | the state becomes Pause of the old state |
| SensorScheduler.SensorScheduler.ResumeScheduling | managers/sensor_scheduler.py:128-133 | the state becomes Resume of the old state |
| SensorScheduler.SensorScheduler.ManualRequest | managers/sensor_scheduler.py:135-145 | a manual request is issued only when that sensor manager exists |
| SensorScheduler.SensorScheduler.SetCycleInterval | managers/sensor_scheduler.py:147-150 | the state becomes WithCycleInterval of the old state |
| SensorScheduler.SensorScheduler.ProcessStateMachine | managers/sensor_scheduler.py:160-210 | called only on the main timer's expiry (while it runs); the state becomes Tick of the old state |
| SensorScheduler.SensorScheduler.Advance | managers/sensor_scheduler.py:175-210 | the state becomes Dispatch of the old state with no pause |
| SensorScheduler.SensorScheduler.StartAirconRequest | managers/sensor_scheduler.py:212-227 | the state becomes StartAircon of the old state |
| SensorScheduler.SensorScheduler.StartDsctRequest | managers/sensor_scheduler.py:229-248 | the state becomes StartDsct of the old state |
| SensorScheduler.SensorScheduler.RequestSensors | managers/sensor_scheduler.py:212-248 | the state becomes Request of the old state |
| SensorScheduler.SensorScheduler.MoveToDsct | managers/sensor_scheduler.py:250-255 | the state becomes ToDsct of the old state |
| SensorScheduler.SensorScheduler.HandleTimeout | managers/sensor_scheduler.py:257-267 | called only while the timer is armed and its deadline has passed; the state becomes Timeout of the old state |
| SensorScheduler.SensorScheduler.OnAirconAllUpdated | managers/sensor_scheduler.py:273-279 | the state becomes AirconDone of the old state |
| SensorScheduler.SensorScheduler.OnDsctAllUpdated | managers/sensor_scheduler.py:285-291 | the state becomes DsctDone of the old state |
| SensorLines.Classify | managers/air_sensor_manager.py:32-34 | a line is a data line exactly when the data pattern matches, else a timeout line, else a scan-complete line, else other |
| SensorLines.DataLineRoundTrip | managers/air_sensor_manager.py:32 | a data line built from an ID and two numbers is recognised with those three parts |
| SensorLines.TimeoutLineRoundTrip | managers/air_sensor_manager.py:33 | a TIMEOUT line for an ID is recognised as a timeout for that ID |
| SensorLines.ScanLineRoundTrip | managers/air_sensor_manager.py:34 | a SEQUENTIAL SCAN COMPLETE line with its four counts is recognised as scan complete |
| SensorTable.SensorId | managers/air_sensor_manager.py:21-22 | f"ID{i:02d}" is a two-digit sensor ID |
| SensorTable.SensorIdInjective | managers/air_sensor_manager.py:21-22 | distinct indices give distinct IDs |
| SensorTable.InitialSize | managers/air_sensor_manager.py:20-29 | the initial table has exactly n entries |
| SensorTable.BuildInitial | managers/sensor_manager.py:21-29 | the loop fills exactly ID01..IDn with blank entries |
| SensorTable.Step | managers/air_sensor_manager.py:93-169 | outside a scan or on other lines nothing changes; only data lines can raise; with the ID filter the key set never changes |
| SensorTable.Reset | managers/air_sensor_manager.py:271-279 | reset_all_sensors keeps the keys and blanks every entry |
| SensorTable.DataLineStores | managers/air_sensor_manager.py:102-126 | a data line during a scan stores the two values as active and signals the update |
| SensorTable.BadNumberRaises | managers/air_sensor_manager.py:105-106 | a data line whose number float() rejects raises |
| SensorTable.TimeoutLineMarks | managers/air_sensor_manager.py:129-148 | a TIMEOUT line marks that sensor timed out with no values |
| SensorTable.ScanLineEndsScan | managers/air_sensor_manager.py:151-163 | a scan-complete line ends the scan, keeps every entry and signals the table |
| SensorTable.FilteredKeysStable | managers/air_sensor_manager.py:108-148 | with the ID filter, any sequence of lines leaves the key set unchanged |
| AirSensors.UnlistedIdIgnored | managers/air_sensor_manager.py:108-126 | a data line for ID07..ID99 leaves the AIRCON table unchanged |
| AirSensors.AirSensorManager.constructor | managers/air_sensor_manager.py:15-52 | the table is ID01..ID06, all blank, not scanning |
| AirSensors.AirSensorManager.SetSerialManager | managers/air_sensor_manager.py:54-58 | the serial manager is replaced |
| AirSensors.AirSensorManager.RequestSensorData | managers/air_sensor_manager.py:78-91 | sends $CMD,AIR,TH and starts the scan only on a healthy link, otherwise changes nothing |
| AirSensors.AirSensorManager.ParseSensorData | managers/air_sensor_manager.py:93-169 | the state becomes Step of the classified line with the ID filter, or stays and raises |
| AirSensors.AirSensorManager.GetSensorData | managers/air_sensor_manager.py:263-265 | the entry for an ID, None when absent |
| AirSensors.AirSensorManager.GetAllSensorData | managers/air_sensor_manager.py:267-269 | the whole table |
| AirSensors.AirSensorManager.ResetAllSensors | managers/air_sensor_manager.py:271-279 | the table becomes Reset of the old one and is signalled |
| DsctSensors.UnlistedIdAdded | managers/sensor_manager.py:93-111 | a data line for ID13..ID99 adds a new key to the DSCT table |
| DsctSensors.SensorManager.constructor | managers/sensor_manager.py:15-52 | the table is ID01..ID12, all blank; auto refresh off at 5000 ms |
| DsctSensors.SensorManager.SetSerialManager | managers/sensor_manager.py:54-56 | the serial manager is replaced |
| DsctSensors.SensorManager.StartAutoRefresh | managers/sensor_manager.py:58-62 | on a healthy link marks auto refresh on and requests data |
| DsctSensors.SensorManager.StopAutoRefresh | managers/sensor_manager.py:64-66 | auto refresh off |
| DsctSensors.SensorManager.SetRefreshInterval | managers/sensor_manager.py:68-74 | stores seconds × 1000 ms |
| DsctSensors.SensorManager.RequestSensorData | managers/sensor_manager.py:76-85 | sends $CMD,DSCT,TH and starts the scan only on a healthy link |
| DsctSensors.SensorManager.ParseSensorData | managers/sensor_manager.py:87-134 | the state becomes Step of the classified line without the ID filter, or stays and raises |
| DsctSensors.SensorManager.GetSensorData | managers/sensor_manager.py:228-230 | the entry for an ID, None when absent |
| DsctSensors.SensorManager.GetAllSensorData | managers/sensor_manager.py:232-234 | the whole table |
| DsctSensors.SensorManager.ResetAllSensors | managers/sensor_manager.py:236-244 | the table becomes Reset of the old one and is signalled |
| Pt02Sensors.Pt02LineFields | managers/pt02_sensor_manager.py:199-235 | a line starting "PT02 " is dispatched to the PT02 format and read field by field |
| Pt02Sensors.AirconLineFields | managers/pt02_sensor_manager.py:204-259 | a line with "[AIRCON]" is dispatched to the legacy format and read field by field |
| Pt02Sensors.ReadPt02Spelled | managers/pt02_sensor_manager.py:222-259 | three well-spelled fields read as co2, pm25, temp (the legacy format divides temp by 10) with no humidity |
| Pt02Sensors.ReadPt02Humidity | managers/pt02_sensor_manager.py:228-235 | a fourth field is the humidity, and a bad one rejects the line |
| Pt02Sensors.Pt02LineRoundTrip | managers/pt02_sensor_manager.py:212-235 | a PT02 line of four fields reads back as its sample with humidity |
| Pt02Sensors.Pt02LineNoHumidity | managers/pt02_sensor_manager.py:212-235 | a PT02 line of three fields reads back with humidity None |
| Pt02Sensors.Pt02LineTooShort | managers/pt02_sensor_manager.py:222-224 | a PT02 line with fewer than three fields is rejected |
| Pt02Sensors.AirconLineRoundTrip | managers/pt02_sensor_manager.py:237-259 | a legacy line reads back with temp divided by 10 and no humidity |
| Pt02Sensors.IntegersRoundTrip | managers/pt02_sensor_manager.py:212-235 | integers printed into a PT02 line read back unchanged |
| Pt02Sensors.NextCount | managers/pt02_sensor_manager.py:105-108 | save_count stays below 50 and returns to 0 exactly when cleanup is due |
| Pt02Sensors.SaveCycle | managers/pt02_sensor_manager.py:105-108 | after n saves the count is n mod 50 and cleanup has run n div 50 times |
| Pt02Sensors.Pt02Pattern | managers/pt02_sensor_manager.py:163 | the glob PT02_*.csv matches exactly names with that prefix and suffix |
| Pt02Sensors.PruneCount | managers/pt02_sensor_manager.py:168-170 | the number of files to delete leaves min(n, max_files) |
| Pt02Sensors.PruneStop | managers/pt02_sensor_manager.py:172-181 | deletion stops at the first file that cannot be removed |
| Pt02Sensors.StoppedPrune | managers/pt02_sensor_manager.py:159-183 | the names removed up to the first refusal are the prune's deleted list, and the directory keeps exactly the rest |
| Pt02Sensors.PruneOldest | managers/pt02_sensor_manager.py:159-183 | the deleted files are the oldest by mtime, in deletion order, leaving max_files |
| Pt02Sensors.PruneOnlyPt02 | managers/pt02_sensor_manager.py:159-183 | only removable PT02 files are deleted, each once; other files stay |
| Pt02Sensors.PruneKeepsNewest | managers/pt02_sensor_manager.py:159-183 | after pruning the PT02 files left are exactly the newest max_files |
| Pt02Sensors.FileNamePruned | managers/pt02_sensor_manager.py:57-78 | every name the rotation picks is a PT02_*.csv name |
| Pt02Sensors.FileNameInjective | managers/pt02_sensor_manager.py:62-66 | distinct indices give distinct file names |
| Pt02Sensors.FileNameMark | managers/pt02_sensor_manager.py:62-66 | index 0 is PT02_<date>.csv, later indices carry _NNN |
| Pt02Sensors.TriedSize | managers/pt02_sensor_manager.py:57-78 | k tried indices name k distinct files |
| Pt02Sensors.TriedBound | managers/pt02_sensor_manager.py:57-78 | the number of full files bounds how many indices are skipped |
| Pt02Sensors.LeastUsable | managers/pt02_sensor_manager.py:57-78 | the chosen index is the first whose file is absent or under 10 MB |
| Pt02Sensors.CsvNameChoice | managers/pt02_sensor_manager.py:51-78 | _get_csv_filename returns the first usable name and every earlier one is full |
| Pt02Sensors.RowAppended | managers/pt02_sensor_manager.py:118-146 | appending a row writes the header to a new file and grows the file by the row |
| Pt02Sensors.SaveRecords | managers/pt02_sensor_manager.py:80-116 | save_sensor_data replaces the record with the sample as active and signals it |
| Pt02Sensors.ReceiveRefused | managers/pt02_sensor_manager.py:185-210 | an unparsable line changes nothing |
| Pt02Sensors.LeastUsableIs | managers/pt02_sensor_manager.py:57-78 | the least usable index is the first one that is not full |
| Pt02Sensors.PT02SensorManager.constructor | managers/pt02_sensor_manager.py:15-49 | the record starts unknown, logging on, count 0, directory created |
| Pt02Sensors.PT02SensorManager.GetCsvFilename | managers/pt02_sensor_manager.py:51-78 | returns CsvName of the directory |
| Pt02Sensors.PT02SensorManager.SaveToCsv | managers/pt02_sensor_manager.py:118-146 | the directory becomes Logged of the old one |
| Pt02Sensors.PT02SensorManager.CleanupPt02Files | managers/pt02_sensor_manager.py:159-183 | returns PruneDeleted and the directory becomes Pruned |
| Pt02Sensors.PT02SensorManager.CleanupOldCsvFiles | managers/pt02_sensor_manager.py:148-157 | prunes to 30 files |
| Pt02Sensors.PT02SensorManager.SaveSensorData | managers/pt02_sensor_manager.py:80-116 | the state becomes Save of the old state |
| Pt02Sensors.PT02SensorManager.CountSave | managers/pt02_sensor_manager.py:105-108 | each save counts one more; the 50th restarts the counter at 0 and prunes the PT02 files to 30 |
| Pt02Sensors.PT02SensorManager.ParsePt02Response | managers/pt02_sensor_manager.py:185-210 | returns whether the line parsed and the state becomes Receive of the old state |
| Pt02Sensors.PT02SensorManager.GetSensorData | managers/pt02_sensor_manager.py:282-284 | the current record |
| Pt02Sensors.PT02SensorManager.GetLatestValues | managers/pt02_sensor_manager.py:286-292 | temp, co2 and pm25 of the record |
| Pt02Sensors.PT02SensorManager.ResetSensorData | managers/pt02_sensor_manager.py:294-303 | the record becomes unknown with no humidity key |
| Pt02Sensors.PT02SensorManager.EnableCsvLogging | managers/pt02_sensor_manager.py:305-308 | the logging flag is set |
| Pt02Sensors.PT02SensorManager.GetCsvFileInfo | managers/pt02_sensor_manager.py:310-329 | the current file name with its size and mtime, or 0 and None when absent |
| AutoMode.AdjustedInRange | managers/auto_manager.py:244-268 | _adjust_value leaves the setting in [min, max], moves it by exactly delta when not clamped, and changes no other setting |
| AutoMode.AdjustedFrame | managers/auto_manager.py:244-268 | an adjustment changes no setting but the one it is for, and not the SEMI time |
| AutoMode.DefaultsInRanges | managers/auto_manager.py:20-36 | the initial setpoints lie in the configured ranges |
| AutoMode.ClampOnTenths | managers/auto_manager.py:88-90 | half-degree steps clamped to 18..35 or 0.5..5 stay on the 0.1 grid |
| AutoMode.PressKeepsRanges | managers/auto_manager.py:85-96 | every setting button keeps all setpoints in their ranges |
| AutoMode.PressInKnob | managers/auto_manager.py:191-210 | a press leaves the pressed setting inside its buttons' range |
| AutoMode.KnobsKept | managers/auto_manager.py:191-210 | a press keeps every setting inside its buttons' range and leaves the SEMI time alone |
| AutoMode.PressOnTenths | managers/auto_manager.py:191-210 | a press keeps both temperatures on the 0.1-degree grid |
| AutoMode.PressTimeKeepsRanges | managers/auto_manager.py:212-223 | the time buttons keep semi_time in [10, 9999] |
| AutoMode.PressTimeTens | managers/auto_manager.py:219-223 | below the ceiling the time buttons move by 10 and stay on the 10-second grid |
| AutoMode.PressTimeCeiling | managers/auto_manager.py:270-273 | from 9990 up gives 9999 and down again gives 9989 |
| AutoMode.Wire | managers/auto_manager.py:60-70 | what reaches the port: each command plus \r when connected, nothing otherwise |
| AutoMode.WireConcat | managers/auto_manager.py:315-326 | sending two consecutive stretches of the save queue puts on the wire what sending the whole stretch does |
| AutoMode.CommandFields | managers/auto_manager.py:290-305 | a $CMD command splits back into its fields |
| AutoMode.SaveCommandsRead | managers/auto_manager.py:286-313 | handle_save builds exactly four commands TEMPSET, CO2SET, PM25SET, SEMITIME with the current setpoints |
| AutoMode.GetsetTouchesOnlyItsTag | managers/auto_manager.py:414-460 | a reply changes only the settings of its tag, too few fields change nothing, and no known tag means False and no change |
| AutoMode.GetsetCo2 | managers/auto_manager.py:430-438 | a CO2SET line with two integers sets exactly the CO2 value and hysteresis and returns True |
| AutoMode.GetsetPm25 | managers/auto_manager.py:439-447 | a PM25SET line with two integers sets exactly the PM2.5 value and hysteresis and returns True |
| AutoMode.GetsetTempHalf | managers/auto_manager.py:419-423 | a TEMPSET line whose second number float() refuses stores the first divided by 10 and returns False |
| AutoMode.GetsetTemps | managers/auto_manager.py:419-427 | a TEMPSET line with two numbers float() accepts sets both temperatures to a tenth of them and returns True |
| AutoMode.GetsetTime | managers/auto_manager.py:448-454 | a SEMITIME line with an integer, and no earlier tag, sets semi_time and returns True |
| AutoMode.ReplyParts | managers/auto_manager.py:420 | a reply line splits on commas into AIRCON and its fields |
| AutoMode.ReplyMarker | managers/auto_manager.py:419-447 | a reply matches exactly the tag it carries |
| AutoMode.ReadTempReply | managers/auto_manager.py:419-429 | a TEMPSET reply sets both temperatures to its values divided by 10 |
| AutoMode.ReadCo2Reply | managers/auto_manager.py:430-438 | a CO2SET reply sets the CO2 value and hysteresis |
| AutoMode.ReadPm25Reply | managers/auto_manager.py:439-447 | a PM25SET reply sets the PM2.5 value and hysteresis |
| AutoMode.ReadTimeReply | managers/auto_manager.py:448-454 | a SEMITIME reply sets semi_time |
| AutoMode.TenthsRoundTrip | managers/auto_manager.py:294-297 | int(t × 10) / 10 gives back a temperature on the 0.1 grid |
| AutoMode.SaveThenGetset | managers/auto_manager.py:286-460 | replying with the four saved commands' fields restores every setpoint, and each reply is accepted |
| AutoMode.TempPayload | managers/auto_manager.py:286-313 | the first SAVE payload carries both temperatures in tenths |
| AutoMode.TempsRestored | managers/auto_manager.py:419-427 | a TEMPSET reply whose tenths stand for v and h sets exactly those two and returns True |
| AutoMode.SavedTemps | managers/auto_manager.py:286-460 | the first SAVE payload, echoed as a reply, restores both temperatures |
| AutoMode.SavedCounts | managers/auto_manager.py:286-460 | the second and third SAVE payloads, echoed, restore the CO2 and PM2.5 pairs |
| AutoMode.SavedTime | managers/auto_manager.py:286-460 | the last SAVE payload, echoed, restores the SEMI time |
| AutoMode.TempValueStoredBeforeRefusal | managers/auto_manager.py:419-429 | a TEMPSET reply with a bad hysteresis stores the value and returns False |
| AutoMode.AirconReading | managers/auto_manager.py:385-412 | a reading comes only from a line with [AIRCON] and has no humidity |
| AutoMode.AirconReadingAgrees | managers/auto_manager.py:385-412 | the AUTO tab reads a legacy line as the PT02 manager does |
| AutoMode.AutoModeManager.constructor | managers/auto_manager.py:11-49 | default setpoints, auto mode off, empty save queue |
| AutoMode.AutoModeManager.SendCommand | managers/auto_manager.py:60-70 | returns whether connected and writes the command with \r only then |
| AutoMode.AutoModeManager.ToggleAutoMode | managers/auto_manager.py:123-142 | flips the flag and sends AUTOMODE ON or OFF for the new value |
| AutoMode.AutoModeManager.ConnectAutoControls | managers/auto_manager.py:72-109 | the widget is attached |
| AutoMode.AutoModeManager.SetPt02SensorManager | managers/auto_manager.py:380-383 | the PT02 manager is attached |
| AutoMode.AutoModeManager.AdjustValue | managers/auto_manager.py:244-268 | the setpoints become Adjusted of the old ones |
| AutoMode.AutoModeManager.AdjustTime | managers/auto_manager.py:270-273 | the setpoints become AdjustedTime of the old ones |
| AutoMode.AutoModeManager.PressSetting | managers/auto_manager.py:191-210 | a setting button applies its configured step and range |
| AutoMode.AutoModeManager.PressTimeButton | managers/auto_manager.py:212-223 | a time button applies ±10 within [10, 9999] |
| AutoMode.AutoModeManager.HandleRefresh | managers/auto_manager.py:280-284 | sends GETSET |
| AutoMode.AutoModeManager.SendNextSaveCommand | managers/auto_manager.py:315-326 | sends the next queued command once and advances, stopping at the end |
| AutoMode.AutoModeManager.HandleSave | managers/auto_manager.py:286-313 | queues the four save commands and sends the first |
| AutoMode.AutoModeManager.ParseGetsetResponse | managers/auto_manager.py:414-460 | setpoints and result are Getset of the old setpoints |
| AutoMode.AutoModeManager.TakeTemps | managers/auto_manager.py:419-427 | the temperatures and result become ReadTemps of the old ones |
| AutoMode.AutoModeManager.TakeCo2 | managers/auto_manager.py:430-438 | the CO2 pair and result become ReadCounts of the old ones |
| AutoMode.AutoModeManager.TakePm25 | managers/auto_manager.py:439-447 | the PM2.5 pair and result become ReadCounts of the old ones |
| AutoMode.AutoModeManager.TakeTime | managers/auto_manager.py:448-454 | semi_time and result become ReadTime of the old ones |
| AutoMode.AutoModeManager.UpdatePt02SensorDisplay | managers/auto_manager.py:328-346 | each shown value takes a given value when the widget exists |
| AutoMode.AutoModeManager.ParsePt02Response | managers/auto_manager.py:385-412 | a legacy line updates the display and is saved by the PT02 manager; anything else returns False |
| SpeedButtons.SpeedCommandRoundTrip | managers/speed_manager.py:170-176 | a speed command reads back as its speed, None standing for 0 |
| SpeedButtons.PressStep | managers/speed_manager.py:160-220 | > and < move the speed by exactly one within 0..10 and send the new speed; at a bound or when blocked nothing changes and nothing is sent |
| SpeedButtons.PressKeepsRange | managers/speed_manager.py:138-255 | the three buttons keep both speeds in 0..10 |
| SpeedButtons.DecreaseUndoesIncrease | managers/speed_manager.py:160-220 | below 10, one press up then one down restores the speed |
| SpeedButtons.ResetSendsNone | managers/speed_manager.py:243-251 | the reset button sets 0 and sends prefix + None |
| SpeedButtons.SpeedButtonManager.constructor | managers/speed_manager.py:2-15 | both speeds 0, not updating |
| SpeedButtons.SpeedButtonManager.SetAutoManager | managers/speed_manager.py:17-19 | the AUTO manager is attached |
| SpeedButtons.SpeedButtonManager.SendCommand | managers/speed_manager.py:257-274 | writes the command only when connected |
| SpeedButtons.SpeedButtonManager.SyncToAutoTab | managers/speed_manager.py:277-286 | forwards the speed unless a sync is running or there is no AUTO manager; is_updating ends as it began |
| SpeedButtons.SpeedButtonManager.UpdateFromAuto | managers/speed_manager.py:289-303 | takes the AUTO tab's speed unchecked unless a sync is running |
| SpeedButtons.SpeedButtonManager.SetSpeed | managers/speed_manager.py:160-162 | setattr of the chosen speed |
| SpeedButtons.SpeedButtonManager.HandleButton | managers/speed_manager.py:110-255 | the state becomes AfterPress and the port receives PressSent, gated by the link and the fan group |
| SpeedButtons.SpeedButtonManager.ResetSpeedButtons | managers/speed_manager.py:305-352 | speed 0, None sent when connected, and for the main fan a sync of 0 |
| Buttons.SingleToggle | managers/button_manager.py:58-82 | a single button goes on unless it was on, sends the matching command, shows ON/OFF or OPEN/CLOSE |
| Buttons.SingleTwice | managers/button_manager.py:66-82 | two presses of a single button return it to its state, sending both commands |
| Buttons.MultiToggle | managers/button_manager.py:84-99 | in a group, pressing the active button switches the group off; pressing another makes it the only active one |
| Buttons.FanSwitchGatesSpeed | managers/button_manager.py:139-148 | switching a fan group off blocks its speed control; switching a single fan button on unblocks it |
| Buttons.DamperLabels | managers/button_manager.py:58-60 | an on-command with OPEN gives OPEN/CLOSE |
| Buttons.FanLabels | managers/button_manager.py:61-63 | an on-command without OPEN gives ON/OFF |
| Buttons.OpenLabels | managers/button_manager.py:58-60 | an on-command in capitals that spells OPEN somewhere gives OPEN/CLOSE |
| Buttons.OnOffLabels | managers/button_manager.py:58-63 | an on-command in capitals with no P, hence no OPEN, gives ON/OFF |
| Buttons.FanOf | managers/button_manager.py:139-148 | only aircon_fan and aircon_con_fan map to a speed control, each its own |
| Buttons.ButtonManager.constructor | managers/button_manager.py:2-7 | no groups, no speed manager |
| Buttons.ButtonManager.SetSpeedButtonManager | managers/button_manager.py:9-11 | the speed manager is attached |
| Buttons.ButtonManager.AddGroup | managers/button_manager.py:13-35 | the group is registered with nothing active |
| Buttons.ButtonManager.SendCommand | managers/button_manager.py:109-137 | writes command + \r only when connected |
| Buttons.ButtonManager.HandleFanOff | managers/button_manager.py:139-148 | resets the matching speed control for the two fan groups only |
| Buttons.ButtonManager.ToggleButton | managers/button_manager.py:37-107 | when disconnected or the group is missing nothing changes; otherwise the group, labels and port follow Toggled, with a speed reset when a fan group goes off |
| Config.Lookup | config/config_manager.py:102-121 | load_refresh_interval always returns a value in 1..360 |
| Config.LookupSpec | config/config_manager.py:112-121 | it returns the stored value when that is an int in 1..360, else 5 |
| Config.DefaultsAreFive | config/config_manager.py:32-42 | both sensor types default to 5 s |
| Config.LoadValid | config/config_manager.py:47-67 | loading keeps the state well formed and aliases the settings' intervals with the defaults' |
| Config.MergeKeyByKey | config/config_manager.py:69-82 | file intervals win, missing intervals keep their default, other top-level keys come from the file, else the defaults |
| Config.LoadWithoutFile | config/config_manager.py:57-67 | a missing or unreadable file gives the defaults and writes them stamped |
| Config.SaveRefused | config/config_manager.py:134-141 | an invalid interval or unknown type returns False and changes nothing |
| Config.SaveAccepted | config/config_manager.py:143-153 | an accepted save sets only that type's interval, keeps the rest, writes the file and returns whether it wrote |
| Config.SaveThenRestart | config/config_manager.py:113-118 | a fresh manager loading the written file looks up the saved value |
| Config.StampOnlyInFile | config/config_manager.py:87-92 | last_updated is stamped in the file, not in memory |
| Config.FailedSaveKeepsInterval | config/config_manager.py:143-153 | a failed write returns False but the interval stays changed in memory |
| Config.ResetTakesDefaults | config/config_manager.py:167-184 | a successful reset takes the defaults' intervals as they now are and stamps the file |
| Config.ResetUnwritten | config/config_manager.py:167-184 | a failed reset keeps an unaliased copy of the defaults and leaves the file |
| Config.ResetKeepsSavedInterval | config/config_manager.py:71-75 | after saving 10 s, a reset still looks up 10 s |
| Config.ConfigManager.constructor | config/config_manager.py:13-45 | the manager starts as Load of the defaults and the file |
| Config.ConfigManager.SaveSettings | config/config_manager.py:84-100 | writes a stamped copy when writable and returns whether it did |
| Config.ConfigManager.LoadSettings | config/config_manager.py:47-82 | the state becomes Load of the old state |
| Config.ConfigManager.LoadRefreshInterval | config/config_manager.py:102-121 | a value in 1..360: the stored one when valid, else 5 |
| Config.ConfigManager.SaveRefreshInterval | config/config_manager.py:123-157 | state and result are SaveInterval of the old state |
| Config.ConfigManager.GetAllRefreshIntervals | config/config_manager.py:159-161 | the intervals, looking up as the manager does |
| Config.ConfigManager.GetLastUpdated | config/config_manager.py:163-165 | the in-memory stamp, None when absent |
| Config.ConfigManager.ResetToDefaults | config/config_manager.py:167-184 | state and result are Reset of the old state |
| Config.Registry.constructor | config/config_manager.py:187-188 | no manager exists before the first request |
| Config.Registry.GetConfigManager | config/config_manager.py:187-194 | the first call builds the manager, later calls return that same one |
| CsvCleaner.AgeVictims | utils/csv_cleaner.py:77-93 | exactly the matching files older than the cutoff |
| CsvCleaner.SizeStop | utils/csv_cleaner.py:126-146 | the size loop stops within the sorted list |
| CsvCleaner.CountUnderLimit | utils/csv_cleaner.py:40-41 | at most max_files files means nothing is deleted |
| CsvCleaner.CountPicksOldest | utils/csv_cleaner.py:43-54 | the count - max_files oldest files by mtime are deleted; max_files = 0 deletes nothing |
| CsvCleaner.CountNegative | utils/csv_cleaner.py:47 | a negative max_files deletes the -max_files oldest |
| CsvCleaner.SizeStopShortest | utils/csv_cleaner.py:126-146 | oldest-first deletion stops as soon as the rest fits the limit |
| CsvCleaner.SizeVictimsUnlocked | utils/csv_cleaner.py:116-146 | over the limit, the deleted files are that oldest prefix |
| CsvCleaner.SizeVictimsOf | utils/csv_cleaner.py:100-146 | within the limit the size rule deletes nothing; over it, the removable files of the oldest prefix up to where the running total fits |
| CsvCleaner.DsctPassSparesAircon | utils/csv_cleaner.py:149-165 | the DSCT pass of auto_cleanup never changes which AIRCON files the count rule then picks |
| CsvCleaner.PatternsDisjoint | utils/csv_cleaner.py:149-173 | no name is both DSCT_*.csv and AIRCON_*.csv |
| CsvCleaner.CountVictimsFromFiles | utils/csv_cleaner.py:20-59 | victims are distinct matching files of the directory |
| CsvCleaner.AgeUnique | utils/csv_cleaner.py:77-93 | the age rule names each file at most once |
| CsvCleaner.GlobWithout | utils/csv_cleaner.py:149-173 | deleting files of one pattern leaves the other pattern's matches exactly as they were |
| CsvCleaner.CSVCleaner.constructor | utils/csv_cleaner.py:17-18 | the cleaner works on its directory |
| CsvCleaner.CSVCleaner.RemoveAll | utils/csv_cleaner.py:49-57 | removes each victim it can, skipping failures, and reports them in order |
| CsvCleaner.CSVCleaner.CleanupByCount | utils/csv_cleaner.py:20-59 | a missing directory gives []; otherwise deletes the CountVictims that can be removed |
| CsvCleaner.CSVCleaner.CleanupByAge | utils/csv_cleaner.py:61-98 | a missing directory gives []; otherwise deletes the AgeVictims that can be removed |
| CsvCleaner.CSVCleaner.CleanupBySize | utils/csv_cleaner.py:100-147 | a missing directory gives []; otherwise deletes the SizeVictims |
| CsvCleaner.CSVCleaner.RemoveWhileOver | utils/csv_cleaner.py:126-146 | the size loop deletes the removable files of the stopping prefix |
| CsvCleaner.CSVCleaner.Tally | utils/csv_cleaner.py:136-145 | one step of the size loop keeps the deleted list and stopping point in step |
| CsvCleaner.CSVCleaner.RemoveNext | utils/csv_cleaner.py:132-145 | one pass of the size loop removes the next file unless it is locked, lowers the total by its size only when removed, and keeps the directory and the deleted list in step |
| CsvCleaner.CSVCleaner.AutoCleanup | utils/csv_cleaner.py:149-173 | caps DSCT_*.csv and AIRCON_*.csv independently with the same max_files; afterwards the directory holds exactly the old files minus the names either pass removed |
| CsvCleaner.CSVCleaner.GetStats | utils/csv_cleaner.py:175-190 | counts of the DSCT and AIRCON files and their total size in MiB rounded to two decimals (ties to even), zeros when the directory is missing |
| CsvCleaner.RoundHundredths | utils/csv_cleaner.py:188 | the result is the nearest whole number of hundredths of n/d, within half a hundredth, an exact tie going to the even neighbour |

## Left out

- Qt widgets, styles, texts, message boxes and the repeat-press timers; signals are an event log.
- The `QMutex` around the queue: the model runs one call at a time.
- pyserial: the port is an object with `connected`/`healthy` flags and logs of what was sent and written; what a device answers is a parameter.
- The clock and `datetime.now()` are parameters (seconds as `real`, dates and stamps as strings).
- Floating point: values are exact rationals; `float()`/`int()` accept plain ASCII decimals only (no exponents, underscores, inf or nan), and the regular expressions' `\d` is taken as the ASCII digits only, where Python's `re` also matches other Unicode digits; `\s` is modelled as Python's full whitespace set (`Common.IsSpace`).
- CsvCleaner.CSVCleaner.GetStats: `total_size_mb` is the exact decimal of the rounded hundredths, where Python returns the nearest double; totals of 2^53 bytes or more, where the float division itself rounds, are not modelled.
- Test mode and the dummy data generators.
- The AIRCON and DSCT managers' CSV logging (`_get_csv_filename`, `_save_to_csv`, `_ensure_data_directory`): only the PT02 logging is modelled.
- The bytes written to CSV and JSON files; a file is a name, mtime and size, and the settings file holds the JSON value itself.
- `generate_test_data` and `print` logging.
- `AIR_SYSTEM` is not defined in ui/constants.py; it is a constructor parameter of `AutoModeManager`.
- Buttons.OpenLabels, Buttons.OnOffLabels: stated for commands already in capitals, as all the configured commands are; for other text the labels follow `Labels` on `Upper` of the command, which handles only ASCII letters.
- `SensorScheduler`: `set_serial_manager` passing the link on to the two sensor managers is left out, because the scheduler records only whether each manager exists. The per-sensor forwarding signals and `get_status_info` are plain field access.
- `SpeedButtons.SpeedButtonManager.HandleButton`: the fan group's state reaches it as a parameter; the speed manager does not hold the main window.
- `Buttons.ButtonManager`: the model assumes the speed manager writes to the same serial port, as the application wires them.
- `AutoModeManager.update_from_manual` does nothing; the speed manager only records the speeds it forwards.
- `Config.ConfigManager.constructor`: a settings file holding JSON that is not an object makes the source raise; the model requires an object.
- `Config.Registry.GetConfigManager`: the module-level singleton is a registry object passed to the caller.
