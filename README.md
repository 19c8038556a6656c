# EyesOn — a Dafny model of the alert pipeline

EyesOn is a wearable obstacle announcer. A Raspberry Pi camera feeds a YOLO tracker. For each
frame, the Pi picks the single most important tracked object, filtering by class, confidence,
size and central corridor. When a cooldown gate allows it, the Pi speaks a short direction
message ("Move Left, person ahead"). The camera frame and a stream of status lines go to every
browser viewer over a WebSocket.

This project models the decision and relay logic of the three Pi scripts, the streaming-only
server, and the browser consumer.

- `Selector` models the candidate selector shared by all three scripts: the five filters, the
  score, the direction message and the strict-`>` argmax. `SelectBest` has the source's nested
  loops and is proved equal to a left fold, `Best`. Lemmas describe `Best`: nothing is selected
  exactly when nothing qualifies, and otherwise the selection is the first box of maximal score.
- `Cooldown` models the gate as a class over the id→time map and the global time. Time is a
  parameter.
- `Relay` models `broadcast_log`, the log queue and its non-blocking FIFO drain.
- `Speech` models the speech job queue with its `None` sentinel. It holds two specification
  functions: the jobs a worker speaks, and what stays queued after the worker stops.
- `Fanout` models the viewer set and the sweep that sends to each viewer and drops the ones
  whose send raised.
- `Pipeline` holds the frame pipeline of `rpi/main_system.py` and `rpi/backup.py`: start-up,
  the alert decision, the publish tick, and the handler's log lines.
- `MainSystem` models the JBL→AirPods→default fallback worker. Its shell exit statuses are a
  parameter.
- `Backup` models the single-output worker, the lazily started walkie-talkie player and the
  handler's `finally`.
- `Check` models the print-only worker and the shutdown ordering (announcement, then sentinel).
- `Server` models the frame-only sweep.
- `VideoStream` models `onmessage`, `addLog` and the status changes of the viewer.
- `Scenarios` holds two worked runs.

A freshly started gate (global time 0.0, unknown ids at 0.0) refuses every alert before time
4.0. With real `time.time()` values this never matters, so the cooldown scenario uses t = 100,
102 and 105.

Floating point is modelled with exact reals. In IEEE doubles, `640 * 0.55 / 2` rounds to exactly
176.0. `conf >= 0.45` gives the same answer on doubles as on reals for every double `conf`. So
the corridor and confidence filters agree with the code. Score sums are compared as exact reals
(see Left out).

## Model

| member | source | states |
|---|---|---|
| Selector.SelectBest | rpi/main_system.py:157-193 | the nested loop over results and boxes returns exactly `Best` of the flattened boxes, skipping results without boxes |
| Selector.Consider | rpi/main_system.py:161-193 | one loop turn: a box without id, of unknown class, below the confidence or area threshold, or outside the corridor leaves `best` unchanged; otherwise it replaces `best` only with a strictly greater score |
| Selector.BestNoneIff | rpi/main_system.py:157-193 | `best` stays None exactly when no box passes all filters |
| Selector.BestIsFirstMaximal | rpi/main_system.py:185-193 | a selection is built from a qualifying box whose score is maximal and strictly above every earlier qualifying box (first wins a tie) |
| Selector.FirstMaximalIsBest | rpi/main_system.py:188-193 | conversely, the first qualifying box of maximal score is the one selected |
| Selector.SelectedPassesFilters | rpi/main_system.py:161-180 | the selected candidate has a track id, a known class, conf ≥ 0.45, area ratio ≥ 0.60 and a centre inside the 55% corridor |
| Selector.MessageDirection | rpi/main_system.py:182-183 | the message starts "Move Right" exactly when the centre is left of 320 and "Move Left," otherwise, and ends "<name> ahead" |
| Cooldown.CooldownGate.constructor | rpi/main_system.py:94-95 | empty map, global time 0.0, so an id may speak at t exactly when t ≥ 4.0 |
| Cooldown.CooldownGate.CanSpeak | rpi/main_system.py:98-105 | true exactly when 1.5 s have passed since the last alert and 4.0 s since this id's last alert (unknown ids: 0.0) |
| Cooldown.CooldownGate.MarkSpoken | rpi/main_system.py:107-111 | sets this id's time and the global time to now, leaves every other id unchanged; afterwards the id is refused for 4.0 s, every id for 1.5 s, and other ids then follow their own history |
| Relay.LogLine | rpi/main_system.py:54-57 | the queued line is `LOG:` followed by exactly the message |
| Relay.LogLineInjective | rpi/main_system.py:57 | different messages give different lines |
| Relay.LogQueue.BroadcastLog | rpi/backup.py:50-53 | exactly one tagged line is appended to the log queue |
| Relay.LogQueue.GetNowait | rpi/main_system.py:217-219 | the oldest line and the rest of the queue, or Empty on an empty queue |
| Relay.LogQueue.Drain | rpi/main_system.py:214-219 | returns every queued line oldest first and leaves the queue empty |
| Speech.SpeechQueue.Put | rpi/main_system.py:199 | appends one job at the back |
| Speech.SpeechQueue.Get | rpi/main_system.py:67 | removes and returns the front job |
| Speech.SentinelSplit | rpi/check.py:55-62 | the worker speaks the entries before the first sentinel in order, stops exactly when there is a sentinel, and leaves exactly what follows it |
| Speech.JobsBeforeSentinelAppend | rpi/check.py:55-62 | jobs queued in a stretch without a sentinel are all spoken before anything queued after them |
| Fanout.ClientSet.Add | rpi/server.py:40-42 | the viewer joins the set |
| Fanout.ClientSet.Remove | rpi/server.py:47-48 | the viewer leaves the set; the call raises (KeyError) exactly when it was no longer there |
| Fanout.ClientSet.Sweep | rpi/main_system.py:227-242 | `disconnected` is the raising viewers that were connected; every other viewer receives exactly the payloads in order; the set loses exactly `disconnected` |
| Pipeline.Startup | rpi/main_system.py:126-137 | the loading, camera and ready lines in order, with "System Online" queued for speech before the ready line |
| Pipeline.Serve | rpi/main_system.py:252-255 | the port line is logged first, then the start-up of `run_system` follows |
| Pipeline.ProcessFrame | rpi/main_system.py:195-200 | an alert is logged, queued once and marked exactly when a best box exists and its id may speak; otherwise queue, logs and gate stay as they were |
| Pipeline.PublishTick | rpi/main_system.py:211-242 | with no viewers nothing is drained or sent; otherwise the queue is emptied and each non-raising viewer gets the frame followed by the drained lines in order, and the raising ones are dropped |
| Pipeline.FrameTick | rpi/main_system.py:195-242 | alert and gate updates as for `ProcessFrame`; with viewers connected, the alert reaches every viewer whose send does not raise in the same tick, after the frame and the lines queued before it, the log queue is emptied and the raising viewers are dropped; with none, nothing is sent and the alert line stays queued |
| Pipeline.OnConnect | rpi/main_system.py:114-116 | logs "Client connected: <address>" and adds the viewer |
| Pipeline.OnClose | rpi/main_system.py:121-123 | removes the viewer and logs the disconnect, unless the removal raises because a sweep already dropped it |
| MainSystem.FallbackChain | rpi/main_system.py:73-85 | JBL is tried first, AirPods only after JBL returned non-zero, the default only after AirPods also did; at most three commands, all with the job's text; the default's status is not consulted |
| MainSystem.ChainLogs | rpi/main_system.py:71-84 | one speaking line, then one warning per failed Bluetooth sink, in order |
| MainSystem.PlaybackInOrder | rpi/main_system.py:65-87 | the commands of a run go job by job in queue order, each carrying its job's text, job numbers never go down, and every job gets its JBL command |
| MainSystem.PlaybackOfJob | rpi/main_system.py:65-87 | the commands for job j are exactly its fallback chain, issued after those of the earlier jobs and before those of the later ones |
| MainSystem.PlaybackPrefix | rpi/main_system.py:65-87 | the commands for the first jobs of a run are the start of the commands of the whole run |
| MainSystem.SpeakJob | rpi/main_system.py:71-85 | the loop body issues exactly the fallback chain and logs exactly its lines |
| MainSystem.SpeakerWorker | rpi/main_system.py:62-89 | logs the start line, handles exactly the jobs before the sentinel in FIFO order through the fallback chain, stops exactly when a sentinel is queued and leaves what follows it |
| Backup.SpeakingLines | rpi/backup.py:69 | one speaking line per job, in order |
| Backup.SpeakerWorker | rpi/backup.py:58-82 | exactly one playback command per job before the sentinel, in FIFO order, each announced in the log; stops exactly on the sentinel |
| Backup.OnInbound | rpi/backup.py:120-136 | text messages change nothing; a binary message starts a new player only when there is none or the current one has exited, and is written to the current player |
| Backup.ReceiveAll | rpi/backup.py:118-136 | the `async for` loop computes exactly the replay of the messages |
| Backup.ReplayFacts | rpi/backup.py:118-136 | a player exists exactly when some binary message arrived; every chunk goes, in order, to a player of this connection; no more players than chunks; the current player is the last one started |
| Backup.OnClose | rpi/backup.py:142-146 | the viewer leaves the set, its player (if any) is killed and the disconnect is logged; if the removal raises, neither the kill nor the log happens |
| Check.SpeakerWorker | rpi/check.py:53-64 | speaks exactly the jobs before the sentinel in FIFO order and stops exactly on it |
| Check.Startup | rpi/check.py:106 | queues "System Startup Successful" |
| Check.ProcessFrame | rpi/check.py:189-195 | a message is queued once and the id marked exactly when a best box exists and may speak; otherwise nothing changes |
| Check.Shutdown | rpi/check.py:223-233 | queues "Shutting down" and then the sentinel |
| Check.ShutdownSpeaksEverything | rpi/check.py:223-233 | after shutdown, the worker speaks every waiting job, then "Shutting down", and stops with nothing left |
| Check.ShutdownAndDrain | rpi/check.py:223-233 | shutdown followed by the worker: it stops, having spoken every queued job and the announcement last |
| Server.BroadcastTick | rpi/server.py:80-95 | with no viewers nothing is sent; otherwise every non-raising viewer gets the frame exactly once, `disconnected` is within the connected set, and only those viewers are dropped |
| VideoStream.AddLog | camera-client/src/VideoStream.jsx:51-54 | the new "[time] message" entry comes first, the previous entries follow in order, the list holds at most 50 and drops its oldest entry when full |
| VideoStream.OnMessage | camera-client/src/VideoStream.jsx:27-34 | a string starting `LOG:` becomes a log entry of its text after the tag, leaving the image; anything else becomes the JPEG data URL, leaving the logs; the status never changes |
| VideoStream.Connect | camera-client/src/VideoStream.jsx:18 | status "Connecting...", image and logs untouched |
| VideoStream.OnOpen | camera-client/src/VideoStream.jsx:21-25 | status "Connected" and the connection notice logged |
| VideoStream.OnClose | camera-client/src/VideoStream.jsx:36-39 | status "Disconnected", image and logs untouched |
| VideoStream.LogRoundTrip | camera-client/src/VideoStream.jsx:29-30 | a line tagged by `broadcast_log` is recognised as a log and logged as exactly the original message |
| VideoStream.FrameIsNeverLog | camera-client/src/VideoStream.jsx:29-32 | base64 frame text can never start with `LOG:`, so it always becomes the image and leaves the logs |
| VideoStream.LogMessages | rpi/main_system.py:235-236 | the drained lines, as the viewer receives them |
| VideoStream.TickRoundTrip | camera-client/src/VideoStream.jsx:27-34 | after one publish tick the viewer shows the frame and has logged the relayed messages in order |
| VideoStream.ReceiveKeepsBound | camera-client/src/VideoStream.jsx:53 | over any run of messages the log list stays within 50 entries and the status is unchanged |
| VideoStream.AddLogsNewestFirst | camera-client/src/VideoStream.jsx:53 | after several additions the newest entries come first, latest at index 0, as far as the cap of 50 allows |
| VideoStream.OpenedSession | camera-client/src/VideoStream.jsx:4-25 | from the initial state, connect then open gives "Connected" with the notice as the only log entry |
| Scenarios.PersonIsSelected | rpi/check.py:131-187 | a centred person covering 65% of the frame is selected with the message "Move Left, person ahead" |
| Scenarios.CooldownRun | rpi/check.py:79-92 | on a fresh gate the person is announced at t = 100, refused at 102, announced at 105 |
| Scenarios.SweepRun | rpi/server.py:80-95 | of three viewers with the second raising, the other two get the frame once and stay connected |

The selector, gate and decision rows cite `rpi/main_system.py`. The selector is repeated at
rpi/backup.py:174-201 and rpi/check.py:131-187, and the gate at rpi/backup.py:91-102 and
rpi/check.py:79-92; the same members model those lines. The decision at rpi/backup.py:203-207 is
`Pipeline.ProcessFrame`; the one at rpi/check.py:189-195, which prints the alert instead of
logging it, is `Check.ProcessFrame`. The relay and publish rows also cover rpi/backup.py:50-53
and 215-240, and the start-up rows rpi/backup.py:149-160 and 250-253.

## Left out

- Camera capture, the YOLO tracker and OpenCV drawing, resizing and JPEG and base64 encoding are outside the model. Detections are an input of boxes with an optional id, and the frame is an opaque string.
- The `espeak`, `pw-play` and `ffplay` processes and their environment setup are outside the model. The Bluetooth fallback sees only exit statuses, given as a function of job and sink. A `Popen` that fails to start is not modelled.
- The WebSocket transport, `asyncio.gather` and the daemon threads are outside the model. A tick and the worker loop run sequentially, and the viewers whose send raises are an input set. A viewer that raises is assumed to raise on its first send of the tick, so it receives nothing that tick.
- Selector.Consider: scores (`Selector.Score`) are compared as exact reals. The IEEE rounding of `area_ratio * 100.0 + pr * 10.0 + conf` is not modelled, so two scores that differ by less than their rounding error could compare differently.
- Pipeline.ProcessFrame: one `now` is used both for the check and for the mark. The programs read `time.time()` twice, once in `can_speak` and again in `mark_spoken`, so they store a slightly later time than the one checked. Check.ProcessFrame makes the same simplification.
- Cooldown.CooldownGate.CanSpeak: time is a real parameter, not `time.time()`. The subtraction is exact, so double rounding of the difference is not modelled.
- The queues' `get(timeout=1)` polling, `queue.Empty` and `task_done` are not modelled. A worker that meets an empty queue stops in the model, while the real one goes on waiting.
- Check.ShutdownAndDrain: the worker is a daemon thread, so the real process may exit before it has spoken everything. The model states the order the queue imposes, not that the speech completes.
- The terminal echo of `broadcast_log` and all `print` output are outside the model. In rpi/check.py this includes the alert line with its area and confidence.
- The viewer's reconnect timer, `onerror`, the microphone recorder (`startTalking`, `stopTalking`), rendering, and camera-client/src/App.jsx are outside the model.
- The debug window, `HEADLESS_MODE` and the 'q' key exit of rpi/check.py are outside the model.
