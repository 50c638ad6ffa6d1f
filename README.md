# Camera stream server: control plane

This project models the control plane of `server.js`, a Node.js server that streams
a camera to browser viewers over socket.io. The model covers:

- the connection map `activeConnections`;
- the capture-process handle `ffmpegProcess`;
- the four socket handlers (`connection`, `start-stream`, `stop-stream`, `disconnect`);
- the camera check `checkCamera` and the continuation `start-stream` attaches to it;
- the supervisor logic of `startCameraCapture` and `startRaspividCapture`: kill before
  start, restart after an abnormal exit, and the raspivid-to-ffmpeg fallback;
- the two status payloads.

The modules are:

- `Capture` (capture.dfy): pure decisions.
  - The two backends: `V4l2` is the libcamera-vid | ffmpeg pipeline and `Raspivid` is raspivid.
  - The three kinds of `setTimeout` callback the server schedules.
  - `checkCamera`'s priority order.
  - The restart test `code !== 0 && code !== null`.
  - What an 'error' schedules.
- `ControlPlane` (control_plane.dfy): the server state as a value, and one transition
  function per callback. `Step` runs one callback and `Run` runs a trace of callbacks.
  - Processes are named by their spawn index.
  - The state records which processes are still running and which were sent SIGTERM.
  - The state holds every pending timer and every pending camera check. A camera check
    is a `checkCamera()` call whose `.then`/`.catch` continuation has not run yet.
  - A timer, check continuation, close or error that cannot be delivered leaves the state
    unchanged. Examples are a timer that is not pending and a close of a process that is
    not running.
- `Properties` (properties.dfy): what each handler does. Also the supervisor invariant,
  proved for every trace: at most one running process has not been sent SIGTERM, and
  that process is the held one.
- `Traces` (traces.dfy): behaviour of whole traces of callbacks.
- `Runtime` (runtime.dfy): class `Server`.
  - Its fields are the module-level variables (`activeConnections`, `ffmpegProcess`),
    together with the processes, timers and camera checks the event loop still owes
    callbacks for.
  - Its methods update those fields in place.
  - Each callback method (connection, `start-stream`, the check continuation,
    `stop-stream`, disconnect, close, error, timer) is proved to perform the
    `ControlPlane.Step` of its event and to keep the supervisor invariant `Valid()`.
  - The start helpers `KillHeld`, `Spawn`, `StartCameraCapture` and
    `StartRaspividCapture` are proved equal to `ControlPlane.KillHeld` and `Launch`.
    `Resolve` is proved equal to `ControlPlane.Resolve`, and `GetApiStatus` to
    `ApiStatus`.

Behaviour of the code that the model keeps, although a reader might expect otherwise:

- Connecting does not start capture. Only `start-stream` does (server.js:141-166).
- A restart calls the same start function again. It does not run `checkCamera` again
  (server.js:63, 108).
- A close never clears `ffmpegProcess` (server.js:59-65). After a clean exit the handle
  still names a process that is gone. `start-stream` then ignores every request until a
  stop or the last disconnect clears the handle, or a pending timer or camera-check
  continuation replaces it with a new process.
- Timers are never stored, so they are never cancelled (server.js:63, 108, 115). A stop,
  or the last client leaving, does not prevent a restart that was already scheduled.
  Capture can therefore run with no client connected.
- The server has two backends; a raspivid spawn failure falls back to the ffmpeg
  pipeline (server.js:112-116).
- A process that cannot be spawned gets an 'error' and then a 'close' whose code is a
  negative errno. The close handler schedules a restart (server.js:61-63, 106-108). For
  the ffmpeg pipeline the 'error' handler only logs, so the pipeline is retried every
  5 s. For raspivid both the ffmpeg fallback and a raspivid restart become pending, and
  whichever fires second kills the process the first one started.
- `start-stream` tests `ffmpegProcess` before it calls `checkCamera()`, and the backend
  starts in the promise continuation, a later callback. Two requests before the first
  continuation runs both start a backend, and the second kills the first. This holds
  with /dev/video0 present (the ffmpeg pipeline twice) and without it (raspivid twice).
- "One active process" holds only in this sense: at most one running process has not been
  sent SIGTERM. A killed process keeps running until its close arrives.

## Model

| member | source | states |
|---|---|---|
| Capture.CheckCamera | server.js:122-138 | Priority order. The ffmpeg pipeline iff /dev/video0 exists. Otherwise raspivid iff `which raspivid` succeeds. Otherwise no camera. |
| Capture.Target | server.js:59-116 | The start function each timer calls. Only the raspivid restart timer calls `startRaspividCapture`. |
| Capture.RestartTimer | server.js:59-65 | The restart timer of a backend calls that backend's own start function. It is never the fallback timer. |
| Capture.AfterClose | server.js:104-110 | A close schedules a restart iff the code is non-null and non-zero. The restart is for the same backend. |
| Capture.AfterSpawnError | server.js:112-116 | An 'error' schedules something iff the process is raspivid. What it schedules is the fallback to the ffmpeg pipeline. |
| ControlPlane.ConnectStatus | server.js:146-150 | The 'status' payload: `connected` is true, `streaming` iff a handle is held, `clients` is the map size. |
| ControlPlane.ApiStatus | server.js:190-196 | `streaming` iff a handle is held and `clients` is the map size, as in the connect status. `camera` is "available" iff /dev/video0 exists, and "not found" otherwise. |
| ControlPlane.KillHeld | server.js:28-30 | The held process, and only it, is added to the SIGTERMed processes. Nothing else changes. |
| ControlPlane.Launch | server.js:27-44 | Kill the held process, then spawn a new process of the backend and hold it. Its pid is the next spawn index and it is running. Clients, timers and checks are unchanged. |
| ControlPlane.Stop | server.js:170-173 | SIGTERM the held process and clear the handle. Nothing else changes. |
| ControlPlane.OnConnect | server.js:141-150 | The socket id joins the map, nothing else changes. The reply goes to that socket and counts it. |
| ControlPlane.Resolve | server.js:155-164 | A resolved backend goes to its own start function, with no reply. A rejection answers "Camera not available" to the requesting socket and changes nothing. |
| ControlPlane.OnStartStream | server.js:152-166 | Never replies and never spawns. Changes nothing while a handle is held. Otherwise adds one pending camera check for that socket. |
| ControlPlane.OnCheckDone | server.js:122-164 | The check stops being pending. Clients and timers are unchanged. The only possible reply is "Camera not available" to the requesting socket, and then the handle and the spawn log are unchanged. |
| ControlPlane.OnStopStream | server.js:168-174 | The handle is cleared. Clients, spawned and running processes, timers and checks are unchanged. |
| ControlPlane.OnDisconnect | server.js:176-186 | The id leaves the map. The handle is kept or cleared. Processes, timers and checks are unchanged. |
| ControlPlane.OnProcessClose | server.js:104-110 | The handle, the spawn log, the SIGTERMed set, clients and checks are unchanged. Running processes only shrink. Timers gain nothing, or the restart of the closing process's backend. |
| ControlPlane.OnProcessError | server.js:112-116 | Only the timers change, and they gain nothing or the ffmpeg fallback. |
| ControlPlane.OnTimerFires | server.js:61-63 | A timer that is not pending changes nothing. A pending one is consumed and holds a new process of its target backend. |
| ControlPlane.Step | server.js:141-186 | Only a connect or a disconnect changes the connection map. Only a connect or a camera-check continuation sends anything. |
| Properties.ConnectReportsStatus | server.js:141-150 | Connecting adds the socket id and changes nothing else. The reply is `connected: true`, `streaming` = a handle is held, and `clients` = the map size including the new socket. |
| Properties.LaunchKillsThenReplaces | server.js:27-44 | From an invariant state, starting a backend SIGTERMs the held process, if any. The new pid was not running and not SIGTERMed before. It is the only running process that was not sent SIGTERM. |
| Properties.LaunchKeepsInv | server.js:75-92 | Starting a backend keeps the supervisor invariant. |
| Properties.StepKeepsInv | server.js:141-186 | Every callback keeps the supervisor invariant. |
| Properties.RunKeepsInv | server.js:141-186 | Every trace of callbacks keeps the supervisor invariant. |
| Properties.AtMostOneLiveCapture | server.js:24-30 | After any trace from startup, two running processes that were never sent SIGTERM are the same process, and it is the held one. |
| Properties.StartStreamWhileHeldIsNoOp | server.js:152-154 | `start-stream` changes nothing and sends nothing while a handle is held. |
| Properties.StartStreamWhileIdle | server.js:154-160 | With nothing held, `start-stream` spawns nothing yet. It adds exactly one pending camera check for that socket, and nothing else changes. |
| Properties.CheckOutcome | server.js:155-164 | A pending check that finds a camera starts that backend, even over a held process. A check that finds none sends "Camera not available" to its own socket only, and only removes the pending check. |
| Properties.StartStreamFollowsCheckCamera | server.js:152-166 | From idle, `start-stream` plus its check continuation starts exactly the backend `checkCamera` picks, as one new process, and sends nothing. With no camera it holds nothing, spawns nothing and answers "Camera not available" to the requester alone. |
| Properties.StopStreamStops | server.js:168-174 | `stop-stream` clears the handle and SIGTERMs the held process, if any. It never changes the connection map. |
| Properties.DisconnectStopsOnLastClient | server.js:176-186 | Disconnect removes that id. The held process is killed and the handle cleared iff the map becomes empty. Otherwise the handle is untouched. |
| Properties.CloseSchedulesRestart | server.js:59-65 | A close schedules one restart of the process's own backend iff the code is non-null and non-zero. It never changes the handle. |
| Properties.SpawnErrorFallsBack | server.js:112-116 | A raspivid 'error' adds the ffmpeg fallback timer. An ffmpeg 'error' adds nothing. Neither changes the handle. |
| Properties.TimerStartsWithoutCheck | server.js:61-63 | A pending timer runs its start function directly. It does not run `checkCamera` and does not check clients or the handle. |
| Traces.ConnectionsChangeOnlyOnMembership | server.js:141-187 | A trace with no connect and no disconnect leaves the connection map as it was. |
| Traces.RunOnlyAppends | server.js:27-44 | A trace only appends to the spawn log, at most one process per callback, so a pid is never reused. |
| Traces.StepOnlyAppends | server.js:141-186 | One callback spawns at most one process. |
| Traces.CrashIsCycle | server.js:104-110 | The crash-cycle function equals running the close callback and then the restart-timer callback. |
| Traces.OneCrashCycle | server.js:104-110 | After any non-zero exit of the held process and its restart, the same backend is held and running in a new process. Clients, timers and checks are as before. |
| Traces.CyclesRun | server.js:59-65 | Running the whole trace of close-then-restart callbacks, one pair per exit code, gives the state `AfterCrashes` composes. |
| Traces.UnboundedRestarts | server.js:59-65 | For every non-empty sequence of non-zero exit codes, running that many crash cycles as callbacks leaves the same backend held and running in the latest new process. There is no cap on restarts. |
| Traces.StaleHandleBlocksStart | server.js:59-65 | After a clean or signal exit of the held process, the handle still names it and nothing is scheduled. A following `start-stream` starts nothing. |
| Traces.StopDoesNotCancelRestart | server.js:168-174 | A crash, then `stop-stream`, then the pending restart: capture is held and running again. |
| Traces.StreamingWithNoClients | server.js:176-186 | A crash, then the last disconnect, then the pending restart: a process is held with zero clients. |
| Traces.FailedRaspividSchedulesTwice | server.js:104-116 | A raspivid 'error' followed by its close with a non-zero code leaves both the ffmpeg fallback and a raspivid restart pending. |
| Traces.StartRaceSpawnsTwice | server.js:152-166 | Two `start-stream` requests before either check continuation runs start two processes of the backend `checkCamera` picks. The first is SIGTERMed and the second is held. |
| Traces.BothChecksPending | server.js:152-155 | Two `start-stream` requests with nothing held each leave one check pending and spawn nothing. |
| Traces.BothChecksLaunch | server.js:155-160 | Two check continuations that find a camera each start its backend. The second start kills the first process. |
| Runtime.Server.constructor | server.js:20-24 | The server starts with no client, no handle and nothing pending. The invariant holds. |
| Runtime.Server.KillHeld | server.js:28-30 | SIGTERMs the held process, if any. Changes nothing else. |
| Runtime.Server.Spawn | server.js:27-44 | Performs the kill-then-replace transition. |
| Runtime.Server.StartCameraCapture | server.js:27-72 | Kills the held process and holds a new ffmpeg pipeline. |
| Runtime.Server.StartRaspividCapture | server.js:75-119 | Kills the held process and holds a new raspivid. |
| Runtime.Server.OnConnection | server.js:141-150 | Performs the connect transition and returns its status payload. Keeps the invariant. |
| Runtime.Server.Resolve | server.js:155-164 | Starts the resolved backend, or returns "Camera not available" for the requesting socket. |
| Runtime.Server.OnStartStream | server.js:152-166 | Performs the `start-stream` transition. Keeps the invariant. |
| Runtime.Server.OnCheckDone | server.js:155-164 | Performs the check-continuation transition, including its error reply. Keeps the invariant. |
| Runtime.Server.OnStopStream | server.js:168-174 | Performs the `stop-stream` transition. Afterwards no handle is held and the connections are unchanged. |
| Runtime.Server.OnDisconnect | server.js:176-186 | Performs the disconnect transition. Keeps the invariant. |
| Runtime.Server.OnProcessClose | server.js:104-110 | Performs the close transition. The handle is unchanged. |
| Runtime.Server.OnProcessError | server.js:112-116 | Performs the spawn-error transition. The handle is unchanged. |
| Runtime.Server.OnTimer | server.js:61-63 | Performs the timer transition. Keeps the invariant. |
| Runtime.Server.GetApiStatus | server.js:190-196 | Returns `streaming` = a handle is held, `clients` = the map size, and `camera` "available" iff /dev/video0 exists. Changes nothing. |

## Left out

- server.js as written does not parse. The command literal that starts on line 32 is closed by the backtick at the end of line 39. The backtick on line 40 then opens a second literal, tagged by the first, that runs to the first backtick on line 60, and the identifier `FFmpeg` follows it there, which is a syntax error. The model describes server.js with the stray backtick on line 40 deleted.
- Shell command text and raspivid arguments (server.js:32-40, 81-88): each backend is an opaque tag.
- Process spawning and kill semantics: a spawned process runs until a close callback arrives, whether or not it was sent SIGTERM. Exit codes are chosen by the environment as event parameters.
- How Node pairs 'error' and 'close' for one process: they are independent events here, so a trace may hold either, both or neither.
- Socket events are not tied to membership: `start-stream`, `stop-stream` and `disconnect` are accepted from any id, though socket.io delivers them only from connected sockets (the handlers are registered per socket inside `io.on('connection')`, server.js:141-187). The model therefore allows extra traces; every property proved for all traces still holds.
- Callback ordering: any pending callback may run next. Node runs a promise continuation before the next I/O callback, so some orders the model allows cannot occur; every property proved for all traces holds for the orders that can.
- Run: has no contract of its own. What it promises is stated by Properties.RunKeepsInv, Traces.RunOnlyAppends and Traces.ConnectionsChangeOnlyOnMembership.
- Video fan-out through `io.emit('video-data', …)` (server.js:46-48, 95-98): byte delivery is socket.io behaviour.
- stderr logging and the `frame=`/`fps=` filter (server.js:50-57, 100-102): log output only.
- Timer delays of 5000 ms and 2000 ms: pending timers are a multiset and fire in any order.
- Express static files, the HTTP server, CORS and the port (server.js:8-18, 216-219): I/O wiring.
- The startup camera check (server.js:221-227): it only logs.
- The SIGINT/SIGTERM handlers and `process.exit` (server.js:199-213): process-level wiring.
- Socket objects are reduced to their ids. The `ultraLowLatency` payload of `start-stream` is ignored by the server, so it is not modelled.
- Filesystem and PATH lookups: whether /dev/video0 exists and whether `which raspivid` succeeds are event parameters.
- The crash of the server when the `which raspivid` child cannot be spawned (server.js:128-135): that child has no 'error' listener, so Node throws and the whole process exits. The model has no server crash; such a check simply stays pending.
