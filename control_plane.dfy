/** The control-plane state machine of server.js as pure functions: the state the
    module-level variables and the pending callbacks make up, one transition function
    per socket, process, timer and camera-check event, and the invariant every transition
    keeps. Runtime.Server implements the same transitions by updating fields in place. */
module ControlPlane {
  import opened Capture

  /** A `checkCamera()` call made by a 'start-stream' handler whose `.then`/`.catch`
      continuation has not run yet: the socket that asked, and whether /dev/video0
      existed when it asked. */
  datatype Check = Check(sid: string, video0: bool)

  /** The state of the server between two callbacks.
      - connections: the keys of `activeConnections` (socket ids);
      - handle: `ffmpegProcess`, as the spawn index of the process it refers to;
      - spawned: the backend of every process spawned so far, indexed by spawn order;
      - running: spawned processes whose 'close' event has not arrived yet;
      - signalled: processes that have been sent SIGTERM;
      - timers: `setTimeout` callbacks scheduled and not yet fired;
      - checks: `checkCamera()` continuations not yet run. */
  datatype State = State(
    connections: set<string>,
    handle: Option<nat>,
    spawned: seq<Backend>,
    running: set<nat>,
    signalled: set<nat>,
    timers: multiset<Timer>,
    checks: multiset<Check>)

  /** The server as it starts: no client, no process, nothing pending. */
  const Initial: State := State({}, None, [], {}, {}, multiset{}, multiset{})

  /** The 'status' payload sent to a socket when it connects. */
  datatype StatusPayload = StatusPayload(connected: bool, streaming: bool, clients: nat)

  /** The JSON body of GET /api/status. */
  datatype ApiStatusPayload = ApiStatusPayload(streaming: bool, clients: nat, camera: string)

  /** What a transition sends to one socket, if anything. */
  datatype Output =
    | Silent
    | StatusTo(sid: string, status: StatusPayload)
    | ErrorTo(sid: string, message: string)

  const CameraNotAvailable: string := "Camera not available"

  /** The callbacks the event loop runs, one at a time. */
  datatype Event =
    | Connect(sid: string)                          // io 'connection'
    | StartStream(sid: string, video0: bool)        // socket 'start-stream'; video0: /dev/video0 exists now
    | StopStream                                    // socket 'stop-stream' from any client
    | Disconnect(sid: string)                       // socket 'disconnect'
    | ProcessClose(pid: nat, code: Option<int>)     // 'close' of a capture process; None is a signal exit
    | ProcessError(pid: nat)                        // 'error' of a capture process
    | TimerFires(timer: Timer)                      // a scheduled setTimeout callback runs
    | CheckDone(sid: string, video0: bool, raspividFound: bool)
      // the continuation of the check Check(sid, video0) runs; raspividFound: `which raspivid`
      // exited with code 0 (only looked at when video0 is false)

  /** The backend of the held process. */
  function HeldBackend(s: State): (b: Backend)
    requires s.handle.Some? && s.handle.value < |s.spawned|
  {
    s.spawned[s.handle.value]
  }

  /** `ffmpegProcess !== null`, the `streaming` field of both status payloads. */
  predicate Streaming(s: State)
  {
    s.handle.Some?
  }

  /** The invariant of the supervisor: pids are spawn indices, the held process has
      never been sent SIGTERM, and every running process other than the held one has.
      So at most one capture process runs that has not been told to stop. */
  ghost predicate Inv(s: State)
  {
    (forall p :: p in s.running ==> p < |s.spawned|) &&
    (forall p :: p in s.signalled ==> p < |s.spawned|) &&
    (s.handle.Some? ==> s.handle.value < |s.spawned| && s.handle.value !in s.signalled) &&
    (forall p :: p in s.running ==> p in s.signalled || s.handle == Some(p))
  }

  // ---------------------------------------------------------------------------
  // Status projection

  /** The status a connecting socket receives, computed after it was added. */
  function ConnectStatus(s: State): (p: StatusPayload)
    ensures p.connected
    ensures p.streaming <==> s.handle.Some?
    ensures p.clients == |s.connections|
  {
    StatusPayload(true, Streaming(s), |s.connections|)
  }

  /** GET /api/status; `video0` is whether /dev/video0 exists at the time of the request.
      It agrees with the connect status on `streaming` and `clients`, and its camera field
      looks at /dev/video0 only, whether or not raspivid is installed. */
  function ApiStatus(s: State, video0: bool): (p: ApiStatusPayload)
    ensures p.streaming <==> s.handle.Some?
    ensures p.clients == |s.connections|
    ensures p.streaming == ConnectStatus(s).streaming && p.clients == ConnectStatus(s).clients
    ensures p.camera == "available" <==> video0
    ensures !video0 ==> p.camera == "not found"
  {
    ApiStatusPayload(Streaming(s), |s.connections|, if video0 then "available" else "not found")
  }

  // ---------------------------------------------------------------------------
  // The supervisor: kill-before-start and stop

  /** `if (ffmpegProcess) ffmpegProcess.kill('SIGTERM')`: the held process, and only it,
      joins the signalled ones; nothing else changes. */
  function KillHeld(s: State): (r: State)
    ensures r == s.(signalled := r.signalled)
    ensures r.signalled == if s.handle.Some? then s.signalled + {s.handle.value} else s.signalled
  {
    match s.handle
    case None => s
    case Some(p) => s.(signalled := s.signalled + {p})
  }

  /** `startCameraCapture` (b == V4l2) or `startRaspividCapture` (b == Raspivid): kill the
      held process, spawn a new one and make it the held one. The start functions do not
      look at the clients or at whether a process is held: they always spawn. */
  function Launch(s: State, b: Backend): (r: State)
    ensures r.spawned == s.spawned + [b]
    ensures r.handle == Some(|s.spawned|) && HeldBackend(r) == b
    ensures r.running == s.running + {|s.spawned|}
    ensures r.signalled == KillHeld(s).signalled
    ensures r.connections == s.connections && r.timers == s.timers && r.checks == s.checks
  {
    var k := KillHeld(s);
    var pid := |k.spawned|;
    k.(handle := Some(pid), spawned := k.spawned + [b], running := k.running + {pid})
  }

  /** Kill the held process and forget it (`kill('SIGTERM'); ffmpegProcess = null`). */
  function Stop(s: State): (r: State)
    ensures r.handle.None?
    ensures r == s.(handle := None, signalled := r.signalled)
    ensures r.signalled == if s.handle.Some? then s.signalled + {s.handle.value} else s.signalled
  {
    KillHeld(s).(handle := None)
  }

  // ---------------------------------------------------------------------------
  // Socket events

  /** 'connection': register the socket, then send it the status, which counts the new
      socket and reports the handle as it was. Capture is not started. */
  function OnConnect(s: State, sid: string): (r: (State, Output))
    ensures sid in r.0.connections && r.0.connections - {sid} == s.connections - {sid}
    ensures r.0 == s.(connections := r.0.connections)
    ensures r.1.StatusTo? && r.1.sid == sid
    ensures r.1.status.clients == |r.0.connections| && (r.1.status.streaming <==> s.handle.Some?)
  {
    var t := s.(connections := s.connections + {sid});
    (t, StatusTo(sid, ConnectStatus(t)))
  }

  /** The `.then`/`.catch` continuation of `checkCamera()` for socket `sid`: either
      backend goes to its own start function; a rejection answers that socket alone. */
  function Resolve(s: State, sid: string, r: Option<Backend>): (res: (State, Output))
    ensures r.Some? ==> res == (Launch(s, r.value), Silent)
    ensures r.None? ==> res == (s, ErrorTo(sid, CameraNotAvailable))
  {
    match r
    case Some(Raspivid) => (Launch(s, Raspivid), Silent)
    case Some(V4l2) => (Launch(s, V4l2), Silent)
    case None => (s, ErrorTo(sid, CameraNotAvailable))
  }

  /** 'start-stream': nothing when a process is held. Otherwise `checkCamera()` is called;
      its continuation is a promise reaction, so it runs in a later callback, with or
      without /dev/video0. The handler itself spawns nothing. */
  function OnStartStream(s: State, sid: string, video0: bool): (r: (State, Output))
    ensures r.1 == Silent && r.0.spawned == s.spawned && r.0.handle == s.handle
    ensures s.handle.Some? ==> r.0 == s
    ensures s.handle.None? ==> r.0 == s.(checks := s.checks + multiset{Check(sid, video0)})
  {
    if s.handle.Some? then (s, Silent)
    else (s.(checks := s.checks + multiset{Check(sid, video0)}), Silent)
  }

  /** The continuation of socket `sid`'s camera check runs. It does not look at
      `ffmpegProcess` again. The check is no longer pending afterwards, and only the
      requesting socket can be told anything. */
  function OnCheckDone(s: State, sid: string, video0: bool, raspividFound: bool): (r: (State, Output))
    ensures r.0.checks == s.checks - multiset{Check(sid, video0)}
    ensures r.0.connections == s.connections && r.0.timers == s.timers
    ensures r.1 == Silent || r.1 == ErrorTo(sid, CameraNotAvailable)
    ensures r.1 != Silent ==> r.0.handle == s.handle && r.0.spawned == s.spawned
  {
    var c := Check(sid, video0);
    if c !in s.checks then (s, Silent)
    else Resolve(s.(checks := s.checks - multiset{c}), sid, CheckCamera(video0, raspividFound))
  }

  /** 'stop-stream': stop the held process whatever the number of clients. */
  function OnStopStream(s: State): (r: State)
    ensures r.handle.None?
    ensures r.connections == s.connections && r.spawned == s.spawned && r.running == s.running
    ensures r.timers == s.timers && r.checks == s.checks
  {
    if s.handle.Some? then Stop(s) else s
  }

  /** 'disconnect': forget the socket; stop the held process if no client is left. */
  function OnDisconnect(s: State, sid: string): (r: State)
    ensures r.connections == s.connections - {sid}
    ensures r.handle == s.handle || r.handle.None?
    ensures r.spawned == s.spawned && r.running == s.running
    ensures r.timers == s.timers && r.checks == s.checks
  {
    var t := s.(connections := s.connections - {sid});
    if |t.connections| == 0 && t.handle.Some? then Stop(t) else t
  }

  // ---------------------------------------------------------------------------
  // Process and timer events

  /** Adds the timer `r` names, if any, to the pending ones. */
  function Schedule(s: State, r: Option<Timer>): (t: State)
  {
    match r
    case None => s
    case Some(x) => s.(timers := s.timers + multiset{x})
  }

  /** 'close' of process `pid`: the process is gone; its own close handler may schedule a
      restart of its own backend. `ffmpegProcess` is left as it is. */
  function OnProcessClose(s: State, pid: nat, code: Option<int>): (r: State)
    ensures r.handle == s.handle && r.spawned == s.spawned && r.signalled == s.signalled
    ensures r.connections == s.connections && r.checks == s.checks
    ensures r.running <= s.running
    ensures r.timers == s.timers ||
      (pid < |s.spawned| && r.timers == s.timers + multiset{RestartTimer(s.spawned[pid])})
  {
    if pid !in s.running || pid >= |s.spawned| then s
    else Schedule(s.(running := s.running - {pid}), AfterClose(s.spawned[pid], code))
  }

  /** 'error' of process `pid` (it could not be spawned): its error handler may schedule the
      fallback. Nothing else changes. */
  function OnProcessError(s: State, pid: nat): (r: State)
    ensures r == s.(timers := r.timers)
    ensures r.timers == s.timers || r.timers == s.timers + multiset{FallbackV4l2}
  {
    if pid >= |s.spawned| then s
    else Schedule(s, AfterSpawnError(s.spawned[pid]))
  }

  /** A pending timer fires and calls its start function. */
  function OnTimerFires(s: State, t: Timer): (r: State)
    ensures t !in s.timers ==> r == s
    ensures t in s.timers ==>
      r.handle == Some(|s.spawned|) && r.spawned == s.spawned + [Target(t)] &&
      r.timers == s.timers - multiset{t}
  {
    if t !in s.timers then s
    else Launch(s.(timers := s.timers - multiset{t}), Target(t))
  }

  // ---------------------------------------------------------------------------
  // Traces

  /** One callback of the event loop. An event that cannot be delivered in `s` (a timer
      or check that is not pending, a close of a process that is not running, an error of
      a process never spawned) leaves `s` unchanged. Only a connect or a disconnect
      changes the connection map; only a connect or a camera check sends anything. */
  function Step(s: State, e: Event): (r: (State, Output))
    ensures !e.Connect? && !e.Disconnect? ==> r.0.connections == s.connections
    ensures r.1 != Silent ==> e.Connect? || e.CheckDone?
  {
    match e
    case Connect(sid) => OnConnect(s, sid)
    case StartStream(sid, video0) => OnStartStream(s, sid, video0)
    case StopStream => (OnStopStream(s), Silent)
    case Disconnect(sid) => (OnDisconnect(s, sid), Silent)
    case ProcessClose(pid, code) => (OnProcessClose(s, pid, code), Silent)
    case ProcessError(pid) => (OnProcessError(s, pid), Silent)
    case TimerFires(t) => (OnTimerFires(s, t), Silent)
    case CheckDone(sid, video0, found) => OnCheckDone(s, sid, video0, found)
  }

  /** The state after the callbacks `es`, run in order. */
  function Run(s: State, es: seq<Event>): (r: State)
    decreases |es|
  {
    if es == [] then s else Run(Step(s, es[0]).0, es[1..])
  }
}
