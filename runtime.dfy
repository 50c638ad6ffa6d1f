/** The server of server.js as an object: its fields are the module-level variables
    (`activeConnections`, `ffmpegProcess`) together with the processes, timers and camera
    checks the event loop still owes callbacks for, and its methods are the callbacks, which the
    event loop runs one at a time. Each callback method is proved to perform the
    ControlPlane step of its event and keep `Valid()`, so every lemma of Properties applies
    to it; the start helpers are proved equal to ControlPlane's `KillHeld` and `Launch`,
    `Resolve` to ControlPlane's `Resolve`, and `GetApiStatus` to `ApiStatus`. */
module Runtime {
  import opened Capture
  import opened ControlPlane
  import Properties

  class Server {
    var connections: set<string>
    var handle: Option<nat>
    var spawned: seq<Backend>
    var running: set<nat>
    var signalled: set<nat>
    var timers: multiset<Timer>
    var checks: multiset<Check>

    /** The server's state as a ControlPlane value. */
    function Snapshot(): (s: State)
      reads this
    {
      State(connections, handle, spawned, running, signalled, timers, checks)
    }

    ghost predicate Valid()
      reads this
    {
      Inv(Snapshot())
    }

    constructor ()
      ensures Valid() && Snapshot() == Initial
    {
      connections, handle, spawned, running, signalled := {}, None, [], {}, {};
      timers, checks := multiset{}, multiset{};
    }

    /** `if (ffmpegProcess) ffmpegProcess.kill('SIGTERM')`. */
    method KillHeld()
      modifies this
      ensures Snapshot() == ControlPlane.KillHeld(old(Snapshot()))
    {
      if handle.Some? {
        signalled := signalled + {handle.value};
      }
    }

    /** Spawns a process of backend `b` after killing the held one. */
    method Spawn(b: Backend)
      modifies this
      ensures Snapshot() == Launch(old(Snapshot()), b)
    {
      KillHeld();
      var pid := |spawned|;
      spawned := spawned + [b];
      running := running + {pid};
      handle := Some(pid);
    }

    /** `startCameraCapture`: the libcamera-vid | ffmpeg pipeline. */
    method StartCameraCapture()
      modifies this
      ensures Snapshot() == Launch(old(Snapshot()), V4l2)
    {
      Spawn(V4l2);
    }

    /** `startRaspividCapture`: raspivid alone. */
    method StartRaspividCapture()
      modifies this
      ensures Snapshot() == Launch(old(Snapshot()), Raspivid)
    {
      Spawn(Raspivid);
    }

    /** io 'connection': register the socket and answer with the status. */
    method OnConnection(sid: string) returns (status: StatusPayload)
      requires Valid()
      modifies this
      ensures Valid()
      ensures (Snapshot(), StatusTo(sid, status)) == Step(old(Snapshot()), Connect(sid))
      ensures handle == old(handle) && connections == old(connections) + {sid}
    {
      connections := connections + {sid};
      status := StatusPayload(true, handle != None, |connections|);
    }

    /** The `checkCamera()` continuation for `sid`: start the backend it resolved with, or
        answer the requesting socket with the error. */
    method Resolve(sid: string, r: Option<Backend>) returns (error: Option<string>)
      requires Valid()
      modifies this
      ensures Valid()
      ensures var (t, out) := ControlPlane.Resolve(old(Snapshot()), sid, r);
        Snapshot() == t && (error == None <==> out == Silent) && (error.Some? ==> out == ErrorTo(sid, error.value))
    {
      error := None;
      match r
      case Some(Raspivid) =>
        Properties.LaunchKeepsInv(Snapshot(), Raspivid);
        StartRaspividCapture();
      case Some(V4l2) =>
        Properties.LaunchKeepsInv(Snapshot(), V4l2);
        StartCameraCapture();
      case None =>
        error := Some(CameraNotAvailable);
    }

    /** socket 'start-stream'; `video0` is whether /dev/video0 exists now. With nothing
        held it calls `checkCamera()`, whose continuation runs later. */
    method OnStartStream(sid: string, video0: bool)
      requires Valid()
      modifies this
      ensures Valid()
      ensures Step(old(Snapshot()), StartStream(sid, video0)) == (Snapshot(), Silent)
    {
      if handle == None {
        checks := checks + multiset{Check(sid, video0)};
      }
    }

    /** The continuation of the camera check socket `sid` started runs. */
    method OnCheckDone(sid: string, video0: bool, raspividFound: bool) returns (error: Option<string>)
      requires Valid()
      modifies this
      ensures Valid()
      ensures var (t, out) := Step(old(Snapshot()), CheckDone(sid, video0, raspividFound));
        Snapshot() == t && (error == None <==> out == Silent) && (error.Some? ==> out == ErrorTo(sid, error.value))
    {
      error := None;
      var c := Check(sid, video0);
      if c in checks {
        checks := checks - multiset{c};
        error := Resolve(sid, CheckCamera(video0, raspividFound));
      }
    }

    /** socket 'stop-stream'. */
    method OnStopStream()
      requires Valid()
      modifies this
      ensures Valid()
      ensures Snapshot() == Step(old(Snapshot()), StopStream).0
      ensures handle == None && connections == old(connections)
    {
      if handle != None {
        KillHeld();
        handle := None;
      }
    }

    /** socket 'disconnect'. */
    method OnDisconnect(sid: string)
      requires Valid()
      modifies this
      ensures Valid()
      ensures Snapshot() == Step(old(Snapshot()), Disconnect(sid)).0
      ensures connections == old(connections) - {sid}
    {
      connections := connections - {sid};
      if |connections| == 0 && handle != None {
        KillHeld();
        handle := None;
      }
    }

    /** 'close' of capture process `pid` with exit `code` (None: ended by a signal). */
    method OnProcessClose(pid: nat, code: Option<int>)
      requires Valid()
      modifies this
      ensures Valid()
      ensures Snapshot() == Step(old(Snapshot()), ProcessClose(pid, code)).0
      ensures handle == old(handle)
    {
      if pid in running && pid < |spawned| {
        running := running - {pid};
        var next := AfterClose(spawned[pid], code);
        if next.Some? {
          timers := timers + multiset{next.value};
        }
      }
    }

    /** 'error' of capture process `pid`. */
    method OnProcessError(pid: nat)
      requires Valid()
      modifies this
      ensures Valid()
      ensures Snapshot() == Step(old(Snapshot()), ProcessError(pid)).0
      ensures handle == old(handle)
    {
      if pid < |spawned| {
        var next := AfterSpawnError(spawned[pid]);
        if next.Some? {
          timers := timers + multiset{next.value};
        }
      }
    }

    /** The pending `setTimeout` callback `t` runs. */
    method OnTimer(t: Timer)
      requires Valid()
      modifies this
      ensures Snapshot() == Step(old(Snapshot()), TimerFires(t)).0
      ensures Valid()
    {
      ghost var s0 := Snapshot();
      Properties.StepKeepsInv(s0, TimerFires(t));
      if t in timers {
        timers := timers - multiset{t};
        match Target(t)
        case V4l2 => StartCameraCapture();
        case Raspivid => StartRaspividCapture();
      }
      assert Snapshot() == Step(s0, TimerFires(t)).0;
    }

    /** GET /api/status; `video0` is whether /dev/video0 exists now. Changes nothing. */
    method GetApiStatus(video0: bool) returns (r: ApiStatusPayload)
      ensures r.streaming <==> handle.Some?
      ensures r.clients == |connections|
      ensures r.camera == "available" <==> video0
      ensures r == ApiStatus(Snapshot(), video0)
    {
      r := ApiStatusPayload(handle != None, |connections|, if video0 then "available" else "not found");
    }
  }
}
