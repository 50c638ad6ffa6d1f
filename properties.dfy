/** What the control plane of server.js does, stated over ControlPlane's transition
    functions: one group of lemmas per event, and the invariant of the supervisor over
    every trace. */
module Properties {
  import opened Capture
  import opened ControlPlane

  // ---------------------------------------------------------------------------
  // Status projection

  /** A connecting socket is added to the map and nothing else changes: no process is
      started, killed or scheduled. It is told whether a process is held and how many
      clients there are, itself included. */
  lemma ConnectReportsStatus(s: State, sid: string)
    ensures var (t, out) := OnConnect(s, sid);
      t == s.(connections := s.connections + {sid}) &&
      out == StatusTo(sid, StatusPayload(true, s.handle.Some?, |s.connections| + (if sid in s.connections then 0 else 1)))
  {
    if sid !in s.connections {
      assert |s.connections + {sid}| == |s.connections| + 1;
    } else {
      assert s.connections + {sid} == s.connections;
    }
  }

  // ---------------------------------------------------------------------------
  // The supervisor

  /** Starting a backend from a state satisfying the invariant spawns a fresh pid, has
      sent SIGTERM to the previously held process, and leaves the new process as the only
      running one that has not been sent SIGTERM. */
  lemma LaunchKillsThenReplaces(s: State, b: Backend)
    requires Inv(s)
    ensures var t := Launch(s, b);
      |s.spawned| !in s.running && |s.spawned| !in t.signalled &&
      (s.handle.Some? ==> s.handle.value in t.signalled) &&
      (forall p :: p in t.running && p !in t.signalled ==> p == |s.spawned|)
  {
  }

  /** Every transition keeps the invariant. */
  lemma StepKeepsInv(s: State, e: Event)
    requires Inv(s)
    ensures Inv(Step(s, e).0)
  {
    match e
    case TimerFires(t) =>
      if t in s.timers {
        LaunchKeepsInv(s.(timers := s.timers - multiset{t}), Target(t));
      }
    case CheckDone(sid, video0, found) =>
      if Check(sid, video0) in s.checks {
        var u := s.(checks := s.checks - multiset{Check(sid, video0)});
        match CheckCamera(video0, found)
        case Some(b) => LaunchKeepsInv(u, b);
        case None =>
      }
    case _ =>
  }

  /** Starting a backend keeps the invariant. */
  lemma LaunchKeepsInv(s: State, b: Backend)
    requires Inv(s)
    ensures Inv(Launch(s, b))
  {
  }

  /** The invariant holds after every trace that starts from an invariant state. */
  lemma {:induction false} RunKeepsInv(s: State, es: seq<Event>)
    requires Inv(s)
    ensures Inv(Run(s, es))
    decreases |es|
  {
    if es != [] {
      StepKeepsInv(s, es[0]);
      RunKeepsInv(Step(s, es[0]).0, es[1..]);
    }
  }

  /** Whatever the callbacks since startup, at most one running capture process has not
      been sent SIGTERM, and if there is one it is the held process. */
  lemma AtMostOneLiveCapture(es: seq<Event>, p: nat, q: nat)
    ensures var s := Run(Initial, es);
      p in s.running && p !in s.signalled && q in s.running && q !in s.signalled ==>
        p == q && s.handle == Some(p)
  {
    RunKeepsInv(Initial, es);
  }

  // ---------------------------------------------------------------------------
  // start-stream and the camera check

  /** 'start-stream' does nothing while a process is held, even one that has exited. */
  lemma StartStreamWhileHeldIsNoOp(s: State, sid: string, video0: bool)
    requires s.handle.Some?
    ensures OnStartStream(s, sid, video0) == (s, Silent)
  {
  }

  /** With no process held, 'start-stream' spawns nothing yet: it leaves one more camera
      check pending for that socket, with /dev/video0 as it is now. */
  lemma StartStreamWhileIdle(s: State, sid: string, video0: bool)
    requires s.handle.None?
    ensures var (t, out) := OnStartStream(s, sid, video0);
      out == Silent && t == s.(checks := s.checks + multiset{Check(sid, video0)}) &&
      Check(sid, video0) in t.checks && t.checks[Check(sid, video0)] == s.checks[Check(sid, video0)] + 1
  {
  }

  /** A pending camera check starts the backend `checkCamera` picks, even if some other
      process is held by then (that one is killed); with no camera, the requesting socket
      alone gets "Camera not available" and nothing but the pending checks changes. */
  lemma CheckOutcome(s: State, sid: string, video0: bool, found: bool)
    requires Check(sid, video0) in s.checks
    ensures var (t, out) := OnCheckDone(s, sid, video0, found);
      var u := s.(checks := s.checks - multiset{Check(sid, video0)});
      match CheckCamera(video0, found)
      case Some(b) =>
        t == Launch(u, b) && out == Silent &&
        t.handle == Some(|s.spawned|) && t.spawned == s.spawned + [b]
      case None =>
        t == u && out == ErrorTo(sid, CameraNotAvailable)
  {
  }

  /** From an idle server, a 'start-stream' followed by the continuation of its camera
      check starts exactly the backend `checkCamera` picks (one process), or answers
      "Camera not available" to the requester with nothing held. */
  lemma StartStreamFollowsCheckCamera(s: State, sid: string, video0: bool, found: bool)
    requires s.handle.None?
    ensures var t := Run(s, [StartStream(sid, video0), CheckDone(sid, video0, found)]);
      var out := Step(Step(s, StartStream(sid, video0)).0, CheckDone(sid, video0, found)).1;
      Step(s, StartStream(sid, video0)).1 == Silent &&
      t.connections == s.connections && t.checks == s.checks && t.timers == s.timers &&
      match CheckCamera(video0, found)
      case Some(b) =>
        t.handle == Some(|s.spawned|) && t.spawned == s.spawned + [b] && t.running == s.running + {|s.spawned|} &&
        out == Silent
      case None =>
        t.handle.None? && t.spawned == s.spawned && t.running == s.running &&
        out == ErrorTo(sid, CameraNotAvailable)
  {
    var s1 := Step(s, StartStream(sid, video0)).0;
    var es := [StartStream(sid, video0), CheckDone(sid, video0, found)];
    assert es[1..] == [CheckDone(sid, video0, found)];
    assert Run(s, es) == Run(s1, [CheckDone(sid, video0, found)]);
    assert s1.checks - multiset{Check(sid, video0)} == s.checks;
    assert Run(s1, [CheckDone(sid, video0, found)]) == Step(s1, CheckDone(sid, video0, found)).0;
  }

  // ---------------------------------------------------------------------------
  // stop-stream and disconnect

  /** 'stop-stream' kills and forgets the held process, or does nothing when there is none.
      It never touches the connection map, however many clients remain. */
  lemma StopStreamStops(s: State)
    ensures var t := OnStopStream(s);
      t.handle.None? && t.connections == s.connections &&
      t.spawned == s.spawned && t.running == s.running && t.timers == s.timers &&
      t.signalled == (if s.handle.Some? then s.signalled + {s.handle.value} else s.signalled)
  {
  }

  /** 'disconnect' removes that socket; the held process is killed and forgotten exactly
      when no client is left and one is held, and is untouched otherwise. */
  lemma DisconnectStopsOnLastClient(s: State, sid: string)
    ensures var t := OnDisconnect(s, sid);
      t.connections == s.connections - {sid} &&
      (s.connections - {sid} == {} ==> t.handle.None?) &&
      (s.connections - {sid} != {} ==> t.handle == s.handle && t.signalled == s.signalled) &&
      t.signalled == (if s.connections - {sid} == {} && s.handle.Some? then s.signalled + {s.handle.value} else s.signalled) &&
      t.timers == s.timers && t.running == s.running
  {
    if s.connections - {sid} != {} {
      var x :| x in s.connections - {sid};
      assert |s.connections - {sid}| != 0;
    }
  }

  // ---------------------------------------------------------------------------
  // Process and timer callbacks

  /** The close of a running process schedules one restart of its own backend exactly when
      its code is non-null and non-zero; a signal exit or code 0 schedules nothing. The
      held process is never forgotten by a close. */
  lemma CloseSchedulesRestart(s: State, pid: nat, code: Option<int>)
    requires Inv(s) && pid in s.running
    ensures var t := OnProcessClose(s, pid, code);
      t.handle == s.handle && t.running == s.running - {pid} && t.spawned == s.spawned &&
      t.connections == s.connections &&
      t.timers == s.timers + (if code.Some? && code.value != 0 then multiset{RestartTimer(s.spawned[pid])} else multiset{})
  {
  }

  /** An 'error' of a raspivid process schedules the ffmpeg pipeline 2000 ms later; an
      'error' of the ffmpeg pipeline only logs. */
  lemma SpawnErrorFallsBack(s: State, pid: nat)
    requires pid < |s.spawned|
    ensures var t := OnProcessError(s, pid);
      t.timers == s.timers + (if s.spawned[pid] == Raspivid then multiset{FallbackV4l2} else multiset{}) &&
      t.handle == s.handle && t.running == s.running && t.connections == s.connections
  {
  }

  /** A pending timer calls its start function without probing again and without looking
      at the clients or at the held process. */
  lemma TimerStartsWithoutCheck(s: State, t: Timer)
    requires t in s.timers
    ensures OnTimerFires(s, t) == Launch(s.(timers := s.timers - multiset{t}), Target(t))
    ensures OnTimerFires(s, t).handle == Some(|s.spawned|)
    ensures OnTimerFires(s, t).spawned == s.spawned + [Target(t)]
    ensures OnTimerFires(s, t).connections == s.connections
  {
  }
}
