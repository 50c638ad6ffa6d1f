/** Whole traces of callbacks: the connection map is only changed by clients, restarts
    have no cap, a clean exit leaves a stale handle, a stop or the last disconnect does
    not cancel a restart already scheduled, a failed raspivid spawn schedules two starts,
    and two start requests can race while their camera checks are pending. */
module Traces {
  import opened Capture
  import opened ControlPlane
  import opened Properties

  /** Only 'connection' and 'disconnect' change the connection map. */
  lemma {:induction false} ConnectionsChangeOnlyOnMembership(s: State, es: seq<Event>)
    requires forall i :: 0 <= i < |es| ==> !es[i].Connect? && !es[i].Disconnect?
    ensures Run(s, es).connections == s.connections
    decreases |es|
  {
    if es != [] {
      ConnectionsChangeOnlyOnMembership(Step(s, es[0]).0, es[1..]);
    }
  }

  /** A trace only appends to the spawn log, at most one process per callback: the pids
      already spawned keep their backends, so a pid is never reused. */
  lemma {:induction false} RunOnlyAppends(s: State, es: seq<Event>)
    ensures var t := Run(s, es);
      s.spawned <= t.spawned && |t.spawned| <= |s.spawned| + |es|
    decreases |es|
  {
    if es != [] {
      StepOnlyAppends(s, es[0]);
      RunOnlyAppends(Step(s, es[0]).0, es[1..]);
    }
  }

  /** One callback spawns at most one process and never rewrites the spawn log. */
  lemma StepOnlyAppends(s: State, e: Event)
    ensures var t := Step(s, e).0;
      t.spawned == s.spawned || t.spawned == s.spawned + [t.spawned[|s.spawned|]]
  {
  }

  // ---------------------------------------------------------------------------
  // Crash cycles

  /** An exit of process `pid` of backend `b` with `code`, followed by the restart it
      scheduled. */
  function CrashCycle(pid: nat, b: Backend, code: int): (es: seq<Event>)
    ensures |es| == 2
  {
    [ProcessClose(pid, Some(code)), TimerFires(RestartTimer(b))]
  }

  /** The state after the crash cycle of the held process with exit `code`, as its two
      callbacks. */
  function Crash(s: State, code: int): (t: State)
    requires s.handle.Some? && s.handle.value < |s.spawned|
  {
    OnTimerFires(OnProcessClose(s, s.handle.value, Some(code)), RestartTimer(HeldBackend(s)))
  }

  /** The state after one crash cycle per exit code in `codes`, each of the process held
      at that point (the cycles stop early if no process is held). */
  function AfterCrashes(s: State, codes: seq<int>): (t: State)
    decreases |codes|
  {
    if codes == [] || s.handle.None? || s.handle.value >= |s.spawned| then s
    else AfterCrashes(Crash(s, codes[0]), codes[1..])
  }

  /** The trace of the crash cycles `AfterCrashes` composes: one close-then-restart pair per
      exit code, each of the process held at that point. */
  function Cycles(s: State, codes: seq<int>): (es: seq<Event>)
    ensures |es| <= 2 * |codes|
    decreases |codes|
  {
    if codes == [] || s.handle.None? || s.handle.value >= |s.spawned| then []
    else CrashCycle(s.handle.value, HeldBackend(s), codes[0]) + Cycles(Crash(s, codes[0]), codes[1..])
  }

  /** Running the whole trace of crash cycles is `AfterCrashes`. */
  lemma {:induction false} CyclesRun(s: State, codes: seq<int>)
    ensures Run(s, Cycles(s, codes)) == AfterCrashes(s, codes)
    decreases |codes|
  {
    if codes != [] && s.handle.Some? && s.handle.value < |s.spawned| {
      var t := Crash(s, codes[0]);
      RunAppend(s, CrashCycle(s.handle.value, HeldBackend(s), codes[0]), Cycles(t, codes[1..]));
      CrashIsCycle(s, codes[0]);
      CyclesRun(t, codes[1..]);
    }
  }

  /** `Crash` is the trace of one crash cycle. */
  lemma CrashIsCycle(s: State, code: int)
    requires s.handle.Some? && s.handle.value < |s.spawned|
    ensures Run(s, CrashCycle(s.handle.value, HeldBackend(s), code)) == Crash(s, code)
  {
    RunTwo(s, ProcessClose(s.handle.value, Some(code)), TimerFires(RestartTimer(HeldBackend(s))));
  }

  /** One crash cycle of the held process, with any non-zero exit code, restarts the same
      backend in a new process. */
  lemma OneCrashCycle(s: State, code: int)
    requires s.handle.Some? && s.handle.value in s.running && s.handle.value < |s.spawned|
    requires code != 0
    ensures var t := Crash(s, code);
      t.handle == Some(|s.spawned|) && t.handle.value in t.running &&
      t.spawned == s.spawned + [HeldBackend(s)] && t.running == s.running - {s.handle.value} + {|s.spawned|} &&
      t.connections == s.connections && t.timers == s.timers && t.checks == s.checks
  {
    var h := s.handle.value;
    var rt := RestartTimer(HeldBackend(s));
    var s1 := OnProcessClose(s, h, Some(code));
    assert s1 == s.(running := s.running - {h}, timers := s.timers + multiset{rt});
    assert s1.timers - multiset{rt} == s.timers;
  }

  /** Restarts have no cap: after any non-empty sequence of abnormal exits of the held
      process, each followed by the restart it scheduled, the same backend is held and
      running again, in the latest new process, and the clients and pending timers are
      as before. */
  lemma {:induction false} UnboundedRestarts(s: State, codes: seq<int>)
    requires s.handle.Some? && s.handle.value in s.running && s.handle.value < |s.spawned|
    requires |codes| >= 1 && forall i :: 0 <= i < |codes| ==> codes[i] != 0
    ensures var t := AfterCrashes(s, codes);
      Run(s, Cycles(s, codes)) == t &&
      t.handle == Some(|s.spawned| + |codes| - 1) && t.handle.value in t.running &&
      |t.spawned| == |s.spawned| + |codes| && HeldBackend(t) == HeldBackend(s) &&
      t.connections == s.connections && t.timers == s.timers && t.checks == s.checks
    decreases |codes|
  {
    var t := Crash(s, codes[0]);
    CyclesRun(s, codes);
    OneCrashCycle(s, codes[0]);
    if |codes| > 1 {
      assert AfterCrashes(s, codes) == AfterCrashes(t, codes[1..]);
      UnboundedRestarts(t, codes[1..]);
    }
  }

  /** A held process that exits cleanly (or by a signal) stays held: the handle now names a
      process that is gone, nothing restarts it, and a later 'start-stream' is ignored. */
  lemma StaleHandleBlocksStart(s: State, code: Option<int>, sid: string, video0: bool)
    requires s.handle.Some? && s.handle.value in s.running && s.handle.value < |s.spawned|
    requires !IsAbnormalExit(code)
    ensures var t := Run(s, [ProcessClose(s.handle.value, code), StartStream(sid, video0)]);
      t.handle == s.handle && s.handle.value !in t.running &&
      t.spawned == s.spawned && t.timers == s.timers && t.checks == s.checks
  {
    var h := s.handle.value;
    var s1 := s.(running := s.running - {h});
    assert Step(s, ProcessClose(h, code)).0 == s1;
    assert Step(s1, StartStream(sid, video0)).0 == s1;
    RunTwo(s, ProcessClose(h, code), StartStream(sid, video0));
  }

  /** A restart scheduled before 'stop-stream' still fires afterwards: the stop cannot
      cancel it, and capture is running again although a client asked to stop it. */
  lemma StopDoesNotCancelRestart(s: State, code: int)
    requires s.handle.Some? && s.handle.value in s.running && s.handle.value < |s.spawned|
    requires code != 0
    ensures var t := Run(s, [ProcessClose(s.handle.value, Some(code)), StopStream, TimerFires(RestartTimer(HeldBackend(s)))]);
      t.handle == Some(|s.spawned|) && t.handle.value in t.running &&
      t.spawned == s.spawned + [HeldBackend(s)] && t.connections == s.connections
  {
    var h := s.handle.value;
    var rt := RestartTimer(HeldBackend(s));
    var s1 := s.(running := s.running - {h}, timers := s.timers + multiset{rt});
    assert Step(s, ProcessClose(h, Some(code))).0 == s1;
    var s2 := Stop(s1);
    assert Step(s1, StopStream).0 == s2;
    assert rt in s2.timers;
    RunThree(s, ProcessClose(h, Some(code)), StopStream, TimerFires(rt));
  }

  /** The last client leaving does not keep capture stopped: a restart scheduled before the
      disconnect starts capture again with no client connected, and nothing in the server
      stops it until a client stops it or connects and leaves again. */
  lemma StreamingWithNoClients(s: State, sid: string, code: int)
    requires s.handle.Some? && s.handle.value in s.running && s.handle.value < |s.spawned|
    requires code != 0 && s.connections == {sid}
    ensures var t := Run(s, [ProcessClose(s.handle.value, Some(code)), Disconnect(sid), TimerFires(RestartTimer(HeldBackend(s)))]);
      t.connections == {} && t.handle == Some(|s.spawned|) && Streaming(t)
  {
    var h := s.handle.value;
    var rt := RestartTimer(HeldBackend(s));
    var s1 := s.(running := s.running - {h}, timers := s.timers + multiset{rt});
    assert Step(s, ProcessClose(h, Some(code))).0 == s1;
    assert s1.connections - {sid} == {};
    var s2 := Stop(s1.(connections := {}));
    assert Step(s1, Disconnect(sid)).0 == s2;
    assert rt in s2.timers;
    RunThree(s, ProcessClose(h, Some(code)), Disconnect(sid), TimerFires(rt));
  }

  /** A raspivid process that fails to spawn gets its 'error' and then a 'close' with a
      non-zero code (a negative errno): both handlers run, so both the ffmpeg fallback and
      a raspivid restart are pending, and whichever fires second kills the first's process. */
  lemma FailedRaspividSchedulesTwice(s: State, pid: nat, code: int)
    requires pid in s.running && pid < |s.spawned| && s.spawned[pid] == Raspivid
    requires code != 0
    ensures var t := Run(s, [ProcessError(pid), ProcessClose(pid, Some(code))]);
      t.timers == s.timers + multiset{FallbackV4l2, RestartRaspivid} &&
      t.handle == s.handle && pid !in t.running
  {
    var s1 := s.(timers := s.timers + multiset{FallbackV4l2});
    assert Step(s, ProcessError(pid)).0 == s1;
    var s2 := s1.(running := s.running - {pid}, timers := s1.timers + multiset{RestartRaspivid});
    assert Step(s1, ProcessClose(pid, Some(code))).0 == s2;
    assert s2.timers == s.timers + multiset{FallbackV4l2, RestartRaspivid};
    RunTwo(s, ProcessError(pid), ProcessClose(pid, Some(code)));
  }

  // ---------------------------------------------------------------------------
  // The start race

  /** 'start-stream' only tests `ffmpegProcess` before calling `checkCamera()`, and the
      backend starts in a later callback, so two requests in that window both start it:
      two processes are spawned and the first is killed by the second's start. This holds
      with /dev/video0 (the ffmpeg pipeline twice) as well as without it (raspivid twice). */
  lemma StartRaceSpawnsTwice(s: State, a: string, b: string, video0: bool, found: bool)
    requires s.handle.None?
    requires CheckCamera(video0, found).Some?
    ensures var t := Run(s, [StartStream(a, video0), StartStream(b, video0), CheckDone(a, video0, found), CheckDone(b, video0, found)]);
      var k := CheckCamera(video0, found).value;
      t.spawned == s.spawned + [k, k] &&
      t.handle == Some(|s.spawned| + 1) && |s.spawned| in t.signalled &&
      t.running == s.running + {|s.spawned|, |s.spawned| + 1} && t.checks == s.checks
  {
    var trace := [StartStream(a, video0), StartStream(b, video0), CheckDone(a, video0, found), CheckDone(b, video0, found)];
    var u := s.(checks := s.checks + multiset{Check(a, video0)} + multiset{Check(b, video0)});
    var t := Step(Step(u, CheckDone(a, video0, found)).0, CheckDone(b, video0, found)).0;
    assert Run(s, trace) == t by {
      var starts := [StartStream(a, video0), StartStream(b, video0)];
      var ends := [CheckDone(a, video0, found), CheckDone(b, video0, found)];
      assert starts + ends == trace;
      RunAppend(s, starts, ends);
      BothChecksPending(s, a, b, video0);
      RunTwo(u, CheckDone(a, video0, found), CheckDone(b, video0, found));
    }
    BothChecksLaunch(u, a, b, video0, found);
    ChecksRestored(s.checks, Check(a, video0), Check(b, video0));
  }

  /** Adding two pending checks and removing them again leaves the pending checks as they were. */
  lemma ChecksRestored(m: multiset<Check>, x: Check, y: Check)
    ensures m + multiset{x} + multiset{y} - multiset{x} - multiset{y} == m
  {
  }

  /** The two 'start-stream' callbacks of the race only leave two checks pending. */
  lemma BothChecksPending(s: State, a: string, b: string, video0: bool)
    requires s.handle.None?
    ensures Run(s, [StartStream(a, video0), StartStream(b, video0)]) ==
      s.(checks := s.checks + multiset{Check(a, video0)} + multiset{Check(b, video0)})
  {
    RunTwo(s, StartStream(a, video0), StartStream(b, video0));
    StartStreamWhileIdle(s, a, video0);
    StartStreamWhileIdle(s.(checks := s.checks + multiset{Check(a, video0)}), b, video0);
  }

  /** Two pending checks that both find a camera each launch its backend, the second
      killing the first. */
  lemma BothChecksLaunch(u: State, a: string, b: string, video0: bool, found: bool)
    requires Check(a, video0) in u.checks && Check(b, video0) in u.checks - multiset{Check(a, video0)}
    requires CheckCamera(video0, found).Some?
    ensures var t := Step(Step(u, CheckDone(a, video0, found)).0, CheckDone(b, video0, found)).0;
      var k := CheckCamera(video0, found).value;
      t.spawned == u.spawned + [k, k] &&
      t.handle == Some(|u.spawned| + 1) && |u.spawned| in t.signalled &&
      t.running == u.running + {|u.spawned|, |u.spawned| + 1} &&
      t.checks == u.checks - multiset{Check(a, video0)} - multiset{Check(b, video0)}
  {
    var k := CheckCamera(video0, found).value;
    CheckOutcome(u, a, video0, found);
    var u1 := Launch(u.(checks := u.checks - multiset{Check(a, video0)}), k);
    assert Step(u, CheckDone(a, video0, found)).0 == u1;
    CheckOutcome(u1, b, video0, found);
    assert Step(u1, CheckDone(b, video0, found)).0 == Launch(u1.(checks := u1.checks - multiset{Check(b, video0)}), k);
  }

  // ---------------------------------------------------------------------------
  // Unfolding Run over short traces

  /** Running two traces one after the other is running their concatenation. */
  lemma {:induction false} RunAppend(s: State, xs: seq<Event>, ys: seq<Event>)
    ensures Run(s, xs + ys) == Run(Run(s, xs), ys)
    decreases |xs|
  {
    if xs == [] {
      assert xs + ys == ys;
    } else {
      assert (xs + ys)[1..] == xs[1..] + ys;
      RunAppend(Step(s, xs[0]).0, xs[1..], ys);
    }
  }

  /** Run over a trace of two callbacks. */
  lemma RunTwo(s: State, e1: Event, e2: Event)
    ensures Run(s, [e1, e2]) == Step(Step(s, e1).0, e2).0
  {
    var t1 := Step(s, e1).0;
    var t2 := Step(t1, e2).0;
    assert [e1, e2][1..] == [e2];
    assert [e2][1..] == [];
    assert Run(t2, []) == t2;
    assert Run(t1, [e2]) == Run(t2, []);
  }

  /** Run over a trace of three callbacks. */
  lemma RunThree(s: State, e1: Event, e2: Event, e3: Event)
    ensures Run(s, [e1, e2, e3]) == Step(Step(Step(s, e1).0, e2).0, e3).0
  {
    var t1 := Step(s, e1).0;
    var t2 := Step(t1, e2).0;
    var t3 := Step(t2, e3).0;
    assert [e1, e2, e3][1..] == [e2, e3];
    assert [e2, e3][1..] == [e3];
    assert [e3][1..] == [];
    assert Run(t3, []) == t3;
    assert Run(t2, [e3]) == Run(t3, []);
    assert Run(t1, [e2, e3]) == Run(t2, [e3]);
  }
}
