/** The capture backends of server.js, the camera probe (`checkCamera`) and the
    supervisor's rules for what to schedule when a capture process closes or fails
    to spawn. Every decision here is pure; the state they act on is in ControlPlane. */
module Capture {

  datatype Option<+T> = None | Some(value: T)

  /** The two capture pipelines. `V4l2` is the libcamera-vid | ffmpeg shell pipeline that
      `startCameraCapture` launches; `Raspivid` is the raspivid process that
      `startRaspividCapture` launches. The command lines themselves are opaque here. */
  datatype Backend = V4l2 | Raspivid

  /** A `setTimeout` callback. The server never keeps the timer id, so a scheduled
      callback cannot be cancelled and always fires eventually. */
  datatype Timer =
    | RestartV4l2      // startCameraCapture again, 5000 ms after an abnormal exit
    | RestartRaspivid  // startRaspividCapture again, 5000 ms after an abnormal exit
    | FallbackV4l2     // startCameraCapture, 2000 ms after raspivid failed to spawn

  /** The start function a timer calls when it fires. */
  function Target(t: Timer): (b: Backend)
    ensures b == Raspivid <==> t == RestartRaspivid
  {
    match t
    case RestartV4l2 => V4l2
    case RestartRaspivid => Raspivid
    case FallbackV4l2 => V4l2
  }

  /** `checkCamera`: resolves with the backend to use, or rejects (None) with
      "No camera found". `video0` is whether /dev/video0 exists; `raspividFound` is
      whether `which raspivid` exits with code 0 (it is only asked when `video0` is false). */
  function CheckCamera(video0: bool, raspividFound: bool): (r: Option<Backend>)
    ensures r == Some(V4l2) <==> video0
    ensures r == Some(Raspivid) <==> !video0 && raspividFound
    ensures r == None <==> !video0 && !raspividFound
  {
    if video0 then Some(V4l2)
    else if raspividFound then Some(Raspivid)
    else None
  }

  /** The crash test of both close handlers: `code !== 0 && code !== null`, where a
      `null` code (None) means the process was ended by a signal. */
  predicate IsAbnormalExit(code: Option<int>)
  {
    code != Some(0) && code != None
  }

  /** The timer that restarts backend `b` with the same start function. */
  function RestartTimer(b: Backend): (t: Timer)
    ensures Target(t) == b
    ensures t != FallbackV4l2
  {
    match b
    case V4l2 => RestartV4l2
    case Raspivid => RestartRaspivid
  }

  /** What the close handler of a `b` process schedules when it exits with `code`. */
  function AfterClose(b: Backend, code: Option<int>): (r: Option<Timer>)
    ensures r.Some? <==> code.Some? && code.value != 0
    ensures r.Some? ==> Target(r.value) == b && r.value != FallbackV4l2
  {
    if IsAbnormalExit(code) then Some(RestartTimer(b)) else None
  }

  /** What the error handler of a `b` process schedules: raspivid falls back to the
      ffmpeg pipeline, the ffmpeg pipeline only logs. */
  function AfterSpawnError(b: Backend): (r: Option<Timer>)
    ensures r.Some? <==> b == Raspivid
    ensures r.Some? ==> r.value == FallbackV4l2 && Target(r.value) == V4l2
  {
    match b
    case V4l2 => None
    case Raspivid => Some(FallbackV4l2)
  }
}
