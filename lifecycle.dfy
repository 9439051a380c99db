/**
 * The start/stop life cycle of HeadMouseTracker with the camera, the face-mesh detector and
 * the threads reduced to the state the tracker keeps about them.
 */
module Lifecycle {
  import opened Wrappers

  /** The identity of a thread, as compared by `!=` against `threading.current_thread()`. */
  type ThreadId = nat

  /** A `cv2.VideoCapture` handle: the camera index it was created for and whether it opened. */
  datatype Camera = Camera(index: int, isOpen: bool)

  /** The exception `start` raises when the camera does not open. */
  datatype StartError = CameraFailedToOpen(index: int)

  /** The handles HeadMouseTracker keeps: the stop event, `cap`, `face_mesh` (present or
    * None), the two thread handles and the identity the next new thread will get. */
  datatype LifeState = LifeState(
    stopSet: bool,
    cap: Option<Camera>,
    faceMesh: bool,
    mouseThread: Option<ThreadId>,
    loopThread: Option<ThreadId>,
    nextThread: ThreadId)

  /** The state the constructor leaves: nothing opened, nothing started, the event clear. */
  function Initial(firstThread: ThreadId): LifeState {
    LifeState(false, None, false, None, None, firstThread)
  }

  /** The camera step of `start`: a camera is created only when `cap` is None, and `start`
    * fails when that new camera does not open. A camera kept from before is not checked. */
  function OpenCamera(cap: Option<Camera>, index: int, opens: bool): (r: (Option<Camera>, Outcome<StartError>))
    ensures r.0.Some?
    ensures r.1.Fail? <==> cap.None? && !opens
    ensures r.1.Fail? ==> r.1.error == CameraFailedToOpen(index)
    ensures cap.Some? ==> r.0 == cap
    ensures cap.None? ==> r.0 == Some(Camera(index, opens))
  {
    if cap.Some? then (cap, Pass)
    else
      var cam := Camera(index, opens);
      if opens then (Some(cam), Pass) else (Some(cam), Fail(CameraFailedToOpen(index)))
  }

  /** `start(block)` up to the point where the processing loop begins: the detector is
    * created if missing, the camera is opened if missing (failing if it cannot be opened),
    * the stop event is cleared, a mouse thread is started and, when not blocking, a loop
    * thread too. A failed start changes only the detector and the camera handle. */
  function Start(s: LifeState, index: int, opens: bool, block: bool): (r: (LifeState, Outcome<StartError>))
    ensures r.0.faceMesh && r.0.cap.Some?
    ensures r.1 == OpenCamera(s.cap, index, opens).1
    ensures r.1.Fail? ==> r.0 == s.(faceMesh := true, cap := OpenCamera(s.cap, index, opens).0)
    ensures r.1.Pass? ==> !r.0.stopSet && r.0.mouseThread == Some(s.nextThread)
    ensures r.1.Pass? && !block ==> r.0.loopThread == Some(s.nextThread + 1)
    ensures r.1.Pass? && block ==> r.0.loopThread == s.loopThread
    ensures r.0.nextThread >= s.nextThread
  {
    var (cap, outcome) := OpenCamera(s.cap, index, opens);
    var s1 := s.(faceMesh := true, cap := cap);
    if outcome.Fail? then (s1, outcome)
    else
      var s2 := s1.(stopSet := false, mouseThread := Some(s.nextThread), nextThread := s.nextThread + 1);
      if block then (s2, Pass)
      else (s2.(loopThread := Some(s2.nextThread), nextThread := s2.nextThread + 1), Pass)
  }

  /** The threads `stop` joins, in order: each started thread that is alive and is not the
    * thread calling `stop`. */
  function JoinTargets(s: LifeState, loopAlive: bool, mouseAlive: bool, current: ThreadId): (js: seq<ThreadId>)
    ensures current !in js
    ensures forall t :: t in js ==> s.loopThread == Some(t) || s.mouseThread == Some(t)
    ensures s.loopThread.Some? && loopAlive && s.loopThread.value != current ==> s.loopThread.value in js
    ensures s.mouseThread.Some? && mouseAlive && s.mouseThread.value != current ==> s.mouseThread.value in js
    ensures |js| <= 2
  {
    var loop := if s.loopThread.Some? && loopAlive && s.loopThread.value != current
                then [s.loopThread.value] else [];
    var mouse := if s.mouseThread.Some? && mouseAlive && s.mouseThread.value != current
                 then [s.mouseThread.value] else [];
    loop + mouse
  }

  /** `stop`: the stop event is set and the camera and the detector are released; the
    * thread handles are kept. */
  function Stop(s: LifeState): (r: LifeState)
    ensures r.stopSet && r.cap.None? && !r.faceMesh
    ensures r.mouseThread == s.mouseThread && r.loopThread == s.loopThread && r.nextThread == s.nextThread
  {
    s.(stopSet := true, cap := None, faceMesh := false)
  }

  /** The guard of `process_loop`: it runs while the stop event is clear and the camera is
    * open; None when the guard itself fails, `cap` being None while the event is clear. */
  function LoopGuard(s: LifeState): (g: Option<bool>)
    ensures g == Some(true) ==> !s.stopSet && s.cap.Some? && s.cap.value.isOpen
    ensures s.stopSet ==> g == Some(false)
  {
    if s.stopSet then Some(false)
    else if s.cap.None? then None
    else Some(s.cap.value.isOpen)
  }

  /** Stopping makes the processing loop end at its next test, and is idempotent. */
  lemma StopEndsLoop(s: LifeState)
    ensures LoopGuard(Stop(s)) == Some(false)
    ensures Stop(Stop(s)) == Stop(s)
  {
  }

  /** After a stop, a start opens a new camera, so a camera that opens makes it succeed. */
  lemma RestartReopens(s: LifeState, index: int, block: bool)
    ensures Start(Stop(s), index, true, block).1 == Pass
    ensures Start(Stop(s), index, true, block).0.cap == Some(Camera(index, true))
  {
  }

  /** A start that failed to open the camera keeps the unopened handle, so a second start
    * skips the camera step and reports success, and its processing loop ends at once. */
  lemma RetryAfterFailedOpen(s: LifeState, index: int, opens: bool, block: bool)
    requires s.cap.None?
    ensures var (s1, r1) := Start(s, index, false, block);
            var (s2, r2) := Start(s1, index, opens, block);
            r1.Fail? && r2.Pass? && s2.cap == Some(Camera(index, false)) &&
            LoopGuard(s2) == Some(false)
  {
  }

  /** A stop called from the processing loop's own thread never joins that thread. */
  lemma StopFromLoopThread(s: LifeState, loopAlive: bool, mouseAlive: bool)
    requires s.loopThread.Some?
    ensures s.loopThread.value !in JoinTargets(s, loopAlive, mouseAlive, s.loopThread.value)
  {
  }
}
