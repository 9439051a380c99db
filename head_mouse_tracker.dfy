/**
 * HeadMouseTracker: the configuration and control state, the per-frame update from head
 * angles to the cursor target, one tick of the mouse thread, and start/stop.
 */
module HeadMouse {
  import opened Wrappers
  import opened OneEuro
  import opened RayHistory
  import opened Orientation
  import opened ScreenMapping
  import opened TrackerConfig
  import Lifecycle

  /** A cursor position in pixels: `mouse_target` and the arguments of `moveTo`. */
  datatype Point = Point(x: int, y: int)

  /** Why a frame with a face raised instead of updating the target. */
  datatype FrameError =
    | EmptyRayBuffer  // filter_length 0: the mean of the empty direction deque has no components
    | ZeroRange       // yaw_degrees or pitch_degrees 0: the screen mapping divides by zero and int() raises

  /** n copies of v. */
  function Repeat<T>(v: T, n: nat): (r: seq<T>)
    ensures |r| == n && forall i :: 0 <= i < n ==> r[i] == v
  {
    if n == 0 then [] else Repeat(v, n - 1) + [v]
  }

  /** A value between two points of an interval lies in that interval. */
  lemma BetweenWithin(v: real, a: real, b: real, lo: real, hi: real)
    requires lo <= a <= hi && lo <= b <= hi && Between(v, a, b)
    ensures lo <= v <= hi
  {
  }

  class HeadMouseTracker {
    const cameraIndex: int
    const filterLength: nat
    const yawRange: real
    const pitchRange: real
    const allowOverride: bool
    /** `pyautogui.size()` when the tracker was created. */
    const screenW: int
    const screenH: int
    const centerX: int
    const centerY: int

    var fastMode: bool
    var mouseSleepMs: nat
    var mouseEnabled: bool
    var calYaw: real
    var calPitch: real
    var rawYaw: real
    var rawPitch: real
    var origins: seq<Vec3>
    var directions: seq<Vec3>
    var euroFreq: real
    var euroCutoff: real
    var euroBeta: real
    var filterX: OneEuroFilter
    var filterY: OneEuroFilter
    var mouseTarget: Point
    /** The `moveTo` calls made so far, oldest first. */
    var moves: seq<Point>

    var stopSet: bool
    var cap: Option<Lifecycle.Camera>
    var faceMesh: bool
    var mouseThread: Option<Lifecycle.ThreadId>
    var loopThread: Option<Lifecycle.ThreadId>
    var nextThread: Lifecycle.ThreadId

    function Coeffs(): Coefficients
      reads this`euroFreq, this`euroCutoff, this`euroBeta
    {
      Coefficients(euroFreq, euroCutoff, euroBeta)
    }

    function Life(): Lifecycle.LifeState
      reads this`stopSet, this`cap, this`faceMesh, this`mouseThread, this`loopThread, this`nextThread
    {
      Lifecycle.LifeState(stopSet, cap, faceMesh, mouseThread, loopThread, nextThread)
    }

    /** A point inside the clamped area of the screen. */
    predicate OnScreen(p: Point) {
      MARGIN <= p.x <= screenW - MARGIN && MARGIN <= p.y <= screenH - MARGIN
    }

    /** The last output of a filter, if any, lies within [10, dim - 10]. */
    ghost predicate FilterWithin(f: OneEuroFilter, dim: int)
      reads f
    {
      f.prevX.Some? ==> MARGIN as real <= f.prevX.value <= (dim - MARGIN) as real
    }

    /** The two filters are distinct, well-formed, and built from the stored coefficients. */
    ghost predicate FiltersMatch()
      reads this`filterX, this`filterY, this`euroFreq, this`euroCutoff, this`euroBeta, filterX, filterY
    {
      && filterX != filterY
      && filterX.Valid() && filterY.Valid()
      && ValidCoefficients(Coeffs())
      && filterX.Params() == FilterParamsOf(Coeffs())
      && filterY.Params() == FilterParamsOf(Coeffs())
    }

    /** The mouse rate, and the coefficients when they may be overridden, follow the mode. */
    ghost predicate ModeConsistent()
      reads this`fastMode, this`mouseSleepMs, this`euroFreq, this`euroCutoff, this`euroBeta
    {
      && (allowOverride ==> Coeffs() == Preset(fastMode))
      && mouseSleepMs == SleepMs(fastMode)
    }

    /** On a screen of at least 20 by 20 pixels the target and the filters' last outputs
      * lie in the clamped area. */
    ghost predicate TargetInside()
      reads this`mouseTarget, this`filterX, this`filterY, filterX, filterY
    {
      screenW >= 2 * MARGIN && screenH >= 2 * MARGIN ==>
        OnScreen(mouseTarget) && FilterWithin(filterX, screenW) && FilterWithin(filterY, screenH)
    }

    ghost predicate Valid()
      reads this`filterX, this`filterY, this`euroFreq, this`euroCutoff, this`euroBeta, this`fastMode,
            this`mouseSleepMs, this`origins, this`directions, this`mouseTarget, filterX, filterY
    {
      && FiltersMatch()
      && ModeConsistent()
      && |origins| <= filterLength && |directions| <= filterLength
      && centerX == screenW / 2 && centerY == screenH / 2
      && TargetInside()
    }

    /** `HeadMouseTracker(...)`: the mode's preset fills every coefficient not given a
      * nonzero value, overriding is allowed only without such coefficients, the filters
      * start fresh and the cursor target starts at the screen centre. */
    constructor (cameraIndex: int, filterLength: nat, yawDegrees: real, pitchDegrees: real,
                 euroMinCutoff: Option<real>, euroBeta: Option<real>, euroFreq: Option<real>,
                 fastMode: bool, allowRuntimeOverride: bool,
                 screenW: int, screenH: int, firstThread: Lifecycle.ThreadId)
      requires NonNegativeArg(euroMinCutoff) && NonNegativeArg(euroBeta) && NonNegativeArg(euroFreq)
      ensures Valid()
      ensures this.cameraIndex == cameraIndex && this.filterLength == filterLength
      ensures yawRange == yawDegrees && pitchRange == pitchDegrees
      ensures this.screenW == screenW && this.screenH == screenH
      ensures allowOverride == AllowOverride(allowRuntimeOverride, euroMinCutoff, euroBeta, euroFreq)
      ensures fresh(filterX) && fresh(filterY)
      ensures filterX.Memo() == FRESH && filterY.Memo() == FRESH
      ensures this.fastMode == fastMode && mouseSleepMs == SleepMs(fastMode)
      ensures Coeffs() == InitialCoefficients(fastMode, euroMinCutoff, euroBeta, euroFreq)
      ensures mouseEnabled && calYaw == 0.0 && calPitch == 0.0 && rawYaw == 180.0 && rawPitch == 180.0
      ensures origins == [] && directions == []
      ensures mouseTarget == Point(screenW / 2, screenH / 2) && moves == []
      ensures Life() == Lifecycle.Initial(firstThread)
    {
      this.cameraIndex := cameraIndex;
      this.filterLength := filterLength;
      yawRange := yawDegrees;
      pitchRange := pitchDegrees;
      this.fastMode := fastMode;

      var userParams := UserParams(euroMinCutoff, euroBeta, euroFreq);
      allowOverride := allowRuntimeOverride && !userParams;

      var preset := Preset(fastMode);
      mouseSleepMs := SleepMs(fastMode);
      var freq := OrDefault(euroFreq, preset.freq);
      var cutoff := OrDefault(euroMinCutoff, preset.cutoff);
      var beta := OrDefault(euroBeta, preset.beta);

      this.screenW := screenW;
      this.screenH := screenH;
      centerX := screenW / 2;
      centerY := screenH / 2;

      mouseEnabled := true;
      calYaw := 0.0;
      calPitch := 0.0;
      rawYaw := 180.0;
      rawPitch := 180.0;

      origins := [];
      directions := [];

      this.euroFreq := freq;
      euroCutoff := cutoff;
      this.euroBeta := beta;

      filterX := new OneEuroFilter(cutoff, beta, D_CUTOFF, freq);
      filterY := new OneEuroFilter(cutoff, beta, D_CUTOFF, freq);

      mouseTarget := Point(screenW / 2, screenH / 2);
      moves := [];

      stopSet := false;
      cap := None;
      faceMesh := false;
      mouseThread := None;
      loopThread := None;
      nextThread := firstThread;

      new;
      if allowOverride {
        OverrideStartsFromPreset(fastMode, allowRuntimeOverride, euroMinCutoff, euroBeta, euroFreq);
      }
    }

    /** `toggle_mouse_control`: flips mouse_enabled and nothing else. */
    method ToggleMouseControl()
      requires Valid()
      modifies this`mouseEnabled
      ensures Valid()
      ensures mouseEnabled == !old(mouseEnabled)
    {
      mouseEnabled := !mouseEnabled;
    }

    /** `set_performance_mode(fast)`: the mouse rate always follows the mode; the filter
      * coefficients switch to the mode's preset, with fresh filters, only when overriding
      * is allowed, and are kept with the filters otherwise. */
    method SetPerformanceMode(fast: bool)
      requires Valid()
      modifies this`fastMode, this`mouseSleepMs, this`euroFreq, this`euroCutoff, this`euroBeta,
               this`filterX, this`filterY
      ensures Valid()
      ensures fastMode == fast && mouseSleepMs == SleepMs(fast)
      ensures Coeffs() == ModeSwitch(allowOverride, old(Coeffs()), fast)
      ensures allowOverride ==> fresh(filterX) && fresh(filterY) &&
                                filterX.Memo() == FRESH && filterY.Memo() == FRESH
      ensures !allowOverride ==> filterX == old(filterX) && filterY == old(filterY)
    {
      if allowOverride {
        var preset := Preset(fast);
        var fx := new OneEuroFilter(preset.cutoff, preset.beta, D_CUTOFF, preset.freq);
        var fy := new OneEuroFilter(preset.cutoff, preset.beta, D_CUTOFF, preset.freq);
        euroFreq, euroCutoff, euroBeta := preset.freq, preset.cutoff, preset.beta;
        filterX, filterY := fx, fy;
      }
      fastMode := fast;
      mouseSleepMs := SleepMs(fast);
    }

    /** `calibrate_center`: stores the offsets that move the last raw angles to 180. */
    method CalibrateCenter()
      requires Valid()
      modifies this`calYaw, this`calPitch
      ensures Valid()
      ensures calYaw == CalibrationOffset(rawYaw) && calPitch == CalibrationOffset(rawPitch)
      ensures rawYaw + calYaw == 180.0 && rawPitch + calPitch == 180.0
    {
      calYaw := 180.0 - rawYaw;
      calPitch := 180.0 - rawPitch;
    }

    /** One pass of the `mouse_mover` loop: it ends when the stop event is set; otherwise
      * the current target is read, moved to if control is enabled, and the thread sleeps
      * for mouse_sleep. */
    method MouseMoverTick() returns (running: bool, sleepMs: nat)
      requires Valid()
      modifies this`moves
      ensures Valid()
      ensures running == !stopSet
      ensures running ==> sleepMs == mouseSleepMs
      ensures moves == if running && mouseEnabled then old(moves) + [mouseTarget] else old(moves)
    {
      running := !stopSet;
      sleepMs := 0;
      if running {
        var target := mouseTarget;
        if mouseEnabled {
          moves := moves + [target];
        }
        sleepMs := mouseSleepMs;
      }
    }

    /** `mouse_mover` run for at most maxTicks passes with nothing else happening meanwhile:
      * with control enabled every pass moves to the same target. */
    method MouseMover(maxTicks: nat) returns (ticks: nat)
      requires Valid()
      modifies this`moves
      ensures Valid()
      ensures ticks == if stopSet then 0 else maxTicks
      ensures moves == old(moves) + if mouseEnabled then Repeat(mouseTarget, ticks) else []
    {
      ticks := 0;
      while ticks < maxTicks && !stopSet
        invariant Valid()
        invariant ticks <= maxTicks
        invariant stopSet ==> ticks == 0
        invariant moves == old(moves) + if mouseEnabled then Repeat(mouseTarget, ticks) else []
        decreases maxTicks - ticks
      {
        var running, sleepMs := MouseMoverTick();
        ticks := ticks + 1;
      }
    }

    /** Lines 358-359: both rays are appended to their deques. */
    method PushRays(center: Vec3, forward: Vec3)
      requires Valid()
      modifies this`origins, this`directions
      ensures Valid()
      ensures origins == Append(old(origins), filterLength, center)
      ensures directions == Append(old(directions), filterLength, forward)
    {
      origins := Append(origins, filterLength, center);
      directions := Append(directions, filterLength, forward);
    }

    /** Lines 409-416: the clamped pixel coordinates go through the two filters, and their
      * rounded outputs become the cursor target when mouse control is enabled. Inputs in
      * the clamped area keep the target, and the filters' memory, in that area. */
    method FilterToTarget(screenX: int, screenY: int)
      requires Valid()
      requires screenW >= 2 * MARGIN ==> MARGIN <= screenX <= screenW - MARGIN
      requires screenH >= 2 * MARGIN ==> MARGIN <= screenY <= screenH - MARGIN
      modifies this`mouseTarget, filterX, filterY
      ensures Valid()
      ensures var p := FilterParamsOf(Coeffs());
              filterX.Memo() == Step(p, old(filterX.Memo()), screenX as real) &&
              filterY.Memo() == Step(p, old(filterY.Memo()), screenY as real)
      ensures mouseTarget == if mouseEnabled
                             then Point(RoundHalfEven(filterX.prevX.value), RoundHalfEven(filterY.prevX.value))
                             else old(mouseTarget)
    {
      ghost var prevX, prevY := filterX.prevX, filterY.prevX;
      var fx := filterX.Filter(screenX as real);
      var fy := filterY.Filter(screenY as real);
      if screenW >= 2 * MARGIN && screenH >= 2 * MARGIN {
        if prevX.Some? {
          BetweenWithin(fx, prevX.value, screenX as real, MARGIN as real, (screenW - MARGIN) as real);
        }
        if prevY.Some? {
          BetweenWithin(fy, prevY.value, screenY as real, MARGIN as real, (screenH - MARGIN) as real);
        }
        RoundWithin(fx, MARGIN, screenW - MARGIN);
        RoundWithin(fy, MARGIN, screenH - MARGIN);
      }
      var smoothX := RoundHalfEven(fx);
      var smoothY := RoundHalfEven(fy);
      if mouseEnabled {
        mouseTarget := Point(smoothX, smoothY);
      }
    }

    /** The frame update of `process_loop` once a face is found, given the face centre and
      * forward vector and the two acos angles of the averaged direction: both rays are
      * buffered, the raw angles are the normalised signed angles, and the calibrated
      * angles, mapped and clamped, feed the two filters, whose rounded outputs become the
      * cursor target when mouse control is enabled. The target never leaves the clamped area. */
    method ProcessFace(center: Vec3, forward: Vec3, yawAcos: Degrees180, pitchAcos: Degrees180)
      returns (res: Outcome<FrameError>)
      requires Valid()
      modifies this`origins, this`directions, this`rawYaw, this`rawPitch, this`mouseTarget,
               filterX, filterY
      ensures Valid()
      ensures origins == Append(old(origins), filterLength, center)
      ensures directions == Append(old(directions), filterLength, forward)
      ensures res.Fail? <==> filterLength == 0 || yawRange == 0.0 || pitchRange == 0.0
      ensures filterLength == 0 ==> res == Fail(EmptyRayBuffer) && rawYaw == old(rawYaw) && rawPitch == old(rawPitch)
      ensures filterLength > 0 ==>
                var dir := Mean(directions).value;
                rawYaw == RawYaw(yawAcos, dir.x) && rawPitch == RawPitch(pitchAcos, dir.y)
      ensures res.Fail? ==> mouseTarget == old(mouseTarget) &&
                            filterX.Memo() == old(filterX.Memo()) && filterY.Memo() == old(filterY.Memo())
      ensures res.Pass? ==>
                var p := FilterParamsOf(Coeffs());
                filterX.Memo() == Step(p, old(filterX.Memo()), ScreenX(rawYaw + calYaw, yawRange, screenW) as real) &&
                filterY.Memo() == Step(p, old(filterY.Memo()), ScreenY(rawPitch + calPitch, pitchRange, screenH) as real) &&
                mouseTarget == if mouseEnabled
                               then Point(RoundHalfEven(filterX.prevX.value), RoundHalfEven(filterY.prevX.value))
                               else old(mouseTarget)
      ensures screenW >= 2 * MARGIN && screenH >= 2 * MARGIN ==> OnScreen(mouseTarget)
    {
      ghost var memoX, memoY := filterX.Memo(), filterY.Memo();
      PushRays(center, forward);
      var smoothDirection := Mean(directions);
      if smoothDirection.None? {
        res := Fail(EmptyRayBuffer);
      } else {
        var dir := smoothDirection.value;
        var yawDeg := RawYaw(yawAcos, dir.x);
        var pitchDeg := RawPitch(pitchAcos, dir.y);
        rawYaw := yawDeg;
        rawPitch := pitchDeg;
        yawDeg := yawDeg + calYaw;
        pitchDeg := pitchDeg + calPitch;

        if yawRange == 0.0 || pitchRange == 0.0 {
          res := Fail(ZeroRange);
        } else {
          var screenX := ScreenX(yawDeg, yawRange, screenW);
          var screenY := ScreenY(pitchDeg, pitchRange, screenH);
          assert filterX.Memo() == memoX && filterY.Memo() == memoY;
          FilterToTarget(screenX, screenY);
          res := Pass;
        }
      }
    }

    /** `start(block)` up to the processing loop; see Lifecycle.Start. With block the loop
      * then runs on the calling thread: its frames are ProcessFace and its end is Stop.
      * Valid() reads none of the fields changed here, so it holds afterwards as before. */
    method Start(block: bool, cameraOpens: bool) returns (res: Outcome<Lifecycle.StartError>)
      modifies this`stopSet, this`cap, this`faceMesh, this`mouseThread, this`loopThread, this`nextThread
      ensures Life() == Lifecycle.Start(old(Life()), cameraIndex, cameraOpens, block).0
      ensures res == Lifecycle.Start(old(Life()), cameraIndex, cameraOpens, block).1
    {
      var (next, outcome) := Lifecycle.Start(Life(), cameraIndex, cameraOpens, block);
      res := outcome;
      stopSet, cap, faceMesh := next.stopSet, next.cap, next.faceMesh;
      mouseThread, loopThread, nextThread := next.mouseThread, next.loopThread, next.nextThread;
    }

    /** `stop()` called from thread `current`, given whether each thread is still alive:
      * sets the stop event, joins the live threads other than the caller (returned in
      * join order), and releases the camera and the detector. Valid() is unaffected. */
    method Stop(current: Lifecycle.ThreadId, loopAlive: bool, mouseAlive: bool)
      returns (joined: seq<Lifecycle.ThreadId>)
      modifies this`stopSet, this`cap, this`faceMesh
      ensures Life() == Lifecycle.Stop(old(Life()))
      ensures joined == Lifecycle.JoinTargets(old(Life()), loopAlive, mouseAlive, current)
      ensures current !in joined
    {
      stopSet := true;
      joined := [];
      if loopThread.Some? && loopAlive && loopThread.value != current {
        joined := joined + [loopThread.value];
      }
      if mouseThread.Some? && mouseAlive && mouseThread.value != current {
        joined := joined + [mouseThread.value];
      }
      cap := None;
      faceMesh := false;
    }
  }
}
