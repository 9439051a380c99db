# Head-pose mouse tracker core, modelled in Dafny

This project models the part of `MonitorTracking.py` that turns a head pose into a cursor
position. It does not model the camera, the face-mesh detector or the drawing code.

The pipeline is:

- **One Euro filter** (`OneEuro`): the adaptive low-pass filter used on each screen axis.
  `OneEuroFilter` is a class whose `Filter` method updates `prevX`/`prevDx` in place and
  is proved against the pure step function `Step`.
- **Ray buffers** (`RayHistory`): the two `deque(maxlen=filter_length)` buffers of face
  centres and forward directions, and their component-wise mean.
- **Head angles** (`Orientation`): the signing of the two acos angles by the averaged
  direction, and the folding of yaw into (0, 360] and of pitch into [0, 360).
- **Screen mapping** (`ScreenMapping`): the linear map from calibrated angles to pixels,
  Python's truncating `int()`, the 10-pixel clamp, Python's round-half-even `round`, and
  the calibration offsets.
- **Configuration** (`TrackerConfig`): the fast and power-saving presets, Python's
  `or`-defaulting of the optional coefficients, the `allow_override` rule, and what
  `set_performance_mode` does to the coefficients.
- **Life cycle** (`Lifecycle`): the `start`/`stop` handles (stop event, camera, detector,
  threads) as a value, and the guard of the processing loop.
- **Tracker** (`HeadMouse`): the `HeadMouseTracker` class with the source's fields. Its
  methods cover the constructor, `toggle_mouse_control`, `set_performance_mode`,
  `calibrate_center`, one pass and a bounded run of `mouse_mover`, the frame update of
  `process_loop` when a face is found, `start` and `stop`. Its invariant `Valid()` says:
  - the filters match the stored coefficients;
  - the mouse rate follows the mode, and so do the coefficients when overriding is allowed;
  - the deques are within their maximum length;
  - the centre is half the screen;
  - on a screen of at least 20×20 pixels, the cursor target and the filters' last outputs stay inside the clamped area.

Numbers are exact: reals for the source's floats and integers for pixels. `math.pi` is
the exact value of the double it denotes. The sleep intervals are whole milliseconds
(5 and 16).

Points where the code's behaviour differs from what a reader might expect, all modelled
as the code does them:

- An acos angle of 0 is not negated (−0.0 is not < 0). The yaw mirror rule then gives 360,
  so raw yaw ranges over (0, 360], and raw pitch over [0, 360).
- The screen map is monotone but not strictly, because of the truncation and the clamp.
  A yaw or pitch range of 0 makes the frame raise instead of updating the target
  (`FrameError.ZeroRange`).
- `filter_length` 0 gives deques that stay empty, whose mean is not a direction. The frame
  then raises (`FrameError.EmptyRayBuffer`).
- A `start` whose camera does not open keeps the unopened camera in `cap`. A second `start`
  therefore skips the camera check and succeeds, and its loop ends immediately
  (`Lifecycle.RetryAfterFailedOpen`).
- `allow_override` is false whenever `allow_runtime_override` is false. A coefficient
  passed as 0 counts as not passed, both for the override rule and for the preset
  defaulting (Python truthiness).

## Model

| member | source | states |
|---|---|---|
| OneEuro.Alpha | MonitorTracking.py:27-31 | the smoothing factor lies strictly between 0 and 1 |
| OneEuro.AlphaFormula | MonitorTracking.py:27-31 | Alpha equals the source's 1 / (1 + tau / dt) with tau = 1/(2 pi cutoff) and dt = 1/freq |
| OneEuro.AlphaMonotone | MonitorTracking.py:27-31 | a higher cutoff never gives a smaller smoothing factor |
| OneEuro.Cutoff | MonitorTracking.py:48-49 | the dynamic cutoff is at least min_cutoff, and equals it when the smoothed derivative is 0 |
| OneEuro.Blend | MonitorTracking.py:46-56 | the blended value lies between the previous value and the new one (strictly inside when they differ), at (1 - alpha) of the old distance from the new value |
| OneEuro.Step | MonitorTracking.py:33-61 | after a call both memories are set; the first sample is returned unchanged with derivative 0; later outputs lie between the previous output and the input |
| OneEuro.OneEuroFilter.constructor | MonitorTracking.py:19-25 | the coefficients are stored and both memories are None |
| OneEuro.OneEuroFilter.Filter | MonitorTracking.py:33-61 | the new memory is Step of the old memory and the sample, and the value returned is the remembered output |
| OneEuro.FixedPoint | MonitorTracking.py:33-61 | once the output equals the input, feeding that input again returns it |
| OneEuro.ConstantFromFresh | MonitorTracking.py:36-61 | a fresh filter fed a constant input returns that input from the first sample on |
| OneEuro.ConstantStays | MonitorTracking.py:33-61 | once the output equals a constant input it stays there for any number of samples |
| OneEuro.StepContracts | MonitorTracking.py:48-56 | one sample of x shrinks the distance to x by at least the factor 1 - Alpha(min_cutoff) |
| OneEuro.ConstantInputConverges | MonitorTracking.py:33-61 | after n samples of a constant input the distance to it is at most Contraction^n times the initial distance |
| OneEuro.Feed | MonitorTracking.py:33-61 | after at least one sample (or from a started filter) the filter has an output |
| RayHistory.LastN | MonitorTracking.py:133-134 | the deque has min(len, maxlen) elements |
| RayHistory.LastNIsSuffix | MonitorTracking.py:133-134 | the kept elements are the last ones, in order |
| RayHistory.Append | MonitorTracking.py:358-359 | append stays within maxlen, adds at the right end, drops the oldest item of a full deque, and keeps a maxlen-0 deque empty |
| RayHistory.LastNAppend | MonitorTracking.py:358-359 | trimming before further appends keeps the same suffix as trimming once at the end |
| RayHistory.AppendAllKeepsLast | MonitorTracking.py:358-359 | a deque fed a sequence of items holds the last maxlen of the old contents followed by those items |
| RayHistory.FromEmptyKeepsRecent | MonitorTracking.py:133-134 | a deque created empty and fed n items holds exactly the last min(n, maxlen), in order |
| RayHistory.AppendAll | MonitorTracking.py:358-359 | repeated appends never exceed maxlen |
| RayHistory.Mean | MonitorTracking.py:360-361 | the mean exists exactly when the buffer is non-empty |
| RayHistory.SumConstant | MonitorTracking.py:360-361 | the sum of n copies of v is n times v |
| RayHistory.MeanConstant | MonitorTracking.py:360-361 | a buffer holding one repeated ray averages to that ray |
| RayHistory.MeanNegativeX | MonitorTracking.py:360-371 | when every buffered direction points to negative x, so does the mean |
| Orientation.SignedYaw | MonitorTracking.py:370-372 | the signed yaw lies in [-180, 180] and is negative only for a direction pointing to negative x |
| Orientation.SignedPitch | MonitorTracking.py:377-379 | the signed pitch lies in [-180, 180] and is negative only for a direction pointing to positive y |
| Orientation.NormalizeYaw | MonitorTracking.py:385-388 | a signed yaw lands in (0, 360], and 180 is kept |
| Orientation.NormalizePitch | MonitorTracking.py:389-390 | a signed pitch lands in [0, 360), and 180 is kept |
| Orientation.NormalizeYawInjective | MonitorTracking.py:385-388 | distinct yaws in (-180, 180] normalise to distinct values |
| Orientation.NormalizePitchInjective | MonitorTracking.py:389-390 | distinct pitches in [-180, 180) normalise to distinct values |
| Orientation.RawYaw | MonitorTracking.py:365-388 | the raw yaw stored per frame lies in (0, 360] |
| Orientation.RawPitch | MonitorTracking.py:365-390 | the raw pitch stored per frame lies in [0, 360) |
| Orientation.RawYawSides | MonitorTracking.py:365-388 | a left turn gives a yaw of at most 180, a right turn at least 180, acos 0 gives 360, and 180 exactly when acos is 180 |
| Orientation.RawPitchSides | MonitorTracking.py:365-390 | an upward tilt gives a pitch of at least 180, otherwise at most 180, acos 0 gives 0, and 180 exactly when acos is 180 |
| ScreenMapping.Trunc | MonitorTracking.py:401-402 | `int()` truncates toward zero: the result is within 1 of the value, on the side of 0 |
| ScreenMapping.TruncMonotone | MonitorTracking.py:401-402 | truncation is monotone |
| ScreenMapping.Clamp | MonitorTracking.py:405-406 | the result is at least 10; at most dim - 10 on a screen of at least 20 pixels; values inside are kept, values outside go to the nearer bound; on a narrower screen it is always 10 |
| ScreenMapping.ClampMonotone | MonitorTracking.py:405-406 | the clamp is monotone |
| ScreenMapping.ScreenX | MonitorTracking.py:401-405 | the cursor column lies in [10, screen_w - 10] on a screen of at least 20 pixels |
| ScreenMapping.ScreenY | MonitorTracking.py:402-406 | the cursor row lies in [10, screen_h - 10] on a screen of at least 20 pixels |
| ScreenMapping.MapYawMonotone | MonitorTracking.py:401 | for a positive range, a larger yaw never maps to a smaller column |
| ScreenMapping.MapPitchAntitone | MonitorTracking.py:402 | for a positive range, a larger pitch never maps to a larger row |
| ScreenMapping.ScreenXMonotone | MonitorTracking.py:401-405 | the clamped column is monotone in the yaw |
| ScreenMapping.ScreenYAntitone | MonitorTracking.py:402-406 | the clamped row is antitone in the pitch |
| ScreenMapping.TruncHalf | MonitorTracking.py:122-123 | truncating half a non-negative pixel count is the floor division `// 2` |
| ScreenMapping.MapYawCentre | MonitorTracking.py:401 | a yaw of 180 maps to screen_w // 2 |
| ScreenMapping.MapPitchCentre | MonitorTracking.py:402 | a pitch of 180 maps to screen_h // 2 |
| ScreenMapping.MapYawSpan | MonitorTracking.py:401 | 180 - yaw_range maps to column 0 and 180 + yaw_range to screen_w |
| ScreenMapping.MapPitchSpan | MonitorTracking.py:402 | 180 + pitch_range maps to row 0 and 180 - pitch_range to screen_h |
| ScreenMapping.CalibrationOffset | MonitorTracking.py:261-264 | the offset added to the raw angle gives exactly 180 |
| ScreenMapping.CalibratedPoseIsCentre | MonitorTracking.py:397-406 | right after calibrating, the same pose maps to the screen centre |
| ScreenMapping.RoundHalfEven | MonitorTracking.py:409-410 | `round` is within 0.5 of its argument, and ties go to the even integer |
| ScreenMapping.RoundUnique | MonitorTracking.py:409-410 | exactly one integer meets RoundHalfEven's contract |
| ScreenMapping.RoundWithin | MonitorTracking.py:409-410 | rounding a value between two integers stays between them |
| TrackerConfig.Preset | MonitorTracking.py:107-118 | both presets give well-defined filters |
| TrackerConfig.SleepMs | MonitorTracking.py:230-240 | the mouse sleep is 5 or 16 ms, and 5 exactly in fast mode |
| TrackerConfig.FilterParamsOf | MonitorTracking.py:142-143 | valid coefficients give valid filter parameters with d_cutoff 1.0 |
| TrackerConfig.OrDefault | MonitorTracking.py:110-118 | `value or default` keeps a truthy value and otherwise takes the default |
| TrackerConfig.AllowOverrideIff | MonitorTracking.py:103-104 | overriding is allowed exactly when asked for and no coefficient was given a nonzero value |
| TrackerConfig.InitialCoefficients | MonitorTracking.py:107-139 | non-negative (or missing) arguments give valid coefficients |
| TrackerConfig.ZeroMeansNotGiven | MonitorTracking.py:103-118 | passing 0 for a coefficient is the same as not passing it |
| TrackerConfig.GivenCoefficientsKept | MonitorTracking.py:107-118 | each nonzero coefficient given is kept; every other one comes from the mode's preset |
| TrackerConfig.OverrideStartsFromPreset | MonitorTracking.py:103-118 | when overriding is allowed the stored coefficients are exactly the mode's preset |
| TrackerConfig.ModeSwitch | MonitorTracking.py:242-259 | the coefficients become the new mode's preset when overriding is allowed and are kept otherwise |
| TrackerConfig.FastThenSlowRestoresSlow | MonitorTracking.py:242-259 | switching to fast and back to power saving restores the power-saving preset |
| TrackerConfig.CustomCoefficientsSurvive | MonitorTracking.py:242-259 | without override permission no sequence of switches changes the coefficients |
| TrackerConfig.LastSwitchWins | MonitorTracking.py:242-259 | with override permission only the last switch decides the coefficients |
| Lifecycle.OpenCamera | MonitorTracking.py:168-172 | a camera is created only when none is held; the step fails exactly when that new camera does not open |
| Lifecycle.Start | MonitorTracking.py:157-184 | the detector and a camera are always present afterwards; a failed start changes only those two; a successful one clears the stop event, starts the mouse thread and, when not blocking, a loop thread |
| Lifecycle.JoinTargets | MonitorTracking.py:191-200 | stop joins every live started thread other than the caller, and only those, never the caller |
| Lifecycle.Stop | MonitorTracking.py:186-222 | the stop event is set and the camera and detector are released; the thread handles are kept |
| Lifecycle.LoopGuard | MonitorTracking.py:283 | the loop runs only with the event clear and an open camera, and never once the event is set |
| Lifecycle.StopEndsLoop | MonitorTracking.py:186-222 | after stop the loop guard is false, and stopping twice is the same as stopping once |
| Lifecycle.RestartReopens | MonitorTracking.py:157-222 | after a stop, a start with a camera that opens succeeds with a new camera |
| Lifecycle.RetryAfterFailedOpen | MonitorTracking.py:168-173 | after a start that failed to open the camera, a second start succeeds, keeps the unopened camera, and its loop ends at once |
| Lifecycle.StopFromLoopThread | MonitorTracking.py:194-196 | a stop called from the loop thread never joins that thread |
| HeadMouse.HeadMouseTracker.constructor | MonitorTracking.py:82-156 | the preset fills each coefficient not given a nonzero value; allow_override follows the rule; the filters are fresh; the target is the screen centre; the invariant holds |
| HeadMouse.HeadMouseTracker.ToggleMouseControl | MonitorTracking.py:224-228 | mouse_enabled flips and nothing else changes |
| HeadMouse.HeadMouseTracker.SetPerformanceMode | MonitorTracking.py:230-259 | the mode and sleep follow the argument; the coefficients switch to the preset with fresh filters only when overriding is allowed, and otherwise the coefficients and filters are kept |
| HeadMouse.HeadMouseTracker.CalibrateCenter | MonitorTracking.py:261-265 | the offsets move the last raw angles to exactly 180 |
| HeadMouse.HeadMouseTracker.MouseMoverTick | MonitorTracking.py:267-274 | a pass runs only while the stop event is clear, moves to the current target only when control is enabled, and sleeps for mouse_sleep |
| HeadMouse.HeadMouseTracker.MouseMover | MonitorTracking.py:267-274 | with nothing else changing, every pass moves to the same target, and none runs once the event is set |
| HeadMouse.HeadMouseTracker.PushRays | MonitorTracking.py:358-359 | both rays are appended to their deques with maxlen filter_length |
| HeadMouse.HeadMouseTracker.FilterToTarget | MonitorTracking.py:409-416 | both filters take one step on the clamped coordinates; when control is enabled the target becomes their rounded outputs, and otherwise it is kept; it stays in the clamped area |
| HeadMouse.HeadMouseTracker.ProcessFace | MonitorTracking.py:357-416 | buffers the rays, stores the raw angles of the mean direction, and steps the filters on the calibrated, mapped and clamped angles; the target is updated only when enabled, and is unchanged when the frame raises |
| HeadMouse.HeadMouseTracker.Start | MonitorTracking.py:157-184 | the tracker's handles change as Lifecycle.Start says, and the outcome is its outcome |
| HeadMouse.HeadMouseTracker.Stop | MonitorTracking.py:186-222 | the handles change as Lifecycle.Stop says, and the threads joined are Lifecycle.JoinTargets, never the caller |
| HeadMouse.Repeat | MonitorTracking.py:269-273 | n copies of the target, the moves of n passes |

## Left out

- Camera capture, MediaPipe face mesh, OpenCV drawing and windows, `pyautogui`, `keyboard`: these are I/O. `pyautogui.size()` is passed to the constructor as `screenW`/`screenH`; each `moveTo` is recorded in `moves`.
- Threads, `mouse_lock`, `time.sleep` and thread liveness are left out (concurrency). Thread identities are numbers. `is_alive()` is passed to `Stop` as a boolean per thread. The sleep is returned as a number of milliseconds. No interleaving is modelled.
- `landmark_to_3d`, the face coordinate frame, the cross product and vector normalisation, and `math.acos`/`np.degrees`: these are floating-point geometry. The frame update takes the face centre, the forward vector and the two acos angles (in degrees) as inputs. The sign tests use the averaged direction's components, which normalisation does not change.
- `process_loop` beyond one frame with a face, including frame reading, the key handling for `q`, `c` and F7, and the frame without a face: these dispatch to members modelled separately (`CalibrateCenter`, `ToggleMouseControl`, `Stop`) or only draw. `start(block=True)` is modelled up to the point where the loop would run on the calling thread.
- IEEE-754 rounding in the filter and the mapping, NaN and infinity: exact reals are used instead.
- HeadMouse.HeadMouseTracker.constructor: requires every supplied coefficient to be non-negative (`TrackerConfig.NonNegativeArg`). The source accepts negative values, but then the filter's smoothing factor is undefined or outside (0, 1).
- HeadMouse.HeadMouseTracker.constructor: `filter_length` is a `nat`. A negative `maxlen` makes `deque` raise in the source.
- HeadMouse.HeadMouseTracker.Start: states no `Valid()` pre- or postcondition, because `Valid()` reads none of the fields it changes.
- HeadMouse.HeadMouseTracker.Stop: states no `Valid()` pre- or postcondition, for the same reason.
- The `smooth_origin` and drawing of the head ray: display only.
