# cmc623 PWM backlight driver: calibration curve and driver state

A Dafny model of the Samsung cmc623 PWM backlight driver
(`drivers/video/backlight/cmc623_pwm_bl.c`). The backlight framework hands
the driver an abstract brightness (0..255); the driver maps it through a
four-segment piecewise-linear calibration curve onto a PWM level (0..1600)
and writes that level to the PWM. The driver keeps the last level written,
the last intensity sent and a suspended flag.

- `calibration.dfy`, module `Calibration`: the per-board constants as a
  `Config` datatype with a well-formedness predicate `Valid`, the two boards
  the driver knows (`P4` for P4/P4WIFI/P4LTE, `P5`), the curve `Map` as a
  pure function, and its properties: exact knots, the zero and dark-floor
  cases, negative pass-through, containment in each segment, monotonicity
  everywhere and the bound on 0..255.
- `driver.dfy`, module `Driver`: class `Backlight` holding the driver's
  globals (`current_backlight_level`, `cmc623_pwm_suspended`,
  `current_intensity`), the backlight device's `props.brightness` and
  `props.max_brightness`, and a ghost sequence `pwmWrites` recording every
  `set_backlight_pwm` call. Its methods are the driver's operations, each
  stating the whole new state; each method that handles a framework or
  power event is also proved to reach the state the pure transition
  function `Step` gives for that `Event` (`SendIntensity` the state of
  `Send`); two client methods state
  the round trips of set/get and suspend/resume. `Run` folds `Step` over a
  sequence of events; lemmas about it state that the PWM write log only
  grows, that the level stays consistent with the intensity without the raw
  path, that the suspended flag follows the last suspend or resume, and
  that the PWM never sees a level outside 0..MAX_LEVEL while only the
  framework drives the backlight.

Behaviours of the code kept as written, where a reader might expect
otherwise:

- A negative intensity is returned unchanged by the curve (lines 110-111);
  it is not clamped to 0.
- After probe the current intensity is 0, not the default 150: probe only
  sets `props.brightness` (line 240) and writes nothing to the PWM, so
  `get_brightness` reports 0 until the first send. The initial level is
  `MID_BACKLIGHT_VALUE` (line 73), which on both boards happens to be the
  curve's value for the default intensity, but the probed state is not
  `Consistent` (level equal to the curve's value for the current intensity);
  every send with a platform device makes it so.
- Suspend re-sends `props.brightness` (lines 123, 164), not the current
  intensity; the two differ right after probe (brightness 150 at line 240,
  intensity 0 at line 76), when there is no platform device (lines 129-131),
  and when the framework stored a brightness that has not been sent yet.
- A backlight device without its platform device is not a precondition:
  `send_intensity` logs and returns (lines 129-131), which the model keeps as
  "nothing changes".
- Within a segment the level lies between the segment's end values, not
  strictly between them. For a well-formed `Config` whose segment rises by
  less than its width, truncation can make neighbouring intensities share a
  level; on P4 and P5 only P5's flat bottom segment (60 to 60) does.

C's `/` truncates toward zero and Dafny's `/` is Euclidean. They agree here
because `Valid` makes every numerator non-negative: each interpolation is
evaluated only at or above its segment's start, and the output breakpoints
never decrease.

## Model

| member | source | states |
|---|---|---|
| Calibration.Interpolate | drivers/video/backlight/cmc623_pwm_bl.c:93-107 | one segment's truncated interpolation starts at its lower level, is never below it, hits its upper level exactly at its upper breakpoint and never exceeds it up to there |
| Calibration.InterpolateMonotone | drivers/video/backlight/cmc623_pwm_bl.c:93-107 | within a segment a larger intensity never gives a smaller level, despite the truncating division |
| Calibration.Map | drivers/video/backlight/cmc623_pwm_bl.c:88-111 | for intensities 0..MAX_BRIGHTNESS_LEVEL the level lies in 0..MAX_BACKLIGHT_VALUE, itself at most MAX_LEVEL; every positive intensity gives at least DARK_BACKLIGHT_VALUE |
| Calibration.MapFloor | drivers/video/backlight/cmc623_pwm_bl.c:108-111 | intensity 0 gives 0, intensities strictly between 0 and DIM_BRIGHTNESS_LEVEL give DARK_BACKLIGHT_VALUE, a negative intensity is returned unchanged |
| Calibration.MapKnots | drivers/video/backlight/cmc623_pwm_bl.c:93-107 | DIM, LOW, MID and MAX brightness levels map exactly to the DIM, LOW, MID and MAX backlight values |
| Calibration.MapSegments | drivers/video/backlight/cmc623_pwm_bl.c:93-107 | each interpolated segment stays between its two backlight values; above MAX_BRIGHTNESS_LEVEL the level is at least MAX_BACKLIGHT_VALUE |
| Calibration.MapNotClamped | drivers/video/backlight/cmc623_pwm_bl.c:93-97 | the top segment is not clamped at MAX_BRIGHTNESS_LEVEL: at 2·MAX − MID brightness the level is exactly 2·MAX − MID backlight value, the segment's slope continued |
| Calibration.MapMonotone | drivers/video/backlight/cmc623_pwm_bl.c:93-111 | for every well-formed board the curve is non-decreasing over all integers, across segment boundaries and the zero and negative cases |
| Calibration.P4Curve | drivers/video/backlight/cmc623_pwm_bl.c:24-57 | the P4 constants are well formed and the knots 15, 50, 150, 255 give 50, 90, 784, 1600 |
| Calibration.P4Samples | drivers/video/backlight/cmc623_pwm_bl.c:88-111 | on P4, 0 and 10 give 0, 49 gives 88, 149 gives 777 and 256 gives 1607 (not clamped) |
| Calibration.P5Curve | drivers/video/backlight/cmc623_pwm_bl.c:36-63 | the P5 constants are well formed, 0 gives 0, every intensity 1..30 gives 60, 150 gives 784 and 255 gives 1600 |
| Calibration.BoardsMonotoneAndBounded | drivers/video/backlight/cmc623_pwm_bl.c:24-63 | on P4 and on P5 the curve is non-decreasing on 0..255 and stays within 0..1600 there |
| Driver.Initial | drivers/video/backlight/cmc623_pwm_bl.c:73-76 | the state after the static initialisers (level MID_BACKLIGHT_VALUE, flag 0, intensity 0) and probe's brightness := default (line 240) is in range for a well-formed board, and its level is the curve's level for the stored brightness when the default is the middle breakpoint |
| Driver.Send | drivers/video/backlight/cmc623_pwm_bl.c:120-152 | send_intensity: with a platform device the result is consistent and its intensity is the stored brightness; without one nothing changes; the flag and stored brightness never change, the log gains at most one write, and a state in range stays in range |
| Driver.Step | drivers/video/backlight/cmc623_pwm_bl.c:155-257 | one event: `Store` is the backlight framework writing props.brightness (not code of this file), `Update` is update_status (186-193), `Raw` the measurement path (208-219), `Suspend` and `Resume` the flag-guarded handlers (155-183), `Remove` the zero-and-send of remove (255-257); each event appends at most one PWM write, a suspend leaves the driver suspended, a resume leaves it active, the others keep the flag, and only store, resume and remove change the stored brightness |
| Driver.InitialInconsistent | drivers/video/backlight/cmc623_pwm_bl.c:73-76 | the probed state has level equal to the curve's value for its intensity exactly when MID_BACKLIGHT_VALUE is 0 |
| Driver.RunSnoc | drivers/video/backlight/cmc623_pwm_bl.c:120-257 | running a sequence of driver events and then one more is the same as stepping that event after the run |
| Driver.RunExtendsLog | drivers/video/backlight/cmc623_pwm_bl.c:81-85 | over any sequence of events every earlier PWM write stays in the log: the driver only appends writes |
| Driver.StepConsistent | drivers/video/backlight/cmc623_pwm_bl.c:120-257 | every event except the raw path keeps the level equal to the curve's value for the current intensity; update, remove, a first suspend and a resume from suspend establish it when there is a platform device |
| Driver.RunConsistent | drivers/video/backlight/cmc623_pwm_bl.c:120-257 | a consistent driver stays consistent over any sequence of events without the raw path |
| Driver.RunSuspended | drivers/video/backlight/cmc623_pwm_bl.c:155-183 | after any sequence of events the suspended flag is set exactly when the last suspend or resume was a suspend, and unchanged when there was neither |
| Driver.RunInRange | drivers/video/backlight/cmc623_pwm_bl.c:88-257 | while the framework keeps brightness within max_brightness and the raw path is unused, every PWM write and the current level stay within 0..MAX_LEVEL |
| Driver.Backlight.Probe | drivers/video/backlight/cmc623_pwm_bl.c:222-249 | after the static initialisers and probe: level MID_BACKLIGHT_VALUE, not suspended, intensity 0, framework brightness the default, max_brightness the maximum intensity, no PWM write; this state is in range |
| Driver.Backlight.ApplyBrightness | drivers/video/backlight/cmc623_pwm_bl.c:81-85 | exactly one PWM write of the level, which becomes the current level; nothing else changes |
| Driver.Backlight.BacklightCtl | drivers/video/backlight/cmc623_pwm_bl.c:88-117 | exactly one PWM write of the curve's level for the intensity, which becomes the current level |
| Driver.Backlight.SendIntensity | drivers/video/backlight/cmc623_pwm_bl.c:120-152 | with a platform device: one PWM write of the curve's level for the framework brightness, current level and current intensity updated, state consistent; without one: nothing changes; matches the transition model's send |
| Driver.Backlight.SetIntensity | drivers/video/backlight/cmc623_pwm_bl.c:186-193 | update_status sends the framework brightness as above and returns 0; matches `Step` for the corresponding event |
| Driver.Backlight.GetIntensity | drivers/video/backlight/cmc623_pwm_bl.c:196-199 | get_brightness returns the last intensity sent |
| Driver.Backlight.SetBrightness | drivers/video/backlight/cmc623_pwm_bl.c:208-219 | the raw path writes the value unmapped and makes it the current level; intensity, suspended flag and framework brightness unchanged; matches `Step` for the corresponding event |
| Driver.Backlight.Suspend | drivers/video/backlight/cmc623_pwm_bl.c:155-167 | when suspended nothing changes; otherwise the flag is set and the framework brightness (not the current intensity) is sent again; returns 0; matches `Step` for the corresponding event |
| Driver.Backlight.Resume | drivers/video/backlight/cmc623_pwm_bl.c:169-183 | when not suspended nothing changes; otherwise brightness becomes the default, the flag is cleared and, with a platform device, the default's level is written; returns 0; matches `Step` for the corresponding event |
| Driver.Backlight.Remove | drivers/video/backlight/cmc623_pwm_bl.c:251-257 | the framework brightness becomes 0 and, with a platform device, a PWM write of 0 leaves level and intensity at 0; matches `Step` for the corresponding event |
| Driver.SendThenGet | drivers/video/backlight/cmc623_pwm_bl.c:186-205 | storing a brightness, calling update_status and then get_brightness returns that brightness, after one PWM write of its level |
| Driver.SuspendThenResume | drivers/video/backlight/cmc623_pwm_bl.c:155-183 | suspend then resume from the active state writes the brightness's level then the default's level and ends active and consistent at the default intensity |
| Driver.DefaultIntensityLevel | drivers/video/backlight/cmc623_pwm_bl.c:73-76 | on P4 and P5 the initial level MID_BACKLIGHT_VALUE (784) is the curve's level for the default intensity, while the initial intensity 0 maps to 0, so the probed state is not consistent |

## Left out

- The driver mutex (lines 78, 145, 149, 214, 218): operations are modelled as atomic and sequential, so writing `current_intensity` after the unlock (line 151) is not distinguishable.
- `set_backlight_pwm` (line 69) is hardware outside this file: it is recorded only as an append to the ghost `pwmWrites`.
- Device registration and unregistration, the platform driver, the OF match table, module init and exit, and probe's error return (lines 222-249 beyond the state they set, 259, 266-293): framework glue whose behaviour is not in this file.
- `props.power` zeroed by remove (line 256): no operation of the driver reads it.
- The disabled `#if 0` block in `send_intensity` (lines 133-143) is dead code.
- How suspend and resume are invoked: the PM-ops wiring is commented out (lines 264, 276); only their state effects are modelled.
- Driver.Backlight.Probe: the constructor stands for module load followed by the first probe; the static initialisers (lines 73-76) run once per module load, so a later probe after remove keeps the level 0 that remove wrote, and a raw write before any probe (lines 208, 220) is not modelled.
- Logging (`printk`, `dev_dbg`, `dev_info`) has no state effect.
- The backlight framework's own code is not part of this model: its writes to `props.brightness` appear only as the `Store` event and as direct assignments to the `brightness` field.
- Calibration.Map: does not model 32-bit `int` overflow of `(intensity - MID_BRIGHTNESS_LEVEL) * (MAX_BACKLIGHT_VALUE - MID_BACKLIGHT_VALUE)`, which needs an intensity above about 2.6 million; the framework keeps the brightness within 0..max_brightness.
