/** The state of the cmc623 PWM backlight driver and the operations that
    change it: sending the framework's brightness through the calibration
    curve, the raw path used for luminance measurement, suspend, resume and
    the brightness-zeroing part of remove.

    The driver mutex only serialises these operations; here every operation
    runs to completion before the next one starts, so it has no counterpart.
    The hardware write set_backlight_pwm is recorded as an append to the
    ghost sequence `pwmWrites`.

    `Step` and `Run` state each operation's effect on a `State` value; the
    methods of `Backlight` are proved to change the fields exactly as `Step`
    does, so the lemmas about sequences of events apply to the class.
 */
module Driver {
  import opened Calibration

  /** The driver's observable state: current_backlight_level,
      cmc623_pwm_suspended, current_intensity, props.brightness and the
      values written to the PWM so far. */
  datatype State = State(level: int, suspended: bool, intensity: int, brightness: int,
                         writes: seq<int>)

  /** What can happen to the driver: the framework storing a brightness in
      props.brightness, update_status, the raw measurement path, suspend,
      resume and remove. */
  datatype Event = Store(b: int) | Update | Raw(value: int) | Suspend | Resume | Remove

  /** The state after module load and probe: for a well-formed board it
      is in range, and when the default intensity is the middle breakpoint
      (as on both boards) the initial level is already the curve's level
      for the stored brightness. */
  function Initial(cfg: Config): (s: State)
    ensures Valid(cfg) ==> InRange(cfg, s)
    ensures Valid(cfg) && cfg.defaultIntensity == cfg.midBrightnessLevel ==>
      s.level == Map(cfg, s.brightness)
  {
    State(cfg.midBacklightValue, false, 0, cfg.defaultIntensity, [])
  }

  /** The state change of send_intensity. Without a platform device
      nothing changes; with one the result is consistent and its
      intensity is the stored brightness; the flag and the stored brightness never change, the log gains at
      most one write, and a state in range stays in range. */
  function Send(cfg: Config, hasPlatformDevice: bool, s: State): (r: State)
    requires Valid(cfg)
    ensures hasPlatformDevice ==> Consistent(cfg, r) && r.intensity == s.brightness
    ensures !hasPlatformDevice ==> r == s
    ensures r.suspended == s.suspended && r.brightness == s.brightness
    ensures s.writes <= r.writes && |r.writes| <= |s.writes| + 1
    ensures InRange(cfg, s) ==> InRange(cfg, r)
  {
    if hasPlatformDevice then
      s.(level := Map(cfg, s.brightness), intensity := s.brightness,
         writes := s.writes + [Map(cfg, s.brightness)])
    else s
  }

  /** The state change of one event: `Store` is the framework writing
      props.brightness, the other cases are the driver's handlers. Each
      event appends at most one PWM write; a suspend leaves the driver
      suspended and a resume leaves it active; only store, resume and
      remove change the stored brightness. */
  function Step(cfg: Config, hasPlatformDevice: bool, s: State, e: Event): (r: State)
    requires Valid(cfg)
    ensures s.writes <= r.writes && |r.writes| <= |s.writes| + 1
    ensures e.Suspend? ==> r.suspended
    ensures e.Resume? ==> !r.suspended
    ensures !e.Suspend? && !e.Resume? ==> r.suspended == s.suspended
    ensures !e.Store? && !e.Resume? && !e.Remove? ==> r.brightness == s.brightness
  {
    match e
    case Store(b) => s.(brightness := b)
    case Update => Send(cfg, hasPlatformDevice, s)
    case Raw(v) => s.(level := v, writes := s.writes + [v])
    case Suspend =>
      if s.suspended then s else Send(cfg, hasPlatformDevice, s.(suspended := true))
    case Resume =>
      if !s.suspended then s
      else Send(cfg, hasPlatformDevice, s.(brightness := cfg.defaultIntensity, suspended := false))
    case Remove => Send(cfg, hasPlatformDevice, s.(brightness := 0))
  }

  /** The state after a sequence of events, oldest first. */
  function Run(cfg: Config, hasPlatformDevice: bool, s: State, events: seq<Event>): State
    requires Valid(cfg)
    decreases |events|
  {
    if events == [] then s
    else Run(cfg, hasPlatformDevice, Step(cfg, hasPlatformDevice, s, events[0]), events[1..])
  }

  /** Running a sequence and then one more event is stepping after the run. */
  lemma {:induction false} RunSnoc(cfg: Config, dev: bool, s: State, events: seq<Event>, e: Event)
    requires Valid(cfg)
    ensures Run(cfg, dev, s, events + [e]) == Step(cfg, dev, Run(cfg, dev, s, events), e)
    decreases |events|
  {
    if events == [] {
      assert [e][1..] == [];
    } else {
      assert (events + [e])[1..] == events[1..] + [e];
      RunSnoc(cfg, dev, Step(cfg, dev, s, events[0]), events[1..], e);
    }
  }

  /** The PWM write log only grows: every earlier write is kept. */
  lemma {:induction false} RunExtendsLog(cfg: Config, dev: bool, s: State, events: seq<Event>)
    requires Valid(cfg)
    ensures s.writes <= Run(cfg, dev, s, events).writes
    decreases |events|
  {
    if events != [] {
      var t := Step(cfg, dev, s, events[0]);
      assert s.writes <= t.writes;
      RunExtendsLog(cfg, dev, t, events[1..]);
    }
  }

  /** The current level is what the curve gives for the current intensity. */
  predicate Consistent(cfg: Config, s: State)
    requires Valid(cfg)
  {
    s.level == Map(cfg, s.intensity)
  }

  /** Every event but the raw path keeps the level consistent with the
      intensity; update, remove, a first suspend and a resume from suspend
      establish it whenever there is a platform device. */
  lemma StepConsistent(cfg: Config, dev: bool, s: State, e: Event)
    requires Valid(cfg)
    ensures !e.Raw? && Consistent(cfg, s) ==> Consistent(cfg, Step(cfg, dev, s, e))
    ensures dev && (e.Update? || e.Remove? || (e.Suspend? && !s.suspended) ||
                    (e.Resume? && s.suspended)) ==>
      Consistent(cfg, Step(cfg, dev, s, e))
  {
  }

  /** No event of the sequence uses the raw measurement path. */
  predicate NoRaw(events: seq<Event>)
  {
    forall k :: 0 <= k < |events| ==> !events[k].Raw?
  }

  /** Without the raw path, a consistent driver stays consistent. */
  lemma {:induction false} RunConsistent(cfg: Config, dev: bool, s: State, events: seq<Event>)
    requires Valid(cfg) && Consistent(cfg, s) && NoRaw(events)
    ensures Consistent(cfg, Run(cfg, dev, s, events))
    decreases |events|
  {
    if events != [] {
      StepConsistent(cfg, dev, s, events[0]);
      assert NoRaw(events[1..]) by {
        forall k | 0 <= k < |events[1..]| ensures !events[1..][k].Raw? {
          assert events[1..][k] == events[k + 1];
        }
      }
      RunConsistent(cfg, dev, Step(cfg, dev, s, events[0]), events[1..]);
    }
  }

  /** The suspended flag after a sequence of events, read off the sequence
      alone: set if the last suspend or resume was a suspend, cleared if it
      was a resume, and as it was if there was neither. */
  function SuspendedAfter(initially: bool, events: seq<Event>): bool
    decreases |events|
  {
    if events == [] then initially
    else match events[|events| - 1]
      case Suspend => true
      case Resume => false
      case _ => SuspendedAfter(initially, events[..|events| - 1])
  }

  /** Suspend and resume are guarded by the flag, so the flag follows the
      last power event, whatever else happens in between. */
  lemma {:induction false} RunSuspended(cfg: Config, dev: bool, s: State, events: seq<Event>)
    requires Valid(cfg)
    ensures Run(cfg, dev, s, events).suspended == SuspendedAfter(s.suspended, events)
    decreases |events|
  {
    if events != [] {
      var init, e := events[..|events| - 1], events[|events| - 1];
      assert events == init + [e];
      RunSnoc(cfg, dev, s, init, e);
      RunSuspended(cfg, dev, s, init);
    }
  }

  /** The framework keeps every stored brightness within max_brightness,
      and the raw measurement path is not used. */
  predicate FrameworkOnly(cfg: Config, events: seq<Event>)
  {
    forall k :: 0 <= k < |events| ==>
      !events[k].Raw? && (events[k].Store? ==> 0 <= events[k].b <= cfg.maxIntensity)
  }

  /** Every PWM write so far, the current level and the stored brightness
      lie within range. */
  predicate InRange(cfg: Config, s: State)
  {
    0 <= s.level <= cfg.maxLevel &&
    0 <= s.brightness <= cfg.maxIntensity &&
    forall k :: 0 <= k < |s.writes| ==> 0 <= s.writes[k] <= cfg.maxLevel
  }

  /** As long as only the framework drives the backlight, the PWM never
      sees a level outside 0..MAX_LEVEL; the probed state is in range. */
  lemma {:induction false} RunInRange(cfg: Config, dev: bool, s: State, events: seq<Event>)
    requires Valid(cfg) && InRange(cfg, s) && FrameworkOnly(cfg, events)
    ensures InRange(cfg, Run(cfg, dev, s, events))
    decreases |events|
  {
    if events != [] {
      var t := Step(cfg, dev, s, events[0]);
      assert InRange(cfg, t) by {
        var b := if events[0].Resume? then cfg.defaultIntensity
                 else if events[0].Remove? then 0 else s.brightness;
        assert 0 <= Map(cfg, b) <= cfg.maxLevel;
      }
      assert FrameworkOnly(cfg, events[1..]) by {
        forall k | 0 <= k < |events[1..]| ensures events[1..][k] == events[k + 1] { }
      }
      RunInRange(cfg, dev, t, events[1..]);
    }
  }

  class Backlight {
    /** The board's compile-time constants. */
    const cfg: Config
    /** Whether the backlight device carries its platform device as driver
        data (dev_get_drvdata(&bd->dev) is not NULL). */
    const hasPlatformDevice: bool

    /** current_backlight_level: the last level handed to the PWM. */
    var currentBacklightLevel: int
    /** cmc623_pwm_suspended. */
    var suspended: bool
    /** current_intensity: the last intensity sent through the curve. */
    var currentIntensity: int
    /** bd->props.brightness, written by the backlight framework and by
        resume and remove. */
    var brightness: int
    /** bd->props.max_brightness, set once by probe. The driver never
        reads it: it only records the limit the backlight framework
        enforces on stored brightness, which `FrameworkOnly` and `InRange`
        state as the board's MAX_INTENSITY, the value kept here. */
    const maxBrightness: int
    /** Every value written to the PWM, oldest first. */
    ghost var pwmWrites: seq<int>

    /** The board is well formed, and the current level is the last value
        written to the PWM (the initial middle value before any write). */
    ghost predicate Valid()
      reads this
    {
      Calibration.Valid(cfg) && maxBrightness == cfg.maxIntensity &&
      (pwmWrites == [] ==> currentBacklightLevel == cfg.midBacklightValue) &&
      (pwmWrites != [] ==> currentBacklightLevel == pwmWrites[|pwmWrites| - 1])
    }

    /** The fields as a state of the transition model. */
    ghost function Snapshot(): State
      reads this
    {
      State(currentBacklightLevel, suspended, currentIntensity, brightness, pwmWrites)
    }

    /** The static initialisers followed by a successful probe: probe sets
        the framework's brightness to the default intensity but writes
        nothing to the PWM, so the current intensity stays 0. */
    constructor Probe(cfg: Config, hasPlatformDevice: bool)
      requires Calibration.Valid(cfg)
      ensures Valid()
      ensures this.cfg == cfg && this.hasPlatformDevice == hasPlatformDevice
      ensures currentBacklightLevel == cfg.midBacklightValue
      ensures !suspended && currentIntensity == 0
      ensures brightness == cfg.defaultIntensity && maxBrightness == cfg.maxIntensity
      ensures pwmWrites == []
      ensures Snapshot() == Initial(cfg) && InRange(cfg, Snapshot())
    {
      this.cfg := cfg;
      this.hasPlatformDevice := hasPlatformDevice;
      currentBacklightLevel := cfg.midBacklightValue;
      suspended := false;
      currentIntensity := 0;
      maxBrightness := cfg.maxIntensity;
      brightness := cfg.defaultIntensity;
      pwmWrites := [];
    }

    /** cmc623_pwm_apply_brightness: one PWM write of the level, which
        becomes the current level. */
    method ApplyBrightness(level: int)
      requires Valid()
      modifies this`currentBacklightLevel, this`pwmWrites
      ensures Valid()
      ensures pwmWrites == old(pwmWrites) + [level]
      ensures currentBacklightLevel == level
    {
      pwmWrites := pwmWrites + [level];
      currentBacklightLevel := level;
    }

    /** cmc623_pwm_backlight_ctl: the intensity's calibrated level is
        written to the PWM and becomes the current level. */
    method BacklightCtl(intensity: int)
      requires Valid()
      modifies this`currentBacklightLevel, this`pwmWrites
      ensures Valid()
      ensures pwmWrites == old(pwmWrites) + [Map(cfg, intensity)]
      ensures currentBacklightLevel == Map(cfg, intensity)
    {
      var tuneLevel := Map(cfg, intensity);
      ApplyBrightness(tuneLevel);
    }

    /** cmc623_pwm_send_intensity: the framework's brightness goes through
        the curve to the PWM and becomes the current intensity. Without a
        platform device nothing happens at all. */
    method SendIntensity()
      requires Valid()
      modifies this`currentBacklightLevel, this`pwmWrites, this`currentIntensity
      ensures Valid()
      ensures hasPlatformDevice ==>
        pwmWrites == old(pwmWrites) + [Map(cfg, brightness)] &&
        currentBacklightLevel == Map(cfg, brightness) &&
        currentIntensity == brightness &&
        Consistent(cfg, Snapshot())
      ensures !hasPlatformDevice ==> unchanged(this)
      ensures Snapshot() == Send(cfg, hasPlatformDevice, old(Snapshot()))
    {
      var intensity := brightness;
      if !hasPlatformDevice {
        return;
      }
      BacklightCtl(intensity);
      currentIntensity := intensity;
    }

    /** cmc623_pwm_set_intensity, the framework's update_status hook: a send
        that always reports success. */
    method SetIntensity() returns (status: int)
      requires Valid()
      modifies this`currentBacklightLevel, this`pwmWrites, this`currentIntensity
      ensures Valid()
      ensures status == 0
      ensures hasPlatformDevice ==>
        pwmWrites == old(pwmWrites) + [Map(cfg, brightness)] &&
        currentBacklightLevel == Map(cfg, brightness) &&
        currentIntensity == brightness
      ensures !hasPlatformDevice ==> unchanged(this)
      ensures Snapshot() == Step(cfg, hasPlatformDevice, old(Snapshot()), Event.Update)
    {
      SendIntensity();
      status := 0;
    }

    /** cmc623_pwm_get_intensity, the framework's get_brightness hook: the
        last intensity sent, not the framework's brightness. */
    method GetIntensity() returns (intensity: int)
      ensures intensity == currentIntensity
    {
      intensity := currentIntensity;
    }

    /** cmc623_pwm_set_brightness, the raw path for luminance measurement:
        the value goes to the PWM unmapped and becomes the current level;
        the intensity, the suspended flag and the framework's brightness
        are left alone. */
    method SetBrightness(value: int)
      requires Valid()
      modifies this`currentBacklightLevel, this`pwmWrites
      ensures Valid()
      ensures pwmWrites == old(pwmWrites) + [value]
      ensures currentBacklightLevel == value
      ensures Snapshot() == Step(cfg, hasPlatformDevice, old(Snapshot()), Event.Raw(value))
    {
      ApplyBrightness(value);
    }

    /** cmc623_pwm_suspend: on the first call the flag is set and the
        framework's brightness (not the current intensity) is sent again;
        when already suspended nothing changes. Always reports success. */
    method Suspend() returns (status: int)
      requires Valid()
      modifies this`suspended, this`currentBacklightLevel, this`pwmWrites, this`currentIntensity
      ensures Valid()
      ensures status == 0
      ensures old(suspended) ==> unchanged(this)
      ensures !old(suspended) ==> suspended
      ensures !old(suspended) && hasPlatformDevice ==>
        pwmWrites == old(pwmWrites) + [Map(cfg, brightness)] &&
        currentBacklightLevel == Map(cfg, brightness) &&
        currentIntensity == brightness
      ensures !old(suspended) && !hasPlatformDevice ==>
        unchanged(this`currentBacklightLevel, this`pwmWrites, this`currentIntensity)
      ensures Snapshot() == Step(cfg, hasPlatformDevice, old(Snapshot()), Event.Suspend)
    {
      if !suspended {
        suspended := true;
        SendIntensity();
      }
      status := 0;
    }

    /** cmc623_pwm_resume: when suspended, the framework's brightness is
        reset to the default intensity, the flag is cleared and that
        brightness is sent; otherwise nothing changes. Always reports
        success. */
    method Resume() returns (status: int)
      requires Valid()
      modifies this`brightness, this`suspended, this`currentBacklightLevel, this`pwmWrites,
        this`currentIntensity
      ensures Valid()
      ensures status == 0
      ensures !old(suspended) ==> unchanged(this)
      ensures old(suspended) ==> !suspended && brightness == cfg.defaultIntensity
      ensures old(suspended) && hasPlatformDevice ==>
        pwmWrites == old(pwmWrites) + [Map(cfg, cfg.defaultIntensity)] &&
        currentBacklightLevel == Map(cfg, cfg.defaultIntensity) &&
        currentIntensity == cfg.defaultIntensity
      ensures old(suspended) && !hasPlatformDevice ==>
        unchanged(this`currentBacklightLevel, this`pwmWrites, this`currentIntensity)
      ensures Snapshot() == Step(cfg, hasPlatformDevice, old(Snapshot()), Event.Resume)
    {
      if suspended {
        brightness := cfg.defaultIntensity;
        suspended := false;
        SendIntensity();
      }
      status := 0;
    }

    /** The state effect of cmc623_pwm_remove: the framework's brightness is
        zeroed and sent, which turns the PWM off (the curve maps 0 to 0). */
    method Remove()
      requires Valid()
      modifies this`brightness, this`currentBacklightLevel, this`pwmWrites, this`currentIntensity
      ensures Valid()
      ensures brightness == 0
      ensures hasPlatformDevice ==>
        pwmWrites == old(pwmWrites) + [0] && currentBacklightLevel == 0 && currentIntensity == 0
      ensures !hasPlatformDevice ==>
        unchanged(this`currentBacklightLevel, this`pwmWrites, this`currentIntensity)
      ensures Snapshot() == Step(cfg, hasPlatformDevice, old(Snapshot()), Event.Remove)
    {
      brightness := 0;
      SendIntensity();
    }
  }

  /** The framework stores a brightness and calls update_status; reading it
      back through get_brightness then gives the same brightness, and the
      PWM got exactly its calibrated level. */
  method SendThenGet(bl: Backlight, b: int) returns (got: int)
    requires bl.Valid() && bl.hasPlatformDevice
    modifies bl
    ensures bl.Valid()
    ensures got == b
    ensures bl.pwmWrites == old(bl.pwmWrites) + [Map(bl.cfg, b)]
    ensures bl.currentBacklightLevel == Map(bl.cfg, b)
  {
    bl.brightness := b;
    var _ := bl.SetIntensity();
    got := bl.GetIntensity();
  }

  /** Suspend followed by resume from the active state: the PWM sees the
      brightness again and then the default intensity's level, and the
      driver ends active at the default intensity. */
  method SuspendThenResume(bl: Backlight)
    requires bl.Valid() && bl.hasPlatformDevice && !bl.suspended
    modifies bl
    ensures bl.Valid() && Consistent(bl.cfg, bl.Snapshot())
    ensures !bl.suspended
    ensures bl.brightness == bl.currentIntensity == bl.cfg.defaultIntensity
    ensures bl.currentBacklightLevel == Map(bl.cfg, bl.cfg.defaultIntensity)
    ensures bl.pwmWrites ==
      old(bl.pwmWrites) + [Map(bl.cfg, old(bl.brightness)), Map(bl.cfg, bl.cfg.defaultIntensity)]
  {
    var _ := bl.Suspend();
    var _ := bl.Resume();
  }

  /** On both boards the default intensity is the middle breakpoint, so the
      initial level equals the level the curve gives for the default, and
      a resume leaves the PWM at 784. The probed state is nevertheless
      not consistent: its intensity is 0, whose level is 0. */
  lemma DefaultIntensityLevel(cfg: Config)
    requires cfg == P4 || cfg == P5
    ensures Valid(cfg)
    ensures Map(cfg, cfg.defaultIntensity) == cfg.midBacklightValue == 784
    ensures Map(cfg, 0) != cfg.midBacklightValue
    ensures !Consistent(cfg, Initial(cfg))
  {
    MapKnots(cfg);
    InitialInconsistent(cfg);
  }

  /** The probed state is consistent only if the middle backlight value is
      0: its intensity is 0, whose level is 0, while its level is the
      middle value. */
  lemma InitialInconsistent(cfg: Config)
    requires Valid(cfg)
    ensures Consistent(cfg, Initial(cfg)) <==> cfg.midBacklightValue == 0
  {
    MapFloor(cfg, 0);
  }
}
