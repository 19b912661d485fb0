/** The light device of liblights/lights.c as an object: the module statics become fields, the
    control-file writes are appended to `trace`, and every operation is proved to leave the
    state and the trace that the functions of LightsSpec describe. */
module Lights {
  import opened HexFormat
  import opened Sequencer
  import opened As3665
  import opened LightsSpec

  class LightsDevice {
    var notification: LightState
    var battery: LightState
    var ledsState: LedsState
    var programMode: ProgramMode
    var programTarget: Target
    var ledsRGB: Uint32
    var delayOn: Int32
    var delayOff: Int32
    /** Every write issued to a control file, oldest first. */
    var trace: seq<Event>
    /** Board configuration: the LED current caps and the LCD brightness limits. */
    const caps: CurrentCaps
    const limits: BacklightLimits

    /** The retained state the LED path reads and updates. */
    function State(): Globals
      reads this
    {
      Globals(notification, battery, ledsState, programMode, programTarget, ledsRGB, delayOn, delayOff)
    }

    /** The statics as declared, then `init_globals`: both requests off and dark, no delays. */
    constructor (caps: CurrentCaps, limits: BacklightLimits)
      ensures State() == Initial && trace == []
      ensures this.caps == caps && this.limits == limits
    {
      this.caps := caps;
      this.limits := limits;
      notification := LightState(0, FlashNone, 0, 0);
      battery := LightState(0, FlashNone, 0, 0);
      ledsState := LedsOff;
      programMode := ProgramOff;
      programTarget := Unknown;
      ledsRGB := 0;
      delayOn := -1;
      delayOff := -1;
      trace := [];
    }

    /** `write_int`, with the file I/O replaced by a record of the write. */
    method WriteInt(ch: Channel, value: int)
      modifies this`trace
      ensures trace == old(trace) + [Write(ch, Int(value))]
    {
      trace := trace + [Write(ch, Int(value))];
    }

    /** `write_string`, with the file I/O replaced by a record of the write. */
    method WriteString(ch: Channel, text: string)
      modifies this`trace
      ensures trace == old(trace) + [Write(ch, Str(text))]
    {
      trace := trace + [Write(ch, Str(text))];
    }

    /** `set_light_lcd_backlight`: the clamped brightness of the colour to both panels. */
    method SetLcdBacklight(s: LightState) returns (err: int)
      modifies this`trace
      ensures err == 0
      ensures trace == old(trace) + [Write(LcdBacklight(1), Int(BacklightLevel(s, limits))),
                                     Write(LcdBacklight(2), Int(BacklightLevel(s, limits)))]
    {
      var brightness := RgbToBrightness(s);
      if brightness <= limits.off {
        brightness := limits.off;
      } else if brightness < limits.min {
        brightness := limits.min;
      } else if brightness > limits.max {
        brightness := limits.max;
      }
      WriteInt(LcdBacklight(1), brightness);
      WriteInt(LcdBacklight(2), brightness);
      err := 0;
    }

    /** `set_light_led_rgb`: brightness, and unless KEEP the capped current, of each colour of
        one unit; the cap is the charging one while the state is BATTERY. */
    method SetLedRgb(unit: nat, rgb: Rgb, update: RgbUpdate)
      modifies this`trace
      ensures trace == old(trace) + UnitWrites(unit, rgb, update, MaxCurrent(caps, ledsState))
    {
      var maxCurrent;
      if ledsState == LedsBattery {
        maxCurrent := caps.charging;
      } else {
        maxCurrent := caps.notifications;
      }
      var c := 0;
      while c < ColorCount
        invariant 0 <= c <= ColorCount
        invariant trace == old(trace) + ColorWrites(unit, rgb, update, maxCurrent, c)
      {
        WriteInt(LedBrightness(unit, c), rgb[c]);
        if update != KeepRgb {
          WriteInt(LedCurrent(unit, c), if rgb[c] < maxCurrent then rgb[c] else maxCurrent);
        }
        c := c + 1;
      }
    }

    /** `set_light_led_rgb` for units first..last in turn. */
    method SetUnitsRgb(first: nat, last: nat, rgb: Rgb, update: RgbUpdate)
      requires first <= last + 1
      modifies this`trace
      ensures trace == old(trace) + UnitsWrites(first, last, rgb, update, MaxCurrent(caps, ledsState))
    {
      var i := first;
      while i <= last
        invariant first <= i <= last + 1
        invariant trace == old(trace) + UnitsWrites(first, i - 1, rgb, update, MaxCurrent(caps, ledsState))
      {
        SetLedRgb(i, rgb, update);
        i := i + 1;
      }
    }

    /** `write_as3665_program`: the five values, printed into the template, to the load file. */
    method WriteProgram(target: Target, delayOn: Int32, delayOff: Int32)
      modifies this`trace
      ensures trace == old(trace) + [Write(SequencerLoad, Str(ProgramText(target, delayOn, delayOff)))]
    {
      var values := ProgramFields(target, delayOn, delayOff);
      ProgramTextIsPrinted(target, delayOn, delayOff);
      WriteString(SequencerLoad, Render(Parse(SequencerLoadProgram), values));
    }

    /** The non-flashing case of `set_light_leds_program`: every engine held and disabled. */
    method HoldAllEngines()
      modifies this`trace
      ensures trace == old(trace) + HoldAll()
    {
      ghost var t0 := trace;
      WriteString(SequencerRun(1), SequencerRunDisabled);
      WriteString(SequencerRun(2), SequencerRunDisabled);
      WriteString(SequencerRun(3), SequencerRunDisabled);
      assert trace == t0 + HoldAll()[..3];
      WriteString(SequencerMode(1), SequencerModeDisabled);
      WriteString(SequencerMode(2), SequencerModeDisabled);
      WriteString(SequencerMode(3), SequencerModeDisabled);
      assert trace == t0 + HoldAll()[..3] + HoldAll()[3..];
      assert HoldAll()[..3] + HoldAll()[3..] == HoldAll();
    }

    /** Lines 272-275 of `set_light_leds_program`: on a rewrite, stop and load the program. */
    method LoadProgram(update: ProgramUpdate, target: Target, delayOn: Int32, delayOff: Int32)
      modifies this`trace, this`programMode
      ensures programMode == if update == UpdateProgram then ProgramOff else old(programMode)
      ensures trace == old(trace) + LoadWrites(update, target, delayOn, delayOff)
    {
      if update != KeepProgram {
        programMode := ProgramOff;
        WriteProgram(target, delayOn, delayOff);
      }
    }

    /** Lines 276-280 of `set_light_leds_program`: start engine 1 unless it runs already. */
    method StartProgram()
      modifies this`trace, this`programMode
      ensures programMode == ProgramRun
      ensures trace == old(trace) + StartWrites(old(programMode))
    {
      if programMode != ProgramRun {
        WriteString(SequencerMode(1), SequencerModeActivated);
        WriteString(SequencerRun(1), SequencerRunActivated);
        programMode := ProgramRun;
      }
    }

    /** `set_light_leds_program`. */
    method SetLedsProgram(update: ProgramUpdate, target: Target, flash: FlashMode, delayOn: Int32, delayOff: Int32)
      modifies this`trace, this`programMode
      ensures var r := ProgramStep(old(programMode), update, target, flash, delayOn, delayOff);
        programMode == r.mode && trace == old(trace) + r.events
    {
      if flash == FlashTimed {
        ghost var t0 := trace;
        LoadProgram(update, target, delayOn, delayOff);
        StartProgram();
        assert trace == t0 + LoadWrites(update, target, delayOn, delayOff) + StartWrites(if update == UpdateProgram then ProgramOff else old(programMode));
        AppendRuns(t0, LoadWrites(update, target, delayOn, delayOff), StartWrites(if update == UpdateProgram then ProgramOff else old(programMode)), []);
      } else {
        HoldAllEngines();
        programMode := ProgramOff;
      }
    }

    /** The charging witness prelude of `set_light_leds_locked` (its lines 329-363): the unit
        range and target it picks, and the writes of its branch. */
    method ChargingWitness() returns (minUnit: nat, maxUnit: nat, target: Target)
      modifies this`trace, this`programMode, this`ledsState
      ensures var b := Branch(old(State()));
        minUnit == FirstUnit(b) && maxUnit == LastUnit(b) && target == BranchTarget(b)
      ensures var pre := BranchWrites(caps, old(State()));
        State() == old(State()).(programMode := pre.mode) && trace == old(trace) + pre.events
    {
      minUnit, maxUnit, target := 1, UnitCount, All;
      if IsLit(battery) {
        if ledsState == LedsBattery {
          maxUnit := 1;
          target := Middle;
          if !IsLit(notification) {
            SetUnitsRgb(2, UnitCount, [0, 0, 0], UpdateRgb);
            SetLedsProgram(KeepProgram, target, FlashNone, 0, 0);
          }
        } else {
          minUnit := 2;
          target := Sides;
          var currentState := ledsState;
          ledsState := LedsBattery;
          SetLedRgb(1, ColorChannels(battery.color), UpdateRgb);
          ledsState := currentState;
        }
      }
    }

    /** The update detection of `set_light_leds_locked` (its lines 365-385): whether the program
        and the currents are rewritten, and the new dedup keys. */
    method DetectUpdates(s: LightState, target: Target) returns (programUpdate: ProgramUpdate, rgbUpdate: RgbUpdate)
      requires target == BranchTarget(Branch(State()))
      modifies this`delayOn, this`delayOff, this`programTarget, this`ledsRGB
      ensures var p := Decide(old(State()), s);
        programUpdate == p.programUpdate && rgbUpdate == p.rgbUpdate
      ensures State() == Retain(old(State()), s)
    {
      programUpdate, rgbUpdate := UpdateProgram, UpdateRgb;
      if s.flashOnMS == delayOn && s.flashOffMS == delayOff {
        programUpdate := KeepProgram;
      } else if s.flashMode == FlashTimed {
        delayOn := s.flashOnMS;
        delayOff := s.flashOffMS;
      }

      if target != programTarget {
        programTarget := target;
        programUpdate := UpdateProgram;
        rgbUpdate := UpdateRgb;
      } else if ledsRGB == s.color {
        programUpdate := UpdateProgram;
        rgbUpdate := KeepRgb;
      } else {
        ledsRGB := s.color;
      }
    }

    /** The last two stages of `set_light_leds_locked` (its lines 391-397): the request colour on
        units first..last, then the sequencer. */
    method ShowRequest(first: nat, last: nat, rgb: Rgb, rgbUpdate: RgbUpdate,
                       programUpdate: ProgramUpdate, target: Target, flash: FlashMode, delayOn: Int32, delayOff: Int32)
      requires first <= last + 1
      modifies this`trace, this`programMode
      ensures var prog := ProgramStep(old(programMode), programUpdate, target, flash, delayOn, delayOff);
        && programMode == prog.mode
        && trace == old(trace) + UnitsWrites(first, last, rgb, rgbUpdate, MaxCurrent(caps, ledsState)) + prog.events
    {
      SetUnitsRgb(first, last, rgb, rgbUpdate);
      SetLedsProgram(programUpdate, target, flash, delayOn, delayOff);
    }

    /** The decisions of `set_light_leds_locked` before it shows anything (its lines 315-389):
        the charging witness prelude and its writes, then the update detection and the flash
        mode actually used. */
    method PlanRequest(s: LightState)
      returns (minUnit: nat, maxUnit: nat, target: Target, programUpdate: ProgramUpdate, rgbUpdate: RgbUpdate,
               flash: FlashMode)
      modifies this`trace, this`programMode, this`ledsState, this`delayOn, this`delayOff,
        this`programTarget, this`ledsRGB
      ensures Plan(Branch(old(State())), minUnit, maxUnit, target, programUpdate, rgbUpdate, flash)
        == Decide(old(State()), s)
      ensures var pre := BranchWrites(caps, old(State()));
        State() == Retain(old(State()), s).(programMode := pre.mode) && trace == old(trace) + pre.events
    {
      flash := s.flashMode;
      minUnit, maxUnit, target := ChargingWitness();
      programUpdate, rgbUpdate := DetectUpdates(s, target);
      if s.flashOnMS == 0 || s.flashOffMS == 0 {
        flash := FlashNone;
      }
    }

    /** `set_light_leds_locked`: shows one request on the LED bank, keeping the charging
        witness on unit 1 when the battery request is lit. */
    method SetLedsLocked(s: LightState) returns (r: int)
      modifies this`trace, this`programMode, this`ledsState, this`delayOn, this`delayOff,
        this`programTarget, this`ledsRGB
      ensures r == 0
      ensures var step := Step(caps, old(State()), s);
        State() == step.globals && trace == old(trace) + step.events
    {
      ghost var g := State();
      ghost var t0 := trace;
      var rgb := ColorChannels(s.color);
      var minUnit, maxUnit, target, programUpdate, rgbUpdate, flash := PlanRequest(s);
      ShowRequest(minUnit, maxUnit, rgb, rgbUpdate, programUpdate, target, flash, s.flashOnMS, s.flashOffMS);
      StepRuns(caps, g, s, t0);
      r := 0;
    }

    /** `handle_leds_battery_locked`: NOTIFICATIONS when the notification request is lit,
        BATTERY otherwise, then the LED path on that request. */
    method HandleLedsBatteryLocked()
      modifies this`trace, this`programMode, this`ledsState, this`delayOn, this`delayOff,
        this`programTarget, this`ledsRGB
      ensures var step := Handle(caps, old(State()));
        State() == step.globals && trace == old(trace) + step.events
    {
      ghost var g := State();
      if IsLit(notification) {
        ledsState := LedsNotifications;
        assert State() == HandleState(g) && notification == Acting(g);
        var _ := SetLedsLocked(notification);
      } else {
        ledsState := LedsBattery;
        assert State() == HandleState(g) && battery == Acting(g);
        var _ := SetLedsLocked(battery);
      }
    }

    /** `set_light_leds_notifications`: stores the notification request, then arbitrates. */
    method SetNotifications(s: LightState) returns (r: int)
      modifies this`trace, this`programMode, this`ledsState, this`delayOn, this`delayOff,
        this`programTarget, this`ledsRGB, this`notification
      ensures r == 0
      ensures var step := Apply(caps, old(State()), Notifications, s);
        State() == step.globals && trace == old(trace) + step.events
    {
      notification := s;
      HandleLedsBatteryLocked();
      r := 0;
    }

    /** `set_light_leds_battery`: stores the battery request, then arbitrates. */
    method SetBattery(s: LightState) returns (r: int)
      modifies this`trace, this`programMode, this`ledsState, this`delayOn, this`delayOff,
        this`programTarget, this`ledsRGB, this`battery
      ensures r == 0
      ensures var step := Apply(caps, old(State()), Battery, s);
        State() == step.globals && trace == old(trace) + step.events
    {
      battery := s;
      HandleLedsBatteryLocked();
      r := 0;
    }
  }
}
