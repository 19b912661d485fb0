/** Properties of the LED arbitration of liblights/lights.c, stated over the functions of
    LightsSpec (which the methods of Lights.LightsDevice are proved to follow). */
module LightsProps {
  import opened Sequencer
  import opened As3665
  import opened LightsSpec

  // ---------------------------------------------------------------------------------------------
  // Colours

  /** A request is lit exactly when one of its three channels is nonzero. */
  lemma IsLitIffSomeChannel(s: LightState)
    ensures IsLit(s) <==> exists c :: 0 <= c < 3 && ColorChannels(s.color)[c] != 0
  {
    ColorChannelsRecompose(s.color);
    var rgb := ColorChannels(s.color);
    if IsLit(s) {
      if rgb[0] == 0 && rgb[1] == 0 {
        assert rgb[2] != 0;
      } else if rgb[0] == 0 {
        assert rgb[1] != 0;
      } else {
        assert rgb[0] != 0;
      }
    } else {
      assert rgb[0] * 0x10000 + rgb[1] * 0x100 + rgb[2] == 0;
      assert rgb[0] == 0 && rgb[1] == 0 && rgb[2] == 0;
    }
  }

  /** A grey colour (three equal channels v) has brightness v: the weights add up to 256. */
  lemma GreyBrightness(v: nat, mode: FlashMode, on: Int32, off: Int32)
    requires v < 256
    ensures IsLit(LightState(v * 0x10101, mode, on, off)) <==> v != 0
    ensures RgbToBrightness(LightState(v * 0x10101, mode, on, off)) == v
  {
    var color := v * 0x10101;
    assert color == v * 0x10000 + (v * 0x100 + v);
    assert 0 <= v * 0x100 + v < 0x10000;
    assert color / 0x10000 == v;
    assert color == (v * 0x100 + v) * 0x100 + v;
    assert color / 0x100 == v * 0x100 + v;
    assert (v * 0x100 + v) % 0x100 == v;
    assert color % 0x100 == v;
    assert ColorChannels(color) == [v, v, v];
    assert color % 0x100_0000 == color;
  }

  /** Clamping a clamped level changes nothing when OFF lies below the [MIN, MAX] range. */
  lemma ClampIdempotent(b: int, lim: BacklightLimits)
    requires lim.off < lim.min <= lim.max
    ensures ClampBacklight(ClampBacklight(b, lim), lim) == ClampBacklight(b, lim)
  {
  }

  // ---------------------------------------------------------------------------------------------
  // Which state is shown

  /** The stored requests and the chosen state after a set call: NOTIFICATIONS exactly when the
      notification request is lit, BATTERY otherwise, never OFF. */
  lemma ApplyChoosesState(caps: CurrentCaps, g: Globals, who: Requester, s: LightState)
    ensures var h := Store(g, who, s);
      var r := Apply(caps, g, who, s).globals;
      && r.notification == h.notification && r.battery == h.battery
      && (r.ledsState == LedsNotifications <==> IsLit(h.notification))
      && (r.ledsState == LedsBattery <==> !IsLit(h.notification))
      && r.ledsState != LedsOff
  {
  }

  /** One call into either entry point. */
  datatype Call = Call(who: Requester, request: LightState)

  /** A sequence of calls, applied in order: the final state and all writes. */
  function Run(caps: CurrentCaps, g: Globals, calls: seq<Call>): StepResult
    decreases |calls|
  {
    if calls == [] then StepResult(g, [])
    else
      var first := Apply(caps, g, calls[0].who, calls[0].request);
      var rest := Run(caps, first.globals, calls[1..]);
      StepResult(rest.globals, first.events + rest.events)
  }

  /** Once any call has been made the state is never OFF again, and it always tells whether the
      stored notification request is lit. */
  lemma {:induction false} NeverOffAgain(caps: CurrentCaps, g: Globals, calls: seq<Call>)
    requires |calls| > 0
    ensures var r := Run(caps, g, calls).globals;
      && r.ledsState != LedsOff
      && (r.ledsState == LedsNotifications <==> IsLit(r.notification))
    decreases |calls|
  {
    var first := Apply(caps, g, calls[0].who, calls[0].request);
    ApplyChoosesState(caps, g, calls[0].who, calls[0].request);
    if |calls| > 1 {
      NeverOffAgain(caps, first.globals, calls[1..]);
    } else {
      assert calls[1..] == [];
    }
  }

  /** Inside a set call the branch follows from the two stored requests alone, and the "unit 1
      only" branch always finds the notification dark: the test of line 338 never fails. */
  lemma HandleBranches(g: Globals)
    ensures var b := Branch(HandleState(g));
      && (b == BatteryUnlit <==> !IsLit(g.battery))
      && (b == BatteryConfined(true) <==> IsLit(g.battery) && !IsLit(g.notification))
      && (b == BatteryPreview <==> IsLit(g.battery) && IsLit(g.notification))
      && b != BatteryConfined(false)
  {
  }

  /** The LED path leaves the stored requests and the state alone: the temporary BATTERY state
      of the preview on unit 1 is restored. */
  lemma StepKeepsRequests(caps: CurrentCaps, g: Globals, s: LightState)
    ensures var r := Step(caps, g, s).globals;
      r.notification == g.notification && r.battery == g.battery && r.ledsState == g.ledsState
  {
  }

  // ---------------------------------------------------------------------------------------------
  // LED unit writes

  /** Whether e is one of the writes `set_light_led_rgb` issues for units first..last. */
  predicate UnitEvent(e: Event, first: nat, last: int, rgb: Rgb, update: RgbUpdate, cap: int) {
    match e.channel
    case LedBrightness(u, c) => first <= u <= last && c < 3 && e.payload == Int(rgb[c])
    case LedCurrent(u, c) => update == UpdateRgb && first <= u <= last && c < 3 && e.payload == Int(Min(rgb[c], cap))
    case _ => false
  }

  lemma {:induction false} ColorWritesMembers(unit: nat, rgb: Rgb, update: RgbUpdate, cap: int, n: nat, e: Event)
    requires n <= 3
    ensures e in ColorWrites(unit, rgb, update, cap, n) <==>
      (UnitEvent(e, unit, unit, rgb, update, cap) && e.channel.color < n)
  {
    if n > 0 {
      ColorWritesMembers(unit, rgb, update, cap, n - 1, e);
    }
  }

  /** The writes for units first..last are exactly the brightness of every channel of every
      unit in range and, unless KEEP, its current capped at `cap`. */
  lemma {:induction false} UnitsWritesMembers(first: nat, last: int, rgb: Rgb, update: RgbUpdate, cap: int, e: Event)
    ensures e in UnitsWrites(first, last, rgb, update, cap) <==> UnitEvent(e, first, last, rgb, update, cap)
    decreases last - first
  {
    if last >= first {
      assert UnitsWrites(first, last, rgb, update, cap) ==
        UnitsWrites(first, last - 1, rgb, update, cap) + UnitWrites(last, rgb, update, cap);
      UnitsWritesMembers(first, last - 1, rgb, update, cap, e);
      ColorWritesMembers(last, rgb, update, cap, 3, e);
      assert UnitEvent(e, first, last, rgb, update, cap) <==>
        UnitEvent(e, first, last - 1, rgb, update, cap) || UnitEvent(e, last, last, rgb, update, cap);
    }
  }

  /** What a call does to one LED unit. */
  datatype UnitShow =
    | Untouched
    | Shown(rgb: Rgb, currents: bool, cap: int)   // this colour; currents rewritten under `cap`

  /** The effect of a call on unit u, read off the driver's three cases: a dark battery request
      leaves every unit to the request; in the BATTERY state unit 1 shows the request and, when
      the notification is dark, units 2 and 3 are switched off; otherwise unit 1 previews the
      battery colour under the charging cap and units 2 and 3 show the request. */
  function ExpectedUnit(caps: CurrentCaps, g: Globals, s: LightState, u: nat): UnitShow {
    var request := Shown(ColorChannels(s.color), Decide(g, s).rgbUpdate == UpdateRgb, MaxCurrent(caps, g.ledsState));
    if !IsLit(g.battery) then request
    else if g.ledsState == LedsBattery then
      if u == 1 then request
      else if !IsLit(g.notification) then Shown([0, 0, 0], true, caps.charging)
      else Untouched
    else if u == 1 then Shown(ColorChannels(g.battery.color), true, caps.charging)
    else request
  }

  /** Whether e is a write to LED unit 1..3 that ExpectedUnit calls for. */
  predicate ExpectedLedWrite(caps: CurrentCaps, g: Globals, s: LightState, e: Event) {
    && IsLedChannel(e.channel)
    && 1 <= e.channel.unit <= UnitCount && e.channel.color < 3
    && var x := ExpectedUnit(caps, g, s, e.channel.unit);
    && x.Shown?
    && if e.channel.LedBrightness? then e.payload == Int(x.rgb[e.channel.color])
       else x.currents && e.payload == Int(Min(x.rgb[e.channel.color], x.cap))
  }

  predicate IsLedChannel(ch: Channel) {
    ch.LedBrightness? || ch.LedCurrent?
  }

  lemma ProgramWritesNoLed(mode: ProgramMode, update: ProgramUpdate, target: Target, flash: FlashMode,
                           on: Int32, off: Int32, e: Event)
    requires e in ProgramStep(mode, update, target, flash, on, off).events
    ensures !IsLedChannel(e.channel)
  {
  }

  /** The LED writes of a call come from the charging witness prelude or from the request
      colour on the selected units; the sequencer writes none. */
  lemma StepLedSources(caps: CurrentCaps, g: Globals, s: LightState, e: Event)
    requires IsLedChannel(e.channel)
    ensures var p := Decide(g, s);
      e in Step(caps, g, s).events <==>
        e in BranchWrites(caps, g).events
        || UnitEvent(e, p.firstUnit, p.lastUnit, ColorChannels(s.color), p.rgbUpdate, MaxCurrent(caps, g.ledsState))
  {
    var p := Decide(g, s);
    var pre := BranchWrites(caps, g);
    var rgb := ColorChannels(s.color);
    var cap := MaxCurrent(caps, g.ledsState);
    var units := UnitsWrites(p.firstUnit, p.lastUnit, rgb, p.rgbUpdate, cap);
    var prog := ProgramStep(pre.mode, p.programUpdate, p.target, p.flashMode, s.flashOnMS, s.flashOffMS);
    StepParts(caps, g, s);
    if e in prog.events {
      ProgramWritesNoLed(pre.mode, p.programUpdate, p.target, p.flashMode, s.flashOnMS, s.flashOffMS, e);
    }
    UnitsWritesMembers(p.firstUnit, p.lastUnit, rgb, p.rgbUpdate, cap, e);
  }

  /** The LED writes of the prelude: none when the battery request is dark; units 2 and 3 off
      when confined to unit 1 with the notification dark; the battery colour on unit 1 under the
      charging cap for the preview. */
  lemma PreludeLedWrites(caps: CurrentCaps, g: Globals, e: Event)
    requires IsLedChannel(e.channel)
    ensures e in BranchWrites(caps, g).events <==>
      match Branch(g)
      case BatteryUnlit => false
      case BatteryConfined(resetSides) => resetSides && UnitEvent(e, 2, UnitCount, [0, 0, 0], UpdateRgb, caps.charging)
      case BatteryPreview => UnitEvent(e, 1, 1, ColorChannels(g.battery.color), UpdateRgb, caps.charging)
  {
    match Branch(g)
    case BatteryUnlit =>
    case BatteryConfined(resetSides) =>
      if resetSides {
        var hold := ProgramStep(g.programMode, KeepProgram, Middle, FlashNone, 0, 0);
        UnitsWritesMembers(2, UnitCount, [0, 0, 0], UpdateRgb, caps.charging, e);
        if e in hold.events {
          ProgramWritesNoLed(g.programMode, KeepProgram, Middle, FlashNone, 0, 0, e);
        }
      }
    case BatteryPreview =>
      var battery := ColorChannels(g.battery.color);
      assert UnitsWrites(1, 1, battery, UpdateRgb, caps.charging) == UnitWrites(1, battery, UpdateRgb, caps.charging);
      UnitsWritesMembers(1, 1, battery, UpdateRgb, caps.charging, e);
  }

  /** In the state BATTERY with the notification dark, the prelude ends by holding and disabling
      every engine, which leaves the sequencer OFF; those six writes come right before the
      request colour and the call's own sequencer writes. */
  lemma ConfinedResetHolds(caps: CurrentCaps, g: Globals, s: LightState)
    requires Branch(g) == BatteryConfined(true)
    ensures var pre := BranchWrites(caps, g).events;
      && BranchWrites(caps, g).mode == ProgramOff
      && |pre| >= 6 && pre[|pre| - 6..] == HoldAll()
    ensures var pre := BranchWrites(caps, g).events; var p := Decide(g, s);
      var events := Step(caps, g, s).events;
      && events[..|pre|] == pre
      && events[|pre|..] == UnitsWrites(p.firstUnit, p.lastUnit, ColorChannels(s.color), p.rgbUpdate, MaxCurrent(caps, g.ledsState))
           + ProgramStep(ProgramOff, p.programUpdate, p.target, p.flashMode, s.flashOnMS, s.flashOffMS).events
  {
    var pre := BranchWrites(caps, g);
    var p := Decide(g, s);
    var rest := UnitsWrites(p.firstUnit, p.lastUnit, ColorChannels(s.color), p.rgbUpdate, MaxCurrent(caps, g.ledsState))
      + ProgramStep(pre.mode, p.programUpdate, p.target, p.flashMode, s.flashOnMS, s.flashOffMS).events;
    StepParts(caps, g, s);
    assert Step(caps, g, s).events == pre.events + rest;
  }

  /** The LED writes of one call are exactly the ones ExpectedUnit calls for. */
  lemma StepLedWrites(caps: CurrentCaps, g: Globals, s: LightState, e: Event)
    requires IsLedChannel(e.channel)
    ensures e in Step(caps, g, s).events <==> ExpectedLedWrite(caps, g, s, e)
  {
    StepLedSources(caps, g, s, e);
    PreludeLedWrites(caps, g, e);
    var p := Decide(g, s);
    assert ExpectedUnit(caps, g, s, e.channel.unit) ==
      (var request := Shown(ColorChannels(s.color), p.rgbUpdate == UpdateRgb, MaxCurrent(caps, g.ledsState));
       match Branch(g)
       case BatteryUnlit => request
       case BatteryConfined(resetSides) =>
         if e.channel.unit == 1 then request else if resetSides then Shown([0, 0, 0], true, caps.charging) else Untouched
       case BatteryPreview =>
         if e.channel.unit == 1 then Shown(ColorChannels(g.battery.color), true, caps.charging) else request);
  }

  // ---------------------------------------------------------------------------------------------
  // Deduplication

  /** The dedup decisions: currents are kept exactly when target and colour are both unchanged;
      the program is kept exactly when target and delays are unchanged and the colour differs. */
  lemma DedupDecisions(g: Globals, s: LightState)
    ensures var p := Decide(g, s);
      && (p.rgbUpdate == KeepRgb <==> p.target == g.programTarget && g.ledsRGB == s.color)
      && (p.programUpdate == KeepProgram <==>
            p.target == g.programTarget && g.ledsRGB != s.color && SameDelays(g, s))
  {
  }

  /** What the call remembers: new delays only when they differ and the request is TIMED; the
      target always; the colour only when the target was unchanged. */
  lemma DedupRetention(g: Globals, s: LightState)
    ensures var r := Retain(g, s); var p := Decide(g, s);
      && (SameDelays(g, s) || s.flashMode != FlashTimed ==> r.delayOn == g.delayOn && r.delayOff == g.delayOff)
      && (!SameDelays(g, s) && s.flashMode == FlashTimed ==> SameDelays(r, s))
      && r.programTarget == p.target
      && (p.target != g.programTarget ==> r.ledsRGB == g.ledsRGB)
      && (p.target == g.programTarget ==> r.ledsRGB == s.color)
  {
  }

  /** Whether a write sequence loads a program into the sequencer. */
  predicate Loads(events: seq<Event>) {
    exists i :: 0 <= i < |events| && events[i].channel == SequencerLoad
  }

  /** The run/hold machine: it ends in RUN exactly for TIMED; it loads a program exactly for
      TIMED with an update; it issues reload and run exactly for TIMED when it loaded or was not
      running; anything else holds and disables all three engines. */
  lemma ProgramStepSemantics(mode: ProgramMode, update: ProgramUpdate, target: Target, flash: FlashMode,
                             on: Int32, off: Int32)
    ensures var r := ProgramStep(mode, update, target, flash, on, off);
      && (r.mode == ProgramRun <==> flash == FlashTimed)
      && (Loads(r.events) <==> flash == FlashTimed && update == UpdateProgram)
      && (Write(SequencerRun(1), Str(SequencerRunActivated)) in r.events <==>
            flash == FlashTimed && (update == UpdateProgram || mode != ProgramRun))
      && (Write(SequencerMode(1), Str(SequencerModeActivated)) in r.events <==>
            flash == FlashTimed && (update == UpdateProgram || mode != ProgramRun))
      && (flash == FlashTimed && update == UpdateProgram ==>
            r.events[0] == Write(SequencerLoad, Str(ProgramText(target, on, off))))
      && (flash != FlashTimed ==> forall k :: 1 <= k <= 3 ==>
            Write(SequencerRun(k), Str(SequencerRunDisabled)) in r.events
            && Write(SequencerMode(k), Str(SequencerModeDisabled)) in r.events)
  {
    var r := ProgramStep(mode, update, target, flash, on, off);
    assert SequencerRunDisabled != SequencerRunActivated;
    assert SequencerModeDisabled != SequencerModeActivated;
    if flash == FlashTimed && update == UpdateProgram {
      assert r.events[0].channel == SequencerLoad;
    }
    if flash != FlashTimed {
      assert r.events == HoldAll();
      assert forall i :: 0 <= i < |r.events| ==> r.events[i].channel != SequencerLoad;
    }
  }

  /** A call leaves the sequencer running exactly when the request is TIMED with both delays
      nonzero: a zero delay suppresses the blinking. */
  lemma BlinkSuppression(caps: CurrentCaps, g: Globals, s: LightState)
    ensures Step(caps, g, s).globals.programMode == ProgramRun <==>
      s.flashMode == FlashTimed && s.flashOnMS != 0 && s.flashOffMS != 0
  {
    var p := Decide(g, s);
    var pre := BranchWrites(caps, g);
    ProgramStepSemantics(pre.mode, p.programUpdate, p.target, p.flashMode, s.flashOnMS, s.flashOffMS);
  }

  /** The same blinking request again, with the target settled and the colour remembered, loads
      the program once more and keeps the currents: the driver is not idempotent. */
  lemma RepeatedRequestReloads(caps: CurrentCaps, g: Globals, s: LightState)
    requires g.programTarget == BranchTarget(Branch(g)) && g.ledsRGB == s.color
    requires s.flashMode == FlashTimed && s.flashOnMS != 0 && s.flashOffMS != 0
    ensures Decide(g, s).rgbUpdate == KeepRgb
    ensures Loads(Step(caps, g, s).events)
  {
    var p := Decide(g, s);
    var pre := BranchWrites(caps, g);
    var units := UnitsWrites(p.firstUnit, p.lastUnit, ColorChannels(s.color), p.rgbUpdate, MaxCurrent(caps, g.ledsState));
    var prog := ProgramStep(pre.mode, p.programUpdate, p.target, p.flashMode, s.flashOnMS, s.flashOffMS);
    ProgramStepSemantics(pre.mode, p.programUpdate, p.target, p.flashMode, s.flashOnMS, s.flashOffMS);
    var events := Step(caps, g, s).events;
    assert events == pre.events + units + prog.events;
    assert events[|pre.events| + |units|] == prog.events[0];
  }

  /** A new colour with the target and the delays unchanged rewrites the currents and leaves the
      program alone. */
  lemma ColourChangeKeepsProgram(caps: CurrentCaps, g: Globals, s: LightState)
    requires g.programTarget == BranchTarget(Branch(g)) && g.ledsRGB != s.color && SameDelays(g, s)
    ensures Decide(g, s).rgbUpdate == UpdateRgb && Decide(g, s).programUpdate == KeepProgram
    ensures Step(caps, g, s).globals.ledsRGB == s.color
  {
  }

  /** After the first call of a run, a repeated call shows the same colour on the same units. */
  lemma SecondCallSameTarget(caps: CurrentCaps, g: Globals, s: LightState)
    ensures var g1 := Step(caps, g, s).globals;
      Branch(g1) == Branch(g) && g1.programTarget == BranchTarget(Branch(g1))
  {
  }

  /** Identical blinking requests right after a target change: the first call records the
      target but not the colour, so the second records the colour and keeps the program (the
      delays are settled), and only the third, finding the colour recorded, reloads it. */
  lemma RepeatAfterTargetChange(caps: CurrentCaps, g: Globals, s: LightState)
    requires g.programTarget != BranchTarget(Branch(g)) && g.ledsRGB != s.color
    requires s.flashMode == FlashTimed && s.flashOnMS != 0 && s.flashOffMS != 0
    ensures var g1 := Step(caps, g, s).globals;
      && Decide(g, s).programUpdate == UpdateProgram
      && Decide(g1, s).programUpdate == KeepProgram && Decide(g1, s).rgbUpdate == UpdateRgb
      && !Loads(Step(caps, g1, s).events)
    ensures var g2 := Step(caps, Step(caps, g, s).globals, s).globals;
      && Decide(g2, s).programUpdate == UpdateProgram && Decide(g2, s).rgbUpdate == KeepRgb
      && Loads(Step(caps, g2, s).events)
  {
    var g1 := Step(caps, g, s).globals;
    SecondCallSameTarget(caps, g, s);
    DedupRetention(g, s);
    assert SameDelays(g1, s);
    NoLoadWhenKept(caps, g1, s);
    var g2 := Step(caps, g1, s).globals;
    SecondCallSameTarget(caps, g1, s);
    RepeatedRequestReloads(caps, g2, s);
  }

  /** When the colour recorded before a target change already equals the request's, the second
      identical blinking request finds it recorded and reloads the program at once. */
  lemma RepeatAfterTargetChangeSameColour(caps: CurrentCaps, g: Globals, s: LightState)
    requires g.programTarget != BranchTarget(Branch(g)) && g.ledsRGB == s.color
    requires s.flashMode == FlashTimed && s.flashOnMS != 0 && s.flashOffMS != 0
    ensures var g1 := Step(caps, g, s).globals;
      && Decide(g1, s).programUpdate == UpdateProgram && Decide(g1, s).rgbUpdate == KeepRgb
      && Loads(Step(caps, g1, s).events)
  {
    var g1 := Step(caps, g, s).globals;
    SecondCallSameTarget(caps, g, s);
    DedupRetention(g, s);
    RepeatedRequestReloads(caps, g1, s);
  }

  /** A call that keeps the program loads none. */
  lemma NoLoadWhenKept(caps: CurrentCaps, g: Globals, s: LightState)
    requires Decide(g, s).programUpdate == KeepProgram
    ensures !Loads(Step(caps, g, s).events)
  {
    var p := Decide(g, s);
    var pre := BranchWrites(caps, g);
    var units := UnitsWrites(p.firstUnit, p.lastUnit, ColorChannels(s.color), p.rgbUpdate, MaxCurrent(caps, g.ledsState));
    var prog := ProgramStep(pre.mode, p.programUpdate, p.target, p.flashMode, s.flashOnMS, s.flashOffMS);
    ProgramStepSemantics(pre.mode, p.programUpdate, p.target, p.flashMode, s.flashOnMS, s.flashOffMS);
    StepParts(caps, g, s);
    var events := Step(caps, g, s).events;
    forall i | 0 <= i < |events|
      ensures events[i].channel != SequencerLoad
    {
      if i < |pre.events| {
        PreludeNoLoad(caps, g, pre.events[i]);
      } else if i < |pre.events| + |units| {
        UnitsWritesMembers(p.firstUnit, p.lastUnit, ColorChannels(s.color), p.rgbUpdate, MaxCurrent(caps, g.ledsState), units[i - |pre.events|]);
      } else {
        assert events[i] == prog.events[i - |pre.events| - |units|];
      }
    }
  }

  /** The prelude never loads a program: it holds the engines at most. */
  lemma PreludeNoLoad(caps: CurrentCaps, g: Globals, e: Event)
    requires e in BranchWrites(caps, g).events
    ensures e.channel != SequencerLoad
  {
    match Branch(g)
    case BatteryUnlit =>
    case BatteryConfined(resetSides) =>
      if resetSides {
        UnitsWritesMembers(2, UnitCount, [0, 0, 0], UpdateRgb, caps.charging, e);
      }
    case BatteryPreview =>
      var battery := ColorChannels(g.battery.color);
      assert UnitsWrites(1, 1, battery, UpdateRgb, caps.charging) == UnitWrites(1, battery, UpdateRgb, caps.charging);
      UnitsWritesMembers(1, 1, battery, UpdateRgb, caps.charging, e);
  }

  /** The zones a branch targets are exactly the units it writes the request colour to, so the
      trigger mask pulses exactly the units that receive the colour. */
  lemma TargetIsUnitRange(b: BatteryBranch, u: nat)
    ensures u in TargetUnits(BranchTarget(b)) <==> FirstUnit(b) <= u <= LastUnit(b)
  {
  }
}
