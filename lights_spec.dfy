/** What one call into the LED driver of liblights/lights.c decides and writes, as functions of
    the driver's retained state and the request. The class in module Lights runs the same logic
    step by step and is proved to agree with these functions. */
module LightsSpec {
  import opened Sequencer
  import opened As3665

  const UnitCount: nat := 3
  const ColorCount: nat := 3

  type Uint32 = x: int | 0 <= x < 0x1_0000_0000
  type Int32 = x: int | -0x8000_0000 <= x < 0x8000_0000
  /** Red, green and blue values for one LED unit. */
  type Rgb = s: seq<int> | |s| == 3 witness [0, 0, 0]

  /** The Android flash modes a `light_state_t` can carry. */
  datatype FlashMode = FlashNone | FlashTimed | FlashHardware

  /** A request: packed colour (the top byte is ignored), flash mode and on/off times. */
  datatype LightState = LightState(color: Uint32, flashMode: FlashMode, flashOnMS: Int32, flashOffMS: Int32)

  /** `enum leds_state`: whose request the LED bank shows. */
  datatype LedsState = LedsOff | LedsNotifications | LedsBattery
  /** `enum leds_pupdate`: whether the sequencer program is rewritten. */
  datatype ProgramUpdate = KeepProgram | UpdateProgram
  /** `enum leds_program`: whether the sequencer is running. */
  datatype ProgramMode = ProgramOff | ProgramRun
  /** `enum leds_rgbupdate`: whether the per-channel currents are rewritten. */
  datatype RgbUpdate = KeepRgb | UpdateRgb

  /** The caps on LED drive current (values of the board configuration). */
  datatype CurrentCaps = CurrentCaps(charging: int, notifications: int)
  /** The LCD brightness limits (values of the board configuration). */
  datatype BacklightLimits = BacklightLimits(off: int, min: int, max: int)

  /** The control files the driver writes, as abstract channels. */
  datatype Channel =
    | LedBrightness(unit: nat, color: nat)
    | LedCurrent(unit: nat, color: nat)
    | SequencerLoad
    | SequencerMode(engine: nat)
    | SequencerRun(engine: nat)
    | LcdBacklight(panel: nat)

  datatype Payload = Int(value: int) | Str(text: string)

  /** One write to a control file. */
  datatype Event = Write(channel: Channel, payload: Payload)

  // ---------------------------------------------------------------------------------------------
  // Pure helpers

  /** A request is lit when its low 24 colour bits are not all zero. */
  predicate IsLit(s: LightState) {
    s.color % 0x100_0000 != 0
  }

  /** The red, green and blue bytes of a packed colour. */
  function ColorChannels(color: Uint32): (rgb: Rgb)
    ensures forall c :: 0 <= c < 3 ==> 0 <= rgb[c] < 256
  {
    [(color / 0x10000) % 0x100, (color / 0x100) % 0x100, color % 0x100]
  }

  /** The three bytes are the low 24 bits of the colour, red highest. */
  lemma ColorChannelsRecompose(color: Uint32)
    ensures var rgb := ColorChannels(color);
      rgb[0] * 0x10000 + rgb[1] * 0x100 + rgb[2] == color % 0x100_0000
  {
    var q1 := color / 0x100;
    var q2 := q1 / 0x100;
    var q3 := q2 / 0x100;
    var r, g, b := q2 % 0x100, q1 % 0x100, color % 0x100;
    assert color == q1 * 0x100 + b;
    assert q1 == q2 * 0x100 + g;
    assert q2 == q3 * 0x100 + r;
    assert q2 == color / 0x10000 by {
      assert color == q2 * 0x10000 + (g * 0x100 + b);
      assert 0 <= g * 0x100 + b < 0x10000;
    }
    assert color == q3 * 0x100_0000 + (r * 0x10000 + g * 0x100 + b);
    assert 0 <= r * 0x10000 + g * 0x100 + b < 0x100_0000;
  }

  /** The perceived brightness of a colour: weights 77, 150 and 29 out of 256. */
  function RgbToBrightness(s: LightState): (b: int)
    ensures 0 <= b <= 255
    ensures var rgb := ColorChannels(s.color);
      (b <= rgb[0] || b <= rgb[1] || b <= rgb[2]) && (rgb[0] <= b || rgb[1] <= b || rgb[2] <= b)
  {
    var rgb := ColorChannels(s.color);
    (77 * rgb[0] + 150 * rgb[1] + 29 * rgb[2]) / 256
  }

  /** The LCD clamp: at or below OFF is OFF, otherwise the value is kept inside [MIN, MAX]. */
  function ClampBacklight(b: int, lim: BacklightLimits): (r: int)
    ensures b <= lim.off ==> r == lim.off
    ensures lim.off < b && lim.min <= lim.max ==> lim.min <= r <= lim.max
    ensures lim.off < b ==> (r == b || (b < lim.min && r == lim.min) || (lim.max < b && r == lim.max))
  {
    if b <= lim.off then lim.off
    else if b < lim.min then lim.min
    else if b > lim.max then lim.max
    else b
  }

  /** The backlight level `set_light_lcd_backlight` writes for a request. */
  function BacklightLevel(s: LightState, lim: BacklightLimits): int
  {
    ClampBacklight(RgbToBrightness(s), lim)
  }

  function Min(a: int, b: int): int {
    if a < b then a else b
  }

  /** The current cap in force: the charging cap while the state is BATTERY. */
  function MaxCurrent(caps: CurrentCaps, state: LedsState): int {
    if state == LedsBattery then caps.charging else caps.notifications
  }

  // ---------------------------------------------------------------------------------------------
  // Writes of `set_light_led_rgb`

  /** The writes for colour channel c of one unit: its brightness, then, unless the update flag
      is KEEP, its current capped at `cap`. */
  function ColorWrite(unit: nat, c: nat, rgb: Rgb, update: RgbUpdate, cap: int): seq<Event>
    requires c < 3
  {
    [Write(LedBrightness(unit, c), Int(rgb[c]))]
    + (if update == UpdateRgb then [Write(LedCurrent(unit, c), Int(Min(rgb[c], cap)))] else [])
  }

  /** The writes for the first n colour channels of one unit, in order. */
  function ColorWrites(unit: nat, rgb: Rgb, update: RgbUpdate, cap: int, n: nat): seq<Event>
    requires n <= 3
  {
    if n == 0 then [] else ColorWrites(unit, rgb, update, cap, n - 1) + ColorWrite(unit, n - 1, rgb, update, cap)
  }

  /** All writes of `set_light_led_rgb` for one unit. */
  function UnitWrites(unit: nat, rgb: Rgb, update: RgbUpdate, cap: int): seq<Event> {
    ColorWrites(unit, rgb, update, cap, 3)
  }

  /** The writes of units first..last, in increasing order (none when last < first). */
  function UnitsWrites(first: nat, last: int, rgb: Rgb, update: RgbUpdate, cap: int): seq<Event>
    decreases last - first
  {
    if last < first then [] else UnitsWrites(first, last - 1, rgb, update, cap) + UnitWrites(last, rgb, update, cap)
  }

  // ---------------------------------------------------------------------------------------------
  // `set_light_leds_program`

  /** "hold" to every engine's run file, then "disabled" to every engine's mode file. */
  function HoldAll(): seq<Event> {
    [Write(SequencerRun(1), Str(SequencerRunDisabled)),
     Write(SequencerRun(2), Str(SequencerRunDisabled)),
     Write(SequencerRun(3), Str(SequencerRunDisabled)),
     Write(SequencerMode(1), Str(SequencerModeDisabled)),
     Write(SequencerMode(2), Str(SequencerModeDisabled)),
     Write(SequencerMode(3), Str(SequencerModeDisabled))]
  }

  datatype ProgramResult = ProgramResult(mode: ProgramMode, events: seq<Event>)

  /** The program load of a TIMED request: only when the program is to be rewritten. */
  function LoadWrites(update: ProgramUpdate, target: Target, delayOn: Int32, delayOff: Int32): seq<Event> {
    if update == UpdateProgram then [Write(SequencerLoad, Str(ProgramText(target, delayOn, delayOff)))] else []
  }

  /** Reload and run of engine 1: only when the sequencer is not already running. */
  function StartWrites(mode: ProgramMode): seq<Event> {
    if mode != ProgramRun
    then [Write(SequencerMode(1), Str(SequencerModeActivated)), Write(SequencerRun(1), Str(SequencerRunActivated))]
    else []
  }

  /** The sequencer run/hold machine: its new mode and the writes it issues. A rewrite puts the
      sequencer in OFF first, so it is always started again after a load. */
  function ProgramStep(mode: ProgramMode, update: ProgramUpdate, target: Target, flash: FlashMode,
                       delayOn: Int32, delayOff: Int32): ProgramResult
  {
    if flash == FlashTimed then
      var loaded := if update == UpdateProgram then ProgramOff else mode;
      ProgramResult(ProgramRun, LoadWrites(update, target, delayOn, delayOff) + StartWrites(loaded))
    else
      ProgramResult(ProgramOff, HoldAll())
  }

  // ---------------------------------------------------------------------------------------------
  // Retained state and `set_light_leds_locked`

  /** The module statics the LED path reads and updates. */
  datatype Globals = Globals(
    notification: LightState,
    battery: LightState,
    ledsState: LedsState,
    programMode: ProgramMode,
    programTarget: Target,
    ledsRGB: Uint32,
    delayOn: Int32,
    delayOff: Int32)

  /** The statics as initialised, with `init_globals` applied: both requests off, no delays. */
  const Initial: Globals := Globals(
    LightState(0, FlashNone, 0, 0), LightState(0, FlashNone, 0, 0),
    LedsOff, ProgramOff, Unknown, 0, -1, -1)

  /** The two branches of the charging witness mode (lines 329-363). */
  datatype BatteryBranch =
    | BatteryUnlit                        // battery request dark: request on every unit
    | BatteryConfined(resetSides: bool)   // state already BATTERY: unit 1 only
    | BatteryPreview                      // otherwise: battery colour on unit 1, request on 2..3

  function Branch(g: Globals): BatteryBranch {
    if !IsLit(g.battery) then BatteryUnlit
    else if g.ledsState == LedsBattery then BatteryConfined(!IsLit(g.notification))
    else BatteryPreview
  }

  /** The decisions of one call: unit range, target, update flags and the flash mode used. */
  datatype Plan = Plan(
    branch: BatteryBranch,
    firstUnit: nat,
    lastUnit: nat,
    target: Target,
    programUpdate: ProgramUpdate,
    rgbUpdate: RgbUpdate,
    flashMode: FlashMode)

  predicate SameDelays(g: Globals, s: LightState) {
    s.flashOnMS == g.delayOn && s.flashOffMS == g.delayOff
  }

  /** The zones the LED path addresses in each branch. */
  function BranchTarget(b: BatteryBranch): Target {
    match b
    case BatteryUnlit => All
    case BatteryConfined(_) => Middle
    case BatteryPreview => Sides
  }

  /** The first and last unit the request colour goes to in each branch. */
  function FirstUnit(b: BatteryBranch): nat {
    if b.BatteryPreview? then 2 else 1
  }

  function LastUnit(b: BatteryBranch): nat {
    if b.BatteryConfined? then 1 else UnitCount
  }

  function Decide(g: Globals, s: LightState): Plan {
    var branch := Branch(g);
    var target := BranchTarget(branch);
    var first := FirstUnit(branch);
    var last := LastUnit(branch);
    var delayUpdate := if SameDelays(g, s) then KeepProgram else UpdateProgram;
    var programUpdate :=
      if target != g.programTarget then UpdateProgram
      else if g.ledsRGB == s.color then UpdateProgram
      else delayUpdate;
    var rgbUpdate :=
      if target != g.programTarget then UpdateRgb
      else if g.ledsRGB == s.color then KeepRgb
      else UpdateRgb;
    var flash := if s.flashOnMS == 0 || s.flashOffMS == 0 then FlashNone else s.flashMode;
    Plan(branch, first, last, target, programUpdate, rgbUpdate, flash)
  }

  /** The dedup keys after a call: delays, target and last colour. */
  function Retain(g: Globals, s: LightState): Globals {
    var target := Decide(g, s).target;
    var delaysMoved := !SameDelays(g, s) && s.flashMode == FlashTimed;
    g.(delayOn := if delaysMoved then s.flashOnMS else g.delayOn,
       delayOff := if delaysMoved then s.flashOffMS else g.delayOff,
       programTarget := target,
       ledsRGB := if target != g.programTarget || g.ledsRGB == s.color then g.ledsRGB else s.color)
  }

  /** The writes of the charging witness branch, and the sequencer mode after them. */
  function BranchWrites(caps: CurrentCaps, g: Globals): ProgramResult {
    match Branch(g)
    case BatteryUnlit => ProgramResult(g.programMode, [])
    case BatteryConfined(resetSides) =>
      if resetSides then
        var hold := ProgramStep(g.programMode, KeepProgram, Middle, FlashNone, 0, 0);
        ProgramResult(hold.mode, UnitsWrites(2, UnitCount, [0, 0, 0], UpdateRgb, MaxCurrent(caps, g.ledsState)) + hold.events)
      else ProgramResult(g.programMode, [])
    case BatteryPreview =>
      ProgramResult(g.programMode, UnitWrites(1, ColorChannels(g.battery.color), UpdateRgb, MaxCurrent(caps, LedsBattery)))
  }

  datatype StepResult = StepResult(globals: Globals, events: seq<Event>)

  /** `set_light_leds_locked`: the state after the call and the writes it issues, in order. */
  function Step(caps: CurrentCaps, g: Globals, s: LightState): StepResult
  {
    var p := Decide(g, s);
    var pre := BranchWrites(caps, g);
    var units := UnitsWrites(p.firstUnit, p.lastUnit, ColorChannels(s.color), p.rgbUpdate, MaxCurrent(caps, g.ledsState));
    var prog := ProgramStep(pre.mode, p.programUpdate, p.target, p.flashMode, s.flashOnMS, s.flashOffMS);
    StepResult(Retain(g, s).(programMode := prog.mode), pre.events + units + prog.events)
  }

  /** The writes of one LED-path call come in three runs: the charging witness prelude, the
      request colour on the selected units, then the sequencer. */
  lemma StepParts(caps: CurrentCaps, g: Globals, s: LightState)
    ensures var p := Decide(g, s);
      var pre := BranchWrites(caps, g);
      var prog := ProgramStep(pre.mode, p.programUpdate, p.target, p.flashMode, s.flashOnMS, s.flashOffMS);
      && Step(caps, g, s).events ==
           pre.events + UnitsWrites(p.firstUnit, p.lastUnit, ColorChannels(s.color), p.rgbUpdate, MaxCurrent(caps, g.ledsState))
           + prog.events
      && Step(caps, g, s).globals == Retain(g, s).(programMode := prog.mode)
  {
  }

  /** Appending three runs of writes one after the other is appending their concatenation. */
  lemma AppendRuns(t: seq<Event>, a: seq<Event>, b: seq<Event>, c: seq<Event>)
    ensures t + a + b + c == t + (a + b + c)
  {
  }

  /** The writes of one LED-path call come in three runs, appended after what was already
      written: the charging witness prelude, the request colour on the selected units, then the
      sequencer; the retained keys are those of Retain with the sequencer's new mode. */
  lemma StepRuns(caps: CurrentCaps, g: Globals, s: LightState, t0: seq<Event>)
    ensures var p := Decide(g, s);
      var pre := BranchWrites(caps, g);
      var prog := ProgramStep(pre.mode, p.programUpdate, p.target, p.flashMode, s.flashOnMS, s.flashOffMS);
      && t0 + pre.events + UnitsWrites(p.firstUnit, p.lastUnit, ColorChannels(s.color), p.rgbUpdate, MaxCurrent(caps, g.ledsState))
           + prog.events == t0 + Step(caps, g, s).events
      && Step(caps, g, s).globals == Retain(g, s).(programMode := prog.mode)
  {
    var p := Decide(g, s);
    var pre := BranchWrites(caps, g);
    var prog := ProgramStep(pre.mode, p.programUpdate, p.target, p.flashMode, s.flashOnMS, s.flashOffMS);
    StepParts(caps, g, s);
    AppendRuns(t0, pre.events,
      UnitsWrites(p.firstUnit, p.lastUnit, ColorChannels(s.color), p.rgbUpdate, MaxCurrent(caps, g.ledsState)), prog.events);
  }

  /** The two callers of the LED path. */
  datatype Requester = Notifications | Battery

  function Store(g: Globals, who: Requester, s: LightState): Globals {
    match who
    case Notifications => g.(notification := s)
    case Battery => g.(battery := s)
  }

  /** The state `handle_leds_battery_locked` selects before running the LED path:
      NOTIFICATIONS when the notification request is lit, BATTERY otherwise. */
  function HandleState(g: Globals): Globals {
    g.(ledsState := if IsLit(g.notification) then LedsNotifications else LedsBattery)
  }

  /** The request the LED path then shows. */
  function Acting(g: Globals): LightState {
    if IsLit(g.notification) then g.notification else g.battery
  }

  /** `handle_leds_battery_locked`. */
  function Handle(caps: CurrentCaps, g: Globals): StepResult {
    Step(caps, HandleState(g), Acting(g))
  }

  /** `set_light_leds_notifications` / `set_light_leds_battery`: store, then handle. */
  function Apply(caps: CurrentCaps, g: Globals, who: Requester, s: LightState): StepResult
  {
    Handle(caps, Store(g, who, s))
  }
}
