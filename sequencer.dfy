/** The value computation of `write_as3665_program`: the five fields printed into the AS3665
    program template, from the zone target and the on/off times in milliseconds. */
module Sequencer {
  import opened HexFormat
  import opened As3665

  /** `enum leds_target`: which zones a program or colour write addresses. */
  datatype Target = Unknown | All | Sides | Middle

  /** The largest step count a six-bit time field can hold. */
  const MaxSteps: nat := 63
  /** Upper bound (exclusive) of a C `int`, the type of the delays. */
  const IntLimit: int := 0x8000_0000

  /** `hex_limits`: the value, capped at `max`. */
  function HexLimits(value: nat, max: nat): (r: nat)
    ensures r <= max && r <= value
    ensures r == value || r == max
  {
    if value > max then max else value
  }

  /** The step count of a delay: 13 steps per second, truncated toward zero as the conversion of
      the floating-point product to `unsigned int` does, then capped at 63. A negative delay
      gives no steps: truncation yields 0 down to -76 ms, and below that the conversion of a
      negative value saturates at 0 on the ARM target. */
  function StepCount(delayMs: int): (steps: nat)
    requires -IntLimit <= delayMs < IntLimit
    ensures steps <= MaxSteps
    ensures delayMs <= 0 ==> steps == 0
    ensures 0 <= delayMs ==> steps * 1000 <= SecondTime * delayMs
    ensures 0 <= delayMs && steps < MaxSteps ==> SecondTime * delayMs < (steps + 1) * 1000
  {
    if delayMs <= 0 then 0 else HexLimits(SecondTime * delayMs / 1000, MaxSteps)
  }

  /** The units (1..3) a target addresses: MIDDLE is unit 1, SIDES units 2 and 3. */
  function TargetUnits(target: Target): set<nat> {
    match target
    case Sides => {2, 3}
    case Middle => {1}
    case _ => {1, 2, 3}
  }

  /** The trigger mask selecting the outputs the program pulses; an unknown target pulses all. */
  function Trigger(target: Target): (mask: nat)
    ensures mask <= 0x1ff
  {
    match target
    case Sides => BlinkCmdSides
    case Middle => BlinkCmdMiddle
    case All => BlinkCmdAll
    case Unknown => BlinkCmdAll
  }

  /** The ramp-up code: the configured ramp, capped at a byte, low bit cleared (direction up). */
  function RampUpField(): (v: nat)
    ensures v < 0x100 && v % 2 == 0
  {
    ((HexLimits(BlinkRampUpSmooth, 255) as bv8) & 0xFE) as nat
  }

  /** The ramp-down code: the configured ramp, capped at a byte, low bit set (direction down). */
  function RampDownField(): (v: nat)
    ensures v < 0x100 && v % 2 == 1
  {
    ((HexLimits(BlinkRampDownSmooth, 255) as bv8) | 0x01) as nat
  }

  /** `values[0..4]` of `write_as3665_program`. */
  function ProgramFields(target: Target, delayOn: int, delayOff: int): (v: seq<nat>)
    requires -IntLimit <= delayOn < IntLimit && -IntLimit <= delayOff < IntLimit
    ensures |v| == 5
    ensures v[0] == RampUpField() && v[2] == RampDownField()
    ensures v[1] == StepCount(delayOn) && v[3] == StepCount(delayOff)
    ensures v[4] == Trigger(target)
    ensures forall i :: 0 <= i < 4 ==> v[i] < 0x100
    ensures v[4] < 0x1000
  {
    [RampUpField(), StepCount(delayOn), RampDownField(), StepCount(delayOff), Trigger(target)]
  }

  /** The text `write_as3665_program` loads into the sequencer: the fixed runs of the template
      with the five fields spelled in hexadecimal between them. */
  function ProgramText(target: Target, delayOn: int, delayOff: int): (text: string)
    requires -IntLimit <= delayOn < IntLimit && -IntLimit <= delayOff < IntLimit
    ensures |text| == ProgramTextLength < ProgramBufferSize
  {
    var v := ProgramFields(target, delayOn, delayOff);
    FieldWidths(v);
    FillTemplateSlots(PadHex(v[0], 2), PadHex(v[1], 2), PadHex(v[2], 2), PadHex(v[3], 2), PadHex(v[4], 3));
    FillTemplate(PadHex(v[0], 2), PadHex(v[1], 2), PadHex(v[2], 2), PadHex(v[3], 2), PadHex(v[4], 3))
  }

  /** That text is what printing the five values into the template gives. */
  lemma ProgramTextIsPrinted(target: Target, delayOn: int, delayOff: int)
    requires -IntLimit <= delayOn < IntLimit && -IntLimit <= delayOff < IntLimit
    ensures |Widths(Parse(SequencerLoadProgram))| == 5
    ensures ProgramText(target, delayOn, delayOff) ==
      Render(Parse(SequencerLoadProgram), ProgramFields(target, delayOn, delayOff))
  {
    ProgramTemplateRender(ProgramFields(target, delayOn, delayOff));
  }

  /** The trigger pulses exactly the outputs of the units the target addresses, output k
      driving unit k % 3 + 1 (the masks group the nine outputs by colour). */
  lemma TriggerCoversTargetUnits(target: Target)
    ensures forall k: nat :: k < 9 ==> (OutputPulsed(Trigger(target), k) <==> (k % 3 + 1) in TargetUnits(target))
  {
    forall k: nat | k < 9
      ensures OutputPulsed(Trigger(target), k) <==> (k % 3 + 1) in TargetUnits(target)
    {
      OutputPulsedAt(k);
    }
  }

  /** Both smooth ramp codes pass the byte cap and the direction bit unchanged: 0x02 and 0x03. */
  lemma SmoothRampCodes()
    ensures RampUpField() == BlinkRampUpSmooth == 2
    ensures RampDownField() == BlinkRampDownSmooth == 3
  {
    assert (2 as bv8) & 0xFE == 2;
    assert (3 as bv8) | 0x01 == 3;
  }

  /** One second is 13 steps (0x0d); 999 ms truncates to 12, where rounding would give 13; a
      delay of 4847 ms or more saturates the field at 63 (10 s among them). */
  lemma StepCountExamples(d: int)
    requires 4847 <= d < IntLimit
    ensures StepCount(1000) == 0x0d
    ensures StepCount(999) == 12
    ensures StepCount(0) == 0 && StepCount(-1) == 0
    ensures StepCount(d) == MaxSteps && StepCount(10000) == MaxSteps
  {
    assert SecondTime * d / 1000 >= 63 by {
      assert SecondTime * d >= 63000;
    }
  }

  /** A longer delay never encodes to fewer steps. */
  lemma StepCountMonotone(d1: int, d2: int)
    requires -IntLimit <= d1 <= d2 < IntLimit
    ensures StepCount(d1) <= StepCount(d2)
  {
    if 0 < d1 {
      assert SecondTime * d1 <= SecondTime * d2;
      assert SecondTime * d1 / 1000 <= SecondTime * d2 / 1000;
    }
  }

  /** A slot holding a `%0Nx` spelling of v reads back as v. */
  lemma SlotReadsBack(slot: string, v: nat, width: nat)
    requires slot == PadHex(v, width)
    ensures AllHexDigits(slot) && HexValue(slot) == v
  {
    PadHexRoundTrip(v, width);
  }

  /** Where each field of the printed program lies. */
  lemma ProgramTextSlots(target: Target, delayOn: int, delayOff: int)
    requires -IntLimit <= delayOn < IntLimit && -IntLimit <= delayOff < IntLimit
    ensures var text := ProgramText(target, delayOn, delayOff);
      var v := ProgramFields(target, delayOn, delayOff);
      && text[..22] == ProgramHead
      && text[22..24] == PadHex(v[0], 2) && text[30..32] == PadHex(v[1], 2)
      && text[38..40] == PadHex(v[2], 2) && text[46..48] == PadHex(v[3], 2)
      && text[67..70] == PadHex(v[4], 3) && text[70..] == Newline
  {
    var v := ProgramFields(target, delayOn, delayOff);
    FieldWidths(v);
    FillTemplateSlots(PadHex(v[0], 2), PadHex(v[1], 2), PadHex(v[2], 2), PadHex(v[3], 2), PadHex(v[4], 3));
  }

  /** Reading the printed program back: the two-digit slots after the fixed text hold the ramp
      codes and step counts, and the three-digit slot before the newline holds the trigger. */
  lemma ProgramTextDecodes(target: Target, delayOn: int, delayOff: int)
    requires -IntLimit <= delayOn < IntLimit && -IntLimit <= delayOff < IntLimit
    ensures var text := ProgramText(target, delayOn, delayOff);
      && text[..22] == ProgramHead
      && AllHexDigits(text[22..24]) && HexValue(text[22..24]) == RampUpField()
      && AllHexDigits(text[30..32]) && HexValue(text[30..32]) == StepCount(delayOn)
      && AllHexDigits(text[38..40]) && HexValue(text[38..40]) == RampDownField()
      && AllHexDigits(text[46..48]) && HexValue(text[46..48]) == StepCount(delayOff)
      && AllHexDigits(text[67..70]) && HexValue(text[67..70]) == Trigger(target)
      && text[70..] == Newline
  {
    var v := ProgramFields(target, delayOn, delayOff);
    var text := ProgramText(target, delayOn, delayOff);
    ProgramTextSlots(target, delayOn, delayOff);
    SlotReadsBack(text[22..24], v[0], 2);
    SlotReadsBack(text[30..32], v[1], 2);
    SlotReadsBack(text[38..40], v[2], 2);
    SlotReadsBack(text[46..48], v[3], 2);
    SlotReadsBack(text[67..70], v[4], 3);
  }
}
