/** The AS3665 LED sequencer configuration of the huashan board: the program template the
    driver fills in, the mode and run command strings, the trigger masks and the ramp and timing
    constants. All of it is fixed hardware data. */
module As3665 {
  import opened HexFormat

  // The program template, split at its five conversions. Read in order, the pieces spell
  // "000e0e9d009c0e9c8f9d80%02xff9dc0%02xff9d80%02xff9dc0%02xff9d80a004c00000000%03x\n".
  const ProgramHead: string := "000e0e9d009c0e9c8f9d80"   // init, PWM start, MUX table setup
  const AfterRampUp: string := "ff9dc0"
  const AfterOnTime: string := "ff9d80"
  const AfterRampDown: string := "ff9dc0"
  const ProgramTail: string := "ff9d80a004c00000000"      // loop of 4 steps, end, goto start
  const Newline: string := "\n"

  /** The text loaded into the sequencer: ramp-up, on time, ramp-down, off time, trigger mask. */
  const SequencerLoadProgram: string :=
    ProgramHead + ("%02x" + (AfterRampUp + ("%02x" + (AfterOnTime + ("%02x" + (AfterRampDown
    + ("%02x" + (ProgramTail + ("%03x" + Newline)))))))))

  const SequencerModeDisabled: string := "disabled"
  const SequencerModeActivated: string := "reload"
  const SequencerRunDisabled: string := "hold"
  const SequencerRunActivated: string := "run"

  /** Trigger masks: one bit per LED driver output, nine outputs. */
  const BlinkCmdAll: nat := 511
  const BlinkCmdSides: nat := 438
  const BlinkCmdMiddle: nat := 73
  const BlinkRampUpSmooth: nat := 2
  const BlinkRampDownSmooth: nat := 3
  const BlinkFullLights: nat := 511

  /** Sequencer steps per second of on or off time. */
  const SecondTime: nat := 13

  /** The sizes of the buffer the program is printed into. */
  const ProgramBufferSize: nat := 180
  const ProgramTextLength: nat := 71

  /** The parse of any text shaped like the template: five conversions between literal runs. */
  function FiveFieldShape(h: string, a: string, b: string, c: string, t: string, n: string): seq<Piece> {
    Texts(h) + ([HexField(2)] + (Texts(a) + ([HexField(2)] + (Texts(b) + ([HexField(2)] + (Texts(c)
    + ([HexField(2)] + (Texts(t) + ([HexField(3)] + Texts(n))))))))))
  }

  /** A literal run followed by one conversion parses to literal pieces and one field. */
  lemma ParseRunAndField(s: string, f: string, rest: string)
    requires '%' !in s && |f| == 4 && StartsWithField(f)
    ensures Parse(s + (f + rest)) == Texts(s) + ([HexField(f[2] as int - '0' as int)] + Parse(rest))
  {
    ParsePlain(s, f + rest);
    ParseField(f, rest);
  }

  lemma ParseFiveFields(h: string, a: string, b: string, c: string, t: string, n: string)
    requires '%' !in h && '%' !in a && '%' !in b && '%' !in c && '%' !in t && '%' !in n
    ensures Parse(h + ("%02x" + (a + ("%02x" + (b + ("%02x" + (c + ("%02x" + (t + ("%03x" + n)))))))))) ==
      FiveFieldShape(h, a, b, c, t, n)
  {
    var two, three := "%02x", "%03x";
    assert StartsWithField(two) && two[2] as int - '0' as int == 2;
    assert StartsWithField(three) && three[2] as int - '0' as int == 3;
    var r4 := t + (three + n);
    var p4 := Texts(t) + ([HexField(3)] + Texts(n));
    assert Parse(r4) == p4 by {
      ParsePlain(n, []);
      assert n + [] == n && Texts(n) + [] == Texts(n);
      ParseRunAndField(t, three, n);
    }
    var r3 := c + (two + r4);
    var p3 := Texts(c) + ([HexField(2)] + p4);
    assert Parse(r3) == p3 by {
      ParseRunAndField(c, two, r4);
    }
    var r2 := b + (two + r3);
    var p2 := Texts(b) + ([HexField(2)] + p3);
    assert Parse(r2) == p2 by {
      ParseRunAndField(b, two, r3);
    }
    var r1 := a + (two + r2);
    var p1 := Texts(a) + ([HexField(2)] + p2);
    assert Parse(r1) == p1 by {
      ParseRunAndField(a, two, r2);
    }
    ParseRunAndField(h, two, r1);
  }

  /** One literal run followed by one conversion consumes exactly one argument. */
  lemma RenderRunAndField(s: string, w: nat, q: seq<Piece>, args: seq<nat>)
    requires |args| == |Widths(q)| + 1
    ensures Widths(Texts(s) + ([HexField(w)] + q)) == [w] + Widths(q)
    ensures Render(Texts(s) + ([HexField(w)] + q), args) == s + (PadHex(args[0], w) + Render(q, args[1..]))
  {
    RenderField(w, q, args);
    RenderTexts(s, [HexField(w)] + q, args);
  }

  lemma WidthsRunAndField(s: string, w: nat, q: seq<Piece>)
    ensures Widths(Texts(s) + ([HexField(w)] + q)) == [w] + Widths(q)
  {
    assert ([HexField(w)] + q)[1..] == q;
    WidthsTexts(s, [HexField(w)] + q);
  }

  lemma WidthsFiveFields(h: string, a: string, b: string, c: string, t: string, n: string)
    ensures Widths(FiveFieldShape(h, a, b, c, t, n)) == [2, 2, 2, 2, 3]
  {
    var w4 := Texts(t) + ([HexField(3)] + Texts(n));
    assert Widths(w4) == [3] by {
      WidthsTexts(n, []);
      assert Texts(n) + [] == Texts(n);
      WidthsRunAndField(t, 3, Texts(n));
    }
    var w2 := Texts(c) + ([HexField(2)] + w4);
    assert Widths(w2) == [2, 3] by {
      WidthsRunAndField(c, 2, w4);
    }
    var v2 := Texts(b) + ([HexField(2)] + w2);
    assert Widths(v2) == [2, 2, 3] by {
      WidthsRunAndField(b, 2, w2);
    }
    var v0 := Texts(a) + ([HexField(2)] + v2);
    assert Widths(v0) == [2, 2, 2, 3] by {
      WidthsRunAndField(a, 2, v2);
    }
    WidthsRunAndField(h, 2, v0);
  }

  lemma RenderFiveFields(h: string, a: string, b: string, c: string, t: string, n: string, args: seq<nat>)
    requires |args| == 5
    ensures |Widths(FiveFieldShape(h, a, b, c, t, n))| == 5
    ensures Render(FiveFieldShape(h, a, b, c, t, n), args) ==
      h + (PadHex(args[0], 2) + (a + (PadHex(args[1], 2) + (b + (PadHex(args[2], 2) + (c
      + (PadHex(args[3], 2) + (t + (PadHex(args[4], 3) + n)))))))))
  {
    RenderTexts(n, [], []);
    assert Texts(n) + [] == Texts(n) && n + [] == n;
    assert Render(Texts(n), []) == n;
    assert args[4..][1..] == [];
    var w4 := Texts(t) + ([HexField(3)] + Texts(n));
    RenderRunAndField(t, 3, Texts(n), args[4..]);
    assert Render(w4, args[4..]) == t + (PadHex(args[4], 3) + n);
    var w2 := Texts(c) + ([HexField(2)] + w4);
    RenderRunAndField(c, 2, w4, args[3..]);
    assert args[3..][1..] == args[4..];
    var v2 := Texts(b) + ([HexField(2)] + w2);
    RenderRunAndField(b, 2, w2, args[2..]);
    assert args[2..][1..] == args[3..];
    var v0 := Texts(a) + ([HexField(2)] + v2);
    RenderRunAndField(a, 2, v2, args[1..]);
    assert args[1..][1..] == args[2..];
    RenderRunAndField(h, 2, v0, args);
    assert FiveFieldShape(h, a, b, c, t, n) == Texts(h) + ([HexField(2)] + v0);
  }

  /** The template holds exactly five conversions, `%02x` four times then `%03x`, between
      fixed literal text. */
  lemma ProgramTemplateShape()
    ensures Parse(SequencerLoadProgram) ==
      FiveFieldShape(ProgramHead, AfterRampUp, AfterOnTime, AfterRampDown, ProgramTail, Newline)
    ensures Widths(Parse(SequencerLoadProgram)) == [2, 2, 2, 2, 3]
  {
    assert '%' !in ProgramHead && '%' !in AfterRampUp && '%' !in AfterOnTime;
    assert '%' !in AfterRampDown && '%' !in ProgramTail && '%' !in Newline;
    ParseFiveFields(ProgramHead, AfterRampUp, AfterOnTime, AfterRampDown, ProgramTail, Newline);
    WidthsFiveFields(ProgramHead, AfterRampUp, AfterOnTime, AfterRampDown, ProgramTail, Newline);
  }

  /** The template's fixed text with five already-spelled fields in its conversion slots. */
  function FillTemplate(f0: string, f1: string, f2: string, f3: string, f4: string): string {
    ProgramHead + (f0 + (AfterRampUp + (f1 + (AfterOnTime + (f2 + (AfterRampDown
    + (f3 + (ProgramTail + (f4 + Newline)))))))))
  }

  /** A slice of a concatenation that lies inside its second part. */
  lemma SliceRight(x: string, r: string, i: int, j: int)
    requires |x| <= i <= j <= |x| + |r|
    ensures (x + r)[i..j] == r[i - |x|..j - |x|]
  {
  }

  /** The field at the front of a concatenation. */
  lemma SliceFront(f: string, r: string)
    ensures (f + r)[..|f|] == f && (f + r)[|f|..] == r
  {
  }

  /** Where the pieces of a right-nested concatenation of the template's shape land. */
  lemma TemplateSlots(h: string, f0: string, a: string, f1: string, b: string, f2: string,
                      c: string, f3: string, t: string, f4: string, n: string)
    requires |h| == 22 && |a| == 6 && |b| == 6 && |c| == 6 && |t| == 19 && |n| == 1
    requires |f0| == 2 && |f1| == 2 && |f2| == 2 && |f3| == 2 && |f4| == 3
    ensures var text := h + (f0 + (a + (f1 + (b + (f2 + (c + (f3 + (t + (f4 + n)))))))));
      && text[..22] == h && text[22..24] == f0 && text[30..32] == f1 && text[38..40] == f2
      && text[46..48] == f3 && text[67..70] == f4 && text[70..] == n
  {
    var r9 := f4 + n;
    var r8 := t + r9;
    var r7 := f3 + r8;
    var r6 := c + r7;
    var r5 := f2 + r6;
    var r4 := b + r5;
    var r3 := f1 + r4;
    var r2 := a + r3;
    var r1 := f0 + r2;
    var text := h + r1;
    SliceFront(h, r1);
    SliceFront(f0, r2);
    SliceFront(f1, r4);
    SliceFront(f2, r6);
    SliceFront(f3, r8);
    SliceFront(f4, n);
    SliceRight(h, r1, 22, 24);
    // f1 at 30: h (22), f0 (2), a (6)
    SliceRight(h, r1, 30, 32);
    SliceRight(f0, r2, 8, 10);
    SliceRight(a, r3, 6, 8);
    // f2 at 38
    SliceRight(h, r1, 38, 40);
    SliceRight(f0, r2, 16, 18);
    SliceRight(a, r3, 14, 16);
    SliceRight(f1, r4, 8, 10);
    SliceRight(b, r5, 6, 8);
    // f3 at 46
    SliceRight(h, r1, 46, 48);
    SliceRight(f0, r2, 24, 26);
    SliceRight(a, r3, 22, 24);
    SliceRight(f1, r4, 16, 18);
    SliceRight(b, r5, 14, 16);
    SliceRight(f2, r6, 8, 10);
    SliceRight(c, r7, 6, 8);
    // f4 at 67 and n at 70
    SliceRight(h, r1, 67, 71);
    SliceRight(f0, r2, 45, 49);
    SliceRight(a, r3, 43, 47);
    SliceRight(f1, r4, 37, 41);
    SliceRight(b, r5, 35, 39);
    SliceRight(f2, r6, 29, 33);
    SliceRight(c, r7, 27, 31);
    SliceRight(f3, r8, 21, 25);
    SliceRight(t, r9, 19, 23);
    assert text[67..71] == r9;
    assert text[67..70] == text[67..71][..3];
    assert text[70..] == text[67..71][3..];
  }

  /** With two-digit byte fields and a three-digit trigger the filled template is 71 characters
      and each field sits at a fixed offset. */
  lemma FillTemplateSlots(f0: string, f1: string, f2: string, f3: string, f4: string)
    requires |f0| == 2 && |f1| == 2 && |f2| == 2 && |f3| == 2 && |f4| == 3
    ensures var text := FillTemplate(f0, f1, f2, f3, f4);
      && |text| == ProgramTextLength
      && text[..22] == ProgramHead && text[22..24] == f0 && text[30..32] == f1 && text[38..40] == f2
      && text[46..48] == f3 && text[67..70] == f4 && text[70..] == Newline
  {
    TemplateSlots(ProgramHead, f0, AfterRampUp, f1, AfterOnTime, f2, AfterRampDown, f3, ProgramTail, f4, Newline);
  }

  /** Printing five values into the template puts each one, zero-padded, in its own slot. */
  lemma ProgramTemplateRender(args: seq<nat>)
    requires |args| == 5
    ensures |Widths(Parse(SequencerLoadProgram))| == 5
    ensures Render(Parse(SequencerLoadProgram), args) ==
      FillTemplate(PadHex(args[0], 2), PadHex(args[1], 2), PadHex(args[2], 2), PadHex(args[3], 2), PadHex(args[4], 3))
  {
    ProgramTemplateShape();
    RenderFiveFields(ProgramHead, AfterRampUp, AfterOnTime, AfterRampDown, ProgramTail, Newline, args);
  }

  /** With every byte field below 0x100 and the trigger below 0x1000, the printed program is
      always 71 characters, newline included, well inside the 180-byte buffer. */
  lemma ProgramTextFits(args: seq<nat>)
    requires |args| == 5
    requires forall i :: 0 <= i < 4 ==> args[i] < 0x100
    requires args[4] < 0x1000
    ensures |Widths(Parse(SequencerLoadProgram))| == 5
    ensures |Render(Parse(SequencerLoadProgram), args)| == ProgramTextLength < ProgramBufferSize
  {
    ProgramTemplateRender(args);
    FieldWidths(args);
    FillTemplateSlots(PadHex(args[0], 2), PadHex(args[1], 2), PadHex(args[2], 2), PadHex(args[3], 2), PadHex(args[4], 3));
  }

  /** Byte fields print as two digits and the trigger as three. */
  lemma FieldWidths(args: seq<nat>)
    requires |args| == 5
    requires forall i :: 0 <= i < 4 ==> args[i] < 0x100
    requires args[4] < 0x1000
    ensures |PadHex(args[0], 2)| == 2 && |PadHex(args[1], 2)| == 2 && |PadHex(args[2], 2)| == 2
    ensures |PadHex(args[3], 2)| == 2 && |PadHex(args[4], 3)| == 3
  {
    assert Pow16(2) == 0x100 && Pow16(3) == 0x1000;
    PadHexWidth(args[0], 2);
    PadHexWidth(args[1], 2);
    PadHexWidth(args[2], 2);
    PadHexWidth(args[3], 2);
    PadHexWidth(args[4], 3);
  }

  /** Whether a trigger mask pulses LED driver output k (of nine). */
  predicate OutputPulsed(mask: nat, k: nat)
    requires mask <= 0x1ff && k < 9
  {
    ((mask as bv9) >> k) & 1 == 1
  }

  /** The SIDES and MIDDLE masks split the nine outputs between them: output k belongs to
      MIDDLE exactly when k is a multiple of three, so MIDDLE is unit 1 of each colour and SIDES
      units 2 and 3; together they make the ALL mask, which pulses every output. */
  lemma BlinkMasksPartition()
    ensures (BlinkCmdSides as bv9) & (BlinkCmdMiddle as bv9) == 0
    ensures (BlinkCmdSides as bv9) | (BlinkCmdMiddle as bv9) == BlinkCmdAll as bv9
    ensures forall k: nat :: k < 9 ==> (OutputPulsed(BlinkCmdMiddle, k) <==> k % 3 == 0)
    ensures forall k: nat :: k < 9 ==> (OutputPulsed(BlinkCmdSides, k) <==> k % 3 != 0)
    ensures forall k: nat :: k < 9 ==> OutputPulsed(BlinkCmdAll, k)
  {
    forall k: nat | k < 9
      ensures (OutputPulsed(BlinkCmdMiddle, k) <==> k % 3 == 0)
      ensures (OutputPulsed(BlinkCmdSides, k) <==> k % 3 != 0)
      ensures OutputPulsed(BlinkCmdAll, k)
    {
      OutputPulsedAt(k);
    }
  }

  /** The three masks at one output, output by output. */
  lemma OutputPulsedAt(k: nat)
    requires k < 9
    ensures OutputPulsed(BlinkCmdMiddle, k) == (k % 3 == 0)
    ensures OutputPulsed(BlinkCmdSides, k) == (k % 3 != 0)
    ensures OutputPulsed(BlinkCmdAll, k)
  {
    if k == 0 {} else if k == 1 {} else if k == 2 {} else if k == 3 {} else if k == 4 {}
    else if k == 5 {} else if k == 6 {} else if k == 7 {} else {}
  }

  /** Every trigger mask fits the three hex digits of the template's last field. */
  lemma BlinkMasksFitField()
    ensures BlinkCmdAll <= 0x1ff && BlinkCmdSides <= 0x1ff && BlinkCmdMiddle <= 0x1ff
    ensures |PadHex(BlinkCmdAll, 3)| == 3 && |PadHex(BlinkCmdSides, 3)| == 3
    ensures |PadHex(BlinkCmdMiddle, 3)| == 3
  {
    assert Pow16(3) == 0x1000;
    PadHexWidth(BlinkCmdAll, 3);
    PadHexWidth(BlinkCmdSides, 3);
    PadHexWidth(BlinkCmdMiddle, 3);
  }
}
