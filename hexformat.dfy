/** The fragment of C's printf formatting that the sequencer program template uses: literal
    characters and `%0Nx` conversions (an unsigned value in lower-case hexadecimal, padded with
    zeros to at least N digits). */
module HexFormat {

  /** One piece of a parsed template. */
  datatype Piece = Text(c: char) | HexField(width: nat)

  predicate IsHexDigit(ch: char) {
    '0' <= ch <= '9' || 'a' <= ch <= 'f'
  }

  predicate AllHexDigits(s: string) {
    forall i :: 0 <= i < |s| ==> IsHexDigit(s[i])
  }

  function Pow16(n: nat): (p: nat)
    ensures p >= 1
  {
    if n == 0 then 1 else 16 * Pow16(n - 1)
  }

  function HexDigit(d: nat): (ch: char)
    requires d < 16
    ensures IsHexDigit(ch)
  {
    if d < 10 then ('0' as int + d) as char else ('a' as int + d - 10) as char
  }

  function DigitValue(ch: char): (d: nat)
    requires IsHexDigit(ch)
    ensures d < 16
    ensures HexDigit(d) == ch
  {
    if ch <= '9' then (ch as int - '0' as int) else (ch as int - 'a' as int + 10)
  }

  /** The shortest hexadecimal spelling of `v` ("0" for zero), as `%x` prints it. */
  function Hex(v: nat): (s: string)
    ensures |s| >= 1 && AllHexDigits(s)
    decreases v
  {
    if v < 16 then [HexDigit(v)] else Hex(v / 16) + [HexDigit(v % 16)]
  }

  function Zeros(n: nat): (s: string)
    ensures |s| == n && AllHexDigits(s)
    ensures forall i :: 0 <= i < n ==> s[i] == '0'
  {
    seq(n, _ => '0')
  }

  /** `%0Nx`: the hexadecimal spelling of `v`, zero-padded on the left to at least `width` digits. */
  function PadHex(v: nat, width: nat): (s: string)
    ensures AllHexDigits(s)
    ensures |s| == if |Hex(v)| < width then width else |Hex(v)|
    ensures s[|s| - |Hex(v)|..] == Hex(v)
  {
    var h := Hex(v);
    (if |h| < width then Zeros(width - |h|) else []) + h
  }

  /** The number a string of hexadecimal digits denotes (the inverse of the spellings above). */
  function HexValue(s: string): nat
    requires AllHexDigits(s)
    decreases |s|
  {
    if s == [] then 0 else HexValue(s[..|s| - 1]) * 16 + DigitValue(s[|s| - 1])
  }

  lemma {:induction false} HexRoundTrip(v: nat)
    ensures HexValue(Hex(v)) == v
    decreases v
  {
    var h := Hex(v);
    if v >= 16 {
      assert h[..|h| - 1] == Hex(v / 16);
      assert h[|h| - 1] == HexDigit(v % 16);
      HexRoundTrip(v / 16);
    } else {
      assert h[..|h| - 1] == [];
    }
  }

  lemma {:induction false} ZerosValue(n: nat)
    ensures HexValue(Zeros(n)) == 0
  {
    if n > 0 {
      assert Zeros(n)[..n - 1] == Zeros(n - 1);
      ZerosValue(n - 1);
    }
  }

  lemma {:induction false} LeadingZerosValue(n: nat, s: string)
    requires AllHexDigits(s)
    ensures AllHexDigits(Zeros(n) + s) && HexValue(Zeros(n) + s) == HexValue(s)
    decreases |s|
  {
    var z := Zeros(n) + s;
    if s == [] {
      assert z == Zeros(n);
      ZerosValue(n);
    } else {
      assert z[..|z| - 1] == Zeros(n) + s[..|s| - 1];
      assert z[|z| - 1] == s[|s| - 1];
      LeadingZerosValue(n, s[..|s| - 1]);
    }
  }

  /** Zero padding does not change the value: reading back a `%0Nx` field gives the number printed. */
  lemma PadHexRoundTrip(v: nat, width: nat)
    ensures HexValue(PadHex(v, width)) == v
  {
    var h := Hex(v);
    HexRoundTrip(v);
    var n := if |h| < width then width - |h| else 0;
    assert PadHex(v, width) == Zeros(n) + h by {
      if n == 0 {
        assert Zeros(n) == [];
      }
    }
    LeadingZerosValue(n, h);
  }

  /** A value below 16^width needs at most `width` digits. */
  lemma {:induction false} HexLength(v: nat, width: nat)
    requires 1 <= width && v < Pow16(width)
    ensures |Hex(v)| <= width
    decreases v
  {
    if v >= 16 {
      assert Pow16(1) == 16;
      assert v / 16 < Pow16(width - 1);
      HexLength(v / 16, width - 1);
    }
  }

  /** So a `%0Nx` field of a value below 16^N is exactly N characters wide. */
  lemma PadHexWidth(v: nat, width: nat)
    requires 1 <= width && v < Pow16(width)
    ensures |PadHex(v, width)| == width
  {
    HexLength(v, width);
  }

  /** The conversion found at the head of `t`, if `t` starts with `%0Nx` (N a digit 1..9). */
  predicate StartsWithField(t: string) {
    |t| >= 4 && t[0] == '%' && t[1] == '0' && '1' <= t[2] <= '9' && t[3] == 'x'
  }

  /** Splits a template into literal characters and `%0Nx` conversions. */
  function Parse(t: string): seq<Piece>
    decreases |t|
  {
    if t == [] then []
    else if StartsWithField(t) then [HexField(t[2] as int - '0' as int)] + Parse(t[4..])
    else [Text(t[0])] + Parse(t[1..])
  }

  function Texts(a: string): (ps: seq<Piece>)
    ensures |ps| == |a|
  {
    if a == [] then [] else [Text(a[0])] + Texts(a[1..])
  }

  /** The widths of the conversions of a parsed template, in order. */
  function Widths(ps: seq<Piece>): seq<nat> {
    if ps == [] then []
    else (if ps[0].HexField? then [ps[0].width] else []) + Widths(ps[1..])
  }

  /** Prints `args` into the parsed template, one argument per conversion, in order. */
  function Render(ps: seq<Piece>, args: seq<nat>): string
    requires |args| == |Widths(ps)|
  {
    if ps == [] then []
    else if ps[0].HexField? then PadHex(args[0], ps[0].width) + Render(ps[1..], args[1..])
    else [ps[0].c] + Render(ps[1..], args)
  }

  /** Text without a `%` parses to literal pieces. */
  lemma {:induction false} ParsePlain(a: string, b: string)
    requires '%' !in a
    ensures Parse(a + b) == Texts(a) + Parse(b)
  {
    if a == [] {
      assert a + b == b;
    } else {
      var ab := a + b;
      assert ab[0] == a[0] != '%' by { assert a[0] in a; }
      assert ab[1..] == a[1..] + b;
      assert Parse(ab) == [Text(a[0])] + Parse(a[1..] + b) by { assert !StartsWithField(ab); }
      ParsePlain(a[1..], b);
      TextsCons(a, Parse(b));
    }
  }

  lemma ParseField(f: string, b: string)
    requires |f| == 4 && StartsWithField(f)
    ensures Parse(f + b) == [HexField(f[2] as int - '0' as int)] + Parse(b)
  {
    assert (f + b)[..4] == f;
    assert (f + b)[4..] == b;
  }

  /** The pieces of a literal run, taken apart at its first character. */
  lemma TextsCons(a: string, q: seq<Piece>)
    requires a != []
    ensures Texts(a) + q == [Text(a[0])] + (Texts(a[1..]) + q)
    ensures (Texts(a) + q)[0] == Text(a[0]) && (Texts(a) + q)[1..] == Texts(a[1..]) + q
  {
    assert Texts(a) == [Text(a[0])] + Texts(a[1..]);
  }

  lemma {:induction false} WidthsTexts(a: string, q: seq<Piece>)
    ensures Widths(Texts(a) + q) == Widths(q)
  {
    if a != [] {
      TextsCons(a, q);
      WidthsTexts(a[1..], q);
    } else {
      assert Texts(a) + q == q;
    }
  }

  /** A literal piece renders as its character and consumes no argument. */
  lemma RenderText(c: char, q: seq<Piece>, args: seq<nat>)
    requires |args| == |Widths(q)|
    ensures Widths([Text(c)] + q) == Widths(q)
    ensures Render([Text(c)] + q, args) == [c] + Render(q, args)
  {
    assert ([Text(c)] + q)[1..] == q;
  }

  /** Literal pieces render as themselves and consume no argument. */
  lemma {:induction false} RenderTexts(a: string, q: seq<Piece>, args: seq<nat>)
    requires |args| == |Widths(q)|
    ensures Widths(Texts(a) + q) == Widths(q) && Render(Texts(a) + q, args) == a + Render(q, args)
  {
    if a != [] {
      TextsCons(a, q);
      RenderTexts(a[1..], q, args);
      RenderText(a[0], Texts(a[1..]) + q, args);
      var r := Render(q, args);
      assert a + r == [a[0]] + (a[1..] + r) by {
        assert a == [a[0]] + a[1..];
      }
    } else {
      assert Texts(a) + q == q;
    }
  }

  /** A conversion renders its argument and hands the remaining arguments on. */
  lemma RenderField(w: nat, q: seq<Piece>, args: seq<nat>)
    requires |args| == |Widths(q)| + 1
    ensures Widths([HexField(w)] + q) == [w] + Widths(q)
    ensures Render([HexField(w)] + q, args) == PadHex(args[0], w) + Render(q, args[1..])
  {
    assert ([HexField(w)] + q)[1..] == q;
  }
}
