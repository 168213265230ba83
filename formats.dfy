/** Renderings of Java values that the reports print: 32-bit ints,
    `Integer.toString`, `String.format("%.2f")` and `Double.toString` of
    amounts held as whole cents, `%-Ns` left-justified padding, ASCII
    `equalsIgnoreCase`, and counting the line breaks of a text. */
module Formats {

  /** Java's `int`. */
  type int32 = x: int | -0x8000_0000 <= x < 0x8000_0000

  /** Two's-complement wrap-around of Java `int` arithmetic. */
  function Wrap32(x: int): (r: int32)
    ensures (r - x) % 0x1_0000_0000 == 0
    ensures -0x8000_0000 <= x < 0x8000_0000 ==> r == x
  {
    (x + 0x8000_0000) % 0x1_0000_0000 - 0x8000_0000
  }

  /** Adding to an already wrapped sum wraps like adding to the exact sum. */
  lemma Wrap32Add(a: int, b: int)
    ensures Wrap32(Wrap32(a) + b) == Wrap32(a + b)
  {
    var k := (a + 0x8000_0000) / 0x1_0000_0000;
    assert Wrap32(a) == a - k * 0x1_0000_0000;
    var x := a + b + 0x8000_0000;
    var q, r := x / 0x1_0000_0000, x % 0x1_0000_0000;
    assert x - k * 0x1_0000_0000 == (q - k) * 0x1_0000_0000 + r;
  }

  function DigitChar(d: nat): (c: char)
    requires d < 10
    ensures '0' <= c <= '9'
  {
    ('0' as int + d) as char
  }

  function DigitValue(c: char): nat
    requires '0' <= c <= '9'
  {
    c as int - '0' as int
  }

  predicate IsDigits(s: string) {
    forall i :: 0 <= i < |s| ==> '0' <= s[i] <= '9'
  }

  /** Decimal digits of a natural number, most significant first, no
      leading zeros. */
  function NatToString(n: nat): (s: string)
    ensures 1 <= |s| && IsDigits(s)
    ensures '\n' !in s
    decreases n
  {
    if n < 10 then [DigitChar(n)] else NatToString(n / 10) + [DigitChar(n % 10)]
  }

  /** The number a string of decimal digits denotes. */
  function DigitsValue(s: string): nat
    requires IsDigits(s)
  {
    if s == [] then 0 else 10 * DigitsValue(s[..|s| - 1]) + DigitValue(s[|s| - 1])
  }

  /** Reading back the digits of `n` gives `n`. */
  lemma {:induction false} NatToStringRoundTrip(n: nat)
    ensures DigitsValue(NatToString(n)) == n
  {
    var s := NatToString(n);
    if n >= 10 {
      NatToStringRoundTrip(n / 10);
      assert s[..|s| - 1] == NatToString(n / 10);
    }
  }

  /** `Integer.toString` / `%d`: a minus sign for negative values. */
  function IntToString(i: int): (s: string)
    ensures '\n' !in s
  {
    if i < 0 then "-" + NatToString(-i) else NatToString(i)
  }

  /** Two decimal digits, with a leading zero below ten. */
  function TwoDigits(n: nat): (s: string)
    requires n < 100
    ensures |s| == 2 && IsDigits(s) && DigitsValue(s) == n
  {
    var s := [DigitChar(n / 10), DigitChar(n % 10)];
    assert s[..1] == [DigitChar(n / 10)] && s[..1][..0] == [];
    assert DigitsValue(s[..1]) == n / 10;
    s
  }

  function Abs(x: int): nat {
    if x < 0 then -x else x
  }

  /** A decimal number: a minus sign when negative, the whole units, a
      point and the digits of the fraction. */
  function Decimal(negative: bool, units: nat, fraction: string): (s: string)
    requires '\n' !in fraction
    ensures '\n' !in s
  {
    (if negative then "-" else "") + NatToString(units) + "." + fraction
  }

  /** The parts of a decimal number read back: the sign, the whole units
      before the point and the fraction after it. */
  lemma DecimalParts(negative: bool, units: nat, fraction: string)
    requires |fraction| >= 1 && '\n' !in fraction
    ensures var s := Decimal(negative, units, fraction);
            var point := |s| - |fraction| - 1;
            && |s| >= |fraction| + 2 + (if negative then 1 else 0)
            && s[point] == '.' && s[point + 1..] == fraction
            && (s[0] == '-') == negative
            && var whole := if negative then s[1..point] else s[..point];
               IsDigits(whole) && DigitsValue(whole) == units
  {
    var sign := if negative then "-" else "";
    var whole := NatToString(units);
    var s := Decimal(negative, units, fraction);
    NatToStringRoundTrip(units);
    assert s == sign + whole + "." + fraction;
    assert s[|sign|..|sign| + |whole|] == whole;
    assert s[|s| - |fraction|..] == fraction;
  }

  /** `String.format("%.2f", cents / 100.0)`, computed exactly on cents. */
  function Money(cents: int): (s: string)
    ensures '\n' !in s
    ensures |s| >= 4 && s[|s| - 3] == '.'
    ensures IsDigits(s[|s| - 2..]) && DigitsValue(s[|s| - 2..]) == Abs(cents) % 100
  {
    DecimalParts(cents < 0, Abs(cents) / 100, TwoDigits(Abs(cents) % 100));
    Decimal(cents < 0, Abs(cents) / 100, TwoDigits(Abs(cents) % 100))
  }

  /** A printed amount reads back as its cents: a minus sign exactly for a
      negative amount, then the whole units before the point. */
  lemma MoneyReadsBack(cents: int)
    ensures var s := Money(cents);
            && |s| >= 4 && (s[0] == '-') == (cents < 0)
            && var whole := if cents < 0 then s[1..|s| - 3] else s[..|s| - 3];
               IsDigits(whole) && DigitsValue(whole) == Abs(cents) / 100
  {
    DecimalParts(cents < 0, Abs(cents) / 100, TwoDigits(Abs(cents) % 100));
  }

  /** The shortest fraction digits that denote a number of cents: one
      digit when the cents are a multiple of ten, two otherwise. */
  function ShortFraction(c: nat): (f: string)
    requires c < 100
    ensures IsDigits(f) && '\n' !in f
    ensures |f| == (if c % 10 == 0 then 1 else 2)
    ensures (if c % 10 == 0 then 10 * DigitsValue(f) else DigitsValue(f)) == c
  {
    if c % 10 == 0 then
      var f := [DigitChar(c / 10)];
      assert f[..0] == [];
      f
    else TwoDigits(c)
  }

  /** `Double.toString` of an amount with at most two decimals. */
  function JavaDouble(cents: int): (s: string)
    ensures '\n' !in s
  {
    Decimal(cents < 0, Abs(cents) / 100, ShortFraction(Abs(cents) % 100))
  }

  /** A price as `Double.toString` prints it reads back as its cents: a
      minus sign exactly for a negative amount, the whole units, a point,
      then the shortest fraction that denotes the cents. */
  lemma JavaDoubleReadsBack(cents: int)
    ensures var s := JavaDouble(cents);
            var point := if Abs(cents) % 10 == 0 then |s| - 2 else |s| - 3;
            && |s| >= 3 && 1 <= point && s[point] == '.' && (s[0] == '-') == (cents < 0)
            && s[point + 1..] == ShortFraction(Abs(cents) % 100)
            && var whole := if cents < 0 then s[1..point] else s[..point];
               IsDigits(whole) && DigitsValue(whole) == Abs(cents) / 100
  {
    var f := ShortFraction(Abs(cents) % 100);
    var s := Decimal(cents < 0, Abs(cents) / 100, f);
    assert JavaDouble(cents) == s;
    assert |f| == if Abs(cents) % 10 == 0 then 1 else 2;
    DecimalParts(cents < 0, Abs(cents) / 100, f);
  }

  /** `n` copies of a character. */
  function Repeat(c: char, n: nat): (s: string)
    ensures |s| == n && forall i :: 0 <= i < n ==> s[i] == c
  {
    seq(n, _ => c)
  }

  /** `%-Ns`: the text left-justified in a field of `width` characters;
      a longer text is kept whole. */
  function PadRight(s: string, width: nat): (r: string)
    ensures |r| == if |s| < width then width else |s|
    ensures r[..|s|] == s
    ensures forall i :: |s| <= i < |r| ==> r[i] == ' '
    ensures '\n' in r <==> '\n' in s
  {
    if |s| < width then s + Repeat(' ', width - |s|) else s
  }

  /** ASCII case folding to lower case. */
  function ToLower(c: char): char {
    if 'A' <= c <= 'Z' then (c as int + 32) as char else c
  }

  /** `String.equalsIgnoreCase` over ASCII letters. */
  predicate EqualsIgnoreCase(a: string, b: string) {
    |a| == |b| && forall i :: 0 <= i < |a| ==> ToLower(a[i]) == ToLower(b[i])
  }

  lemma EqualsIgnoreCaseSymmetric(a: string, b: string)
    requires EqualsIgnoreCase(a, b)
    ensures EqualsIgnoreCase(b, a)
  {
  }

  lemma EqualsIgnoreCaseTransitive(a: string, b: string, c: string)
    requires EqualsIgnoreCase(a, b) && EqualsIgnoreCase(b, c)
    ensures EqualsIgnoreCase(a, c)
  {
  }

  /** Regrouping an append onto a text built so far. Called where the
      parts are large terms: the solver handles the lemma's abstract
      parameters much more cheaply than the same fact asserted in place. */
  lemma AppendAssoc(a: string, b: string, c: string)
    ensures (a + b) + c == a + (b + c)
  {
  }

  /** A line of text: the text followed by a line break. */
  function Line(s: string): string {
    s + "\n"
  }

  /** Number of line breaks in a text. */
  function Newlines(s: string): nat {
    if s == [] then 0 else (if s[0] == '\n' then 1 else 0) + Newlines(s[1..])
  }

  lemma {:induction false} NewlinesAppend(a: string, b: string)
    ensures Newlines(a + b) == Newlines(a) + Newlines(b)
  {
    if a == [] {
      assert a + b == b;
    } else {
      assert (a + b)[1..] == a[1..] + b;
      NewlinesAppend(a[1..], b);
    }
  }

  lemma {:induction false} NewlinesNone(s: string)
    requires '\n' !in s
    ensures Newlines(s) == 0
  {
    if s != [] {
      assert s[0] != '\n';
      assert forall c :: c in s[1..] ==> c in s;
      NewlinesNone(s[1..]);
    }
  }

  /** A line break followed by single-line text holds one line break. */
  lemma LeadingBreak(s: string)
    requires |s| > 0 && s[0] == '\n' && '\n' !in s[1..]
    ensures Newlines(s) == 1
  {
    NewlinesNone(s[1..]);
  }

  /** The same for a text whose characters after the first can be checked
      one by one, such as a literal. */
  lemma BreakThenCaption(s: string)
    requires |s| > 0 && s[0] == '\n'
    requires forall i :: 1 <= i < |s| ==> s[i] != '\n'
    ensures Newlines(s) == 1
  {
    assert forall i :: 0 <= i < |s[1..]| ==> s[1..][i] == s[i + 1];
    LeadingBreak(s);
  }

  /** A text whose only line break is at position `k`. */
  lemma OneBreakAt(s: string, k: nat)
    requires k < |s| && s[k] == '\n'
    requires forall i :: 0 <= i < |s| && i != k ==> s[i] != '\n'
    ensures Newlines(s) == 1
  {
    assert s == s[..k] + s[k..];
    assert forall i :: 0 <= i < |s[..k]| ==> s[..k][i] == s[i];
    assert forall i :: 1 <= i < |s[k..]| ==> s[k..][i] == s[k + i];
    NewlinesAppend(s[..k], s[k..]);
    NewlinesNone(s[..k]);
    BreakThenCaption(s[k..]);
  }

  /** A line of single-line text holds exactly one line break. */
  lemma LineNewlines(s: string)
    requires '\n' !in s
    ensures Newlines(Line(s)) == 1
  {
    NewlinesAppend(s, "\n");
    NewlinesNone(s);
  }

  /** The concatenation of one rendered line per element, in order. */
  function Render<T>(xs: seq<T>, line: T -> string): string {
    if xs == [] then "" else line(xs[0]) + Render(xs[1..], line)
  }

  lemma {:induction false} RenderAppend<T>(a: seq<T>, b: seq<T>, line: T -> string)
    ensures Render(a + b, line) == Render(a, line) + Render(b, line)
  {
    if a == [] {
      assert a + b == b;
    } else {
      assert (a + b)[1..] == a[1..] + b;
      RenderAppend(a[1..], b, line);
    }
  }

  /** When every rendered line holds exactly one line break, the text has
      one line per element. */
  lemma {:induction false} RenderNewlines<T>(xs: seq<T>, line: T -> string)
    requires forall x :: x in xs ==> Newlines(line(x)) == 1
    ensures Newlines(Render(xs, line)) == |xs|
  {
    if xs != [] {
      NewlinesAppend(line(xs[0]), Render(xs[1..], line));
      RenderNewlines(xs[1..], line);
    }
  }
}
