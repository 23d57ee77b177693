/** Python's integer formatting as used for image names and index rows:
    `'%d' % n` and `'%0<w>d' % n`, with a parser that inverts both. */
module Format {

  datatype Option<T> = None | Some(value: T)

  predicate IsDigit(c: char) {
    '0' <= c <= '9'
  }

  predicate AllDigits(s: string) {
    forall i :: 0 <= i < |s| ==> IsDigit(s[i])
  }

  function DigitChar(d: nat): (c: char)
    requires d < 10
    ensures IsDigit(c) && c as int - '0' as int == d
  {
    (d + '0' as int) as char
  }

  function DigitValue(c: char): (d: nat)
    requires IsDigit(c)
    ensures d < 10 && DigitChar(d) == c
  {
    c as int - '0' as int
  }

  /** The decimal digits of `n`, most significant first, without leading zeros. */
  function Digits(n: nat): (s: string)
    ensures 1 <= |s| && AllDigits(s)
    ensures n < 10 <==> |s| == 1
  {
    if n < 10 then [DigitChar(n)] else Digits(n / 10) + [DigitChar(n % 10)]
  }

  /** The number a string of decimal digits denotes (leading zeros allowed). */
  function Value(s: string): (r: nat)
    requires AllDigits(s)
  {
    if s == [] then 0 else Value(s[..|s| - 1]) * 10 + DigitValue(s[|s| - 1])
  }

  function Zeros(k: nat): (s: string)
    ensures |s| == k && AllDigits(s)
  {
    seq(k, _ => '0')
  }

  /** `'%0<width>d' % n`: a minus sign for a negative `n`, then the digits of
      its magnitude, zero-filled on the left until the whole text is `width`
      characters long (the sign counts towards the width). */
  function Pad(n: int, width: nat): (r: string)
  {
    var sign := if n < 0 then "-" else "";
    var digits := Digits(if n < 0 then -n else n);
    var fill := width - |sign| - |digits|;
    sign + Zeros(if fill > 0 then fill else 0) + digits
  }

  /** `'%d' % n`. */
  function Decimal(n: int): (r: string)
  {
    Pad(n, 0)
  }

  /** Reads an optional minus sign followed by one or more decimal digits. */
  function ParseInt(s: string): (r: Option<int>)
  {
    if |s| > 0 && s[0] == '-' then
      if |s| > 1 && AllDigits(s[1..]) then Some(-(Value(s[1..]) as int)) else None
    else if |s| > 0 && AllDigits(s) then Some(Value(s))
    else None
  }

  lemma {:induction false} ValueSnoc(s: string, c: char)
    requires AllDigits(s) && IsDigit(c)
    ensures AllDigits(s + [c]) && Value(s + [c]) == Value(s) * 10 + DigitValue(c)
  {
    assert (s + [c])[..|s|] == s;
  }

  lemma {:induction false} DigitsValue(n: nat)
    ensures Value(Digits(n)) == n
  {
    if n < 10 {
      assert Digits(n)[..0] == [];
    } else {
      DigitsValue(n / 10);
      ValueSnoc(Digits(n / 10), DigitChar(n % 10));
    }
  }

  lemma {:induction false} ZerosValue(k: nat, s: string)
    requires AllDigits(s)
    ensures AllDigits(Zeros(k) + s) && Value(Zeros(k) + s) == Value(s)
  {
    if s == [] {
      assert Zeros(k) + s == Zeros(k);
      ZerosOnly(k);
    } else {
      var init := s[..|s| - 1];
      ZerosValue(k, init);
      assert Zeros(k) + s == (Zeros(k) + init) + [s[|s| - 1]];
      assert s == init + [s[|s| - 1]];
      ValueSnoc(Zeros(k) + init, s[|s| - 1]);
      ValueSnoc(init, s[|s| - 1]);
    }
  }

  lemma {:induction false} ZerosOnly(k: nat)
    ensures Value(Zeros(k)) == 0
  {
    if k > 0 {
      ZerosOnly(k - 1);
      assert Zeros(k) == Zeros(k - 1) + ['0'];
      ValueSnoc(Zeros(k - 1), '0');
    }
  }

  /** Formatting with any width is undone by `ParseInt`. */
  lemma PadRoundTrip(n: int, width: nat)
    ensures ParseInt(Pad(n, width)) == Some(n)
  {
    var m := if n < 0 then -n else n;
    var body := PadBody(n, width);
    DigitsValue(m);
    ZerosValue(|body| - |Digits(m)|, Digits(m));
    if n < 0 {
      NegativeText(body);
    } else {
      assert Pad(n, width) == body;
    }
  }

  /** The unsigned part of `Pad(n, width)`. */
  function PadBody(n: int, width: nat): (body: string)
    ensures var m := if n < 0 then -n else n;
      |body| >= |Digits(m)| && body == Zeros(|body| - |Digits(m)|) + Digits(m)
    ensures Pad(n, width) == (if n < 0 then "-" else "") + body
  {
    var m := if n < 0 then -n else n;
    var fill := width - (if n < 0 then 1 else 0) - |Digits(m)|;
    Zeros(if fill > 0 then fill else 0) + Digits(m)
  }

  lemma NegativeText(body: string)
    requires AllDigits(body) && |body| >= 1
    ensures ParseInt("-" + body) == Some(-(Value(body) as int))
  {
    assert ("-" + body)[1..] == body;
  }

  /** The formatted text is never shorter than the requested width, and is
      exactly the width once the number fits in it. */
  lemma PadLength(n: int, width: nat)
    ensures |Pad(n, width)| >= width
    ensures |Pad(n, width)| >= 1
    ensures |Decimal(n)| <= width ==> |Pad(n, width)| == width
    ensures |Decimal(n)| > width ==> Pad(n, width) == Decimal(n)
  {
  }

  /** Different numbers never format to the same text, whatever the widths. */
  lemma PadInjective(n: int, w: nat, m: int, v: nat)
    requires Pad(n, w) == Pad(m, v)
    ensures n == m
  {
    PadRoundTrip(n, w);
    PadRoundTrip(m, v);
  }

  /** Formatted numbers are made of digits and at most a leading minus sign. */
  lemma PadAlphabet(n: int, width: nat)
    ensures forall i :: 0 <= i < |Pad(n, width)| ==> IsDigit(Pad(n, width)[i]) || (i == 0 && n < 0 && Pad(n, width)[i] == '-')
    ensures n < 0 <==> Pad(n, width)[0] == '-'
  {
    PadLength(n, width);
  }
}
