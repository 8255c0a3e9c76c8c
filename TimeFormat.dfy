/** `formatTime`: seconds to the `MM:SS` text shown on the timer face,
    built the way the JavaScript does it (floor division, the truncating
    `%`, `Number.toString` and `padStart(2, '0')`), together with a
    reader for that text used to state what the rendering means. */
module TimeFormat {

  predicate IsDigit(c: char)
  {
    '0' <= c <= '9'
  }

  predicate AllDigits(s: string)
  {
    forall i :: 0 <= i < |s| ==> IsDigit(s[i])
  }

  function DigitChar(d: nat): (c: char)
    requires d < 10
    ensures IsDigit(c)
  {
    (48 + d) as char
  }

  function DigitValue(c: char): (d: nat)
    requires IsDigit(c)
    ensures d < 10
  {
    c as int - 48
  }

  /** `Math.floor(secs / 60)`: whole minutes, rounded down. */
  function Minutes(secs: int): (m: int)
    ensures 60 * m <= secs < 60 * (m + 1)
  {
    secs / 60
  }

  /** JavaScript's `secs % 60`: the remainder takes the sign of the dividend. */
  function SecondsOfMinute(secs: int): (r: int)
    ensures secs >= 0 ==> 0 <= r < 60
    ensures secs < 0 ==> -60 < r <= 0
    ensures (secs - r) % 60 == 0
  {
    if secs >= 0 then secs % 60 else -((-secs) % 60)
  }

  /** Decimal digits of a natural number, most significant first, without
      leading zeros. */
  function Digits(n: nat): (s: string)
    ensures |s| >= 1 && AllDigits(s)
    ensures |s| == 1 <==> n < 10
  {
    if n < 10 then [DigitChar(n)] else Digits(n / 10) + [DigitChar(n % 10)]
  }

  /** `Number.prototype.toString()` on an integer: a minus sign for a
      negative number, then the digits of its magnitude, which read back
      as that magnitude. */
  function NumberToString(n: int): (s: string)
    ensures n >= 0 ==> AllDigits(s) && ParseDecimal(s) == n
    ensures n < 0 ==> |s| >= 2 && s[0] == '-' && AllDigits(s[1..]) && ParseDecimal(s[1..]) == -n
    ensures |s| <= 2 <==> -10 < n < 100
  {
    if n < 0 then
      var d := Digits(-n);
      ParseDigits(-n);
      assert ("-" + d)[1..] == d;
      "-" + d
    else
      ParseDigits(n);
      DigitsAtMostTwo(n);
      Digits(n)
  }

  /** `s.padStart(2, '0')`. */
  function PadStart2(s: string): (r: string)
    ensures |r| == if |s| >= 2 then |s| else 2
    ensures r[|r| - |s|..] == s
    ensures forall i :: 0 <= i < |r| - |s| ==> r[i] == '0'
  {
    if |s| >= 2 then s else seq(2 - |s|, _ => '0') + s
  }

  /** `formatTime(secs)`: the padded minutes, a colon, the padded
      seconds. For a count that is not negative it is a `MM:SS` reading. */
  function FormatTime(secs: int): (t: string)
    ensures secs >= 0 ==> IsTimeText(t)
  {
    var m := PadStart2(NumberToString(Minutes(secs)));
    var s := PadStart2(NumberToString(SecondsOfMinute(secs)));
    assert secs >= 0 ==> IsTimeText(m + ":" + s) by {
      if secs >= 0 {
        PaddedDigits(secs / 60);
        PaddedDigits(secs % 60);
        JoinedParts(m, s);
      }
    }
    m + ":" + s
  }

  /** Value of a string of decimal digits, leading zeros allowed. */
  function ParseDecimal(s: string): nat
    requires AllDigits(s)
  {
    if s == [] then 0 else ParseDecimal(s[..|s| - 1]) * 10 + DigitValue(s[|s| - 1])
  }

  /** A non-negative `MM:SS` reading: the digits before the last three
      characters are minutes, the last two are seconds. */
  predicate IsTimeText(t: string)
  {
    |t| >= 5 && t[|t| - 3] == ':' && AllDigits(t[..|t| - 3]) && AllDigits(t[|t| - 2..])
  }

  function MinutesPart(t: string): string
    requires IsTimeText(t)
  {
    t[..|t| - 3]
  }

  function SecondsPart(t: string): string
    requires IsTimeText(t)
  {
    t[|t| - 2..]
  }

  /** Total seconds a `MM:SS` text stands for. */
  function ParseTime(t: string): nat
    requires IsTimeText(t)
  {
    ParseDecimal(MinutesPart(t)) * 60 + ParseDecimal(SecondsPart(t))
  }

  /** Reading back the digits of `n` gives `n`. */
  lemma {:induction false} ParseDigits(n: nat)
    ensures ParseDecimal(Digits(n)) == n
  {
    if n >= 10 {
      var s := Digits(n);
      assert s[..|s| - 1] == Digits(n / 10);
      ParseDigits(n / 10);
    }
  }

  /** Leading zeros do not change the value of a digit string. */
  lemma {:induction false} ParseLeadingZeros(z: string, s: string)
    requires forall i :: 0 <= i < |z| ==> z[i] == '0'
    requires AllDigits(s)
    ensures AllDigits(z + s)
    ensures ParseDecimal(z + s) == ParseDecimal(s)
  {
    var t := z + s;
    assert AllDigits(t) by {
      forall i | 0 <= i < |t| ensures IsDigit(t[i]) {
        if i >= |z| {
          assert t[i] == s[i - |z|];
        }
      }
    }
    if s == [] {
      ParseZeros(z);
      assert t == z;
    } else {
      assert t[..|t| - 1] == z + s[..|s| - 1];
      ParseLeadingZeros(z, s[..|s| - 1]);
    }
  }

  lemma {:induction false} ParseZeros(z: string)
    requires forall i :: 0 <= i < |z| ==> z[i] == '0'
    ensures AllDigits(z) && ParseDecimal(z) == 0
  {
    if z != [] {
      ParseZeros(z[..|z| - 1]);
    }
  }

  /** Padding a non-negative number's digits keeps their value. */
  lemma PaddedDigits(n: nat)
    ensures AllDigits(PadStart2(Digits(n)))
    ensures ParseDecimal(PadStart2(Digits(n))) == n
  {
    var s := Digits(n);
    var p := PadStart2(s);
    var z := p[..|p| - |s|];
    assert p == z + s;
    ParseLeadingZeros(z, s);
    ParseDigits(n);
  }

  /** The digits of `n` number at most two exactly when `n < 100`. */
  lemma {:induction false} DigitsAtMostTwo(n: nat)
    ensures |Digits(n)| <= 2 <==> n < 100
  {
    if n >= 10 {
      DigitsAtMostTwo(n / 10);
    }
  }

  /** Joining a minutes field and a two-digit seconds field with a colon
      gives a `MM:SS` reading whose parts are those two fields. */
  lemma {:induction false} JoinedParts(m: string, s: string)
    requires |m| >= 2 && AllDigits(m)
    requires |s| == 2 && AllDigits(s)
    ensures IsTimeText(m + ":" + s)
    ensures MinutesPart(m + ":" + s) == m
    ensures SecondsPart(m + ":" + s) == s
  {
    var t := m + ":" + s;
    assert t[..|t| - 3] == m;
    assert t[|t| - 2..] == s;
  }

  /** On a count that is not negative the JavaScript operators agree with
      Dafny's, and no minus sign appears. */
  lemma NonNegativeFields(secs: int)
    requires secs >= 0
    ensures FormatTime(secs) == PadStart2(Digits(secs / 60)) + ":" + PadStart2(Digits(secs % 60))
  {
  }

  /** For any count that is not negative, the text is a `MM:SS` reading:
      seconds are exactly two digits worth 0 to 59, and the text reads
      back as the number it was made from. */
  lemma FormatTimeRoundTrip(secs: int)
    requires secs >= 0
    ensures IsTimeText(FormatTime(secs))
    ensures |SecondsPart(FormatTime(secs))| == 2
    ensures ParseDecimal(SecondsPart(FormatTime(secs))) < 60
    ensures ParseTime(FormatTime(secs)) == secs
  {
    var m := PadStart2(Digits(secs / 60));
    var s := PadStart2(Digits(secs % 60));
    DigitsAtMostTwo(secs % 60);
    PaddedDigits(secs / 60);
    PaddedDigits(secs % 60);
    NonNegativeFields(secs);
    JoinedParts(m, s);
  }

  /** The minutes field is two characters long exactly when the count is
      below 6000 seconds; then the whole text is five characters. */
  lemma FiveCharacters(secs: int)
    requires secs >= 0
    ensures |FormatTime(secs)| == 5 <==> secs < 6000
    ensures |FormatTime(secs)| >= 5
  {
    DigitsAtMostTwo(secs / 60);
    DigitsAtMostTwo(secs % 60);
  }

  /** The two phase lengths as they appear on the timer face. */
  lemma PhaseFaces()
    ensures FormatTime(1500) == "25:00"
    ensures FormatTime(300) == "05:00"
  {
    assert Minutes(1500) == 25 && SecondsOfMinute(1500) == 0;
    assert Minutes(300) == 5 && SecondsOfMinute(300) == 0;
    assert NumberToString(25) == "25" by { assert Digits(2) == "2"; }
    assert NumberToString(5) == "5";
    assert NumberToString(0) == "0";
    assert PadStart2("5") == "05";
    assert PadStart2("0") == "00";
  }

  /** A negative count, which the countdown never reaches, would render
      with the floor and the truncating remainder disagreeing in sign. */
  lemma NegativeFace()
    ensures FormatTime(-61) == "-2:-1"
  {
    assert Digits(2) == "2";
    assert Digits(1) == "1";
  }
}
