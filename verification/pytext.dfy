/** Python's character classes and its conversions between integers and text:
    `str(n)` for an int and `int(s)` for a str (base 10). */
module PyText {
  import opened Wrappers

  /** The characters Python treats as whitespace (`str.isspace`): the class
      `\s` of a str regular expression. */
  predicate IsSpace(c: char) {
    || ('\t' <= c <= '\r')
    || ('\U{1c}' <= c <= '\U{1f}')
    || c == ' '
    || c == '\U{85}'
    || c == '\U{a0}'
    || c == '\U{1680}'
    || ('\U{2000}' <= c <= '\U{200a}')
    || c == '\U{2028}'
    || c == '\U{2029}'
    || c == '\U{202f}'
    || c == '\U{205f}'
    || c == '\U{3000}'
  }

  predicate IsDigit(c: char) {
    '0' <= c <= '9'
  }

  function DigitChar(d: nat): (c: char)
    requires d < 10
    ensures IsDigit(c) && DigitValue(c) == d
  {
    (('0' as int) + d) as char
  }

  function DigitValue(c: char): nat
    requires IsDigit(c)
  {
    (c as int) - ('0' as int)
  }

  predicate AllDigits(s: string) {
    forall k :: 0 <= k < |s| ==> IsDigit(s[k])
  }

  /** The decimal text of a natural number, as `str(n)` writes it. */
  function Dec(n: nat): (s: string)
    ensures |s| > 0 && AllDigits(s)
    ensures |s| > 1 ==> s[0] != '0'
    ensures n < 10 <==> |s| == 1
    decreases n
  {
    if n < 10 then [DigitChar(n)] else Dec(n / 10) + [DigitChar(n % 10)]
  }

  /** `str(i)` for a Python int. */
  function IntText(i: int): (s: string)
    ensures |s| > 0
    ensures s[0] == '-' <==> i < 0
    ensures i >= 0 ==> AllDigits(s)
    ensures i < 0 ==> AllDigits(s[1..]) && |s| > 1
  {
    if i < 0 then "-" + Dec(-i) else Dec(i)
  }

  /** The value of a run of digits in which single underscores may separate
      digits; underscores carry no value. */
  function DigitsValue(s: string): nat
    requires forall k :: 0 <= k < |s| ==> IsDigit(s[k]) || s[k] == '_'
  {
    if |s| == 0 then 0
    else if s[|s| - 1] == '_' then DigitsValue(s[..|s| - 1])
    else DigitsValue(s[..|s| - 1]) * 10 + DigitValue(s[|s| - 1])
  }

  /** What `int()` accepts after the sign: digits, with single underscores
      allowed between two digits. */
  predicate IsDigitRun(s: string) {
    && |s| > 0
    && IsDigit(s[0])
    && IsDigit(s[|s| - 1])
    && (forall k :: 0 <= k < |s| ==> IsDigit(s[k]) || s[k] == '_')
    && (forall k :: 0 <= k < |s| - 1 ==> s[k] == '_' ==> s[k + 1] != '_')
  }

  /** The whitespace `int()` discards around its digits. Below U+0080 it is
      only tab, line feed, vertical tab, form feed, carriage return and
      space; the separators U+001C to U+001F, which `str.isspace` accepts,
      make `int()` raise ValueError. Above, every character Python counts as
      whitespace is discarded. */
  predicate IsIntSpace(c: char) {
    IsSpace(c) && !('\U{1c}' <= c <= '\U{1f}')
  }

  predicate AllIntSpace(w: string) {
    forall k :: 0 <= k < |w| ==> IsIntSpace(w[k])
  }

  function StripLeft(s: string): (t: string)
    ensures |t| <= |s| && t == s[|s| - |t|..]
    ensures |t| == 0 || !IsIntSpace(t[0])
    ensures forall k :: 0 <= k < |s| - |t| ==> IsIntSpace(s[k])
  {
    if |s| > 0 && IsIntSpace(s[0]) then StripLeft(s[1..]) else s
  }

  function StripRight(s: string): (t: string)
    ensures |t| <= |s| && t == s[..|t|]
    ensures |t| == 0 || !IsIntSpace(t[|t| - 1])
    ensures forall k :: |t| <= k < |s| ==> IsIntSpace(s[k])
  {
    if |s| > 0 && IsIntSpace(s[|s| - 1]) then StripRight(s[..|s| - 1]) else s
  }

  /** The text `int()` reads: `s` without the whitespace around it. */
  function Strip(s: string): string {
    StripRight(StripLeft(s))
  }

  /** `int(s)` for a str `s`; `None` where Python raises ValueError.
      Non-ASCII decimal digits, which Python also accepts, are not modelled. */
  function ParseInt(s: string): (r: Option<int>)
  {
    var t := Strip(s);
    if |t| > 0 && (t[0] == '-' || t[0] == '+') then
      if IsDigitRun(t[1..]) then
        var v: int := DigitsValue(t[1..]);
        Some(if t[0] == '-' then -v else v)
      else None
    else if IsDigitRun(t) then Some(DigitsValue(t))
    else None
  }

  lemma {:induction false} DecValue(n: nat)
    ensures DigitsValue(Dec(n)) == n
    decreases n
  {
    if n >= 10 {
      var s := Dec(n);
      assert s[..|s| - 1] == Dec(n / 10);
      DecValue(n / 10);
    }
  }

  lemma StripUnspaced(s: string)
    requires |s| > 0 && !IsIntSpace(s[0]) && !IsIntSpace(s[|s| - 1])
    ensures Strip(s) == s
  {
  }

  /** `int(str(i)) == i` for every Python int. */
  lemma ParseIntText(i: int)
    ensures ParseInt(IntText(i)) == Some(i)
  {
    if i < 0 {
      ParseIntNegative(i);
    } else {
      ParseIntDec(i);
    }
  }

  lemma ParseIntDec(n: nat)
    ensures ParseInt(Dec(n)) == Some(n)
  {
    var s := Dec(n);
    StripUnspaced(s);
    assert IsDigitRun(s);
    DecValue(n);
  }

  lemma ParseIntNegative(i: int)
    requires i < 0
    ensures ParseInt(IntText(i)) == Some(i)
  {
    var n: nat := -i;
    assert IntText(i) == "-" + Dec(n);
    DecValue(n);
    ParseIntMinus(Dec(n), n);
  }

  /** A minus sign before a run of digits negates its value. */
  lemma ParseIntMinus(d: string, v: nat)
    requires IsDigitRun(d) && DigitsValue(d) == v
    ensures ParseInt("-" + d) == Some(-(v as int))
  {
    var s := "-" + d;
    assert s[1..] == d;
    assert s[|s| - 1] == d[|d| - 1];
    StripUnspaced(s);
  }

  /** Surrounding whitespace never changes what `int()` reads. */
  lemma ParseIntIgnoresSpace(w: string, s: string, w': string)
    requires AllIntSpace(w) && AllIntSpace(w')
    ensures ParseInt(w + s + w') == ParseInt(s)
  {
    StripPadded(w, s, w');
  }

  lemma StripPadded(w: string, s: string, w': string)
    requires AllIntSpace(w) && AllIntSpace(w')
    ensures Strip(w + s + w') == Strip(s)
  {
    assert w + s + w' == w + (s + w');
    StripLeftSkips(w, s + w');
    if |w'| == 0 {
      assert s + w' == s;
    } else {
      StripLeftAppend(s, w');
      StripRightSkips(StripLeft(s), w');
    }
  }

  /** Leading whitespace is discarded. */
  lemma {:induction false} StripLeftSkips(w: string, s: string)
    requires AllIntSpace(w)
    ensures StripLeft(w + s) == StripLeft(s)
  {
    if |w| > 0 {
      assert (w + s)[1..] == w[1..] + s;
      StripLeftSkips(w[1..], s);
    } else {
      assert w + s == s;
    }
  }

  /** Trailing whitespace is discarded. */
  lemma {:induction false} StripRightSkips(t: string, w: string)
    requires AllIntSpace(w)
    ensures StripRight(t + w) == StripRight(t)
  {
    if |w| > 0 {
      var v := w[..|w| - 1];
      assert (t + w)[..|t + w| - 1] == t + v;
      StripRightSkips(t, v);
    } else {
      assert t + w == t;
    }
  }

  lemma {:induction false} StripLeftAppend(s: string, w: string)
    requires |w| > 0 && AllIntSpace(w)
    ensures StripLeft(s + w) == StripLeft(s) + w || (StripLeft(s) == "" && StripLeft(s + w) == "")
  {
    if |s| > 0 && IsIntSpace(s[0]) {
      assert (s + w)[1..] == s[1..] + w;
      StripLeftAppend(s[1..], w);
    } else if |s| == 0 {
      StripLeftAllSpace(w);
    }
  }

  lemma {:induction false} StripLeftAllSpace(w: string)
    requires AllIntSpace(w)
    ensures StripLeft(w) == ""
  {
    if |w| > 0 {
      StripLeftAllSpace(w[1..]);
    }
  }

  /** The separators U+001C to U+001F are not whitespace to `int()`, though
      `str.isspace` accepts them. */
  lemma FileSeparatorRejected()
    ensures IsSpace('\U{1c}')
    ensures ParseInt("\U{1c}5") == None
  {
    var s := "\U{1c}5";
    assert !IsIntSpace(s[0]) && !IsIntSpace(s[1]);
    assert StripLeft(s) == s;
    assert StripRight(s) == s;
    assert !IsDigit(s[0]);
  }
}
