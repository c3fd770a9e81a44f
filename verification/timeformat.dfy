/** The two text templates `_download_media` fills: `strf_time(ts, fmt)`,
    modelled as C `strftime` over a broken-down local time, and
    `str.format` with automatically numbered `{}` fields. How a timestamp
    breaks down into local calendar fields (the time zone) is a parameter
    of the model, not part of it. */
module TimeFormat {
  import opened Wrappers
  import opened PyText
  import opened JsonValue

  /** A timestamp broken down into local calendar fields. */
  datatype Moment = Moment(year: nat, month: nat, day: nat, hour: nat, minute: nat, second: nat)

  /** The date directory's format. */
  const DayFormat: string := "%Y-%m-%d"
  /** The file name's format, whose `{}` fields `str.format` fills afterwards. */
  const NameFormat: string := "%Y-%m-%d_%H-%M-%S {} {}.{}"

  /** A two-digit field, zero-padded as `%m`, `%d`, `%H`, `%M` and `%S` write it. */
  function Pad2(n: nat): (s: string)
    ensures |s| >= 2 && AllDigits(s)
    ensures n < 100 ==> |s| == 2
  {
    if n < 10 then "0" + Dec(n) else Dec(n)
  }

  /** What the directive `%c` writes; `None` for directives not modelled,
      which are copied as they stand. `%Y` is the year's decimal digits. */
  function Directive(m: Moment, c: char): Option<string> {
    match c
    case 'Y' => Some(Dec(m.year))
    case 'm' => Some(Pad2(m.month))
    case 'd' => Some(Pad2(m.day))
    case 'H' => Some(Pad2(m.hour))
    case 'M' => Some(Pad2(m.minute))
    case 'S' => Some(Pad2(m.second))
    case '%' => Some("%")
    case _ => None
  }

  /** `strftime(fmt)`: each directive replaced by its field, every other
      character copied. */
  function StrfTime(m: Moment, fmt: string): string
    decreases |fmt|
  {
    if |fmt| == 0 then ""
    else if fmt[0] == '%' && |fmt| >= 2 && Directive(m, fmt[1]).Some? then
      Directive(m, fmt[1]).value + StrfTime(m, fmt[2..])
    else [fmt[0]] + StrfTime(m, fmt[1..])
  }

  /** The calendar date as the directory name spells it, `YYYY-MM-DD`. */
  function DayText(m: Moment): string {
    Dec(m.year) + "-" + Pad2(m.month) + "-" + Pad2(m.day)
  }

  /** The time of day as the file name spells it, `HH-MM-SS`. */
  function ClockText(m: Moment): string {
    Pad2(m.hour) + "-" + Pad2(m.minute) + "-" + Pad2(m.second)
  }

  lemma StrfTimeLiteral(m: Moment, c: char, rest: string)
    requires c != '%'
    ensures StrfTime(m, [c] + rest) == [c] + StrfTime(m, rest)
  {
    assert ([c] + rest)[1..] == rest;
  }

  lemma StrfTimeDirective(m: Moment, d: char, rest: string)
    requires Directive(m, d).Some?
    ensures StrfTime(m, ['%', d] + rest) == Directive(m, d).value + StrfTime(m, rest)
  {
    assert (['%', d] + rest)[2..] == rest;
  }

  /** Six pieces of text joined left to right are the same pieces joined
      right to left. */
  lemma Regroup(a: string, b: string, c: string, d: string, e: string, t: string)
    ensures a + b + c + d + e + t == a + (b + (c + (d + (e + t))))
  {
  }

  /** `%A-%B-%C` followed by any text: the three fields, separated by `-`. */
  lemma StrfTimeTriple(m: Moment, x: char, y: char, z: char, rest: string)
    requires Directive(m, x).Some? && Directive(m, y).Some? && Directive(m, z).Some?
    ensures StrfTime(m, ['%', x, '-', '%', y, '-', '%', z] + rest)
            == Directive(m, x).value + "-" + Directive(m, y).value + "-" + Directive(m, z).value + StrfTime(m, rest)
  {
    var r1 := ['%', z] + rest;
    StrfTimeDirective(m, z, rest);
    var r2 := ['-'] + r1;
    StrfTimeLiteral(m, '-', r1);
    var r3 := ['%', y] + r2;
    StrfTimeDirective(m, y, r2);
    var r4 := ['-'] + r3;
    StrfTimeLiteral(m, '-', r3);
    var r5 := ['%', x] + r4;
    StrfTimeDirective(m, x, r4);
    assert r5 == ['%', x, '-', '%', y, '-', '%', z] + rest;
    Regroup(Directive(m, x).value, "-", Directive(m, y).value, "-", Directive(m, z).value, StrfTime(m, rest));
  }

  /** `%Y-%m-%d` followed by any text. */
  lemma StrfTimeDay(m: Moment, rest: string)
    ensures StrfTime(m, "%Y-%m-%d" + rest) == DayText(m) + StrfTime(m, rest)
  {
    StrfTimeTriple(m, 'Y', 'm', 'd', rest);
  }

  /** `%H-%M-%S` followed by any text. */
  lemma StrfTimeClock(m: Moment, rest: string)
    ensures StrfTime(m, "%H-%M-%S" + rest) == ClockText(m) + StrfTime(m, rest)
  {
    StrfTimeTriple(m, 'H', 'M', 'S', rest);
  }

  /** Text without `%` passes through `strftime` unchanged. */
  lemma {:induction false} StrfTimePlain(m: Moment, t: string)
    requires forall k :: 0 <= k < |t| ==> t[k] != '%'
    ensures StrfTime(m, t) == t
    decreases |t|
  {
    if |t| > 0 {
      assert t == [t[0]] + t[1..];
      StrfTimeLiteral(m, t[0], t[1..]);
      StrfTimePlain(m, t[1..]);
    }
  }

  /** The directory name is the date, `YYYY-MM-DD`. */
  lemma DayFormatText(m: Moment)
    ensures StrfTime(m, DayFormat) == DayText(m)
  {
    StrfTimeDay(m, "");
    assert DayFormat == "%Y-%m-%d" + "";
  }

  /** The file name template is the date, `_`, the time of day, and the
      three `{}` fields separated by spaces and a dot. */
  lemma NameFormatText(m: Moment)
    ensures StrfTime(m, NameFormat) == DayText(m) + "_" + ClockText(m) + " {} {}.{}"
  {
    var tail := " {} {}.{}";
    var rest := ['_'] + ("%H-%M-%S" + tail);
    NameFormatParts();
    ClockPart(m, tail);
    StrfTimeDay(m, rest);
    assert DayText(m) + ("_" + (ClockText(m) + tail)) == DayText(m) + "_" + ClockText(m) + tail;
  }

  lemma NameFormatParts()
    ensures NameFormat == "%Y-%m-%d" + (['_'] + ("%H-%M-%S" + " {} {}.{}"))
  {
  }

  /** What follows the date in the file name template. */
  lemma ClockPart(m: Moment, tail: string)
    requires forall k :: 0 <= k < |tail| ==> tail[k] != '%'
    ensures StrfTime(m, ['_'] + ("%H-%M-%S" + tail)) == "_" + (ClockText(m) + tail)
  {
    StrfTimePlain(m, tail);
    StrfTimeClock(m, tail);
    StrfTimeLiteral(m, '_', "%H-%M-%S" + tail);
  }

  predicate NoBraces(t: string) {
    forall k :: 0 <= k < |t| ==> t[k] != '{' && t[k] != '}'
  }

  /** `template.format(*args)` for templates whose fields are all `{}`:
      each `{}` takes the next argument, `{{` and `}}` write one brace.
      A `{}` with no argument left raises IndexError; a lone brace, or any
      other field form, raises ValueError. */
  function Format(template: string, args: seq<string>): Result<string, PyError>
    decreases |template|
  {
    if |template| == 0 then Ok("")
    else if template[0] == '{' then
      if |template| >= 2 && template[1] == '{' then
        var rest :- Format(template[2..], args);
        Ok("{" + rest)
      else if |template| >= 2 && template[1] == '}' then
        if |args| == 0 then Err(IndexError)
        else
          var rest :- Format(template[2..], args[1..]);
          Ok(args[0] + rest)
      else Err(ValueError)
    else if template[0] == '}' then
      if |template| >= 2 && template[1] == '}' then
        var rest :- Format(template[2..], args);
        Ok("}" + rest)
      else Err(ValueError)
    else
      var rest :- Format(template[1..], args);
      Ok([template[0]] + rest)
  }

  /** Text without braces passes through `str.format` unchanged. */
  lemma {:induction false} FormatPlain(t: string, rest: string, args: seq<string>)
    requires NoBraces(t)
    ensures Format(t + rest, args) ==
              (var r := Format(rest, args); if r.Ok? then Ok(t + r.value) else r)
    decreases |t|
  {
    if |t| == 0 {
      assert t + rest == rest;
      var r := Format(rest, args);
      if r.Ok? {
        assert t + r.value == r.value;
      }
    } else {
      var s := t + rest;
      assert s[0] == t[0];
      assert s[1..] == t[1..] + rest;
      FormatPlain(t[1..], rest, args);
      var r := Format(rest, args);
      if r.Ok? {
        assert Format(s, args) == Ok([t[0]] + (t[1..] + r.value));
        assert [t[0]] + (t[1..] + r.value) == t + r.value;
      }
    }
  }

  lemma FormatField(rest: string, a: string, args: seq<string>)
    ensures Format("{}" + rest, [a] + args) ==
              (var r := Format(rest, args); if r.Ok? then Ok(a + r.value) else r)
  {
    assert ("{}" + rest)[2..] == rest;
    assert ([a] + args)[1..] == args;
  }

  /** `.{}` with one argument. */
  lemma FormatExtField(c: string)
    ensures Format(".{}", [c]) == Ok("." + c)
  {
    assert Format("{}", [c]) == Ok(c) by {
      FormatField("", c, []);
      assert "{}" + "" == "{}";
      assert [c] + [] == [c];
      assert c + "" == c;
    }
    FormatPlain(".", "{}", [c]);
    assert "." + "{}" == ".{}";
  }

  /** ` {}.{}` with two arguments. */
  lemma FormatUserExtFields(b: string, c: string)
    ensures Format(" {}.{}", [b, c]) == Ok(" " + (b + ("." + c)))
  {
    assert Format("{}.{}", [b, c]) == Ok(b + ("." + c)) by {
      FormatExtField(c);
      FormatField(".{}", b, [c]);
      assert "{}" + ".{}" == "{}.{}";
      assert [b] + [c] == [b, c];
    }
    FormatPlain(" ", "{}.{}", [b, c]);
    assert " " + "{}.{}" == " {}.{}";
  }

  /** ` {} {}.{}` with three arguments. */
  lemma FormatAllFields(a: string, b: string, c: string)
    ensures Format(" {} {}.{}", [a, b, c]) == Ok(" " + (a + (" " + (b + ("." + c)))))
  {
    assert Format("{} {}.{}", [a, b, c]) == Ok(a + (" " + (b + ("." + c)))) by {
      FormatUserExtFields(b, c);
      FormatField(" {}.{}", a, [b, c]);
      assert "{}" + " {}.{}" == "{} {}.{}";
      assert [a] + [b, c] == [a, b, c];
    }
    FormatPlain(" ", "{} {}.{}", [a, b, c]);
    assert " " + "{} {}.{}" == " {} {}.{}";
  }

  /** The file name template, once `strftime` has written its prefix `x`,
      formats to `x`, then the three arguments separated by a space, a
      space and a dot. */
  lemma FormatNameFields(x: string, a: string, b: string, c: string)
    requires NoBraces(x)
    ensures Format(x + " {} {}.{}", [a, b, c]) == Ok(x + " " + a + " " + b + "." + c)
  {
    FormatAllFields(a, b, c);
    FormatPlain(x, " {} {}.{}", [a, b, c]);
    Regroup(x, " ", a, " ", b, "." + c);
    assert x + " " + a + " " + b + ("." + c) == x + " " + a + " " + b + "." + c;
  }

  /** The file name `strf_time(ts, NameFormat).format(id, user, ext)` writes:
      the date, `_`, the time of day, then the snap id, the username and the
      extension, separated by a space, a space and a dot. */
  lemma FileNameText(m: Moment, id: string, user: string, ext: string)
    ensures Format(StrfTime(m, NameFormat), [id, user, ext])
            == Ok(DayText(m) + "_" + ClockText(m) + " " + id + " " + user + "." + ext)
  {
    NameFormatText(m);
    var x := DayText(m) + "_" + ClockText(m);
    assert NoBraces(x) by {
      DayTextHasNoBraces(m);
      ClockTextHasNoBraces(m);
    }
    FormatNameFields(x, id, user, ext);
  }

  lemma DayTextHasNoBraces(m: Moment)
    ensures NoBraces(DayText(m))
  {
    DigitsHaveNoBraces(Dec(m.year));
    DigitsHaveNoBraces(Pad2(m.month));
    DigitsHaveNoBraces(Pad2(m.day));
  }

  lemma ClockTextHasNoBraces(m: Moment)
    ensures NoBraces(ClockText(m))
  {
    DigitsHaveNoBraces(Pad2(m.hour));
    DigitsHaveNoBraces(Pad2(m.minute));
    DigitsHaveNoBraces(Pad2(m.second));
  }

  lemma DigitsHaveNoBraces(s: string)
    requires AllDigits(s)
    ensures NoBraces(s)
  {
  }
}
