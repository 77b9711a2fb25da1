/**
  A reader for the log line layout `[Y/M/D H:mm:ss.mmm] message`. It is the
  inverse of the layout: reading a line back gives the date fields and the
  message that produced it, so the layout loses nothing and is unambiguous.
 */
module LogParse {
  import opened Wrappers
  import opened Text
  import JsApp

  /** The longest prefix of digits of s, and what follows it. */
  function SpanDigits(s: string): (r: (string, string))
    ensures r.0 + r.1 == s && AllDigits(r.0)
    ensures r.1 == [] || !IsDigit(r.1[0])
  {
    if s == [] || !IsDigit(s[0]) then ([], s)
    else
      var rest := SpanDigits(s[1..]);
      ([s[0]] + rest.0, rest.1)
  }

  lemma {:induction false} SpanDigitsOf(d: string, rest: string)
    requires AllDigits(d) && (rest == [] || !IsDigit(rest[0]))
    ensures SpanDigits(d + rest) == (d, rest)
  {
    if d == [] {
      assert d + rest == rest;
    } else {
      assert d == [d[0]] + d[1..];
      assert (d + rest)[1..] == d[1..] + rest;
      SpanDigitsOf(d[1..], rest);
    }
  }

  /** A non-empty run of digits followed by sep: its value and what follows sep. */
  function Field(s: string, sep: char): Option<(nat, string)> {
    var (digits, rest) := SpanDigits(s);
    if digits == [] || rest == [] || rest[0] != sep then None
    else Some((ParseDecimal(digits), rest[1..]))
  }

  /** A non-empty string of digits. */
  predicate Numeral(s: string) { |s| > 0 && AllDigits(s) }

  lemma FieldOf(d: string, sep: char, rest: string)
    requires Numeral(d) && !IsDigit(sep)
    ensures Field(d + [sep] + rest, sep) == Some((ParseDecimal(d), rest))
  {
    assert d + [sep] + rest == d + ([sep] + rest);
    SpanDigitsOf(d, [sep] + rest);
  }

  /** Reads a log line back into its date fields and its message. */
  function ParseLogLine(line: string): Option<(JsApp.UtcDate, string)> {
    if line == [] || line[0] != '[' then None
    else
      var year :- Field(line[1..], '/');
      var month :- Field(year.1, '/');
      var date :- Field(month.1, ' ');
      var clock :- ParseClock(date.1);
      Some((JsApp.UtcDate(year.0, month.0, date.0, clock.0, clock.1, clock.2, clock.3), clock.4))
  }

  /** Reads `H:mm:ss.mmm] message`: hours, minutes, seconds, milliseconds and the message. */
  function ParseClock(s: string): Option<(nat, nat, nat, nat, string)> {
    var hours :- Field(s, ':');
    var minutes :- Field(hours.1, ':');
    var seconds :- Field(minutes.1, '.');
    var millis :- Field(seconds.1, ']');
    if millis.1 == [] || millis.1[0] != ' ' then None
    else Some((hours.0, minutes.0, seconds.0, millis.0, millis.1[1..]))
  }

  /** A digit string for n, padded or not, reads back as n. */
  lemma NumberField(n: nat, width: int)
    ensures Numeral(ZeroPad(DecimalString(n), width))
    ensures ParseDecimal(ZeroPad(DecimalString(n), width)) == n
  {
    ParseZeroPad(n, width);
  }

  lemma Regroup(p: string, d: string, sep: char, rest: string)
    ensures p + d + [sep] + rest == p + (d + [sep] + rest)
  {
  }

  /** The layout with its seven number fields given as text, grouped from the right. */
  function Assemble(y: string, mo: string, da: string, h: string, mi: string, se: string, ms: string, message: string): string {
    ['['] + (y + ['/'] + (mo + ['/'] + (da + [' '] + ClockText(h, mi, se, ms, message))))
  }

  /** The part from the hour on, grouped from the right. */
  function ClockText(h: string, mi: string, se: string, ms: string, message: string): string {
    h + [':'] + (mi + [':'] + (se + ['.'] + (ms + [']'] + ([' '] + message))))
  }

  lemma LogLineAssembled(d: JsApp.UtcDate, message: string)
    ensures JsApp.LogLine(d, message) == Assemble(
      DecimalString(d.fullYear), DecimalString(d.month), DecimalString(d.date), DecimalString(d.hours),
      ZeroPad(DecimalString(d.minutes), 2), ZeroPad(DecimalString(d.seconds), 2),
      ZeroPad(DecimalString(d.milliseconds), 3), message)
  {
    var y, mo, da, h := DecimalString(d.fullYear), DecimalString(d.month), DecimalString(d.date), DecimalString(d.hours);
    var mi, se, ms := ZeroPad(DecimalString(d.minutes), 2), ZeroPad(DecimalString(d.seconds), 2), ZeroPad(DecimalString(d.milliseconds), 3);
    var r7: string := [' '] + message;
    var s7: string := ms + [']'] + r7;
    var s6: string := se + ['.'] + s7;
    var s5: string := mi + [':'] + s6;
    var s4: string := h + [':'] + s5;
    var s3: string := da + [' '] + s4;
    var s2: string := mo + ['/'] + s3;
    var p1: string := ['['] + y + ['/'];
    var p2: string := p1 + mo + ['/'];
    var p3: string := p2 + da + [' '];
    var p4: string := p3 + h + [':'];
    var p5: string := p4 + mi + [':'];
    var p6: string := p5 + se + ['.'];
    var p7: string := p6 + ms + [']'];
    assert JsApp.LogLine(d, message) == p7 + r7;
    Regroup(p6, ms, ']', r7);
    Regroup(p5, se, '.', s7);
    Regroup(p4, mi, ':', s6);
    Regroup(p3, h, ':', s5);
    Regroup(p2, da, ' ', s4);
    Regroup(p1, mo, '/', s3);
    Regroup(['['], y, '/', s2);
  }

  lemma ParseClockSteps(
    s: string, r1: string, r2: string, r3: string, message: string, h: nat, mi: nat, se: nat, ms: nat)
    requires Field(s, ':') == Some((h, r1))
    requires Field(r1, ':') == Some((mi, r2))
    requires Field(r2, '.') == Some((se, r3))
    requires Field(r3, ']') == Some((ms, [' '] + message))
    ensures ParseClock(s) == Some((h, mi, se, ms, message))
  {
  }

  lemma ParseClockOf(h: string, mi: string, se: string, ms: string, message: string)
    requires Numeral(h) && Numeral(mi) && Numeral(se) && Numeral(ms)
    ensures ParseClock(ClockText(h, mi, se, ms, message))
      == Some((ParseDecimal(h), ParseDecimal(mi), ParseDecimal(se), ParseDecimal(ms), message))
  {
    var r: string := [' '] + message;
    var r3: string := ms + [']'] + r;
    var r2: string := se + ['.'] + r3;
    var r1: string := mi + [':'] + r2;
    assert Field(h + [':'] + r1, ':') == Some((ParseDecimal(h), r1)) by { FieldOf(h, ':', r1); }
    assert Field(r1, ':') == Some((ParseDecimal(mi), r2)) by { FieldOf(mi, ':', r2); }
    assert Field(r2, '.') == Some((ParseDecimal(se), r3)) by { FieldOf(se, '.', r3); }
    assert Field(r3, ']') == Some((ParseDecimal(ms), r)) by { FieldOf(ms, ']', r); }
    ParseClockSteps(h + [':'] + r1, r1, r2, r3, message,
                    ParseDecimal(h), ParseDecimal(mi), ParseDecimal(se), ParseDecimal(ms));
  }

  lemma ParseAssembled(y: string, mo: string, da: string, h: string, mi: string, se: string, ms: string, message: string)
    requires Numeral(y) && Numeral(mo) && Numeral(da)
    requires Numeral(h) && Numeral(mi) && Numeral(se) && Numeral(ms)
    ensures ParseLogLine(Assemble(y, mo, da, h, mi, se, ms, message)) == Some((JsApp.UtcDate(
      ParseDecimal(y), ParseDecimal(mo), ParseDecimal(da), ParseDecimal(h),
      ParseDecimal(mi), ParseDecimal(se), ParseDecimal(ms)), message))
  {
    var clock := ClockText(h, mi, se, ms, message);
    var s3: string := da + [' '] + clock;
    var s2: string := mo + ['/'] + s3;
    var s1: string := y + ['/'] + s2;
    var line := Assemble(y, mo, da, h, mi, se, ms, message);
    assert line[1..] == s1;
    FieldOf(y, '/', s2);
    FieldOf(mo, '/', s3);
    FieldOf(da, ' ', clock);
    ParseClockOf(h, mi, se, ms, message);
  }

  /** Reading back the line logMessage prints gives the date and the message it was made from. */
  lemma ParseJsLogLine(d: JsApp.UtcDate, message: string)
    ensures ParseLogLine(JsApp.LogLine(d, message)) == Some((d, message))
  {
    NumberField(d.fullYear, 0);
    NumberField(d.month, 0);
    NumberField(d.date, 0);
    NumberField(d.hours, 0);
    NumberField(d.minutes, 2);
    NumberField(d.seconds, 2);
    NumberField(d.milliseconds, 3);
    LogLineAssembled(d, message);
    ParseAssembled(
      DecimalString(d.fullYear), DecimalString(d.month), DecimalString(d.date), DecimalString(d.hours),
      ZeroPad(DecimalString(d.minutes), 2), ZeroPad(DecimalString(d.seconds), 2),
      ZeroPad(DecimalString(d.milliseconds), 3), message);
  }
}
