/**
 * `Utils::date`: the format is rewritten in place while it is being scanned, and the scan goes on
 * inside the text that was just inserted.
 */
module DateFormat {
  import opened Text

  /** The broken-down local time, as `localtime` gives it. */
  datatype Tm = Tm(sec: int, min: int, hour: int, mday: int, mon: int, year: int, wday: int)

  predicate InRange(t: Tm) {
    && 0 <= t.sec <= 60 && 0 <= t.min <= 59 && 0 <= t.hour <= 23
    && 1 <= t.mday <= 31 && 0 <= t.mon <= 11 && 0 <= t.wday <= 6
  }

  function Digits(n: nat): (r: string)
    ensures r != "" && forall i :: 0 <= i < |r| ==> IsDigit(r[i])
    ensures n < 10 ==> |r| == 1
    ensures 10 <= n < 100 ==> |r| == 2
  {
    var last := ['0' + (n % 10) as char];
    if n < 10 then last else Digits(n / 10) + last
  }

  /** `stringstream << value`. */
  function ToString(n: int): string {
    if n < 0 then "-" + Digits(-n) else Digits(n)
  }

  function PadStart(str: string, length: nat, padChar: char): string {
    if |str| >= length then str else seq(length - |str|, _ => padChar) + str
  }

  function TwoDigits(n: int): string {
    PadStart(ToString(n), 2, '0')
  }

  const MONTH_NAMES := ["Jan", "Feb", "Mar", "Apr", "May", "Jun", "Jul", "Aug", "Sep", "Oct", "Nov", "Dec"]

  const DAY_NAMES := ["Sun", "Mon", "Tue", "Wed", "Thu", "Fri", "Sat"]

  /** What a format letter is replaced by. */
  function Replacement(c: char, t: Tm): (r: Option<string>)
    requires InRange(t)
    ensures r.Some? ==> r.value != ""
  {
    match c
    case 'Y' => Some(ToString(1900 + t.year))
    case 'm' => Some(TwoDigits(1 + t.mon))
    case 'd' => Some(TwoDigits(t.mday))
    case 'H' => Some(TwoDigits(t.hour))
    case 'i' => Some(TwoDigits(t.min))
    case 's' => Some(TwoDigits(t.sec))
    case 'M' => Some(MONTH_NAMES[t.mon])
    case 'z' => Some("UTC")
    case 'D' => Some(DAY_NAMES[t.wday])
    case _ => None
  }

  /** The plain expansion: each letter of the format is replaced once. */
  function Plain(c: char, t: Tm): (r: string)
    requires InRange(t)
    ensures r != ""
  {
    match Replacement(c, t)
    case None => [c]
    case Some(r) => r
  }

  function Once(s: string, t: Tm): string
    requires InRange(t)
  {
    if s == "" then "" else Plain(s[0], t) + Once(s[1..], t)
  }

  /** What a letter becomes when the scan goes on behind the first inserted character. */
  function Rescanned(c: char, t: Tm): (r: string)
    requires InRange(t)
    ensures r != ""
  {
    match Replacement(c, t)
    case None => [c]
    case Some(r) => [r[0]] + Once(r[1..], t)
  }

  /** The per-character expansion that the loop really computes. */
  function Rewritten(s: string, t: Tm): string
    requires InRange(t)
  {
    if s == "" then "" else Rescanned(s[0], t) + Rewritten(s[1..], t)
  }

  lemma {:induction false} RewrittenConcat(a: string, b: string, t: Tm)
    requires InRange(t)
    ensures Rewritten(a + b, t) == Rewritten(a, t) + Rewritten(b, t)
  {
    hide Rescanned;
    if a == "" {
      assert a + b == b;
    } else {
      RewrittenConcat(a[1..], b, t);
      assert (a + b)[1..] == a[1..] + b;
    }
  }

  predicate IsFormat(c: char) {
    c == 'Y' || c == 'm' || c == 'd' || c == 'H' || c == 'i' || c == 's' || c == 'M' || c == 'z' || c == 'D'
  }

  /** No format letter occurs in the text. */
  ghost predicate Inert(s: string) {
    forall i :: 0 <= i < |s| ==> !IsFormat(s[i])
  }

  lemma {:induction false} InertUnchanged(s: string, t: Tm)
    requires InRange(t) && Inert(s)
    ensures Once(s, t) == s
  {
    if s != "" {
      InertUnchanged(s[1..], t);
      assert s == [s[0]] + s[1..];
    }
  }

  ghost predicate AllDigits(s: string) {
    forall i :: 0 <= i < |s| ==> IsDigit(s[i])
  }

  lemma TwoDigitsShape(n: int)
    requires 0 <= n < 100
    ensures |TwoDigits(n)| == 2 && AllDigits(TwoDigits(n))
  {
  }

  lemma TwoDigitsTail(n: int)
    requires 0 <= n < 100
    ensures Inert(TwoDigits(n)[1..])
  {
    hide TwoDigits;
    TwoDigitsShape(n);
  }

  lemma YearTail(n: int)
    ensures Inert(ToString(n)[1..])
  {
    assert n < 0 ==> ToString(n)[1..] == Digits(-n);
  }

  lemma MonthTail(m: int)
    requires 0 <= m < 12
    ensures Inert(MONTH_NAMES[m][1..])
  {
    var name := MONTH_NAMES[m];
    assert |name| == 3;
    assert !IsFormat(name[1]) && !IsFormat(name[2]);
  }

  /** Behind its first character a replacement has no format letter, unless it is a weekday. */
  lemma ReplacementTail(c: char, t: Tm)
    requires InRange(t) && c != 'D' && Replacement(c, t).Some?
    ensures Inert(Replacement(c, t).value[1..])
  {
    hide TwoDigits, ToString, Inert, MONTH_NAMES;
    match c
    case 'Y' => YearTail(1900 + t.year);
    case 'm' => TwoDigitsTail(1 + t.mon);
    case 'd' => TwoDigitsTail(t.mday);
    case 'H' => TwoDigitsTail(t.hour);
    case 'i' => TwoDigitsTail(t.min);
    case 's' => TwoDigitsTail(t.sec);
    case 'M' => MonthTail(t.mon);
    case 'z' => ZoneTail();
    case _ => assert false;
  }

  lemma ZoneTail()
    ensures Inert("UTC"[1..])
  {
  }

  lemma RescannedIsPlain(c: char, t: Tm)
    requires InRange(t) && c != 'D'
    ensures Rescanned(c, t) == Plain(c, t)
  {
    if Replacement(c, t).Some? {
      var r := Replacement(c, t).value;
      ReplacementTail(c, t);
      InertUnchanged(r[1..], t);
      assert r == [r[0]] + r[1..];
    }
  }

  lemma DayNameTail(t: Tm)
    requires InRange(t)
    ensures 'D' !in DAY_NAMES[t.wday] && |DAY_NAMES[t.wday]| == 3
  {
  }

  lemma {:induction false} RewrittenIsOnce(s: string, t: Tm)
    requires InRange(t) && 'D' !in s
    ensures Rewritten(s, t) == Once(s, t)
  {
    hide Rescanned, Plain;
    if s != "" {
      RescannedIsPlain(s[0], t);
      RewrittenIsOnce(s[1..], t);
    }
  }

  /** The rest of an inserted text is expanded by the scan as the definition says. */
  lemma RewrittenTail(c: char, t: Tm)
    requires InRange(t) && Replacement(c, t).Some?
    ensures var r := Replacement(c, t).value; Rescanned(c, t) == [r[0]] + Rewritten(r[1..], t)
  {
    var r := Replacement(c, t).value;
    if c == 'D' {
      DayNameTail(t);
    } else {
      ReplacementTail(c, t);
    }
    assert 'D' !in r[1..];
    RewrittenIsOnce(r[1..], t);
  }

  /** One round of the loop at the head of the unscanned text. */
  lemma Advance(rest: string, t: Tm)
    requires InRange(t) && rest != ""
    ensures match Replacement(rest[0], t)
            case None => Rewritten(rest, t) == [rest[0]] + Rewritten(rest[1..], t)
            case Some(r) => Rewritten(rest, t) == [r[0]] + Rewritten(r[1..] + rest[1..], t)
  {
    hide Replacement, Rewritten;
    Unfold(rest, t);
    match Replacement(rest[0], t)
    case None =>
    case Some(r) =>
      hide Rescanned;
      RewrittenTail(rest[0], t);
      RewrittenConcat(r[1..], rest[1..], t);
      Regroup([r[0]], Rewritten(r[1..], t), Rewritten(rest[1..], t));
  }

  lemma Unfold(s: string, t: Tm)
    requires InRange(t) && s != ""
    ensures Rewritten(s, t) == Rescanned(s[0], t) + Rewritten(s[1..], t)
  {
  }

  lemma Regroup(a: string, b: string, c: string)
    ensures a + b + c == a + (b + c)
  {
  }

  /** The loop. What is left to write shrinks by one character in every round. */
  method Date(text: string, t: Tm) returns (format: string)
    requires InRange(t)
    ensures format == Rewritten(text, t)
  {
    hide Rewritten, Replacement, Rescanned;
    format := text;
    var i := 0;
    assert format[..0] + Rewritten(format[0..], t) == Rewritten(text, t);
    while i < |format|
      invariant i <= |format|
      invariant format[..i] + Rewritten(format[i..], t) == Rewritten(text, t)
      decreases |Rewritten(format[i..], t)|
    {
      ghost var done, rest := format[..i], format[i..];
      ghost var next: string;
      Advance(rest, t);
      match Replacement(format[i], t) {
        case None =>
          next := rest[1..];
          Settle(done, [rest[0]], next, format, i + 1);
        case Some(r) =>
          format := format[..i] + r + format[i + 1..];
          next := r[1..] + rest[1..];
          Settle(done, [r[0]], next, format, i + 1);
      }
      i := i + 1;
      assert format[i..] == next;
    }
    EmptyRest(format[i..], t);
  }

  lemma EmptyRest(s: string, t: Tm)
    requires InRange(t) && s == ""
    ensures Rewritten(s, t) == ""
  {
  }

  lemma Settle(done: string, c: string, rest: string, format: string, i: nat)
    requires format == done + (c + rest) && i == |done| + |c|
    ensures format[..i] == done + c && format[i..] == rest
    ensures forall tail: string :: done + (c + tail) == done + c + tail
  {
  }

  function Weekdays(s: string): nat {
    if s == "" then 0 else (if s[0] == 'D' then 1 else 0) + Weekdays(s[1..])
  }

  /** On Wednesdays and Fridays the weekday name is itself rewritten, and grows by one character. */
  lemma WeekdayGrows(t: Tm)
    requires InRange(t)
    ensures Rescanned('D', t) ==
            if t.wday == 3 then "We" + TwoDigits(t.mday)
            else if t.wday == 5 then "Fr" + TwoDigits(t.min)
            else DAY_NAMES[t.wday]
  {
    var r := DAY_NAMES[t.wday];
    var a, b := r[1], r[2];
    assert r[1..] == [a, b] && [a, b][1..] == [b] && [b][1..] == "";
    assert Once([b], t) == Plain(b, t) + "";
    assert Once([a, b], t) == Plain(a, t) + Once([b], t);
  }

  lemma {:induction false} LengthGap(s: string, t: Tm)
    requires InRange(t)
    ensures |Rewritten(s, t)| == |Once(s, t)| + if t.wday in {3, 5} then Weekdays(s) else 0
    ensures t.wday !in {3, 5} ==> Rewritten(s, t) == Once(s, t)
  {
    hide Rescanned;
    if s != "" {
      LengthGap(s[1..], t);
      if s[0] == 'D' {
        WeekdayGrows(t);
        TwoDigitsShape(t.mday);
        TwoDigitsShape(t.min);
      } else {
        RescannedIsPlain(s[0], t);
      }
    }
  }

  lemma WeekdaysCount(s: string)
    ensures Weekdays(s) > 0 <==> 'D' in s
  {
    if s != "" {
      WeekdaysCount(s[1..]);
      assert s == [s[0]] + s[1..];
    }
  }

  /** The date comes out as the format says exactly when no weekday is asked for on a Wednesday or Friday. */
  lemma PlainExactlyWhen(format: string, t: Tm)
    requires InRange(t)
    ensures Rewritten(format, t) == Once(format, t) <==> !('D' in format && t.wday in {3, 5})
  {
    LengthGap(format, t);
    WeekdaysCount(format);
    if 'D' !in format {
      RewrittenIsOnce(format, t);
    }
  }

  // ---------------------------------------------------------------- what each letter shows

  /** The number that decimal digits stand for. */
  function ValueOf(s: string): int {
    if s == "" then 0 else 10 * ValueOf(s[..|s| - 1]) + (s[|s| - 1] as int - '0' as int)
  }

  lemma {:induction false} DigitsBack(n: nat)
    ensures ValueOf(Digits(n)) == n
  {
    if n >= 10 {
      DigitsBack(n / 10);
      assert Digits(n)[..|Digits(n)| - 1] == Digits(n / 10);
    } else {
      assert Digits(n)[..0] == "";
    }
  }

  /** The text is the two digits of the number. */
  predicate Shows(s: string, n: int) {
    |s| == 2 && IsDigit(s[0]) && IsDigit(s[1]) && n == 10 * (s[0] as int - '0' as int) + (s[1] as int - '0' as int)
  }

  lemma TwoDigitsShow(n: int)
    requires 0 <= n < 100
    ensures Shows(TwoDigits(n), n)
  {
    TwoDigitsShape(n);
    DigitsBack(n);
    if n < 10 {
      assert TwoDigits(n) == "0" + Digits(n);
    } else {
      assert Digits(n)[..1] == Digits(n / 10);
      DigitsBack(n / 10);
    }
  }

  lemma OneLetter(c: char, t: Tm)
    requires InRange(t) && c != 'D'
    ensures Rewritten([c], t) == Plain(c, t)
  {
    hide Plain;
    RewrittenIsOnce([c], t);
    assert [c][1..] == "";
    assert Once([c], t) == Plain(c, t) + "";
  }

  /** Each letter of a clock and of a day shows its own part of the time. */
  lemma ClockShows(t: Tm)
    requires InRange(t)
    ensures Shows(Rewritten("H", t), t.hour) && Shows(Rewritten("i", t), t.min) && Shows(Rewritten("s", t), t.sec)
    ensures Shows(Rewritten("d", t), t.mday) && Shows(Rewritten("m", t), t.mon + 1)
  {
    hide Rewritten, TwoDigits, Shows;
    OneLetter('H', t);
    OneLetter('i', t);
    OneLetter('s', t);
    OneLetter('d', t);
    OneLetter('m', t);
    TwoDigitsShow(t.hour);
    TwoDigitsShow(t.min);
    TwoDigitsShow(t.sec);
    TwoDigitsShow(t.mday);
    TwoDigitsShow(t.mon + 1);
  }

  /** The year is written out, with a minus sign where it needs one; the months go by three letters. */
  lemma DateShows(t: Tm)
    requires InRange(t)
    ensures var text, year := Rewritten("Y", t), 1900 + t.year;
            if year >= 0 then AllDigits(text) && ValueOf(text) == year
            else text[0] == '-' && AllDigits(text[1..]) && ValueOf(text[1..]) == -year
    ensures Rewritten("M", t)
         == ["Jan", "Feb", "Mar", "Apr", "May", "Jun", "Jul", "Aug", "Sep", "Oct", "Nov", "Dec"][t.mon]
    ensures Rewritten("z", t) == "UTC"
  {
    hide Rewritten;
    OneLetter('Y', t);
    OneLetter('M', t);
    OneLetter('z', t);
    var year := 1900 + t.year;
    if year >= 0 {
      DigitsBack(year);
    } else {
      DigitsBack(-year);
      assert ToString(year)[1..] == Digits(-year);
    }
  }

  /** So do the weekdays, but for the Wednesday and the Friday. */
  lemma WeekdayShows(t: Tm)
    requires InRange(t) && t.wday !in {3, 5}
    ensures Rewritten("D", t) == ["Sun", "Mon", "Tue", "Wed", "Thu", "Fri", "Sat"][t.wday]
  {
    hide Rescanned;
    WeekdayGrows(t);
    assert "D"[1..] == "";
    assert Rewritten("D", t) == Rescanned('D', t) + "";
  }
}
