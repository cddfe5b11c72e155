/** Which texts are integers and which are instants, written as grammars (the literals of Python's `int`, and `parse_utc` in
    fix/codec.py). */
module FixGrammar {
  import opened Results
  import opened FixText

  // ---------------------------------------------------------------- integers

  predicate Blank(c: char) {
    c == ' ' || c == '\t' || c == '\n' || c == '\r' || Code(c) == 11 || Code(c) == 12
  }

  predicate Blanks(s: string) {
    forall i :: 0 <= i < |s| ==> Blank(s[i])
  }

  /** Digits, with single underscores between them. */
  predicate Grouped(s: string) {
    && s != "" && IsDigit(s[0]) && IsDigit(s[|s| - 1])
    && (forall i :: 0 <= i < |s| ==> IsDigit(s[i]) || s[i] == '_')
    && (forall i :: 0 <= i < |s| - 1 ==> !(s[i] == '_' && s[i + 1] == '_'))
  }

  /** The number that the digits spell. */
  function Spelled(s: string): nat {
    if s == "" then 0
    else if IsDigit(s[|s| - 1]) then 10 * Spelled(s[..|s| - 1]) + ValueOf(s[|s| - 1])
    else Spelled(s[..|s| - 1])
  }

  lemma {:induction false} UnsignedLaw(s: string)
    ensures Unsigned(s) == if Grouped(s) then Some(Spelled(s)) else None
    decreases |s|
  {
    if |s| > 1 && IsDigit(s[|s| - 1]) {
      var n := |s|;
      var front := s[..n - 1];
      if s[n - 2] == '_' {
        UnsignedLaw(s[..n - 2]);
        assert front[..n - 2] == s[..n - 2];
        assert n > 2 && Grouped(s) ==> s[n - 3] != '_';
      } else {
        UnsignedLaw(front);
      }
    }
  }

  predicate SignedInt(t: string, v: int, body: string) {
    Grouped(body) && (((t == body || t == "+" + body) && v == Spelled(body)) || (t == "-" + body && v == 0 - Spelled(body)))
  }

  ghost predicate IntText(s: string, v: int) {
    exists a, t, b, body :: Blanks(a) && Blanks(b) && SignedInt(t, v, body) && Around(s, a, t, b)
  }

  predicate Around(s: string, a: string, t: string, b: string) {
    s == a + t + b
  }

  lemma {:induction false} LeftBlanks(a: string, t: string)
    requires Blanks(a) && t != "" && !Blank(t[0])
    ensures TrimLeft(a + t, IsIntSpace) == t
  {
    if a == "" {
      assert a + t == t;
    } else {
      LeftBlanks(a[1..], t);
      assert (a + t)[1..] == a[1..] + t;
    }
  }

  lemma {:induction false} RightBlanks(t: string, b: string)
    requires Blanks(b) && t != "" && !Blank(t[|t| - 1])
    ensures TrimRight(t + b, IsIntSpace) == t
    decreases |b|
  {
    if b == "" {
      assert t + b == t;
    } else {
      RightBlanks(t, b[..|b| - 1]);
      assert (t + b)[..|t + b| - 1] == t + b[..|b| - 1];
    }
  }

  lemma TrimAround(a: string, t: string, b: string)
    requires Blanks(a) && Blanks(b) && t != "" && !Blank(t[0]) && !Blank(t[|t| - 1])
    ensures Trim(a + t + b, IsIntSpace) == t
  {
    assert a + t + b == a + (t + b);
    LeftBlanks(a, t + b);
    RightBlanks(t, b);
  }

  lemma {:induction false} LeftPart(s: string) returns (a: string)
    ensures Blanks(a) && s == a + TrimLeft(s, IsIntSpace)
  {
    a := "";
    if s != "" && IsIntSpace(s[0]) {
      var rest := LeftPart(s[1..]);
      a := [s[0]] + rest;
      assert s == [s[0]] + s[1..];
    }
  }

  lemma {:induction false} RightPart(s: string) returns (b: string)
    ensures Blanks(b) && s == TrimRight(s, IsIntSpace) + b
    decreases |s|
  {
    b := "";
    if s != "" && IsIntSpace(s[|s| - 1]) {
      var rest := RightPart(s[..|s| - 1]);
      b := rest + [s[|s| - 1]];
      assert s == s[..|s| - 1] + [s[|s| - 1]];
    }
  }

  /** A text is an integer when it is blanks, a sign or none, grouped digits, and blanks. */
  lemma IntLaw(s: string, v: int)
    ensures PyInt(s) == Some(v) <==> IntText(s, v)
  {
    if PyInt(s) == Some(v) {
      IsIntText(s, v);
    }
    if IntText(s, v) {
      var a, t, b, body :| Blanks(a) && Blanks(b) && SignedInt(t, v, body) && Around(s, a, t, b);
      Bared(t, v, body);
      assert s == a + t + b;
      hide *;
      ReadsAround(a, t, b, v, body);
    }
    hide *;
  }

  lemma IsIntText(s: string, v: int)
    requires PyInt(s) == Some(v)
    ensures IntText(s, v)
  {
    var t := Trim(s, IsIntSpace);
    var body := if t != "" && (t[0] == '-' || t[0] == '+') then t[1..] else t;
    var a := LeftPart(s);
    var b := RightPart(TrimLeft(s, IsIntSpace));
    hide TrimLeft;
    hide TrimRight;
    UnsignedLaw(body);
    hide Unsigned;
    assert t != "" ==> t == [t[0]] + t[1..];
    assert SignedInt(t, v, body);
    assert Around(s, a, t, b);
  }

  lemma ReadsAround(a: string, t: string, b: string, v: int, body: string)
    requires Blanks(a) && Blanks(b) && SignedInt(t, v, body) && t != "" && !Blank(t[0]) && !Blank(t[|t| - 1])
    ensures PyInt(a + t + b) == Some(v)
  {
    TrimAround(a, t, b);
    assert Grouped(body);
    UnsignedLaw(body);
    hide Trim;
    hide Unsigned;
    hide Grouped;
    hide Blanks;
    hide Blank;
    SignRead(t, v, body);
  }

  lemma Bared(t: string, v: int, body: string)
    requires SignedInt(t, v, body)
    ensures t != "" && !Blank(t[0]) && !Blank(t[|t| - 1])
  {
    assert t[|t| - 1] == body[|body| - 1];
  }

  lemma SignRead(t: string, v: int, body: string)
    requires SignedInt(t, v, body) && Unsigned(body) == Some(Spelled(body))
    ensures t != ""
    ensures v == if t[0] == '-' then 0 - Spelled(body) else Spelled(body)
    ensures body == if t[0] == '-' || t[0] == '+' then t[1..] else t
  {
    assert IsDigit(body[0]);
    assert ("+" + body)[1..] == body && ("-" + body)[1..] == body;
  }

  // ---------------------------------------------------------------- instants

  /** A day of the calendar, and a time of day. */
  predicate OnCalendar(t: Instant) {
    && 1 <= t.year <= 9999 && 1 <= t.month <= 12 && 1 <= t.day
    && (t.month == 1 || t.month == 3 || t.month == 5 || t.month == 7 || t.month == 8 || t.month == 10 || t.month == 12 ==> t.day <= 31)
    && (t.month == 4 || t.month == 6 || t.month == 9 || t.month == 11 ==> t.day <= 30)
    && (t.month == 2 ==> t.day <= 29 && (t.day == 29 ==> t.year % 4 == 0 && (t.year % 100 == 0 ==> t.year % 400 == 0)))
    && t.hour <= 23 && t.minute <= 59 && t.second <= 59 && t.micro <= 999999
  }

  lemma CalendarLaw(t: Instant)
    ensures ValidInstant(t) <==> OnCalendar(t)
  {
  }

  predicate DigitsOf(s: string, n: nat) {
    |s| == n && AllDigits(s)
  }

  /** The microseconds that the digits after the point stand for. */
  function Micros(f: string): nat
    requires |f| <= 6 && AllDigits(f)
  {
    Number(f + Zeros(6 - |f|))
  }

  lemma TwoDigitValue(s: string)
    requires DigitsOf(s, 2)
    ensures Short(s) == Some(Number(s)) && Number(s) < 100
  {
    assert Number(s) == 10 * Number(s[..1]) + ValueOf(s[1]);
    assert Number(s[..1]) == 10 * Number(s[..1][..0]) + ValueOf(s[0]);
  }

  lemma {:induction false} NumberBound(s: string)
    requires AllDigits(s)
    ensures Number(s) < Ten(|s|)
    decreases |s|
  {
    if s != "" {
      NumberBound(s[..|s| - 1]);
    }
  }

  /** The seconds and the decimals of a clock time, as they are written. */
  function SecondsText(s: string, f: string): string {
    s + (if f == "" then "" else "." + f)
  }

  lemma SecondsRead(s: string, f: string)
    requires DigitsOf(s, 2) && |f| <= 6 && AllDigits(f)
    ensures Seconds(SecondsText(s, f)) == Some((Number(s), Micros(f)))
  {
    var dot := (c: char) => c == '.';
    TwoDigitValue(s);
    if f == "" {
      CutNone(s, dot);
      NothingIsZero();
      assert SecondsText(s, f) == s && f + Zeros(6) == Zeros(6);
    } else {
      CutAt(s, '.', f, dot);
      assert SecondsText(s, f) == s + ['.'] + f;
    }
    hide Short;
    hide Number;
  }

  lemma NothingIsZero()
    ensures Number(Zeros(6)) == 0
  {
    ZerosAreZero(6);
  }

  lemma {:induction false} ZerosAreZero(k: nat)
    ensures Number(Zeros(k)) == 0
  {
    if k > 0 {
      ZerosAreZero(k - 1);
      assert Zeros(k)[..k - 1] == Zeros(k - 1);
    }
  }

  lemma ClockRead(h: string, m: string, s: string, f: string)
    requires DigitsOf(h, 2) && DigitsOf(m, 2) && DigitsOf(s, 2) && |f| <= 6 && AllDigits(f)
    ensures ParseClock(h + ":" + (m + ":" + SecondsText(s, f)))
         == Some(TimeOfDay(Number(h), Number(m), Number(s), Micros(f)))
  {
    var seconds := SecondsText(s, f);
    TwoDigitValue(h);
    TwoDigitValue(m);
    SecondsRead(s, f);
    hide Seconds;
    hide Short;
    assert h + ":" + (m + ":" + seconds) == h + [':'] + (m + [':'] + seconds);
    CutAt(h, ':', m + [':'] + seconds, (c: char) => c == ':');
    CutAt(m, ':', seconds, (c: char) => c == ':');
  }

  lemma DateRead(y: string, m: string, d: string)
    requires DigitsOf(y, 4) && DigitsOf(m, 2) && DigitsOf(d, 2)
    ensures var s := y + (m + d);
            && |s| == 8 && AllDigits(s) && s[..4] == y
            && MonthDay(s[4..]) == if 1 <= Number(m) <= 12 && 1 <= Number(d) <= 31 then Some((Number(m), Number(d))) else None
  {
    var s := y + (m + d);
    TwoDigitValue(m);
    TwoDigitValue(d);
    assert s[4..] == m + d && (m + d)[..2] == m && (m + d)[2..] == d;
    hide Number;
  }

  lemma HalvesRead(date: string, clock: string, t: Instant)
    requires DigitsOf(date, 8) && Number(date[..4]) == t.year
    requires ParseClock(clock) == Some(TimeOfDay(t.hour, t.minute, t.second, t.micro))
    requires MonthDay(date[4..]) == if 1 <= t.month <= 12 && 1 <= t.day <= 31 then Some((t.month, t.day)) else None
    ensures ParseUtc(date + "-" + clock) == if OnCalendar(t) then Some(t) else None
  {
    CalendarLaw(t);
    hide MonthDay;
    hide ParseClock;
    hide ValidInstant;
    hide Number;
    assert date + "-" + clock == date + ['-'] + clock;
    CutAt(date, '-', clock, (c: char) => c == '-');
  }

  /** The parts of an instant as they are written: four digits of year, two of each other part, up to six decimals. */
  datatype Written = Written(year: string, month: string, day: string, hour: string, minute: string, second: string, decimals: string) {
    predicate Digits() {
      && DigitsOf(year, 4) && DigitsOf(month, 2) && DigitsOf(day, 2)
      && DigitsOf(hour, 2) && DigitsOf(minute, 2) && DigitsOf(second, 2) && |decimals| <= 6 && AllDigits(decimals)
    }

    function Date(): string {
      year + (month + day)
    }

    function Clock(): string {
      hour + ":" + (minute + ":" + SecondsText(second, decimals))
    }

    function Meaning(): Instant
      requires Digits()
    {
      Instant(Number(year), Number(month), Number(day), Number(hour), Number(minute), Number(second), Micros(decimals))
    }
  }

  lemma WrittenClock(w: Written)
    requires w.Digits()
    ensures var t := w.Meaning(); ParseClock(w.Clock()) == Some(TimeOfDay(t.hour, t.minute, t.second, t.micro))
  {
    ClockRead(w.hour, w.minute, w.second, w.decimals);
    hide ParseClock;
    hide Number;
    hide Micros;
  }

  lemma WrittenDate(w: Written)
    requires w.Digits()
    ensures DigitsOf(w.Date(), 8) && Number(w.Date()[..4]) == w.Meaning().year
    ensures var t := w.Meaning();
            MonthDay(w.Date()[4..]) == if 1 <= t.month <= 12 && 1 <= t.day <= 31 then Some((t.month, t.day)) else None
  {
    DateRead(w.year, w.month, w.day);
    hide MonthDay;
    hide Number;
    hide Micros;
  }

  /** A text of the full form, year to seconds and up to six decimals, is an instant exactly when it is one of the calendar. */
  lemma UtcLaw(w: Written)
    requires w.Digits()
    ensures ParseUtc(w.Date() + "-" + w.Clock()) == if OnCalendar(w.Meaning()) then Some(w.Meaning()) else None
  {
    WrittenClock(w);
    WrittenDate(w);
    hide *;
    HalvesRead(w.Date(), w.Clock(), w.Meaning());
  }
}
