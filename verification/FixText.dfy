/** The text of FIX fields: Python's `int` and `Decimal` literals, and UTC timestamps as `format_utc` writes and
    `parse_utc` reads them (fix/codec.py). */
module FixText {
  import opened Results

  function Code(c: char): nat {
    c as int
  }

  predicate IsDigit(c: char) {
    '0' <= c <= '9'
  }

  function DigitOf(n: nat): char
    requires n < 10
  {
    (48 + n) as char
  }

  function ValueOf(c: char): nat
    requires IsDigit(c)
  {
    c as int - 48
  }

  // ---------------------------------------------------------------- white space

  /** What `str.strip` removes. */
  predicate IsSpace(c: char) {
    || 9 <= Code(c) <= 13 || 28 <= Code(c) <= 32 || Code(c) == 0x85 || Code(c) == 0xA0 || Code(c) == 0x1680
    || 0x2000 <= Code(c) <= 0x200A || Code(c) == 0x2028 || Code(c) == 0x2029 || Code(c) == 0x202F
    || Code(c) == 0x205F || Code(c) == 0x3000
  }

  /** What `int` skips around a literal. */
  predicate IsIntSpace(c: char) {
    9 <= Code(c) <= 13 || Code(c) == 32
  }

  function TrimLeft(s: string, space: char -> bool): string {
    if s != "" && space(s[0]) then TrimLeft(s[1..], space) else s
  }

  function TrimRight(s: string, space: char -> bool): string {
    if s != "" && space(s[|s| - 1]) then TrimRight(s[..|s| - 1], space) else s
  }

  function Trim(s: string, space: char -> bool): string {
    TrimRight(TrimLeft(s, space), space)
  }

  function Strip(s: string): string {
    Trim(s, IsSpace)
  }

  /** Neither end is white space. */
  predicate Bare(s: string, space: char -> bool) {
    s != "" ==> !space(s[0]) && !space(s[|s| - 1])
  }

  lemma {:induction false} TrimRightLaw(s: string, space: char -> bool)
    ensures TrimRight(s, space) <= s
    ensures TrimRight(s, space) != "" ==> !space(TrimRight(s, space)[|TrimRight(s, space)| - 1])
    decreases |s|
  {
    if s != "" && space(s[|s| - 1]) {
      TrimRightLaw(s[..|s| - 1], space);
    }
  }

  lemma {:induction false} TrimLeftLaw(s: string, space: char -> bool)
    ensures TrimLeft(s, space) != "" ==> !space(TrimLeft(s, space)[0])
    ensures forall c :: c in TrimLeft(s, space) ==> c in s
    decreases |s|
  {
    if s != "" && space(s[0]) {
      TrimLeftLaw(s[1..], space);
    }
  }

  lemma TrimIsBare(s: string, space: char -> bool)
    ensures Bare(Trim(s, space), space)
    ensures forall c :: c in Trim(s, space) ==> c in s
  {
    TrimLeftLaw(s, space);
    TrimRightLaw(TrimLeft(s, space), space);
  }

  lemma TrimBare(s: string, space: char -> bool)
    requires Bare(s, space)
    ensures Trim(s, space) == s
  {
  }

  // ---------------------------------------------------------------- integers

  /** Digits, single underscores allowed between them. */
  function Unsigned(s: string): Option<nat> {
    if s == "" || !IsDigit(s[|s| - 1]) then None
    else if |s| == 1 then Some(ValueOf(s[0]))
    else
      var head := Unsigned(if s[|s| - 2] == '_' then s[..|s| - 2] else s[..|s| - 1]);
      if head.None? then None else Some(10 * head.value + ValueOf(s[|s| - 1]))
  }

  /** `int(s)` of an ASCII string. */
  function PyInt(s: string): Option<int> {
    var t := Trim(s, IsIntSpace);
    if t != "" && t[0] == '-' then
      var n := Unsigned(t[1..]);
      if n.None? then None else Some(0 - n.value as int)
    else
      var n := Unsigned(if t != "" && t[0] == '+' then t[1..] else t);
      if n.None? then None else Some(n.value)
  }

  function StrNat(n: nat): string {
    if n < 10 then [DigitOf(n)] else StrNat(n / 10) + [DigitOf(n % 10)]
  }

  /** `str(n)`. */
  function Str(n: int): string {
    if n < 0 then "-" + StrNat(-n) else StrNat(n)
  }

  predicate AllDigits(s: string) {
    forall i :: 0 <= i < |s| ==> IsDigit(s[i])
  }

  function Number(s: string): nat
    requires AllDigits(s)
  {
    if s == "" then 0 else 10 * Number(s[..|s| - 1]) + ValueOf(s[|s| - 1])
  }

  lemma {:induction false} UnsignedDigits(s: string)
    requires AllDigits(s) && s != ""
    ensures Unsigned(s) == Some(Number(s))
    decreases |s|
  {
    if |s| > 1 {
      UnsignedDigits(s[..|s| - 1]);
    } else {
      assert s[..0] == "";
    }
  }

  lemma {:induction false} StrNatLaw(n: nat)
    ensures AllDigits(StrNat(n)) && StrNat(n) != "" && Number(StrNat(n)) == n
  {
    var s := StrNat(n);
    if n >= 10 {
      StrNatLaw(n / 10);
      assert s[..|s| - 1] == StrNat(n / 10);
    } else {
      assert s[..0] == "";
    }
  }

  lemma {:induction false} UnsignedChars(s: string)
    requires Unsigned(s).Some?
    ensures s != "" && IsDigit(s[0]) && IsDigit(s[|s| - 1]) && forall i :: 0 <= i < |s| ==> IsDigit(s[i]) || s[i] == '_'
    decreases |s|
  {
    if |s| > 1 {
      UnsignedChars(if s[|s| - 2] == '_' then s[..|s| - 2] else s[..|s| - 1]);
    }
  }

  predicate IntChar(c: char) {
    IsDigit(c) || c in {'_', '-', '+'} || IsIntSpace(c)
  }

  lemma {:induction false} TrimmedChars(s: string, space: char -> bool)
    ensures forall i :: 0 <= i < |s| ==> s[i] in Trim(s, space) || space(s[i])
    decreases |s|
  {
    TrimLeftChars(s, space);
    TrimRightChars(TrimLeft(s, space), space);
  }

  lemma {:induction false} TrimLeftChars(s: string, space: char -> bool)
    ensures forall i :: 0 <= i < |s| ==> s[i] in TrimLeft(s, space) || space(s[i])
    decreases |s|
  {
    if s != "" && space(s[0]) {
      TrimLeftChars(s[1..], space);
      assert forall i :: 0 < i < |s| ==> s[i] == s[1..][i - 1];
    }
  }

  lemma {:induction false} TrimRightChars(s: string, space: char -> bool)
    ensures forall i :: 0 <= i < |s| ==> s[i] in TrimRight(s, space) || space(s[i])
    decreases |s|
  {
    if s != "" && space(s[|s| - 1]) {
      TrimRightChars(s[..|s| - 1], space);
      assert forall i :: 0 <= i < |s| - 1 ==> s[i] == s[..|s| - 1][i];
    }
  }

  /** An integer literal is made of digits, signs, underscores and blanks; so it holds no `=`. */
  lemma PyIntChars(s: string)
    requires PyInt(s).Some?
    ensures forall c :: c in s ==> IntChar(c)
    ensures Strip(s) == Trim(s, IsIntSpace) && PyInt(Strip(s)) == PyInt(s)
  {
    hide Trim;
    hide Unsigned;
    hide IsSpace;
    var t := Trim(s, IsIntSpace);
    var u := if t != "" && t[0] in {'-', '+'} then t[1..] else t;
    UnsignedChars(u);
    assert forall i :: 0 <= i < |t| ==> IntChar(t[i]) by {
      assert t == u || t == [t[0]] + u;
    }
    TrimmedChars(s, IsIntSpace);
    TrimIsBare(s, IsIntSpace);
    StripAgain(s);
    NoSpaceInside(t);
    TrimBare(t, IsSpace);
    TrimBare(t, IsIntSpace);
  }

  lemma NoSpaceInside(t: string)
    requires t != "" && (IsDigit(t[0]) || t[0] in {'-', '+'}) && IsDigit(t[|t| - 1])
    ensures Bare(t, IsSpace) && Bare(t, IsIntSpace)
  {
  }

  /** Stripping more after trimming less is stripping. */
  lemma StripAgain(s: string)
    ensures Strip(Trim(s, IsIntSpace)) == Strip(s)
  {
    TrimLeftTwice(s);
    TrimRightThenLeft(TrimLeft(s, IsIntSpace));
    TrimRightTwice(TrimLeft(TrimLeft(s, IsIntSpace), IsSpace));
  }

  lemma {:induction false} TrimLeftTwice(s: string)
    ensures TrimLeft(TrimLeft(s, IsIntSpace), IsSpace) == TrimLeft(s, IsSpace)
    decreases |s|
  {
    if s != "" && IsIntSpace(s[0]) {
      TrimLeftTwice(s[1..]);
    }
  }

  lemma {:induction false} TrimRightTwice(s: string)
    ensures TrimRight(TrimRight(s, IsIntSpace), IsSpace) == TrimRight(s, IsSpace)
    decreases |s|
  {
    if s != "" && IsIntSpace(s[|s| - 1]) {
      TrimRightTwice(s[..|s| - 1]);
    }
  }

  lemma {:induction false} TrimRightThenLeft(s: string)
    ensures TrimRight(TrimLeft(TrimRight(s, IsIntSpace), IsSpace), IsSpace) == TrimRight(TrimRight(TrimLeft(s, IsSpace), IsIntSpace), IsSpace)
    decreases |s|
  {
    TrimRightTwice(TrimLeft(s, IsSpace));
    if s != "" && IsIntSpace(s[|s| - 1]) {
      var front := s[..|s| - 1];
      TrimRightThenLeft(front);
      TrimRightTwice(TrimLeft(front, IsSpace));
      LeftOfFront(s);
    } else {
      assert TrimRight(s, IsIntSpace) == s;
    }
  }

  /** A trailing blank does not change what is left after trimming both ends. */
  lemma {:induction false} LeftOfFront(s: string)
    requires s != "" && IsSpace(s[|s| - 1])
    ensures TrimRight(TrimLeft(s[..|s| - 1], IsSpace), IsSpace) == TrimRight(TrimLeft(s, IsSpace), IsSpace)
    decreases |s|
  {
    if IsSpace(s[0]) {
      if |s| > 1 {
        LeftOfFront(s[1..]);
        assert s[1..][..|s| - 2] == s[..|s| - 1][1..];
      } else {
        assert s[1..] == "" && s[..0] == "";
      }
    } else {
      assert TrimLeft(s, IsSpace) == s;
      assert s[..|s| - 1] != "" && s[..|s| - 1][0] == s[0];
    }
  }

  /** Printing an integer and reading it back. */
  lemma PyIntOfStr(n: int)
    ensures PyInt(Str(n)) == Some(n)
    ensures forall c :: c in Str(n) ==> IsDigit(c) || c == '-'
  {
    var digits := StrNat(if n < 0 then -n else n);
    StrNatLaw(if n < 0 then -n else n);
    UnsignedDigits(digits);
    hide StrNat;
    hide Number;
    hide Unsigned;
    hide Trim;
    var s := Str(n);
    assert s == digits || s == "-" + digits;
    assert s[|s| - 1] == digits[|digits| - 1];
    NoSpaceInside(s);
    TrimBare(s, IsIntSpace);
    if n < 0 {
      assert s[1..] == digits;
    }
  }

  // ---------------------------------------------------------------- decimals

  /** The part before the first character of a kind, and the part after it. */
  function Cut(s: string, at: char -> bool): Option<(string, string)> {
    if s == "" then None
    else if at(s[0]) then Some(("", s[1..]))
    else
      var rest := Cut(s[1..], at);
      if rest.None? then None else Some(([s[0]] + rest.value.0, rest.value.1))
  }

  function WithoutUnderscores(s: string): string {
    if s == "" then "" else (if s[0] == '_' then "" else [s[0]]) + WithoutUnderscores(s[1..])
  }

  function Unsign(s: string): string {
    if s != "" && s[0] in {'+', '-'} then s[1..] else s
  }

  predicate Mantissa(s: string) {
    var parts := Cut(s, (c: char) => c == '.');
    if parts.None? then s != "" && AllDigits(s)
    else AllDigits(parts.value.0) && AllDigits(parts.value.1) && parts.value.0 + parts.value.1 != ""
  }

  /** `Decimal(s)` succeeds and is finite. */
  predicate FiniteDecimal(s: string) {
    var t := Unsign(WithoutUnderscores(Strip(s)));
    var parts := Cut(t, (c: char) => c in {'e', 'E'});
    if parts.None? then Mantissa(t)
    else Mantissa(parts.value.0) && Unsign(parts.value.1) != "" && AllDigits(Unsign(parts.value.1))
  }

  lemma StripDecimal(s: string)
    requires FiniteDecimal(s)
    ensures FiniteDecimal(Strip(s))
  {
    TrimIsBare(s, IsSpace);
    TrimBare(Strip(s), IsSpace);
  }

  // ---------------------------------------------------------------- timestamps

  datatype Instant = Instant(year: nat, month: nat, day: nat, hour: nat, minute: nat, second: nat, micro: nat)

  function DaysIn(year: nat, month: nat): nat {
    if month == 2 then (if (year % 4 == 0 && year % 100 != 0) || year % 400 == 0 then 29 else 28)
    else if month in {4, 6, 9, 11} then 30 else 31
  }

  predicate ValidInstant(t: Instant) {
    && 1 <= t.year <= 9999 && 1 <= t.month <= 12 && 1 <= t.day <= DaysIn(t.year, t.month)
    && t.hour < 24 && t.minute < 60 && t.second < 60 && t.micro < 1000000
  }

  function Pad(n: nat, width: nat): string {
    if width == 0 then "" else Pad(n / 10, width - 1) + [DigitOf(n % 10)]
  }

  function Zeros(k: nat): (s: string)
    ensures |s| == k && forall i :: 0 <= i < k ==> s[i] == '0'
  {
    seq(k, _ => '0')
  }

  function Clock(t: Instant): string {
    Pad(t.hour, 2) + ":" + (Pad(t.minute, 2) + ":" + Pad(t.second, 2))
  }

  function Fraction(micro: nat): string {
    if micro == 0 then "" else "." + TrimRight(Pad(micro, 6), (c: char) => c == '0')
  }

  /** `format_utc`. */
  function FormatUtc(t: Instant): string {
    (Pad(t.year, 4) + (Pad(t.month, 2) + Pad(t.day, 2))) + "-" + (Clock(t) + Fraction(t.micro))
  }

  /** One or two digits. */
  function Short(s: string): Option<nat> {
    if 1 <= |s| <= 2 && AllDigits(s) then Some(Number(s)) else None
  }

  function Month(s: string): Option<nat> {
    var n := Short(s);
    if n.Some? && 1 <= n.value <= 12 then n else None
  }

  function Day(s: string): Option<nat> {
    var n := Short(if |s| == 2 && s[0] == ' ' then s[1..] else s);
    if n.Some? && 1 <= n.value <= 31 then n else None
  }

  function Both(month: Option<nat>, day: Option<nat>): Option<(nat, nat)> {
    if month.Some? && day.Some? then Some((month.value, day.value)) else None
  }

  /** `%m%d`: two digits are tried before one, from the left. */
  function MonthDay(s: string): Option<(nat, nat)> {
    if |s| == 4 then Both(Month(s[..2]), Day(s[2..]))
    else if |s| == 3 then
      var long := Both(Month(s[..2]), Day(s[2..]));
      if long.Some? then long else Both(Month(s[..1]), Day(s[1..]))
    else if |s| == 2 then Both(Month(s[..1]), Day(s[1..]))
    else None
  }

  /** `%S` or `%S.%f`: seconds and microseconds. */
  function Seconds(s: string): Option<(nat, nat)> {
    var parts := Cut(s, (c: char) => c == '.');
    if parts.None? then
      var n := Short(s);
      if n.None? then None else Some((n.value, 0))
    else
      var (n, f) := (Short(parts.value.0), parts.value.1);
      if n.None? || !(1 <= |f| <= 6) || !AllDigits(f) then None
      else Some((n.value, Number(f + Zeros(6 - |f|))))
  }

  datatype TimeOfDay = TimeOfDay(hour: nat, minute: nat, second: nat, micro: nat)

  function ParseClock(s: string): Option<TimeOfDay> {
    var hours := Cut(s, (c: char) => c == ':');
    if hours.None? then None
    else
      var minutes := Cut(hours.value.1, (c: char) => c == ':');
      if minutes.None? then None
      else
        var (hour, minute, second) := (Short(hours.value.0), Short(minutes.value.0), Seconds(minutes.value.1));
        if hour.None? || minute.None? || second.None? then None
        else Some(TimeOfDay(hour.value, minute.value, second.value.0, second.value.1))
  }

  /** `parse_utc`, on civil-time components. */
  function ParseUtc(s: string): Option<Instant> {
    var halves := Cut(s, (c: char) => c == '-');
    if halves.None? || |halves.value.0| < 4 || !AllDigits(halves.value.0[..4]) then None
    else
      var (date, clock) := (MonthDay(halves.value.0[4..]), ParseClock(halves.value.1));
      if date.None? || clock.None? then None
      else
        var c := clock.value;
        var t := Instant(Number(halves.value.0[..4]), date.value.0, date.value.1, c.hour, c.minute, c.second, c.micro);
        if ValidInstant(t) then Some(t) else None
  }

  lemma {:induction false} CutAt(s: string, c: char, t: string, at: char -> bool)
    requires at(c) && forall i :: 0 <= i < |s| ==> !at(s[i])
    ensures Cut(s + [c] + t, at) == Some((s, t))
    decreases |s|
  {
    if s == "" {
      assert (s + [c] + t)[1..] == t;
    } else {
      CutAt(s[1..], c, t, at);
      assert (s + [c] + t)[1..] == s[1..] + [c] + t;
      assert s == [s[0]] + s[1..];
    }
  }

  lemma {:induction false} CutNone(s: string, at: char -> bool)
    requires forall i :: 0 <= i < |s| ==> !at(s[i])
    ensures Cut(s, at) == None
    decreases |s|
  {
    if s != "" {
      CutNone(s[1..], at);
    }
  }

  function Ten(width: nat): nat {
    if width == 0 then 1 else 10 * Ten(width - 1)
  }

  lemma {:induction false} PadLaw(n: nat, width: nat)
    requires n < Ten(width)
    ensures |Pad(n, width)| == width && AllDigits(Pad(n, width)) && Number(Pad(n, width)) == n
    decreases width
  {
    if width > 0 {
      PadLaw(n / 10, width - 1);
      var s := Pad(n, width);
      assert s[..|s| - 1] == Pad(n / 10, width - 1);
    }
  }

  lemma TwoDigits(n: nat)
    requires n < 100
    ensures |Pad(n, 2)| == 2 && AllDigits(Pad(n, 2)) && Short(Pad(n, 2)) == Some(n)
  {
    assert Ten(2) == 100;
    PadLaw(n, 2);
  }

  lemma {:induction false} Rezero(s: string, zero: char -> bool)
    requires zero == ((c: char) => c == '0')
    ensures |TrimRight(s, zero)| <= |s|
    ensures s == TrimRight(s, zero) + seq(|s| - |TrimRight(s, zero)|, _ => '0')
    decreases |s|
  {
    if s != "" && zero(s[|s| - 1]) {
      var front := s[..|s| - 1];
      Rezero(front, zero);
      var k := |s| - |TrimRight(s, zero)|;
      assert Zeros(k) == Zeros(k - 1) + ['0'];
    }
  }

  lemma {:induction false} AllTrimmed(s: string, zero: char -> bool)
    requires zero == ((c: char) => c == '0') && AllDigits(s) && TrimRight(s, zero) == ""
    ensures Number(s) == 0
    decreases |s|
  {
    if s != "" {
      AllTrimmed(s[..|s| - 1], zero);
    }
  }

  lemma FractionLaw(micro: nat) returns (f: string)
    requires 0 < micro < 1000000
    ensures Fraction(micro) == ['.'] + f && 1 <= |f| <= 6 && AllDigits(f) && Number(f + Zeros(6 - |f|)) == micro
  {
    assert Ten(6) == 1000000;
    PadLaw(micro, 6);
    var digits, zero := Pad(micro, 6), (c: char) => c == '0';
    f := TrimRight(digits, zero);
    Rezero(digits, zero);
    TrimRightLaw(digits, zero);
    if f == "" {
      AllTrimmed(digits, zero);
    }
    hide Pad;
    hide TrimRight;
    assert forall i :: 0 <= i < |f| ==> f[i] == digits[i];
    assert f + Zeros(6 - |f|) == digits;
  }

  /** Trailing zeros dropped from the microseconds come back when they are read. */
  lemma SecondsLaw(second: nat, micro: nat)
    requires second < 60 && micro < 1000000
    ensures Seconds(Pad(second, 2) + Fraction(micro)) == Some((second, micro))
  {
    var dot := (c: char) => c == '.';
    TwoDigits(second);
    if micro == 0 {
      assert Pad(second, 2) + Fraction(micro) == Pad(second, 2);
      CutNone(Pad(second, 2), dot);
    } else {
      var f := FractionLaw(micro);
      hide Fraction;
      hide Pad;
      assert Pad(second, 2) + Fraction(micro) == Pad(second, 2) + ['.'] + f;
      CutAt(Pad(second, 2), '.', f, dot);
    }
  }

  lemma DateLaw(t: Instant)
    requires ValidInstant(t)
    ensures var s := Pad(t.year, 4) + (Pad(t.month, 2) + Pad(t.day, 2));
            && |s| == 8 && AllDigits(s) && Number(s[..4]) == t.year && MonthDay(s[4..]) == Some((t.month, t.day))
  {
    assert Ten(4) == 10000;
    PadLaw(t.year, 4);
    TwoDigits(t.month);
    TwoDigits(t.day);
    var s := Pad(t.year, 4) + (Pad(t.month, 2) + Pad(t.day, 2));
    assert s[..4] == Pad(t.year, 4) && s[4..] == Pad(t.month, 2) + Pad(t.day, 2);
    assert s[4..][..2] == Pad(t.month, 2) && s[4..][2..] == Pad(t.day, 2);
  }

  lemma ClockLaw(t: Instant)
    requires ValidInstant(t)
    ensures ParseClock(Clock(t) + Fraction(t.micro)) == Some(TimeOfDay(t.hour, t.minute, t.second, t.micro))
  {
    var colon := (c: char) => c == ':';
    var seconds := Pad(t.second, 2) + Fraction(t.micro);
    TwoDigits(t.hour);
    TwoDigits(t.minute);
    SecondsLaw(t.second, t.micro);
    hide Pad;
    hide Fraction;
    hide Seconds;
    hide Short;
    assert Clock(t) + Fraction(t.micro) == Pad(t.hour, 2) + [':'] + (Pad(t.minute, 2) + [':'] + seconds);
    CutAt(Pad(t.hour, 2), ':', Pad(t.minute, 2) + [':'] + seconds, colon);
    CutAt(Pad(t.minute, 2), ':', seconds, colon);
  }

  /** Reading back what was written, to the microsecond. */
  lemma ParseOfFormat(t: Instant)
    requires ValidInstant(t)
    ensures ParseUtc(FormatUtc(t)) == Some(t)
  {
    var date := Pad(t.year, 4) + (Pad(t.month, 2) + Pad(t.day, 2));
    var clock := Clock(t) + Fraction(t.micro);
    DateLaw(t);
    ClockLaw(t);
    hide Pad;
    hide Clock;
    hide Fraction;
    hide MonthDay;
    hide ParseClock;
    assert FormatUtc(t) == date + ['-'] + clock;
    CutAt(date, '-', clock, (c: char) => c == '-');
  }

  lemma {:induction false} CutLaw(s: string, at: char -> bool)
    requires Cut(s, at).Some?
    ensures var parts := Cut(s, at).value; exists c :: at(c) && s == parts.0 + [c] + parts.1
    decreases |s|
  {
    var parts := Cut(s, at).value;
    if at(s[0]) {
      assert s == "" + [s[0]] + s[1..];
    } else {
      CutLaw(s[1..], at);
      var rest := Cut(s[1..], at).value;
      var c :| at(c) && s[1..] == rest.0 + [c] + rest.1;
      assert s == parts.0 + [c] + parts.1;
    }
  }

  lemma DigitEnds(s: string)
    requires AllDigits(s) && s != ""
    ensures !IsSpace(s[0]) && !IsSpace(s[|s| - 1])
  {
  }

  lemma SecondsEnd(s: string)
    requires Seconds(s).Some?
    ensures s != "" && !IsSpace(s[|s| - 1])
  {
    var dot := (c: char) => c == '.';
    if Cut(s, dot).None? {
      DigitEnds(s);
    } else {
      CutLaw(s, dot);
      var f := Cut(s, dot).value.1;
      DigitEnds(f);
      assert s[|s| - 1] == f[|f| - 1];
    }
  }

  lemma ClockEnd(s: string)
    requires ParseClock(s).Some?
    ensures s != "" && !IsSpace(s[|s| - 1])
  {
    hide Seconds;
    hide IsSpace;
    var colon := (c: char) => c == ':';
    var hours := Cut(s, colon).value;
    var minutes := Cut(hours.1, colon).value;
    CutLaw(s, colon);
    CutLaw(hours.1, colon);
    SecondsEnd(minutes.1);
  }

  /** A timestamp has no white space at its ends, so stripping leaves it alone. */
  lemma TimestampIsBare(s: string)
    requires ParseUtc(s).Some?
    ensures Strip(s) == s
  {
    hide ParseClock;
    hide MonthDay;
    hide IsSpace;
    var dash := (c: char) => c == '-';
    var halves := Cut(s, dash).value;
    CutLaw(s, dash);
    ClockEnd(halves.1);
    DigitEnds(halves.0[..4]);
    assert s[0] == halves.0[..4][0];
    TrimBare(s, IsSpace);
  }

  lemma PyIntOfDigits(s: string)
    requires AllDigits(s) && s != ""
    ensures PyInt(s) == Some(Number(s))
  {
    UnsignedDigits(s);
    NoSpaceInside(s);
    TrimBare(s, IsIntSpace);
  }
}
