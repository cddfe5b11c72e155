/** The field rules of a FIX message as both ends of the wire see them: which tags a message must carry, what their
    values may be, and the order in which tags are sent (fix/codec.py). */
module FixRules {
  import opened Results
  import opened FixText
  import opened FixCodec
  import opened FixRoundTrips

  // ---------------------------------------------------------------- the rules

  /** The tags each kind of message must carry. */
  predicate MustCarry(kind: MsgType, tag: int) {
    match kind
    case Heartbeat => false
    case Logout => false
    case TestRequest => tag == 112
    case ResendRequest => tag == 7 || tag == 16
    case MessageReject => tag == 45
    case SequenceReset => tag == 36
    case Logon => tag == 98 || tag == 108
    case NewOrderSingle => tag == 11 || tag == 55 || tag == 54 || tag == 60 || tag == 38 || tag == 40 || tag == 59
    case OrderCancelRequest => tag == 11 || tag == 41 || tag == 55 || tag == 54 || tag == 60 || tag == 38
    case OrderCancelReject => tag == 37 || tag == 11 || tag == 41 || tag == 39 || tag == 434
    case ExecutionReport =>
      || tag == 37 || tag == 17 || tag == 11 || tag == 55 || tag == 54 || tag == 39 || tag == 150 || tag == 151 || tag == 14 || tag == 6
    case BusinessMessageReject => tag == 372 || tag == 380
  }

  predicate Natural(v: string) {
    PyInt(v).Some? && PyInt(v).value >= 0
  }

  /** What the value of a tag may be: side, order type, time in force, order and execution status, the two rejection
      codes, whole numbers, decimals and instants; any other tag takes any text. */
  predicate GoodValue(tag: int, v: string) {
    match tag
    case 54 => v == "1" || v == "2"
    case 40 => v == "1" || v == "2" || v == "3" || v == "4"
    case 59 => v == "1" || v == "3"
    case 39 => v == "0" || v == "2" || v == "4" || v == "8" || v == "C" || v == "E"
    case 150 => v == "0" || v == "F" || v == "4" || v == "8" || v == "C" || v == "L"
    case 434 => v == "1"
    case 380 => v == "0" || v == "1" || v == "2" || v == "3" || v == "4" || v == "5" || v == "6" || v == "7"
    case 34 => Natural(v)
    case 7 => Natural(v)
    case 16 => Natural(v)
    case 36 => Natural(v)
    case 45 => Natural(v)
    case 98 => Natural(v)
    case 108 => Natural(v)
    case 102 => Natural(v)
    case 373 => Natural(v)
    case 38 => FiniteDecimal(v)
    case 44 => FiniteDecimal(v)
    case 99 => FiniteDecimal(v)
    case 151 => FiniteDecimal(v)
    case 14 => FiniteDecimal(v)
    case 6 => FiniteDecimal(v)
    case 52 => ParseUtc(v).Some?
    case 60 => ParseUtc(v).Some?
    case 122 => ParseUtc(v).Some?
    case _ => true
  }

  /** A market order needs no price, a limit order its price, a stop order its stop price, a stop-limit order both. */
  predicate Priced(orderType: string, fields: map<int, string>) {
    || orderType == "1"
    || (orderType == "2" && 44 in fields)
    || (orderType == "3" && 99 in fields)
    || (orderType == "4" && 44 in fields && 99 in fields)
  }

  /** The fields of a message that may be sent. */
  ghost predicate Lawful(kind: MsgType, fields: map<int, string>) {
    && (forall tag: int :: MustCarry(kind, tag) ==> tag in fields)
    && (forall tag: int :: tag in fields ==> GoodValue(tag, fields[tag]))
    && (40 in fields ==> Priced(fields[40], fields))
  }

  lemma Digit(c: char)
    requires '0' <= c <= '9'
    ensures PyInt([c]) == Some(Code(c) - Code('0'))
  {
    var n := Code(c) - Code('0');
    PyIntOfStr(n);
    assert Str(n) == [c];
    hide PyInt;
    hide Str;
  }

  /** The two codes that the source also reads as numbers are numbers. */
  lemma CodesAreNumbers()
    ensures Natural("0") && Natural("1") && Natural("2") && Natural("3") && Natural("4") && Natural("5") && Natural("6") && Natural("7")
  {
    Digit('0');
    Digit('1');
    Digit('2');
    Digit('3');
    Digit('4');
    Digit('5');
    Digit('6');
    Digit('7');
    hide PyInt;
  }

  lemma ValueLaw(tag: int, v: string)
    ensures ValidValue(tag, v) <==> GoodValue(tag, v)
  {
    CodesAreNumbers();
    hide PyInt;
    hide FiniteDecimal;
    hide ParseUtc;
  }

  lemma CarriesLaw(kind: MsgType, fields: map<int, string>)
    ensures Required(kind) <= fields.Keys <==> forall tag: int :: MustCarry(kind, tag) ==> tag in fields
  {
    forall tag: int
      ensures tag in Required(kind) <==> MustCarry(kind, tag)
    {
    }
    hide MustCarry;
    hide Required;
  }

  lemma FieldsLaw(kind: MsgType, fields: map<int, string>)
    ensures ValidFields(kind, fields) <==> Lawful(kind, fields)
  {
    hide ValidValue;
    hide GoodValue;
    hide MustCarry;
    hide Required;
    hide Priced;
    hide OrderPricesGiven;
    CarriesLaw(kind, fields);
    forall tag: int | tag in fields
      ensures ValidValue(tag, fields[tag]) <==> GoodValue(tag, fields[tag])
    {
      ValueLaw(tag, fields[tag]);
    }
    if 40 in fields && GoodValue(40, fields[40]) {
      PricesLaw(fields);
    }
    NoTypeNoPrice(fields);
  }

  lemma PricesLaw(fields: map<int, string>)
    requires 40 in fields && GoodValue(40, fields[40])
    ensures OrderPricesGiven(fields) <==> Priced(fields[40], fields)
  {
  }

  lemma NoTypeNoPrice(fields: map<int, string>)
    ensures 40 !in fields ==> OrderPricesGiven(fields)
  {
  }

  /** The letters that name the kinds of message, and no others. */
  lemma TypeCodes(s: string)
    ensures match TypeOf(s)
            case None => s != "0" && s != "1" && s != "2" && s != "3" && s != "4" && s != "5" && s != "8" && s != "9" && s != "A" && s != "D" && s != "F" && s != "j"
            case Some(Heartbeat) => s == "0"
            case Some(TestRequest) => s == "1"
            case Some(ResendRequest) => s == "2"
            case Some(MessageReject) => s == "3"
            case Some(SequenceReset) => s == "4"
            case Some(Logout) => s == "5"
            case Some(ExecutionReport) => s == "8"
            case Some(OrderCancelReject) => s == "9"
            case Some(Logon) => s == "A"
            case Some(NewOrderSingle) => s == "D"
            case Some(OrderCancelRequest) => s == "F"
            case Some(BusinessMessageReject) => s == "j"
    ensures forall t: MsgType :: TypeOf(TypeCode(t)) == Some(t)
  {
    forall t: MsgType
      ensures TypeOf(TypeCode(t)) == Some(t)
    {
      TypeOfCode(t);
    }
    hide TypeCode;
  }

  // ---------------------------------------------------------------- decimals

  predicate Digits(s: string) {
    s != "" && AllDigits(s)
  }

  /** Digits, with a point among them or at either end. */
  ghost predicate PointedDigits(s: string) {
    Digits(s) || exists a, b :: AllDigits(a) && AllDigits(b) && a + b != "" && s == a + "." + b
  }

  ghost predicate SignedText(s: string, rest: string) {
    s == "+" + rest || s == "-" + rest || (s == rest && (rest != "" ==> rest[0] != '+' && rest[0] != '-'))
  }

  /** A sign or none, digits with a point or none, and an exponent or none. */
  ghost predicate DecimalText(s: string) {
    exists t :: SignedText(s, t) && (PointedDigits(t) || exists m, e, x :: PointedDigits(m) && SignedText(e, x) && Digits(x) && WithExponent(t, m, e))
  }

  predicate WithExponent(t: string, m: string, e: string) {
    t == m + "e" + e || t == m + "E" + e
  }

  lemma UnsignLaw(s: string, rest: string)
    ensures SignedText(s, rest) <==> Unsign(s) == rest
  {
    if s != "" {
      assert s == [s[0]] + s[1..];
    }
  }

  lemma MantissaLaw(s: string)
    ensures Mantissa(s) <==> PointedDigits(s)
  {
    var point := (c: char) => c == '.';
    if PointedDigits(s) && !Digits(s) {
      var a, b :| AllDigits(a) && AllDigits(b) && a + b != "" && s == a + "." + b;
      CutAt(a, '.', b, point);
      assert s == a + ['.'] + b;
    }
    if Digits(s) {
      CutNone(s, point);
    }
    if Mantissa(s) && Cut(s, point).Some? {
      CutLaw(s, point);
      var parts := Cut(s, point).value;
      var c :| point(c) && s == parts.0 + [c] + parts.1;
      assert s == parts.0 + "." + parts.1;
    }
  }

  predicate IsExponentMark(c: char) {
    c == 'e' || c == 'E'
  }

  lemma NoMark(m: string)
    requires PointedDigits(m)
    ensures forall i :: 0 <= i < |m| ==> !IsExponentMark(m[i])
  {
    if !Digits(m) {
      var a, b :| AllDigits(a) && AllDigits(b) && a + b != "" && m == a + "." + b;
    }
  }

  lemma {:induction false} SameCut(s: string, at: char -> bool, cut: char -> bool)
    requires forall c: char :: at(c) <==> cut(c)
    ensures Cut(s, at) == Cut(s, cut)
  {
    if s != "" {
      SameCut(s[1..], at, cut);
    }
  }

  lemma ExponentLaw(t: string)
    ensures var parts := Cut(t, IsExponentMark);
            (if parts.None? then Mantissa(t) else Mantissa(parts.value.0) && Unsign(parts.value.1) != "" && AllDigits(Unsign(parts.value.1)))
            <==> PointedDigits(t) || exists m, e, x :: PointedDigits(m) && SignedText(e, x) && Digits(x) && WithExponent(t, m, e)
  {
    hide Mantissa;
    hide PointedDigits;
    hide SignedText;
    MantissaLaw(t);
    if PointedDigits(t) {
      NoMark(t);
      CutNone(t, IsExponentMark);
    }
    if m, e, x :| PointedDigits(m) && SignedText(e, x) && Digits(x) && WithExponent(t, m, e) {
      NoMark(m);
      MantissaLaw(m);
      UnsignLaw(e, x);
      CutAt(m, if t == m + "e" + e then 'e' else 'E', e, IsExponentMark);
      assert t == m + [if t == m + "e" + e then 'e' else 'E'] + e;
    }
    var parts := Cut(t, IsExponentMark);
    if parts.Some? && Mantissa(parts.value.0) && Digits(Unsign(parts.value.1)) {
      var (m, e) := parts.value;
      CutLaw(t, IsExponentMark);
      var c :| IsExponentMark(c) && t == m + [c] + e;
      MantissaLaw(m);
      UnsignLaw(e, Unsign(e));
      assert WithExponent(t, m, e);
    }
  }

  /** A field is a finite decimal when, without outer blanks and underscores, it reads as one. */
  lemma DecimalLaw(s: string)
    ensures FiniteDecimal(s) <==> DecimalText(WithoutUnderscores(Strip(s)))
  {
    var text := WithoutUnderscores(Strip(s));
    var t := Unsign(text);
    SameCut(t, (c: char) => c in {'e', 'E'}, IsExponentMark);
    ExponentLaw(t);
    UnsignLaw(text, t);
    hide Mantissa;
    hide PointedDigits;
    hide SignedText;
    hide WithExponent;
    hide Cut;
    hide Unsign;
    if DecimalText(text) {
      var u :| SignedText(text, u)
               && (PointedDigits(u) || exists m, e, x :: PointedDigits(m) && SignedText(e, x) && Digits(x) && WithExponent(u, m, e));
      UnsignLaw(text, u);
    }
  }

  // ---------------------------------------------------------------- what the encoder sends

  predicate AllAscii(m: FixMessage) {
    Ascii(m.sender) && Ascii(m.target) && AsciiValues(m.fields) && AsciiValues(m.extensions)
  }

  lemma {:induction false} AsciiJoined(fs: seq<Field>)
    requires Ascii(Join(fs))
    ensures AsciiFields(fs)
    decreases |fs|
  {
    if fs != [] {
      var front, last := fs[..|fs| - 1], fs[|fs| - 1];
      hide Str;
      hide Join;
      JoinStep(fs);
      AsciiParts(Join(front) + Item(last), [SOH]);
      AsciiParts(Join(front), Item(last));
      AsciiParts(Str(last.tag) + "=", last.value);
      hide Ascii;
      AsciiJoined(front);
      assert forall i :: 0 <= i < |front| ==> fs[i] == front[i];
    }
  }

  lemma ListedAscii(fields: map<int, string>, weight: int -> int, before: seq<Field>, after: seq<Field>)
    requires AsciiFields(before + Listing(fields, weight) + after)
    ensures AsciiValues(fields)
  {
    var all, middle := before + Listing(fields, weight) + after, Listing(fields, weight);
    ListingLaw(fields, weight);
    hide Ascii;
    hide Listing;
    forall k | k in fields
      ensures Ascii(fields[k])
    {
      var i := IndexOf(middle, k);
      assert all[|before| + i] == middle[i];
    }
  }

  lemma {:induction false} IndexOf(fs: seq<Field>, k: int) returns (i: nat)
    requires k in Values(fs)
    ensures i < |fs| && fs[i].tag == k && fs[i].value == Values(fs)[k]
    decreases |fs|
  {
    i := |fs| - 1;
    if fs[i].tag != k {
      i := IndexOf(fs[..i], k);
    }
  }

  lemma AsciiOnWire(m: FixMessage)
    ensures Ascii(Join(BodyFields(m))) <==> AllAscii(m)
  {
    if AllAscii(m) {
      BodyAscii(m);
    }
    if Ascii(Join(BodyFields(m))) {
      AsciiJoined(BodyFields(m));
      AsciiBody(m);
    }
    hide BodyFields;
    hide Join;
    hide Ascii;
    hide AsciiValues;
  }

  lemma AsciiBody(m: FixMessage)
    requires AsciiFields(BodyFields(m))
    ensures AllAscii(m)
  {
    var head, fields, extensions := HeaderFields(m), Listing(m.fields, Weight), Listing(m.extensions, (tag: int) => 0);
    var all := head + fields + extensions;
    assert all == BodyFields(m);
    hide Listing;
    hide Ascii;
    assert all[2] == Field(49, m.sender) && all[3] == Field(56, m.target);
    ListedAscii(m.fields, Weight, head, extensions);
    assert all == head + fields + extensions + [];
    ListedAscii(m.extensions, (tag: int) => 0, head + fields, []);
  }

  /** Encoding refuses unknown tags unless they are preserved, then fields that break a rule, then text that is not ASCII,
      and nothing else. */
  lemma EncodeLaw(m: FixMessage, preserve: bool)
    ensures match Encode(m, preserve)
            case Failure(UnknownTags) => m.extensions != map[] && !preserve
            case Failure(BadField) => (m.extensions == map[] || preserve) && !Lawful(m.kind, m.fields)
            case Failure(e) => (m.extensions == map[] || preserve) && Lawful(m.kind, m.fields) && e == NotAscii && !AllAscii(m)
            case Success(_) => (m.extensions == map[] || preserve) && Lawful(m.kind, m.fields) && AllAscii(m)
  {
    FieldsLaw(m.kind, m.fields);
    AsciiOnWire(m);
    hide ValidFields;
    hide Lawful;
    hide AllAscii;
    hide BodyFields;
    hide Join;
    hide Ascii;
    hide Prefix;
    hide Trailer;
  }

  /** Everything about an order but its order type: what it must carry, and values that are good. */
  ghost predicate ApartFromType(kind: MsgType, fields: map<int, string>) {
    && (forall tag: int :: MustCarry(kind, tag) && tag != 40 ==> tag in fields)
    && (forall tag: int :: tag in fields && tag != 40 ==> GoodValue(tag, fields[tag]))
  }

  lemma OrderTypeLawful(kind: MsgType, fields: map<int, string>, orderType: string)
    requires ApartFromType(kind, fields)
    ensures Lawful(kind, fields[40 := orderType]) <==> Priced(orderType, fields)
  {
    var all := fields[40 := orderType];
    assert GoodValue(40, orderType) <==> orderType == "1" || orderType == "2" || orderType == "3" || orderType == "4";
    assert Priced(orderType, all) <==> Priced(orderType, fields);
    assert Priced(orderType, fields) ==> GoodValue(40, orderType);
    hide GoodValue;
    hide MustCarry;
    hide Priced;
    forall tag: int | tag in all && tag != 40
      ensures GoodValue(tag, all[tag])
    {
      assert all[tag] == fields[tag];
    }
    assert all[40] == orderType;
    assert forall tag: int :: tag in fields ==> tag in all;
  }

  /** An order that is otherwise in order is sent exactly when its type is one of the four and it carries the prices of
      that type. */
  lemma OrderTypeDecides(m: FixMessage, preserve: bool, orderType: string)
    requires ApartFromType(m.kind, m.fields) && AllAscii(m) && (m.extensions == map[] || preserve)
    ensures Encode(m.(fields := m.fields[40 := orderType]), preserve).Success? <==> Priced(orderType, m.fields)
  {
    var order := m.(fields := m.fields[40 := orderType]);
    EncodeLaw(order, preserve);
    OrderTypeLawful(m.kind, m.fields, orderType);
    if Priced(orderType, m.fields) {
      TypesAreAscii(orderType);
      assert AllAscii(order);
    }
    hide Priced;
    hide Lawful;
    hide Ascii;
    hide Encode;
    hide ApartFromType;
  }

  lemma TypesAreAscii(v: string)
    requires v == "1" || v == "2" || v == "3" || v == "4"
    ensures Ascii(v)
  {
  }

  /** A tag can be left out of a message that may be sent exactly when it is not one that the message must carry, nor a
      price that its order type needs. */
  lemma LeavingOut(m: FixMessage, preserve: bool, tag: int)
    requires Encode(m, preserve).Success? && tag in m.fields
    ensures Encode(m.(fields := m.fields - {tag}), preserve).Success? <==>
              && !MustCarry(m.kind, tag)
              && (tag == 44 && 40 in m.fields ==> m.fields[40] != "2" && m.fields[40] != "4")
              && (tag == 99 && 40 in m.fields ==> m.fields[40] != "3" && m.fields[40] != "4")
  {
    var less := m.(fields := m.fields - {tag});
    EncodeLaw(m, preserve);
    EncodeLaw(less, preserve);
    hide Encode;
    hide GoodValue;
    hide MustCarry;
    hide Ascii;
    forall t: int | t in less.fields
      ensures t in m.fields && t != tag && less.fields[t] == m.fields[t]
    {
    }
    assert AllAscii(less);
    assert 40 in m.fields && tag != 40 ==> 40 in less.fields && less.fields[40] == m.fields[40];
  }

  // ---------------------------------------------------------------- what the decoder takes

  /** The frame an encoder puts around a message, whatever its fields. */
  ghost function Wire(m: FixMessage): string {
    var body := Join(BodyFields(m));
    var before := Prefix(body) + body;
    before + Trailer(before)
  }

  lemma DecodeIsBuild(raw: string, pairs: seq<Field>, n: Numbers, preserve: bool)
    requires raw != "" && raw[|raw| - 1] == SOH && Ascii(raw) && ParseItems(Split(raw[..|raw| - 1])) == Success(pairs)
    requires NoDuplicates(pairs) && Framed(pairs) && ReadNumbers(Values(pairs)) == Success(n) && Sealed(raw, n) == Success(())
    ensures Decode(raw, preserve) == Build(Values(pairs), n, preserve)
  {
    hide Ascii;
    hide ParseItems;
    hide Split;
    hide NoDuplicates;
    hide Framed;
    hide ReadNumbers;
    hide Sealed;
    hide Build;
  }

  lemma WireIsBuilt(m: FixMessage, preserve: bool)
    requires ValidMessage(m) && Clean(m) && AllAscii(m)
    ensures var v, r := Frame(m) + m.fields + m.extensions, Received(m);
            && {35, 49, 56, 52} <= v.Keys
            && Decode(Wire(m), preserve) == Build(v, Numbers(r.bodyLength.value, r.checksum.value, m.sequence), preserve)
  {
    var r := Received(m);
    var n := Numbers(r.bodyLength.value, r.checksum.value, m.sequence);
    WireText(m);
    AsciiOnWire(m);
    FrameAscii(Join(BodyFields(m)));
    WireLaw(m);
    WireFramed(m);
    NumbersRead(m);
    SealHolds(m);
    Looked(m);
    hide BodyFields;
    hide WireFields;
    hide Join;
    hide Prefix;
    hide Trailer;
    hide ValidMessage;
    hide Clean;
    hide Frame;
    hide AllSound;
    hide NoDuplicates;
    hide Framed;
    hide Values;
    hide ReadNumbers;
    hide Sealed;
    hide Build;
    hide Sum;
    hide Ascii;
    hide AllAscii;
    WireSplit(m);
    DecodeIsBuild(Wire(m), WireFields(m), n, preserve);
  }

  lemma BuildRefuses(m: FixMessage, v: map<int, string>, n: Numbers, preserve: bool)
    requires {35, 49, 56, 52} <= v.Keys && FieldsOf(v) == m.fields && ExtensionsOf(v) == m.extensions && TypeOf(v[35]) == Some(m.kind)
    ensures m.extensions != map[] && !preserve ==> Build(v, n, preserve) == Failure(UnknownTags)
    ensures (m.extensions == map[] || preserve) && !ValidFields(m.kind, m.fields[52 := v[52]]) ==> Build(v, n, preserve) == Failure(BadField)
  {
    hide ValidFields;
    hide FieldsOf;
    hide ExtensionsOf;
    hide TypeOf;
    hide ParseUtc;
    hide Strip;
  }

  /** Decoding a framed message refuses unknown tags unless they are preserved, then fields that break a rule, and takes
      everything else as it was sent. */
  lemma DecodeLaw(m: FixMessage, preserve: bool)
    requires ValidMessage(m) && Clean(m) && AllAscii(m)
    ensures Decode(Wire(m), preserve) ==
              if m.extensions != map[] && !preserve then Failure(UnknownTags)
              else if !Lawful(m.kind, m.fields) then Failure(BadField)
              else Success(Received(m))
  {
    hide Lawful;
    hide ValidFields;
    hide Decode;
    hide Build;
    hide Frame;
    hide Received;
    hide AllAscii;
    hide Wire;
    FieldsLaw(m.kind, m.fields);
    WireIsBuilt(m, preserve);
    ReceivedNumbers(m);
    if (m.extensions == map[] || preserve) && Lawful(m.kind, m.fields) {
      BuildLaw(m, preserve);
    } else {
      WireRefused(m, Numbers(Received(m).bodyLength.value, Received(m).checksum.value, m.sequence), preserve);
    }
    hide ValidMessage;
    hide Clean;
  }

  lemma ReceivedNumbers(m: FixMessage)
    ensures Received(m).bodyLength.Some? && Received(m).checksum.Some?
  {
  }

  lemma WireRefused(m: FixMessage, n: Numbers, preserve: bool)
    requires ValidMessage(m) && Clean(m)
    ensures var v := Frame(m) + m.fields + m.extensions;
            && {35, 49, 56, 52} <= v.Keys
            && (m.extensions != map[] && !preserve ==> Build(v, n, preserve) == Failure(UnknownTags))
            && ((m.extensions == map[] || preserve) && !ValidFields(m.kind, m.fields) ==> Build(v, n, preserve) == Failure(BadField))
  {
    hide ValidFields;
    hide Build;
    hide Frame;
    Looked(m);
    TypeOfCode(m.kind);
    NoTimeField(m);
    assert ValidInstant(m.sentAt);
    hide ValidMessage;
    hide Clean;
    ParseOfFormat(m.sentAt);
    AddTime(m.kind, m.fields, FormatUtc(m.sentAt));
    hide *;
    BuildRefuses(m, Frame(m) + m.fields + m.extensions, n, preserve);
  }

  /** So on the wire too an order that is otherwise in order is taken exactly when it carries the prices of its type. */
  lemma OrderTypeDecidesOnWire(m: FixMessage, preserve: bool, orderType: string)
    requires ApartFromType(m.kind, m.fields) && (m.extensions == map[] || preserve)
    requires var order := m.(fields := m.fields[40 := orderType]); ValidMessage(order) && Clean(order) && AllAscii(order)
    ensures Decode(Wire(m.(fields := m.fields[40 := orderType])), preserve).Success? <==> Priced(orderType, m.fields)
  {
    DecodeLaw(m.(fields := m.fields[40 := orderType]), preserve);
    OrderTypeLawful(m.kind, m.fields, orderType);
    hide *;
  }

  // ---------------------------------------------------------------- the order of tags on the wire

  /** The place of each body tag: session tags, then what identifies an order, what it asks for, what has become of it, and
      text. */
  function Place(tag: int): nat {
    match tag
    case 98 => 0 case 108 => 1 case 141 => 2 case 112 => 3 case 7 => 4 case 16 => 5 case 36 => 6 case 123 => 7 case 45 => 8
    case 371 => 9 case 372 => 10 case 373 => 11 case 380 => 12 case 102 => 13 case 434 => 14
    case 11 => 15 case 41 => 16 case 37 => 17 case 17 => 18 case 55 => 19 case 54 => 20 case 60 => 21 case 38 => 22 case 40 => 23
    case 44 => 24 case 99 => 25 case 59 => 26
    case 39 => 27 case 150 => 28 case 151 => 29 case 14 => 30 case 6 => 31
    case 58 => 32
    case _ => 33
  }

  lemma PlaceLaw(x: int, y: int)
    requires IsField(x) && IsField(y) && x != y && Weight(x) <= Weight(y)
    ensures Place(x) < Place(y)
  {
  }

  predicate Ranked(x: int, y: int, rank: int -> int) {
    rank(x) < rank(y) || (rank(x) == rank(y) && x < y)
  }

  predicate InRank(fs: seq<Field>, rank: int -> int) {
    forall i, j :: 0 <= i < j < |fs| ==> Ranked(fs[i].tag, fs[j].tag, rank)
  }

  lemma {:induction false} ListingInRank(m: map<int, string>, rank: int -> int)
    ensures InRank(Listing(m, rank), rank) && |Listing(m, rank)| == |m|
    ensures forall i :: 0 <= i < |Listing(m, rank)| ==> Listing(m, rank)[i].tag in m && m[Listing(m, rank)[i].tag] == Listing(m, rank)[i].value
    decreases |m|
  {
    if m != map[] {
      var k := FirstKey(m.Keys, rank);
      var less, rest := m - {k}, Listing(m - {k}, rank);
      assert Listing(m, rank) == [Field(k, m[k])] + rest;
      ListingInRank(less, rank);
      OneLess(m, k);
      hide Listing;
      forall i | 0 <= i < |rest|
        ensures Ranked(k, rest[i].tag, rank) && rest[i].tag in m && m[rest[i].tag] == rest[i].value
      {
        assert rest[i].tag in less;
      }
      hide Ranked;
    }
  }

  lemma OneLess(m: map<int, string>, k: int)
    requires k in m
    ensures |m| == |m - {k}| + 1
  {
    var less := m - {k};
    assert m.Keys == less.Keys + {k};
    assert |m.Keys| == |m| && |less.Keys| == |less|;
  }

  /** The tags of one part of a message, each with its value, in the order of their place. */
  predicate SentFields(part: seq<Field>, fields: map<int, string>) {
    && |part| == |fields|
    && (forall i :: 0 <= i < |part| ==> part[i].tag in fields && part[i].value == fields[part[i].tag])
    && (forall i, j :: 0 <= i < j < |part| ==> Place(part[i].tag) < Place(part[j].tag))
  }

  predicate SentExtensions(part: seq<Field>, extensions: map<int, string>) {
    && |part| == |extensions|
    && (forall i :: 0 <= i < |part| ==> part[i].tag in extensions && part[i].value == extensions[part[i].tag])
    && (forall i, j :: 0 <= i < j < |part| ==> part[i].tag < part[j].tag)
  }

  /** The header as it is sent: type, number, sender, target and sending time, and for a duplicate its flag and the time it
      was first sent. */
  predicate SentHeader(part: seq<Field>, m: FixMessage) {
    && |part| == (if m.possDup then 7 else 5)
    && part[0] == Field(35, TypeCode(m.kind)) && part[1] == Field(34, Str(m.sequence)) && part[2] == Field(49, m.sender)
    && part[3] == Field(56, m.target) && part[4] == Field(52, FormatUtc(m.sentAt))
    && (m.possDup ==> part[5] == Field(43, "Y") && m.originallyAt.Some? && part[6] == Field(122, FormatUtc(m.originallyAt.value)))
  }

  /** An encoded message reads as its version and length, its header, its fields by place, its extensions by tag, and its
      checksum. */
  lemma SentInOrder(m: FixMessage, preserve: bool) returns (header: seq<Field>, fields: seq<Field>, extensions: seq<Field>)
    requires ValidMessage(m) && Clean(m) && Encode(m, preserve).Success?
    ensures SentHeader(header, m) && SentFields(fields, m.fields) && SentExtensions(extensions, m.extensions)
    ensures var raw, body := Encode(m, preserve).value, Join(header + fields + extensions);
            && raw != "" && raw[|raw| - 1] == SOH
            && ParseItems(Split(raw[..|raw| - 1])) ==
                 Success([Field(8, "FIX.4.4"), Field(9, Str(|body|))] + (header + fields + extensions)
                         + [Field(10, Pad(Sum(Prefix(body) + body) % 256, 3))])
  {
    header, fields, extensions := HeaderFields(m), Listing(m.fields, Weight), Listing(m.extensions, (tag: int) => 0);
    HeaderSent(m);
    ListingInRank(m.fields, Weight);
    ListingInRank(m.extensions, (tag: int) => 0);
    FieldsSent(m, fields);
    ExtensionsSent(m.extensions, extensions);
    WireReads(m, preserve);
    hide *;
  }

  lemma HeaderSent(m: FixMessage)
    requires ValidMessage(m)
    ensures SentHeader(HeaderFields(m), m)
  {
    hide FormatUtc;
    hide Str;
    hide TypeCode;
    hide Texts;
    hide Text;
    hide ValidInstant;
  }

  lemma WireReads(m: FixMessage, preserve: bool)
    requires ValidMessage(m) && Clean(m) && Encode(m, preserve).Success?
    ensures var all := HeaderFields(m) + Listing(m.fields, Weight) + Listing(m.extensions, (tag: int) => 0);
            var raw, body := Encode(m, preserve).value, Join(all);
            && raw != "" && raw[|raw| - 1] == SOH
            && ParseItems(Split(raw[..|raw| - 1])) ==
                 Success([Field(8, "FIX.4.4"), Field(9, Str(|body|))] + all + [Field(10, Pad(Sum(Prefix(body) + body) % 256, 3))])
  {
    EncodedText(m, preserve);
    WireLaw(m);
    WireSplit(m);
    var all := HeaderFields(m) + Listing(m.fields, Weight) + Listing(m.extensions, (tag: int) => 0);
    assert all == BodyFields(m);
    assert WireFields(m) == [Field(8, "FIX.4.4"), Field(9, Str(|Join(all)|))] + all
                            + [Field(10, Pad(Sum(Prefix(Join(all)) + Join(all)) % 256, 3))];
    hide *;
  }

  lemma ExtensionsSent(m: map<int, string>, fs: seq<Field>)
    requires InRank(fs, (tag: int) => 0) && |fs| == |m|
    requires forall i :: 0 <= i < |fs| ==> fs[i].tag in m && m[fs[i].tag] == fs[i].value
    ensures SentExtensions(fs, m)
  {
    forall i, j | 0 <= i < j < |fs|
      ensures fs[i].tag < fs[j].tag
    {
      assert Ranked(fs[i].tag, fs[j].tag, (tag: int) => 0);
    }
  }

  lemma FieldsSent(m: FixMessage, fields: seq<Field>)
    requires Clean(m) && InRank(fields, Weight) && |fields| == |m.fields|
    requires forall i :: 0 <= i < |fields| ==> fields[i].tag in m.fields && m.fields[fields[i].tag] == fields[i].value
    ensures SentFields(fields, m.fields)
  {
    forall i, j | 0 <= i < j < |fields|
      ensures Place(fields[i].tag) < Place(fields[j].tag)
    {
      assert Ranked(fields[i].tag, fields[j].tag, Weight);
      PlaceLaw(fields[i].tag, fields[j].tag);
    }
    hide Place;
  }
}
