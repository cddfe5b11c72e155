/** The FIX 4.4 codec (fix/codec.py): `Encode` and `Decode`, with BodyLength, the sum modulo 256, the ordered
    header and the backward search for the trailer. */
module FixCodec {
  import opened Results
  import opened FixText

  const SOH: char := 1 as char

  datatype MsgType =
    | Heartbeat | TestRequest | ResendRequest | MessageReject | SequenceReset | Logout | Logon | ExecutionReport
    | OrderCancelReject | NewOrderSingle | OrderCancelRequest | BusinessMessageReject

  datatype FixError =
    | Malformed | NotAscii | DuplicateTag | BadHeader | BadNumber | BadLength | BadChecksum | UnsupportedType
    | UnknownTags | BadField | BadFlag | BlankText

  datatype Field = Field(tag: int, value: string)

  datatype FixMessage = FixMessage(
    kind: MsgType, sequence: int, sender: string, target: string, sentAt: Instant, fields: map<int, string>,
    possDup: bool, originallyAt: Option<Instant>, extensions: map<int, string>,
    bodyLength: Option<int>, checksum: Option<int>)

  // ---------------------------------------------------------------- vocabulary

  function TypeCode(t: MsgType): string {
    match t
    case Heartbeat => "0"
    case TestRequest => "1"
    case ResendRequest => "2"
    case MessageReject => "3"
    case SequenceReset => "4"
    case Logout => "5"
    case Logon => "A"
    case ExecutionReport => "8"
    case OrderCancelReject => "9"
    case NewOrderSingle => "D"
    case OrderCancelRequest => "F"
    case BusinessMessageReject => "j"
  }

  function TypeOf(s: string): Option<MsgType> {
    if s == "0" then Some(Heartbeat)
    else if s == "1" then Some(TestRequest)
    else if s == "2" then Some(ResendRequest)
    else if s == "3" then Some(MessageReject)
    else if s == "4" then Some(SequenceReset)
    else if s == "5" then Some(Logout)
    else if s == "A" then Some(Logon)
    else if s == "8" then Some(ExecutionReport)
    else if s == "9" then Some(OrderCancelReject)
    else if s == "D" then Some(NewOrderSingle)
    else if s == "F" then Some(OrderCancelRequest)
    else if s == "j" then Some(BusinessMessageReject)
    else None
  }

  function Required(t: MsgType): set<int> {
    match t
    case Heartbeat => {}
    case TestRequest => {112}
    case ResendRequest => {7, 16}
    case MessageReject => {45}
    case SequenceReset => {36}
    case Logout => {}
    case Logon => {98, 108}
    case ExecutionReport => {37, 17, 11, 55, 54, 39, 150, 151, 14, 6}
    case OrderCancelReject => {37, 11, 41, 39, 434}
    case NewOrderSingle => {11, 55, 54, 60, 38, 40, 59}
    case OrderCancelRequest => {11, 41, 55, 54, 60, 38}
    case BusinessMessageReject => {372, 380}
  }

  /** The position of a body tag; tags the codec does not know come last. */
  function Weight(tag: int): int {
    match tag
    case 98 => 10 case 108 => 20 case 141 => 30 case 112 => 40 case 7 => 50 case 16 => 60 case 36 => 70
    case 123 => 80 case 45 => 90 case 371 => 95 case 372 => 100 case 373 => 110 case 380 => 120 case 102 => 130
    case 434 => 140 case 11 => 200 case 41 => 210 case 37 => 220 case 17 => 230 case 55 => 240 case 54 => 250
    case 60 => 260 case 38 => 270 case 40 => 280 case 44 => 290 case 99 => 300 case 59 => 310 case 39 => 320
    case 150 => 330 case 151 => 340 case 14 => 350 case 6 => 360 case 58 => 370
    case _ => 10000 + tag
  }

  /** The body tags the codec knows. */
  predicate IsField(tag: int) {
    tag in {98, 108, 141, 112, 7, 16, 36, 123, 45, 371, 372, 373, 380, 102, 434, 11, 41, 37, 17, 55, 54,
            60, 38, 40, 44, 99, 59, 39, 150, 151, 14, 6, 58}
  }

  predicate IsHeader(tag: int) {
    tag in {8, 9, 35, 34, 49, 56, 52, 43, 122, 10}
  }

  predicate IsKnown(tag: int) {
    IsHeader(tag) || IsField(tag)
  }

  /** The checks of one value. */
  predicate ValidValue(tag: int, v: string) {
    && (tag in {34, 7, 16, 36, 45, 98, 108, 102, 373, 380, 434} ==> PyInt(v).Some? && PyInt(v).value >= 0)
    && (tag in {38, 44, 99, 151, 14, 6} ==> FiniteDecimal(v))
    && (tag in {52, 60, 122} ==> ParseUtc(v).Some?)
    && (tag == 54 ==> v in {"1", "2"})
    && (tag == 40 ==> v in {"1", "2", "3", "4"})
    && (tag == 59 ==> v in {"1", "3"})
    && (tag == 39 ==> v in {"0", "2", "4", "8", "C", "E"})
    && (tag == 150 ==> v in {"0", "F", "4", "8", "C", "L"})
    && (tag == 434 ==> v == "1")
    && (tag == 380 ==> v in {"0", "1", "2", "3", "4", "5", "6", "7"})
  }

  /** Limit orders carry a price and stop orders a stop price. */
  predicate OrderPricesGiven(fields: map<int, string>) {
    40 in fields ==>
      && (fields[40] in {"2", "4"} ==> 44 in fields)
      && (fields[40] in {"3", "4"} ==> 99 in fields)
  }

  /** `_validate_fields`. */
  predicate ValidFields(t: MsgType, fields: map<int, string>) {
    && Required(t) <= fields.Keys
    && (forall tag :: tag in fields ==> ValidValue(tag, fields[tag]))
    && OrderPricesGiven(fields)
  }

  predicate Text(s: string) {
    s != "" && Strip(s) == s
  }

  predicate Texts(m: map<int, string>) {
    forall k :: k in m ==> Text(m[k])
  }

  /** `FixMessage.__post_init__`. */
  predicate ValidMessage(m: FixMessage) {
    && m.sequence > 0 && Text(m.sender) && Text(m.target) && ValidInstant(m.sentAt)
    && (m.originallyAt.Some? ==> ValidInstant(m.originallyAt.value)) && (m.possDup ==> m.originallyAt.Some?)
    && Texts(m.fields) && Texts(m.extensions) && m.fields.Keys !! m.extensions.Keys
  }

  // ---------------------------------------------------------------- encoding

  function Sum(s: string): nat {
    if s == "" then 0 else Sum(s[..|s| - 1]) + Code(s[|s| - 1])
  }

  predicate Ascii(s: string) {
    forall i :: 0 <= i < |s| ==> Code(s[i]) < 128
  }

  function Item(f: Field): string {
    Str(f.tag) + "=" + f.value
  }

  function Join(fs: seq<Field>): string {
    if fs == [] then "" else Join(fs[..|fs| - 1]) + Item(fs[|fs| - 1]) + [SOH]
  }

  ghost predicate First(k: int, keys: set<int>, rank: int -> int) {
    k in keys && forall j :: j in keys ==> rank(k) < rank(j) || (rank(k) == rank(j) && k <= j)
  }

  lemma {:induction false} FirstExists(keys: set<int>, rank: int -> int)
    requires keys != {}
    ensures exists k :: First(k, keys, rank)
    decreases keys
  {
    assert (forall j :: j !in keys) ==> keys == {};
    var k :| k in keys;
    if keys - {k} == {} {
      assert keys == {k};
      assert First(k, keys, rank);
    } else {
      FirstExists(keys - {k}, rank);
      var j :| First(j, keys - {k}, rank);
      assert keys == {k} + (keys - {k});
      assert First(if rank(j) < rank(k) || (rank(j) == rank(k) && j <= k) then j else k, keys, rank);
    }
  }

  ghost function FirstKey(keys: set<int>, rank: int -> int): (k: int)
    requires keys != {}
    ensures First(k, keys, rank)
  {
    FirstExists(keys, rank);
    var k :| First(k, keys, rank);
    k
  }

  /** The entries of a dictionary in the order of their rank, then of their tag. */
  ghost function Listing(m: map<int, string>, rank: int -> int): seq<Field>
    decreases |m|
  {
    if m == map[] then []
    else
      var k := FirstKey(m.Keys, rank);
      [Field(k, m[k])] + Listing(m - {k}, rank)
  }

  function HeaderFields(m: FixMessage): seq<Field> {
    [Field(35, TypeCode(m.kind)), Field(34, Str(m.sequence)), Field(49, m.sender), Field(56, m.target), Field(52, FormatUtc(m.sentAt))]
    + if m.possDup && m.originallyAt.Some? then [Field(43, "Y"), Field(122, FormatUtc(m.originallyAt.value))] else []
  }

  ghost function BodyFields(m: FixMessage): seq<Field> {
    HeaderFields(m) + Listing(m.fields, Weight) + Listing(m.extensions, (tag: int) => 0)
  }

  function Prefix(body: string): string {
    "8=FIX.4.4" + [SOH] + "9=" + Str(|body|) + [SOH]
  }

  function Trailer(before: string): string {
    "10=" + Pad(Sum(before) % 256, 3) + [SOH]
  }

  ghost function Encode(m: FixMessage, preserve: bool): Result<string, FixError> {
    if m.extensions != map[] && !preserve then Failure(UnknownTags)
    else if !ValidFields(m.kind, m.fields) then Failure(BadField)
    else
      var body := Join(BodyFields(m));
      if !Ascii(body) then Failure(NotAscii)
      else
        var before := Prefix(body) + body;
        Success(before + Trailer(before))
  }

  // ---------------------------------------------------------------- decoding

  /** `text.split(SOH)`. */
  function Split(s: string): (items: seq<string>)
    ensures items != []
  {
    if s == "" then [""]
    else
      var front, c := Split(s[..|s| - 1]), s[|s| - 1];
      if c == SOH then front + [""] else front[..|front| - 1] + [front[|front| - 1] + [c]]
  }

  predicate IsEqualSign(c: char) {
    c == '='
  }

  function ParseItem(item: string): Result<Field, FixError> {
    var parts := Cut(item, IsEqualSign);
    if parts.None? then Failure(Malformed)
    else
      var tag := PyInt(parts.value.0);
      if tag.None? || parts.value.1 == "" then Failure(Malformed) else Success(Field(tag.value, parts.value.1))
  }

  function ParseItems(items: seq<string>): Result<seq<Field>, FixError> {
    if items == [] then Success([])
    else
      var front :- ParseItems(items[..|items| - 1]);
      var last :- ParseItem(items[|items| - 1]);
      Success(front + [last])
  }

  /** `dict(pairs)`. */
  function Values(pairs: seq<Field>): map<int, string> {
    if pairs == [] then map[] else Values(pairs[..|pairs| - 1])[pairs[|pairs| - 1].tag := pairs[|pairs| - 1].value]
  }

  predicate NoDuplicates(pairs: seq<Field>) {
    pairs == [] || (NoDuplicates(pairs[..|pairs| - 1]) && pairs[|pairs| - 1].tag !in Values(pairs[..|pairs| - 1]))
  }

  /** `raw.find(SOH, from)`. */
  function Find(s: string, from: nat): int
    decreases |s| - from
  {
    if from >= |s| then -1 else if s[from] == SOH then from else Find(s, from + 1)
  }

  /** Where the body starts: after the second delimiter. */
  function BodyStart(s: string): int {
    var first := Find(s, 0);
    Find(s, if first < 0 then 0 else first + 1) + 1
  }

  /** `raw.rfind(b"10=")`. */
  function LastTrailer(s: string): (at: int)
    ensures -1 <= at <= |s|
    ensures at >= 0 ==> at + 3 <= |s| && s[at..at + 3] == "10="
  {
    if |s| < 3 then -1 else if s[|s| - 3..] == "10=" then |s| - 3 else LastTrailer(s[..|s| - 1])
  }

  predicate Framed(pairs: seq<Field>) {
    && |pairs| >= 2 && pairs[0].tag == 8 && pairs[1].tag == 9 && pairs[|pairs| - 1].tag == 10
    && {8, 9, 35, 34, 49, 56, 52, 10} <= Values(pairs).Keys
    && Values(pairs)[8] == "FIX.4.4"
  }

  datatype Numbers = Numbers(length: int, checksum: int, sequence: int)

  function ReadNumbers(values: map<int, string>): Result<Numbers, FixError>
    requires {9, 10, 34} <= values.Keys
  {
    var (length, checksum, sequence) := (PyInt(values[9]), PyInt(values[10]), PyInt(values[34]));
    if length.None? || checksum.None? || sequence.None? then Failure(BadNumber)
    else if sequence.value <= 0 || length.value < 0 || checksum.value < 0 || checksum.value > 255 then Failure(BadNumber)
    else Success(Numbers(length.value, checksum.value, sequence.value))
  }

  function Sealed(raw: string, n: Numbers): Result<(), FixError>
    requires n.length >= 0
  {
    var start := LastTrailer(raw);
    if start - BodyStart(raw) != n.length then Failure(BadLength)
    else if start < 0 || Sum(raw[..start]) % 256 != n.checksum then Failure(BadChecksum)
    else Success(())
  }

  function Stripped(m: map<int, string>): map<int, string> {
    map k | k in m :: Strip(m[k])
  }

  predicate NonBlank(m: map<int, string>) {
    forall k :: k in m ==> Strip(m[k]) != ""
  }

  function FieldsOf(values: map<int, string>): map<int, string> {
    map k | k in values && !IsHeader(k) && IsKnown(k) :: values[k]
  }

  function ExtensionsOf(values: map<int, string>): map<int, string> {
    map k | k in values && !IsKnown(k) :: values[k]
  }

  /** The message of the parsed fields, or the first check it fails. */
  function Build(values: map<int, string>, n: Numbers, preserve: bool): Result<FixMessage, FixError>
    requires {35, 49, 56, 52} <= values.Keys
  {
    var kind := TypeOf(values[35]);
    var fields, extensions := FieldsOf(values), ExtensionsOf(values);
    if kind.None? then Failure(UnsupportedType)
    else if extensions != map[] && !preserve then Failure(UnknownTags)
    else if !ValidFields(kind.value, fields[52 := values[52]]) then Failure(BadField)
    else if 43 in values && values[43] !in {"Y", "N"} then Failure(BadFlag)
    else if 122 in values && ParseUtc(values[122]).None? then Failure(BadField)
    else
      assert ValidValue(52, fields[52 := values[52]][52]);
      var possDup := 43 in values && values[43] == "Y";
      var originally := if 122 in values then ParseUtc(values[122]) else None;
      if possDup && originally.None? then Failure(BadFlag)
      else if Strip(values[49]) == "" || Strip(values[56]) == "" || !NonBlank(fields) || !NonBlank(extensions) then Failure(BlankText)
      else
        Success(FixMessage(kind.value, n.sequence, Strip(values[49]), Strip(values[56]), ParseUtc(values[52]).value,
                           Stripped(fields), possDup, originally, Stripped(extensions), Some(n.length), Some(n.checksum)))
  }

  function DecodePairs(raw: string, pairs: seq<Field>, preserve: bool): Result<FixMessage, FixError> {
    if !NoDuplicates(pairs) then Failure(DuplicateTag)
    else if !Framed(pairs) then Failure(BadHeader)
    else
      var n :- ReadNumbers(Values(pairs));
      var ok :- Sealed(raw, n);
      Build(Values(pairs), n, preserve)
  }

  function Decode(raw: string, preserve: bool): Result<FixMessage, FixError> {
    if raw == "" || raw[|raw| - 1] != SOH then Failure(Malformed)
    else if !Ascii(raw) then Failure(NotAscii)
    else
      var pairs :- ParseItems(Split(raw[..|raw| - 1]));
      DecodePairs(raw, pairs, preserve)
  }
}
