/** Which raw messages the decoder takes, and what it makes of them (`decode` in fix/codec.py), in terms of the items on
    the wire. */
module FixAcceptance {
  import opened Results
  import opened FixText
  import opened FixCodec
  import opened FixRoundTrips
  import opened FixRules

  // ---------------------------------------------------------------- the frame

  predicate Carries(pairs: seq<Field>, tag: int) {
    exists i :: 0 <= i < |pairs| && pairs[i].tag == tag
  }

  predicate DistinctTags(pairs: seq<Field>) {
    forall i, j :: 0 <= i < j < |pairs| ==> pairs[i].tag != pairs[j].tag
  }

  /** Version, length, then the rest of the header, and the checksum last; no tag twice. */
  predicate InFrame(pairs: seq<Field>) {
    && |pairs| >= 2 && pairs[0] == Field(8, "FIX.4.4") && pairs[1].tag == 9 && pairs[|pairs| - 1].tag == 10 && DistinctTags(pairs)
    && Carries(pairs, 35) && Carries(pairs, 34) && Carries(pairs, 49) && Carries(pairs, 56) && Carries(pairs, 52)
  }

  lemma {:induction false} ValuesCarry(pairs: seq<Field>, tag: int)
    ensures tag in Values(pairs) <==> Carries(pairs, tag)
    decreases |pairs|
  {
    if pairs != [] {
      var front := pairs[..|pairs| - 1];
      ValuesCarry(front, tag);
      if Carries(pairs, tag) && pairs[|pairs| - 1].tag != tag {
        var i :| 0 <= i < |pairs| && pairs[i].tag == tag;
        assert front[i].tag == tag;
      }
    }
  }

  lemma {:induction false} DistinctLaw(pairs: seq<Field>)
    ensures NoDuplicates(pairs) <==> DistinctTags(pairs)
    decreases |pairs|
  {
    if pairs != [] {
      var front, last := pairs[..|pairs| - 1], pairs[|pairs| - 1];
      DistinctLaw(front);
      ValuesCarry(front, last.tag);
      hide Values;
      if DistinctTags(pairs) {
        assert DistinctTags(front);
      }
      if NoDuplicates(pairs) {
        forall i, j | 0 <= i < j < |pairs|
          ensures pairs[i].tag != pairs[j].tag
        {
          assert i < |front| && front[i] == pairs[i];
          if j < |front| {
            assert front[j] == pairs[j];
          }
        }
      }
    }
  }

  lemma {:induction false} ValueAt(pairs: seq<Field>, i: nat)
    requires i < |pairs| && DistinctTags(pairs)
    ensures pairs[i].tag in Values(pairs) && Values(pairs)[pairs[i].tag] == pairs[i].value
    decreases |pairs|
  {
    var front := pairs[..|pairs| - 1];
    if i < |front| {
      ValueAt(front, i);
    }
  }

  lemma FrameLaw(pairs: seq<Field>)
    ensures NoDuplicates(pairs) && Framed(pairs) <==> InFrame(pairs)
  {
    DistinctLaw(pairs);
    ValuesCarry(pairs, 35);
    ValuesCarry(pairs, 34);
    ValuesCarry(pairs, 49);
    ValuesCarry(pairs, 56);
    ValuesCarry(pairs, 52);
    if DistinctTags(pairs) && |pairs| >= 2 {
      ValueAt(pairs, 0);
      ValueAt(pairs, 1);
      ValueAt(pairs, |pairs| - 1);
    }
    hide Values;
    hide NoDuplicates;
    hide Carries;
    hide DistinctTags;
  }

  // ---------------------------------------------------------------- the content

  predicate HeaderTag(tag: int) {
    || tag == 8 || tag == 9 || tag == 10 || tag == 34 || tag == 35 || tag == 43 || tag == 49 || tag == 52 || tag == 56 || tag == 122
  }

  /** A tag that has a place in the body. */
  predicate BodyTag(tag: int) {
    || tag == 98 || tag == 108 || tag == 141 || tag == 112 || tag == 7 || tag == 16 || tag == 36 || tag == 123 || tag == 45
    || tag == 371 || tag == 372 || tag == 373 || tag == 380 || tag == 102 || tag == 434
    || tag == 11 || tag == 41 || tag == 37 || tag == 17 || tag == 55 || tag == 54 || tag == 60 || tag == 38 || tag == 40
    || tag == 44 || tag == 99 || tag == 59 || tag == 39 || tag == 150 || tag == 151 || tag == 14 || tag == 6 || tag == 58
  }

  /** What a message is named by its type, its tags and their values. */
  ghost predicate Welcome(v: map<int, string>, preserve: bool)
    requires {35, 49, 56} <= v.Keys
  {
    && TypeOf(v[35]).Some?
    && (forall tag: int :: MustCarry(TypeOf(v[35]).value, tag) ==> tag in v)
    && (forall tag: int :: tag in v ==> GoodValue(tag, v[tag]))
    && (40 in v ==> Priced(v[40], v))
    && (43 in v ==> v[43] == "N" || (v[43] == "Y" && 122 in v))
    && (forall tag: int :: tag in v ==> preserve || HeaderTag(tag) || BodyTag(tag))
    && Strip(v[49]) != "" && Strip(v[56]) != "" && (forall tag: int :: tag in v && !HeaderTag(tag) ==> Strip(v[tag]) != "")
  }

  lemma TagLaw(tag: int)
    ensures IsHeader(tag) <==> HeaderTag(tag)
    ensures IsField(tag) <==> BodyTag(tag)
    ensures !(HeaderTag(tag) && BodyTag(tag))
  {
  }

  lemma CarriedAreBody(kind: MsgType, tag: int)
    requires MustCarry(kind, tag)
    ensures BodyTag(tag) && tag != 52
  {
  }

  lemma OthersAreGood(tag: int, value: string)
    requires !BodyTag(tag) && tag != 52 && tag != 34 && tag != 122
    ensures GoodValue(tag, value)
  {
  }

  lemma FieldTags(v: map<int, string>)
    ensures forall tag: int :: tag in FieldsOf(v) <==> tag in v && BodyTag(tag)
    ensures forall tag: int :: tag in FieldsOf(v) ==> FieldsOf(v)[tag] == v[tag]
    ensures forall tag: int :: tag in ExtensionsOf(v) <==> tag in v && !HeaderTag(tag) && !BodyTag(tag)
    ensures forall tag: int :: tag in ExtensionsOf(v) ==> ExtensionsOf(v)[tag] == v[tag]
  {
    forall tag: int
      ensures (IsHeader(tag) <==> HeaderTag(tag)) && (IsField(tag) <==> BodyTag(tag)) && !(HeaderTag(tag) && BodyTag(tag))
    {
      TagLaw(tag);
    }
    hide IsHeader;
    hide IsField;
    hide HeaderTag;
    hide BodyTag;
  }

  lemma NamedTags(sequence: string, originally: string)
    requires Natural(sequence)
    ensures BodyTag(40) && BodyTag(44) && BodyTag(99) && !BodyTag(52) && GoodValue(34, sequence)
    ensures GoodValue(122, originally) <==> ParseUtc(originally).Some?
  {
    hide ParseUtc;
    hide PyInt;
  }

  /** The rules of the fields, told of the whole message. */
  lemma WholeLaw(kind: MsgType, v: map<int, string>, fields: map<int, string>)
    requires 52 in v && 34 in v && Natural(v[34]) && fields == FieldsOf(v)[52 := v[52]]
    ensures Lawful(kind, fields) && (122 in v ==> ParseUtc(v[122]).Some?) <==>
              && (forall tag: int :: MustCarry(kind, tag) ==> tag in v)
              && (forall tag: int :: tag in v ==> GoodValue(tag, v[tag]))
              && (40 in v ==> Priced(v[40], v))
  {
    FieldTags(v);
    hide FieldsOf;
    hide ExtensionsOf;
    forall tag: int | MustCarry(kind, tag)
      ensures tag in v <==> tag in fields
    {
      CarriedAreBody(kind, tag);
    }
    NamedTags(v[34], if 122 in v then v[122] else "");
    forall tag: int | tag in v && !BodyTag(tag) && tag != 52 && tag != 122
      ensures GoodValue(tag, v[tag])
    {
      if tag != 34 {
        OthersAreGood(tag, v[tag]);
      }
    }
    forall tag: int | tag in fields
      ensures tag in v && fields[tag] == v[tag] && (BodyTag(tag) || tag == 52)
    {
    }
    assert 40 in v ==> (Priced(v[40], v) <==> Priced(v[40], fields));
    hide GoodValue;
    hide MustCarry;
    hide Priced;
    hide BodyTag;
    hide ParseUtc;
  }

  lemma NoExtensions(v: map<int, string>)
    ensures ExtensionsOf(v) == map[] <==> forall tag: int :: tag in v ==> HeaderTag(tag) || BodyTag(tag)
  {
    FieldTags(v);
    var extensions := ExtensionsOf(v);
    hide ExtensionsOf;
    hide FieldsOf;
    hide HeaderTag;
    hide BodyTag;
    if forall tag: int :: tag in v ==> HeaderTag(tag) || BodyTag(tag) {
      assert forall tag: int :: tag !in extensions;
      assert extensions == map[];
    }
  }

  lemma NoBlanks(v: map<int, string>)
    ensures NonBlank(FieldsOf(v)) && NonBlank(ExtensionsOf(v)) <==> forall tag: int :: tag in v && !HeaderTag(tag) ==> Strip(v[tag]) != ""
  {
    FieldTags(v);
    hide ExtensionsOf;
    hide FieldsOf;
    hide Strip;
    forall tag: int
      ensures !(HeaderTag(tag) && BodyTag(tag))
    {
      TagLaw(tag);
    }
    hide HeaderTag;
    hide BodyTag;
  }

  lemma BuildSteps(v: map<int, string>, n: Numbers, preserve: bool)
    requires {35, 49, 56, 52} <= v.Keys
    ensures Build(v, n, preserve).Success? <==>
              && TypeOf(v[35]).Some?
              && (ExtensionsOf(v) == map[] || preserve)
              && ValidFields(TypeOf(v[35]).value, FieldsOf(v)[52 := v[52]])
              && (122 in v ==> ParseUtc(v[122]).Some?)
              && (43 in v ==> v[43] == "N" || (v[43] == "Y" && 122 in v))
              && Strip(v[49]) != "" && Strip(v[56]) != "" && NonBlank(FieldsOf(v)) && NonBlank(ExtensionsOf(v))
  {
    hide FieldsOf;
    hide ExtensionsOf;
    hide NonBlank;
    hide ParseUtc;
    hide Strip;
    hide TypeOf;
    hide ValidFields;
  }

  lemma BuildAccepts(v: map<int, string>, n: Numbers, preserve: bool)
    requires {35, 49, 56, 52, 34} <= v.Keys && Natural(v[34])
    ensures Build(v, n, preserve).Success? <==> Welcome(v, preserve)
  {
    BuildSteps(v, n, preserve);
    NoExtensions(v);
    NoBlanks(v);
    if TypeOf(v[35]).Some? {
      FieldsLaw(TypeOf(v[35]).value, FieldsOf(v)[52 := v[52]]);
      WholeLaw(TypeOf(v[35]).value, v, FieldsOf(v)[52 := v[52]]);
    }
    hide Build;
    hide FieldsOf;
    hide ExtensionsOf;
    hide NonBlank;
    hide Lawful;
    hide GoodValue;
    hide MustCarry;
    hide Priced;
    hide ParseUtc;
    hide Strip;
    hide TypeOf;
    hide ValidFields;
    hide HeaderTag;
    hide BodyTag;
  }

  // ---------------------------------------------------------------- a raw message

  /** The numbers of the frame: a length, a checksum below 256 and a positive sequence number, the first two being those
      of the text. */
  predicate NumbersHold(raw: string, v: map<int, string>)
    requires {9, 10, 34} <= v.Keys
  {
    && Natural(v[9]) && Natural(v[10]) && Natural(v[34]) && PyInt(v[34]).value > 0
    && var start := LastTrailer(raw);
       && start >= 0 && PyInt(v[9]).value == start - BodyStart(raw) && PyInt(v[10]).value == Sum(raw[..start]) % 256
  }

  lemma NumbersLaw(raw: string, v: map<int, string>)
    requires {9, 10, 34} <= v.Keys
    ensures NumbersHold(raw, v) <==> ReadNumbers(v).Success? && Sealed(raw, ReadNumbers(v).value).Success?
  {
    hide PyInt;
    hide LastTrailer;
    hide BodyStart;
    hide Sum;
  }

  /** The text of a message, its items, and what they say of it. */
  ghost predicate Acceptable(raw: string, preserve: bool) {
    && raw != "" && raw[|raw| - 1] == SOH && Ascii(raw)
    && var items := ParseItems(Split(raw[..|raw| - 1]));
       && items.Success? && InFrame(items.value)
       && var v := Values(items.value);
          && {9, 10, 34, 35, 49, 56, 52} <= v.Keys && NumbersHold(raw, v) && Welcome(v, preserve)
  }

  lemma PairsAccepted(raw: string, pairs: seq<Field>, preserve: bool)
    ensures DecodePairs(raw, pairs, preserve).Success? <==>
              && InFrame(pairs) && {9, 10, 34, 35, 49, 56, 52} <= Values(pairs).Keys
              && NumbersHold(raw, Values(pairs)) && Welcome(Values(pairs), preserve)
  {
    FrameLaw(pairs);
    if NoDuplicates(pairs) && Framed(pairs) {
      var v := Values(pairs);
      assert {9, 10, 34, 35, 49, 56, 52} <= v.Keys;
      NumbersLaw(raw, v);
      if NumbersHold(raw, v) {
        BuildAccepts(v, ReadNumbers(v).value, preserve);
      }
    }
    hide Framed;
    hide NoDuplicates;
    hide InFrame;
    hide Values;
    hide Welcome;
    hide Build;
    hide ReadNumbers;
    hide Sealed;
  }

  /** The decoder takes a text exactly when it is acceptable. */
  lemma AcceptLaw(raw: string, preserve: bool)
    ensures Decode(raw, preserve).Success? <==> Acceptable(raw, preserve)
  {
    if raw != "" && raw[|raw| - 1] == SOH && Ascii(raw) {
      var items := ParseItems(Split(raw[..|raw| - 1]));
      if items.Success? {
        PairsAccepted(raw, items.value, preserve);
      }
    }
    hide Ascii;
    hide Split;
    hide ParseItems;
    hide DecodePairs;
    hide InFrame;
    hide Values;
    hide NumbersHold;
    hide Welcome;
  }

  /** The header that the items make. */
  predicate HeaderMade(m: FixMessage, v: map<int, string>)
    requires {9, 10, 34, 35, 49, 56, 52} <= v.Keys
  {
    && TypeOf(v[35]) == Some(m.kind) && PyInt(v[34]) == Some(m.sequence) && m.sender == Strip(v[49]) && m.target == Strip(v[56])
    && ParseUtc(v[52]) == Some(m.sentAt) && m.possDup == (43 in v && v[43] == "Y")
    && m.originallyAt == (if 122 in v then ParseUtc(v[122]) else None)
    && m.bodyLength == PyInt(v[9]) && m.checksum == PyInt(v[10])
  }

  /** The message that the items make: its header, the body's tags and the unknown tags, without outer blanks. */
  ghost predicate Made(m: FixMessage, v: map<int, string>)
    requires {9, 10, 34, 35, 49, 56, 52} <= v.Keys
  {
    && HeaderMade(m, v)
    && (forall tag: int :: tag in m.fields <==> tag in v && BodyTag(tag))
    && (forall tag: int :: tag in m.fields ==> m.fields[tag] == Strip(v[tag]))
    && (forall tag: int :: tag in m.extensions <==> tag in v && !HeaderTag(tag) && !BodyTag(tag))
    && (forall tag: int :: tag in m.extensions ==> m.extensions[tag] == Strip(v[tag]))
  }

  lemma BuildTakes(v: map<int, string>, n: Numbers, preserve: bool)
    requires {9, 10, 34, 35, 49, 56, 52} <= v.Keys && Build(v, n, preserve).Success?
    requires PyInt(v[9]) == Some(n.length) && PyInt(v[10]) == Some(n.checksum) && PyInt(v[34]) == Some(n.sequence)
    ensures var m := Build(v, n, preserve).value;
            HeaderMade(m, v) && m.fields == Stripped(FieldsOf(v)) && m.extensions == Stripped(ExtensionsOf(v))
  {
    TimeIsGood(TypeOf(v[35]).value, FieldsOf(v)[52 := v[52]]);
    hide FieldsOf;
    hide ExtensionsOf;
    hide NonBlank;
    hide PyInt;
    hide ParseUtc;
    hide Strip;
    hide TypeOf;
    hide ValidFields;
    hide Stripped;
  }

  lemma TimeIsGood(kind: MsgType, fields: map<int, string>)
    requires ValidFields(kind, fields) && 52 in fields
    ensures ParseUtc(fields[52]).Some?
  {
    assert ValidValue(52, fields[52]);
    hide ParseUtc;
  }

  lemma NumbersRead(v: map<int, string>)
    requires {9, 10, 34} <= v.Keys && ReadNumbers(v).Success?
    ensures var n := ReadNumbers(v).value;
            PyInt(v[9]) == Some(n.length) && PyInt(v[10]) == Some(n.checksum) && PyInt(v[34]) == Some(n.sequence)
  {
    hide PyInt;
  }

  lemma StrippedTags(fields: map<int, string>)
    ensures forall tag: int :: tag in Stripped(fields) <==> tag in fields
    ensures forall tag: int :: tag in fields ==> Stripped(fields)[tag] == Strip(fields[tag])
  {
    hide Strip;
  }

  lemma BuildMakes(v: map<int, string>, preserve: bool)
    requires {9, 10, 34, 35, 49, 56, 52} <= v.Keys && ReadNumbers(v).Success? && Build(v, ReadNumbers(v).value, preserve).Success?
    ensures Made(Build(v, ReadNumbers(v).value, preserve).value, v)
  {
    NumbersRead(v);
    BuildTakes(v, ReadNumbers(v).value, preserve);
    FieldTags(v);
    StrippedTags(FieldsOf(v));
    StrippedTags(ExtensionsOf(v));
    hide Build;
    hide ReadNumbers;
    hide HeaderMade;
    hide FieldsOf;
    hide ExtensionsOf;
    hide Stripped;
    hide Strip;
    hide HeaderTag;
    hide BodyTag;
  }

  /** What the decoder makes of a text that it takes. */
  lemma MadeLaw(raw: string, preserve: bool)
    requires Decode(raw, preserve).Success?
    ensures Acceptable(raw, preserve) && Made(Decode(raw, preserve).value, Values(ParseItems(Split(raw[..|raw| - 1])).value))
  {
    AcceptLaw(raw, preserve);
    var v := Values(ParseItems(Split(raw[..|raw| - 1])).value);
    NumbersLaw(raw, v);
    hide Ascii;
    hide Split;
    hide ParseItems;
    hide NoDuplicates;
    hide Framed;
    hide InFrame;
    hide Values;
    hide NumbersHold;
    hide Welcome;
    hide ReadNumbers;
    hide Sealed;
    hide Made;
    BuildMakes(v, preserve);
    hide Build;
  }
}
