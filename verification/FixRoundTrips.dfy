/** Encoding then decoding, and decoding then encoding again (fix/codec.py). */
module FixRoundTrips {
  import opened Results
  import opened FixText
  import opened FixCodec
  import FixLaws

  // ---------------------------------------------------------------- fields on the wire

  predicate NoSoh(s: string) {
    forall i :: 0 <= i < |s| ==> s[i] != SOH
  }

  /** A field that survives the wire: a value, and no delimiter in it. */
  predicate Sound(f: Field) {
    f.value != "" && NoSoh(f.value)
  }

  predicate AllSound(fs: seq<Field>) {
    forall i :: 0 <= i < |fs| ==> Sound(fs[i])
  }

  lemma {:induction false} SplitAppend(s: string, t: string)
    requires NoSoh(t)
    ensures Split(s + [SOH] + t) == Split(s) + [t]
    decreases |t|
  {
    if t == "" {
      SplitAtSoh(s);
      assert s + [SOH] + t == s + [SOH];
    } else {
      var front, last := t[..|t| - 1], t[|t| - 1];
      SplitAppend(s, front);
      assert t == front + [last] && s + [SOH] + t == s + [SOH] + front + [last];
      SplitOneMore(s + [SOH] + front, last, Split(s), front);
      hide Split;
    }
  }

  lemma SplitAtSoh(s: string)
    ensures Split(s + [SOH]) == Split(s) + [""]
  {
    assert (s + [SOH])[..|s|] == s;
  }

  /** A character that is no delimiter extends the last item. */
  lemma SplitOneMore(s: string, c: char, items: seq<string>, last: string)
    requires c != SOH && Split(s) == items + [last]
    ensures Split(s + [c]) == items + [last + [c]]
  {
    assert (s + [c])[..|s|] == s;
    assert (items + [last])[..|items|] == items;
  }

  lemma {:induction false} SplitWhole(t: string)
    requires NoSoh(t)
    ensures Split(t) == [t]
    decreases |t|
  {
    if t != "" {
      SplitWhole(t[..|t| - 1]);
      assert t == t[..|t| - 1] + [t[|t| - 1]];
    }
  }

  function Items(fs: seq<Field>): (items: seq<string>)
    ensures |items| == |fs| && forall i :: 0 <= i < |fs| ==> items[i] == Item(fs[i])
  {
    seq(|fs|, i requires 0 <= i < |fs| => Item(fs[i]))
  }

  lemma ItemsStep(fs: seq<Field>)
    requires fs != []
    ensures Items(fs) == Items(fs[..|fs| - 1]) + [Item(fs[|fs| - 1])]
  {
    hide Item;
  }

  lemma ItemNoSoh(f: Field)
    requires NoSoh(f.value)
    ensures NoSoh(Item(f))
  {
    PyIntOfStr(f.tag);
    hide Str;
    hide PyInt;
    forall i | 0 <= i < |Item(f)|
      ensures Item(f)[i] != SOH
    {
      assert i < |Str(f.tag)| ==> Item(f)[i] in Str(f.tag);
    }
  }

  /** Splitting what was joined gives the items back. */
  lemma {:induction false} SplitJoin(fs: seq<Field>)
    requires fs != [] && AllSound(fs)
    ensures Join(fs) != "" && Join(fs)[|Join(fs)| - 1] == SOH
    ensures Split(Join(fs)[..|Join(fs)| - 1]) == Items(fs)
    decreases |fs|
  {
    var front, last := fs[..|fs| - 1], fs[|fs| - 1];
    ItemNoSoh(last);
    ItemsStep(fs);
    hide Items;
    hide Item;
    assert Join(fs)[..|Join(fs)| - 1] == Join(front) + Item(last);
    if front == [] {
      assert Join(front) + Item(last) == Item(last);
      SplitWhole(Item(last));
      assert Items(front) == [] && Items(fs) == [] + [Item(last)];
    } else {
      SplitJoin(front);
      var inner := Join(front)[..|Join(front)| - 1];
      assert Join(front) + Item(last) == inner + [SOH] + Item(last);
      SplitAppend(inner, Item(last));
    }
  }

  lemma ParseItemOf(f: Field)
    requires f.value != ""
    ensures ParseItem(Item(f)) == Success(f)
  {
    PyIntOfStr(f.tag);
    var key := Str(f.tag);
    hide Str;
    hide PyInt;
    assert forall i :: 0 <= i < |key| ==> key[i] in key && !IsEqualSign(key[i]);
    CutAt(key, '=', f.value, IsEqualSign);
    assert Item(f) == key + ['='] + f.value;
  }

  predicate Parses(items: seq<string>, fs: seq<Field>) {
    ParseItems(items) == Success(fs)
  }

  lemma ParsesStep(items: seq<string>, fs: seq<Field>, item: string, f: Field)
    requires Parses(items, fs) && ParseItem(item) == Success(f)
    ensures Parses(items + [item], fs + [f])
  {
    hide ParseItem;
    assert (items + [item])[..|items|] == items;
  }

  lemma FrontSound(fs: seq<Field>)
    requires AllSound(fs) && fs != []
    ensures AllSound(fs[..|fs| - 1]) && fs[|fs| - 1].value != ""
  {
    hide NoSoh;
  }

  lemma {:induction false} ParseItemsOf(fs: seq<Field>)
    requires AllSound(fs)
    ensures Parses(Items(fs), fs)
    decreases |fs|
  {
    if fs != [] {
      var front, last := fs[..|fs| - 1], fs[|fs| - 1];
      FrontSound(fs);
      hide AllSound;
      hide Sound;
      hide Parses;
      hide ParseItem;
      hide ParseItems;
      hide Item;
      assert fs == front + [last];
      ItemsStep(fs);
      hide Items;
      ParseItemsOf(front);
      ParseItemOf(last);
      ParsesStep(Items(front), front, Item(last), last);
    }
  }

  lemma {:induction false} JoinAppend(xs: seq<Field>, ys: seq<Field>)
    ensures Join(xs + ys) == Join(xs) + Join(ys)
    decreases |ys|
  {
    hide Item;
    if ys == [] {
      assert xs + ys == xs;
      assert Join(xs) + "" == Join(xs);
    } else {
      JoinAppend(xs, ys[..|ys| - 1]);
      assert (xs + ys)[..|xs + ys| - 1] == xs + ys[..|ys| - 1];
    }
  }

  // ---------------------------------------------------------------- dictionaries

  lemma {:induction false} ValuesAppend(xs: seq<Field>, ys: seq<Field>)
    ensures Values(xs + ys) == Values(xs) + Values(ys)
    decreases |ys|
  {
    if ys == [] {
      assert xs + ys == xs;
    } else {
      ValuesAppend(xs, ys[..|ys| - 1]);
      assert (xs + ys)[..|xs + ys| - 1] == xs + ys[..|ys| - 1];
    }
  }

  lemma {:induction false} NoDuplicatesAppend(xs: seq<Field>, ys: seq<Field>)
    requires NoDuplicates(xs) && NoDuplicates(ys) && Values(xs).Keys !! Values(ys).Keys
    ensures NoDuplicates(xs + ys)
    decreases |ys|
  {
    if ys == [] {
      assert xs + ys == xs;
    } else {
      var front, last := ys[..|ys| - 1], ys[|ys| - 1];
      NoDuplicatesAppend(xs, front);
      ValuesAppend(xs, front);
      assert (xs + ys)[..|xs + ys| - 1] == xs + front;
    }
  }

  lemma One(f: Field)
    ensures Values([f]) == map[f.tag := f.value] && NoDuplicates([f])
  {
    assert [f][..0] == [];
  }

  lemma ListingStep(m: map<int, string>, k: int, tail: seq<Field>)
    requires k in m && Values(tail) == m - {k} && NoDuplicates(tail)
    ensures Values([Field(k, m[k])] + tail) == m && NoDuplicates([Field(k, m[k])] + tail)
  {
    hide NoDuplicates;
    hide Values;
    var head := [Field(k, m[k])];
    One(head[0]);
    ValuesAppend(head, tail);
    NoDuplicatesAppend(head, tail);
    assert map[k := m[k]] + (m - {k}) == m;
  }

  /** A listing names every entry once. */
  lemma {:induction false} ListingLaw(m: map<int, string>, rank: int -> int)
    ensures Values(Listing(m, rank)) == m && NoDuplicates(Listing(m, rank))
    decreases |m|
  {
    if m != map[] {
      hide Values;
      hide NoDuplicates;
      hide First;
      var k := FirstKey(m.Keys, rank);
      ListingLaw(m - {k}, rank);
      ListingStep(m, k, Listing(m - {k}, rank));
    }
  }

  lemma {:induction false} EntriesOf(fs: seq<Field>)
    requires NoDuplicates(fs)
    ensures forall i :: 0 <= i < |fs| ==> fs[i].tag in Values(fs) && Values(fs)[fs[i].tag] == fs[i].value
    decreases |fs|
  {
    if fs != [] {
      var front := fs[..|fs| - 1];
      EntriesOf(front);
      assert forall i :: 0 <= i < |front| ==> fs[i] == front[i];
    }
  }

  // ---------------------------------------------------------------- the encoded text

  function Checked(before: string): Field {
    Field(10, Pad(Sum(before) % 256, 3))
  }

  ghost function WireFields(m: FixMessage): seq<Field> {
    var body := Join(BodyFields(m));
    [Field(8, "FIX.4.4"), Field(9, Str(|body|))] + BodyFields(m) + [Checked(Prefix(body) + body)]
  }

  lemma StrDigits()
    ensures Str(8) == "8" && Str(9) == "9" && Str(10) == "10"
  {
    assert StrNat(10) == StrNat(1) + ['0'];
  }

  lemma PrefixJoin(body: string)
    ensures Join([Field(8, "FIX.4.4"), Field(9, Str(|body|))]) == Prefix(body)
  {
    StrDigits();
    hide Str;
    var f, g := Field(8, "FIX.4.4"), Field(9, Str(|body|));
    assert [f, g][..1] == [f] && [f][..0] == [];
    assert Join([f]) == "8=FIX.4.4" + [SOH];
    assert Join([f, g]) == Join([f]) + Item(g) + [SOH];
  }

  lemma WireText(m: FixMessage)
    ensures var body := Join(BodyFields(m)); var before := Prefix(body) + body;
            Join(WireFields(m)) == before + Trailer(before)
  {
    var body := Join(BodyFields(m));
    var before := Prefix(body) + body;
    var head := [Field(8, "FIX.4.4"), Field(9, Str(|body|))];
    PrefixJoin(body);
    StrDigits();
    hide BodyFields;
    hide Prefix;
    hide Str;
    hide Sum;
    JoinAppend(head, BodyFields(m));
    JoinAppend(head + BodyFields(m), [Checked(before)]);
    assert [Checked(before)][..0] == [];
    assert Join([Checked(before)]) == "" + Item(Checked(before)) + [SOH] == Trailer(before);
  }

  // ---------------------------------------------------------------- positions in the encoded text

  lemma {:induction false} FindAt(s: string, from: nat, k: nat)
    requires from <= k < |s| && s[k] == SOH && forall i :: from <= i < k ==> s[i] != SOH
    ensures Find(s, from) == k
    decreases k - from
  {
    if from < k {
      FindAt(s, from + 1, k);
    }
  }

  lemma BodyStartOf(body: string, rest: string)
    ensures BodyStart(Prefix(body) + rest) == |Prefix(body)|
  {
    PyIntOfStr(|body|);
    var length := Str(|body|);
    hide Str;
    hide PyInt;
    var s := Prefix(body) + rest;
    assert s == "8=FIX.4.4" + [SOH] + ("9=" + length + [SOH] + rest);
    assert s[9] == SOH;
    FindAt(s, 0, 9);
    forall i | 10 <= i < 12 + |length|
      ensures s[i] != SOH
    {
      assert i >= 12 ==> s[i] == length[i - 12] && length[i - 12] in length;
    }
    assert s[12 + |length|] == SOH;
    FindAt(s, 10, 12 + |length|);
  }

  lemma {:induction false} LastTrailerOf(s: string, v: string)
    requires '=' !in v
    ensures LastTrailer(s + "10=" + v) == |s|
    decreases |v|
  {
    var t := s + "10=" + v;
    if v == "" {
      assert t[|t| - 3..] == "10=";
    } else {
      var front := v[..|v| - 1];
      LastTrailerOf(s, front);
      assert v == front + [v[|v| - 1]] && v[|v| - 1] in v;
      assert t == s + "10=" + front + [v[|v| - 1]];
      NoTrailerEnd(s + "10=" + front, v[|v| - 1]);
      hide LastTrailer;
    }
  }

  lemma NoTrailerEnd(s: string, c: char)
    requires |s| >= 2 && c != '='
    ensures LastTrailer(s + [c]) == LastTrailer(s)
  {
    var t := s + [c];
    assert t[|t| - 3..][2] == c && t[..|t| - 1] == s;
  }

  lemma Seal(head: string, body: string, tail: string, n: Numbers)
    requires '=' !in tail && BodyStart(head + body + "10=" + tail) == |head|
    requires n.length == |body| && n.checksum == Sum(head + body) % 256
    ensures Sealed(head + body + "10=" + tail, n) == Success(())
  {
    var before := head + body;
    var raw := before + "10=" + tail;
    LastTrailerOf(before, tail);
    hide LastTrailer;
    hide BodyStart;
    hide Sum;
    assert raw[..|before|] == before;
  }

  /** The frame that encoding writes is the frame that decoding checks. */
  lemma SealHolds(m: FixMessage)
    ensures var body := Join(BodyFields(m)); var before := Prefix(body) + body;
            Sealed(before + Trailer(before), Numbers(|body|, Sum(before) % 256, m.sequence)) == Success(())
  {
    var body := Join(BodyFields(m));
    var before := Prefix(body) + body;
    var tail := Pad(Sum(before) % 256, 3) + [SOH];
    PadDigits(Sum(before) % 256, 3);
    assert '=' !in tail;
    BodyStartOf(body, body + "10=" + tail);
    assert Trailer(before) == "10=" + tail;
    hide BodyFields;
    hide Join;
    hide Pad;
    hide Sum;
    hide Sealed;
    hide BodyStart;
    hide Prefix;
    hide Trailer;
    Regroup(Prefix(body), body, "10=", tail);
    Seal(Prefix(body), body, tail, Numbers(|body|, Sum(before) % 256, m.sequence));
  }

  lemma Regroup(a: string, b: string, c: string, d: string)
    ensures a + (b + c + d) == a + b + c + d == (a + b) + (c + d)
  {
  }

  // ---------------------------------------------------------------- what a message must be to survive

  /** Nothing in the message is mistaken for structure: no delimiter in a value, and every tag in its own part. */
  predicate Clean(m: FixMessage) {
    && NoSoh(m.sender) && NoSoh(m.target)
    && (forall k :: k in m.fields ==> IsField(k) && NoSoh(m.fields[k]))
    && (forall k :: k in m.extensions ==> !IsKnown(k) && NoSoh(m.extensions[k]))
  }

  /** The message without what only the wire knows. */
  function Logical(m: FixMessage): FixMessage {
    m.(bodyLength := None, checksum := None)
  }

  lemma {:induction false} PadDigits(n: nat, width: nat)
    ensures AllDigits(Pad(n, width)) && |Pad(n, width)| == width
    decreases width
  {
    if width > 0 {
      PadDigits(n / 10, width - 1);
    }
  }

  lemma TimestampSound(t: Instant)
    ensures FormatUtc(t) != "" && NoSoh(FormatUtc(t))
  {
    PadDigits(t.year, 4);
    PadDigits(t.month, 2);
    PadDigits(t.day, 2);
    PadDigits(t.hour, 2);
    PadDigits(t.minute, 2);
    PadDigits(t.second, 2);
    PadDigits(t.micro, 6);
    TrimRightLaw(Pad(t.micro, 6), (c: char) => c == '0');
    hide Pad;
    hide TrimRight;
    assert NoSoh(Fraction(t.micro));
    assert NoSoh(Clock(t));
  }

  lemma StrSound(n: int)
    ensures Str(n) != "" && NoSoh(Str(n))
  {
    PyIntOfStr(n);
    StrNatLaw(if n < 0 then -n else n);
    hide StrNat;
    hide PyInt;
    forall i | 0 <= i < |Str(n)|
      ensures Str(n)[i] != SOH
    {
      assert Str(n)[i] in Str(n);
    }
  }

  function HeaderValues(m: FixMessage): map<int, string> {
    var base := map[35 := TypeCode(m.kind), 34 := Str(m.sequence), 49 := m.sender, 56 := m.target, 52 := FormatUtc(m.sentAt)];
    if m.possDup && m.originallyAt.Some? then base[43 := "Y"][122 := FormatUtc(m.originallyAt.value)] else base
  }

  lemma {:induction false} ListOf(fs: seq<Field>, f: Field)
    requires NoDuplicates(fs) && f.tag !in Values(fs)
    ensures NoDuplicates(fs + [f]) && Values(fs + [f]) == Values(fs)[f.tag := f.value]
  {
    assert (fs + [f])[..|fs|] == fs;
  }

  lemma BaseHeader(a: Field, b: Field, c: Field, d: Field, e: Field)
    requires a.tag == 35 && b.tag == 34 && c.tag == 49 && d.tag == 56 && e.tag == 52
    ensures NoDuplicates([a, b, c, d, e])
    ensures Values([a, b, c, d, e]) == map[35 := a.value, 34 := b.value, 49 := c.value, 56 := d.value, 52 := e.value]
  {
    hide NoDuplicates;
    hide Values;
    One(a);
    ListOf([a], b);
    assert [a] + [b] == [a, b];
    ListOf([a, b], c);
    assert [a, b] + [c] == [a, b, c];
    ListOf([a, b, c], d);
    assert [a, b, c] + [d] == [a, b, c, d];
    ListOf([a, b, c, d], e);
    assert [a, b, c, d] + [e] == [a, b, c, d, e];
  }

  lemma HeaderLaw(m: FixMessage)
    ensures NoDuplicates(HeaderFields(m)) && Values(HeaderFields(m)) == HeaderValues(m)
  {
    hide NoDuplicates;
    hide Values;
    hide Str;
    hide FormatUtc;
    hide TypeCode;
    var a, b, c := Field(35, TypeCode(m.kind)), Field(34, Str(m.sequence)), Field(49, m.sender);
    var d, e := Field(56, m.target), Field(52, FormatUtc(m.sentAt));
    var base := [a, b, c, d, e];
    BaseHeader(a, b, c, d, e);
    if m.possDup && m.originallyAt.Some? {
      var f, g := Field(43, "Y"), Field(122, FormatUtc(m.originallyAt.value));
      ListOf(base, f);
      ListOf(base + [f], g);
      assert base + [f] + [g] == HeaderFields(m);
    } else {
      assert base + [] == base == HeaderFields(m);
    }
  }

  lemma HeaderSound(m: FixMessage)
    requires ValidMessage(m) && Clean(m)
    ensures AllSound(HeaderFields(m))
  {
    StrSound(m.sequence);
    TimestampSound(m.sentAt);
    if m.originallyAt.Some? {
      TimestampSound(m.originallyAt.value);
    }
    hide Str;
    hide FormatUtc;
    hide ValidInstant;
    hide Strip;
    assert TypeCode(m.kind) != "" && NoSoh(TypeCode(m.kind));
  }

  lemma ListingSound(fields: map<int, string>, rank: int -> int)
    requires forall k :: k in fields ==> Text(fields[k]) && NoSoh(fields[k])
    ensures AllSound(Listing(fields, rank))
  {
    ListingLaw(fields, rank);
    EntriesOf(Listing(fields, rank));
    hide Listing;
    hide Values;
    hide NoDuplicates;
    hide Strip;
    hide NoSoh;
  }

  /** The values that travel in the body. */
  lemma BodyLaw(m: FixMessage)
    requires ValidMessage(m) && Clean(m)
    ensures NoDuplicates(BodyFields(m)) && AllSound(BodyFields(m))
    ensures Values(BodyFields(m)) == HeaderValues(m) + m.fields + m.extensions
  {
    var zero := (tag: int) => 0;
    HeaderLaw(m);
    HeaderSound(m);
    ListingLaw(m.fields, Weight);
    ListingLaw(m.extensions, zero);
    SoundListings(m);
    KeysApart(m);
    hide NoDuplicates;
    hide Values;
    hide Listing;
    hide HeaderFields;
    hide HeaderValues;
    hide ValidMessage;
    hide AllSound;
    hide Clean;
    Three(HeaderFields(m), Listing(m.fields, Weight), Listing(m.extensions, zero));
  }

  lemma SoundListings(m: FixMessage)
    requires ValidMessage(m) && Clean(m)
    ensures AllSound(Listing(m.fields, Weight)) && AllSound(Listing(m.extensions, (tag: int) => 0))
  {
    hide AllSound;
    hide Listing;
    hide Strip;
    hide NoSoh;
    ListingSound(m.fields, Weight);
    ListingSound(m.extensions, (tag: int) => 0);
  }

  lemma TagKinds()
    ensures forall k :: IsField(k) ==> !IsHeader(k)
  {
  }

  lemma HeaderKeys(m: FixMessage)
    ensures forall k :: k in HeaderValues(m) ==> IsHeader(k) && k !in {8, 9, 10}
  {
    hide TypeCode;
    hide Str;
    hide FormatUtc;
  }

  lemma KeysApart(m: FixMessage)
    requires ValidMessage(m) && Clean(m)
    ensures HeaderValues(m).Keys !! m.fields.Keys && HeaderValues(m).Keys !! m.extensions.Keys && m.fields.Keys !! m.extensions.Keys
  {
    TagKinds();
    HeaderKeys(m);
    hide HeaderValues;
    hide IsHeader;
    hide IsField;
    hide Text;
    hide NoSoh;
    hide ValidInstant;
    forall k | k in HeaderValues(m)
      ensures k !in m.fields && k !in m.extensions
    {
      assert IsHeader(k);
    }
  }

  lemma Three(xs: seq<Field>, ys: seq<Field>, zs: seq<Field>)
    requires NoDuplicates(xs) && NoDuplicates(ys) && NoDuplicates(zs)
    requires Values(xs).Keys !! Values(ys).Keys && Values(xs).Keys !! Values(zs).Keys && Values(ys).Keys !! Values(zs).Keys
    requires AllSound(xs) && AllSound(ys) && AllSound(zs)
    ensures NoDuplicates(xs + ys + zs) && AllSound(xs + ys + zs)
    ensures Values(xs + ys + zs) == Values(xs) + Values(ys) + Values(zs)
  {
    hide NoDuplicates;
    hide Values;
    hide Sound;
    NoDuplicatesAppend(xs, ys);
    ValuesAppend(xs, ys);
    NoDuplicatesAppend(xs + ys, zs);
    ValuesAppend(xs + ys, zs);
  }

  // ---------------------------------------------------------------- encoding then decoding

  /** The header and trailer values of the encoded message. */
  ghost function Frame(m: FixMessage): map<int, string> {
    var body := Join(BodyFields(m));
    HeaderValues(m)[8 := "FIX.4.4"][9 := Str(|body|)][10 := Checked(Prefix(body) + body).value]
  }

  /** A dictionary of header tags, body tags and unknown tags comes apart again. */
  lemma Partition(head: map<int, string>, fields: map<int, string>, extensions: map<int, string>)
    requires forall k :: k in head ==> IsHeader(k)
    requires forall k :: k in fields ==> IsField(k)
    requires forall k :: k in extensions ==> !IsKnown(k)
    ensures var all := head + fields + extensions;
            && FieldsOf(all) == fields && ExtensionsOf(all) == extensions
            && (forall k :: IsHeader(k) ==> (k in all <==> k in head))
            && (forall k :: k in head ==> k in all && all[k] == head[k])
  {
    TagKinds();
    hide IsField;
    hide IsHeader;
    var all := head + fields + extensions;
    assert FieldsOf(all).Keys == fields.Keys;
    assert ExtensionsOf(all).Keys == extensions.Keys;
  }

  lemma WireLaw(m: FixMessage)
    requires ValidMessage(m) && Clean(m)
    ensures NoDuplicates(WireFields(m)) && AllSound(WireFields(m))
    ensures Values(WireFields(m)) == Frame(m) + m.fields + m.extensions
  {
    var body := Join(BodyFields(m));
    var f, g, h := Field(8, "FIX.4.4"), Field(9, Str(|body|)), Checked(Prefix(body) + body);
    EndsSound(body, Prefix(body) + body);
    hide Str;
    hide Checked;
    hide Sound;
    BodyLaw(m);
    BodyKeys(m);
    hide Prefix;
    hide Join;
    hide BodyFields;
    hide HeaderValues;
    hide ValidMessage;
    hide Clean;
    hide NoDuplicates;
    hide Values;
    Enclose(f, g, BodyFields(m), h);
    Reframe(m, HeaderValues(m), f.value, g.value, h.value);
  }

  lemma EndsSound(body: string, before: string)
    ensures Sound(Field(8, "FIX.4.4")) && Sound(Field(9, Str(|body|))) && Sound(Checked(before)) && Checked(before).tag == 10
  {
    PadDigits(Sum(before) % 256, 3);
    StrSound(|body|);
    hide Str;
    hide Pad;
    hide Sum;
  }

  lemma Enclose(f: Field, g: Field, fs: seq<Field>, h: Field)
    requires f.tag == 8 && g.tag == 9 && h.tag == 10 && NoDuplicates(fs) && AllSound(fs)
    requires Sound(f) && Sound(g) && Sound(h)
    requires forall k :: k in Values(fs) ==> k !in {8, 9, 10}
    ensures NoDuplicates([f, g] + fs + [h]) && AllSound([f, g] + fs + [h])
    ensures Values([f, g] + fs + [h]) == map[8 := f.value, 9 := g.value] + Values(fs) + map[10 := h.value]
  {
    hide NoDuplicates;
    hide Values;
    hide Sound;
    One(f);
    ListOf([f], g);
    assert [f] + [g] == [f, g];
    One(h);
    Three([f, g], fs, [h]);
  }

  lemma Reframe(m: FixMessage, head: map<int, string>, f: string, g: string, h: string)
    requires forall k :: k in head || k in m.fields || k in m.extensions ==> k !in {8, 9, 10}
    ensures map[8 := f, 9 := g] + (head + m.fields + m.extensions) + map[10 := h]
         == head[8 := f][9 := g][10 := h] + m.fields + m.extensions
  {
  }

  lemma BodyKeys(m: FixMessage)
    requires ValidMessage(m) && Clean(m)
    ensures forall k :: k in HeaderValues(m) || k in m.fields || k in m.extensions ==> k !in {8, 9, 10}
  {
    HeaderKeys(m);
    hide HeaderValues;
    hide Text;
    hide NoSoh;
    hide ValidInstant;
  }

  lemma Looked(m: FixMessage)
    requires ValidMessage(m) && Clean(m)
    ensures var v := Frame(m) + m.fields + m.extensions; var body := Join(BodyFields(m));
            && {8, 9, 10, 35, 34, 49, 56, 52} <= v.Keys
            && v[8] == "FIX.4.4" && v[9] == Str(|body|) && v[10] == Checked(Prefix(body) + body).value
            && v[35] == TypeCode(m.kind) && v[34] == Str(m.sequence) && v[49] == m.sender && v[56] == m.target
            && v[52] == FormatUtc(m.sentAt)
            && (m.possDup <==> 43 in v) && (m.possDup <==> 122 in v)
            && (m.possDup ==> v[43] == "Y" && v[122] == FormatUtc(m.originallyAt.value))
            && FieldsOf(v) == m.fields && ExtensionsOf(v) == m.extensions
  {
    HeaderKeys(m);
    hide Text;
    hide NoSoh;
    hide TypeCode;
    hide Str;
    hide FormatUtc;
    hide Join;
    hide BodyFields;
    hide Prefix;
    hide Checked;
    hide ValidInstant;
    hide IsField;
    Partition(Frame(m), m.fields, m.extensions);
    hide FieldsOf;
    hide ExtensionsOf;
  }

  lemma TimeValue(v: string)
    requires ParseUtc(v).Some?
    ensures ValidValue(52, v)
  {
    hide ParseUtc;
  }

  lemma TimeNotRequired(t: MsgType)
    ensures 52 !in Required(t)
  {
  }

  lemma SamePrices(fields: map<int, string>, v: string)
    ensures OrderPricesGiven(fields[52 := v]) <==> OrderPricesGiven(fields)
  {
  }

  lemma AddTime(t: MsgType, fields: map<int, string>, v: string)
    requires ParseUtc(v).Some? && 52 !in fields
    ensures ValidFields(t, fields[52 := v]) <==> ValidFields(t, fields)
  {
    hide ParseUtc;
    hide ValidValue;
    hide Required;
    hide OrderPricesGiven;
    TimeValue(v);
    TimeNotRequired(t);
    SamePrices(fields, v);
    var more := fields[52 := v];
    if ValidFields(t, more) {
      forall tag | tag in fields
        ensures ValidValue(tag, fields[tag])
      {
        assert more[tag] == fields[tag];
      }
    }
  }

  lemma StripTexts(fields: map<int, string>)
    requires Texts(fields)
    ensures Stripped(fields) == fields && NonBlank(fields)
  {
    hide Strip;
    forall k | k in fields
      ensures Strip(fields[k]) == fields[k]
    {
      assert Text(fields[k]);
    }
  }

  /** What the receiver has: the message, its sending time of origin only beside the duplicate flag, and the
      frame's length and checksum. */
  ghost function Received(m: FixMessage): FixMessage {
    var body := Join(BodyFields(m));
    m.(originallyAt := if m.possDup then m.originallyAt else None,
       bodyLength := Some(|body|), checksum := Some(Sum(Prefix(body) + body) % 256))
  }

  lemma BuildLaw(m: FixMessage, preserve: bool)
    requires ValidMessage(m) && Clean(m) && ValidFields(m.kind, m.fields) && (m.extensions == map[] || preserve)
    ensures var v := Frame(m) + m.fields + m.extensions; var r := Received(m);
            && {35, 49, 56, 52} <= v.Keys
            && Build(v, Numbers(r.bodyLength.value, r.checksum.value, m.sequence), preserve) == Success(r)
  {
    Looked(m);
    ParseOfFormat(m.sentAt);
    if m.possDup {
      ParseOfFormat(m.originallyAt.value);
    }
    TypeOfCode(m.kind);
    NoTimeField(m);
    AddTime(m.kind, m.fields, FormatUtc(m.sentAt));
    StripTexts(m.fields);
    StripTexts(m.extensions);
    hide FormatUtc;
    hide ParseUtc;
    hide Str;
    hide TypeCode;
    hide TypeOf;
    hide ValidFields;
    hide Frame;
    hide Join;
    hide BodyFields;
    hide Prefix;
    hide Sum;
    hide Checked;
    hide Clean;
    hide Strip;
    hide ValidInstant;
    hide Stripped;
    hide NonBlank;
    hide Texts;
    hide FieldsOf;
    hide ExtensionsOf;
    BuildFrom(m, Frame(m) + m.fields + m.extensions, preserve);
  }

  lemma TypeOfCode(t: MsgType)
    ensures TypeOf(TypeCode(t)) == Some(t)
  {
  }

  lemma NoTimeField(m: FixMessage)
    requires Clean(m)
    ensures 52 !in m.fields
  {
    hide NoSoh;
    assert !IsField(52);
  }

  lemma BuildFrom(m: FixMessage, v: map<int, string>, preserve: bool)
    requires {35, 49, 56, 52} <= v.Keys && FieldsOf(v) == m.fields && ExtensionsOf(v) == m.extensions
    requires TypeOf(v[35]) == Some(m.kind) && v[49] == m.sender && v[56] == m.target && ParseUtc(v[52]) == Some(m.sentAt)
    requires (m.possDup <==> 43 in v) && (m.possDup <==> 122 in v) && (m.possDup ==> m.originallyAt.Some?)
    requires m.possDup ==> v[43] == "Y" && ParseUtc(v[122]) == m.originallyAt
    requires Text(m.sender) && Text(m.target) && Stripped(m.fields) == m.fields && Stripped(m.extensions) == m.extensions
    requires NonBlank(m.fields) && NonBlank(m.extensions) && (m.extensions == map[] || preserve)
    requires ValidFields(m.kind, m.fields[52 := v[52]])
    ensures var r := Received(m);
            Build(v, Numbers(r.bodyLength.value, r.checksum.value, m.sequence), preserve) == Success(r)
  {
    hide ParseUtc;
    hide TypeOf;
    hide ValidFields;
    hide Join;
    hide BodyFields;
    hide Prefix;
    hide Sum;
    hide Strip;
    hide Stripped;
    hide NonBlank;
    hide FieldsOf;
    hide ExtensionsOf;
  }

  lemma AsciiParts(s: string, t: string)
    ensures Ascii(s + t) <==> Ascii(s) && Ascii(t)
  {
    var u := s + t;
    if Ascii(u) {
      assert forall i :: 0 <= i < |s| ==> s[i] == u[i];
      assert forall i :: 0 <= i < |t| ==> t[i] == u[|s| + i];
    }
  }

  lemma StrAscii(n: int)
    ensures Ascii(Str(n))
  {
    PyIntOfStr(n);
    hide Str;
    hide PyInt;
    forall i | 0 <= i < |Str(n)|
      ensures Code(Str(n)[i]) < 128
    {
      assert Str(n)[i] in Str(n);
    }
  }

  lemma FrameAscii(body: string)
    requires Ascii(body)
    ensures Ascii(Prefix(body) + body + Trailer(Prefix(body) + body))
  {
    var before := Prefix(body) + body;
    StrAscii(|body|);
    PadDigits(Sum(before) % 256, 3);
    hide Str;
    hide Pad;
    hide Sum;
    assert Ascii(Prefix(body));
    assert Ascii(Trailer(before));
    hide Prefix;
    hide Trailer;
    AsciiParts(Prefix(body), body);
    AsciiParts(before, Trailer(before));
  }

  lemma WireFramed(m: FixMessage)
    requires ValidMessage(m) && Clean(m)
    ensures Framed(WireFields(m))
  {
    Looked(m);
    WireLaw(m);
    hide Frame;
    hide Values;
    hide BodyFields;
    hide Join;
    hide Prefix;
    hide Str;
    hide ValidMessage;
    hide Clean;
  }

  lemma NumbersRead(m: FixMessage)
    requires ValidMessage(m) && Clean(m)
    ensures var v := Frame(m) + m.fields + m.extensions; var r := Received(m);
            && {9, 10, 34} <= v.Keys
            && ReadNumbers(v) == Success(Numbers(r.bodyLength.value, r.checksum.value, m.sequence))
  {
    var body := Join(BodyFields(m));
    var sum := Sum(Prefix(body) + body) % 256;
    Looked(m);
    PyIntOfStr(|body|);
    PyIntOfStr(m.sequence);
    assert Ten(3) == 1000;
    PadLaw(sum, 3);
    PyIntOfDigits(Pad(sum, 3));
    hide Frame;
    hide BodyFields;
    hide Join;
    hide Prefix;
    hide Str;
    hide Pad;
    hide Sum;
    hide PyInt;
    hide Clean;
    hide FieldsOf;
    hide ExtensionsOf;
  }

  lemma DecodeFrom(raw: string, pairs: seq<Field>, n: Numbers, m: FixMessage, preserve: bool)
    requires raw != "" && raw[|raw| - 1] == SOH && Ascii(raw) && ParseItems(Split(raw[..|raw| - 1])) == Success(pairs)
    requires NoDuplicates(pairs) && Framed(pairs) && ReadNumbers(Values(pairs)) == Success(n)
    requires Sealed(raw, n) == Success(()) && Build(Values(pairs), n, preserve) == Success(m)
    ensures Decode(raw, preserve) == Success(m)
  {
    hide Ascii;
    hide ParseItems;
    hide Split;
    hide NoDuplicates;
    hide Framed;
    hide ReadNumbers;
    hide Sealed;
    hide Build;
  }

  lemma EncodedText(m: FixMessage, preserve: bool)
    requires Encode(m, preserve).Success?
    ensures var body := Join(BodyFields(m)); var before := Prefix(body) + body; var raw := Encode(m, preserve).value;
            && raw == before + Trailer(before) == Join(WireFields(m)) && Ascii(raw)
            && ValidFields(m.kind, m.fields) && (m.extensions == map[] || preserve)
  {
    WireText(m);
    FrameAscii(Join(BodyFields(m)));
    hide BodyFields;
    hide WireFields;
    hide Join;
    hide Prefix;
    hide Trailer;
    hide Ascii;
    hide ValidFields;
  }

  /** A clean message arrives as it was sent. */
  lemma Delivered(m: FixMessage, preserve: bool)
    requires ValidMessage(m) && Clean(m) && Encode(m, preserve).Success?
    ensures Decode(Encode(m, preserve).value, preserve) == Success(Received(m))
  {
    var r := Received(m);
    var n := Numbers(r.bodyLength.value, r.checksum.value, m.sequence);
    EncodedText(m, preserve);
    WireLaw(m);
    WireFramed(m);
    NumbersRead(m);
    SealHolds(m);
    BuildLaw(m, preserve);
    hide BodyFields;
    hide WireFields;
    hide Join;
    hide Prefix;
    hide Trailer;
    hide ValidMessage;
    hide Clean;
    hide Frame;
    hide Encode;
    hide AllSound;
    hide NoDuplicates;
    hide Framed;
    hide Values;
    hide ReadNumbers;
    hide Sealed;
    hide Build;
    hide Sum;
    hide Ascii;
    hide ValidFields;
    WireSplit(m);
    DecodeFrom(Encode(m, preserve).value, WireFields(m), n, r, preserve);
  }

  lemma WireSplit(m: FixMessage)
    requires AllSound(WireFields(m))
    ensures var raw := Join(WireFields(m));
            raw != "" && raw[|raw| - 1] == SOH && ParseItems(Split(raw[..|raw| - 1])) == Success(WireFields(m))
  {
    assert WireFields(m) != [];
    hide WireFields;
    hide AllSound;
    hide Join;
    hide Split;
    hide ParseItems;
    SplitJoin(WireFields(m));
    ParseItemsOf(WireFields(m));
  }

  // ---------------------------------------------------------------- what decoding produces

  predicate Plain(s: string) {
    NoSoh(s) && Ascii(s)
  }

  predicate PlainValues(m: map<int, string>) {
    forall k :: k in m ==> Plain(m[k])
  }

  lemma PlainParts(s: string, t: string)
    requires forall c :: c in t ==> c in s
    requires Plain(s)
    ensures Plain(t)
  {
    forall i | 0 <= i < |t|
      ensures t[i] != SOH && Code(t[i]) < 128
    {
      assert t[i] in s;
    }
  }

  lemma {:induction false} SplitPlain(s: string)
    requires Ascii(s)
    ensures forall i :: 0 <= i < |Split(s)| ==> Plain(Split(s)[i])
    decreases |s|
  {
    if s != "" {
      var front, items := s[..|s| - 1], Split(s[..|s| - 1]);
      SplitPlain(front);
      if s[|s| - 1] != SOH {
        assert Plain(items[|items| - 1] + [s[|s| - 1]]);
      }
    }
  }

  lemma ParsedPlain(item: string)
    requires Plain(item) && ParseItem(item).Success?
    ensures Plain(ParseItem(item).value.value)
  {
    FixLaws.ItemParts(item);
    hide ParseItem;
    var v := ParseItem(item).value.value;
    var key :| item == key + "=" + v;
    PlainParts(item, v);
  }

  lemma {:induction false} ValuesFrom(fs: seq<Field>)
    requires forall i :: 0 <= i < |fs| ==> Plain(fs[i].value)
    ensures PlainValues(Values(fs))
    decreases |fs|
  {
    if fs != [] {
      ValuesFrom(fs[..|fs| - 1]);
    }
  }

  /** What is read from the wire holds no delimiter. */
  lemma ReadPlain(raw: string)
    requires raw != "" && Ascii(raw) && ParseItems(Split(raw[..|raw| - 1])).Success?
    ensures PlainValues(Values(ParseItems(Split(raw[..|raw| - 1])).value))
  {
    var items := Split(raw[..|raw| - 1]);
    var pairs := ParseItems(items).value;
    SplitPlain(raw[..|raw| - 1]);
    FixLaws.ItemsParsed(items);
    hide Split;
    hide ParseItems;
    hide ParseItem;
    hide Plain;
    hide Values;
    forall i | 0 <= i < |pairs|
      ensures Plain(pairs[i].value)
    {
      ParsedPlain(items[i]);
    }
    ValuesFrom(pairs);
  }

  lemma StripTwice(s: string)
    ensures Strip(Strip(s)) == Strip(s) && (Plain(s) ==> Plain(Strip(s)))
  {
    TrimIsBare(s, IsSpace);
    TrimBare(Strip(s), IsSpace);
    if Plain(s) {
      PlainParts(s, Strip(s));
    }
  }

  lemma StripValue(tag: int, v: string)
    requires ValidValue(tag, v)
    ensures ValidValue(tag, Strip(v))
  {
    if tag in {38, 44, 99, 151, 14, 6} {
      StripDecimal(v);
    } else if tag in {52, 60, 122} {
      TimestampIsBare(v);
    } else if tag in {34, 7, 16, 36, 45, 98, 108, 102, 373} {
      PyIntChars(v);
    } else if tag in {54, 40, 59, 39, 150, 434, 380} {
      OneCharacter(v);
    }
  }

  lemma OneCharacter(v: string)
    requires |v| == 1 && !IsSpace(v[0])
    ensures Strip(v) == v
  {
    TrimBare(v, IsSpace);
  }

  lemma StripFields(t: MsgType, fields: map<int, string>)
    requires ValidFields(t, fields)
    ensures ValidFields(t, Stripped(fields))
  {
    hide ValidValue;
    hide Required;
    hide Strip;
    var stripped := Stripped(fields);
    forall tag | tag in stripped
      ensures ValidValue(tag, stripped[tag])
    {
      StripValue(tag, fields[tag]);
    }
    assert stripped.Keys == fields.Keys;
    if 40 in fields {
      OrderKindStripped(fields[40]);
    }
  }

  lemma OrderKindStripped(v: string)
    requires ValidValue(40, v)
    ensures Strip(v) == v
  {
    hide Strip;
    hide PyInt;
    hide FiniteDecimal;
    hide ParseUtc;
    OneCharacter(v);
  }

  /** What any message built by the decoder satisfies. */
  predicate Receivable(m: FixMessage, preserve: bool) {
    && ValidMessage(m) && Clean(m) && ValidFields(m.kind, m.fields) && (m.extensions == map[] || preserve)
    && Ascii(m.sender) && Ascii(m.target) && PlainValues(m.fields) && PlainValues(m.extensions)
  }

  lemma StrippedTexts(fields: map<int, string>)
    requires PlainValues(fields) && NonBlank(fields)
    ensures Texts(Stripped(fields)) && PlainValues(Stripped(fields))
  {
    hide Strip;
    hide Plain;
    forall k | k in fields
      ensures Text(Strip(fields[k])) && Plain(Strip(fields[k]))
    {
      StripTwice(fields[k]);
    }
  }

  lemma SubPlain(values: map<int, string>)
    requires PlainValues(values)
    ensures PlainValues(FieldsOf(values)) && PlainValues(ExtensionsOf(values))
    ensures 52 !in FieldsOf(values) && FieldsOf(values).Keys !! ExtensionsOf(values).Keys
    ensures forall k :: k in FieldsOf(values) ==> IsField(k)
    ensures forall k :: k in ExtensionsOf(values) ==> !IsKnown(k)
  {
    hide Plain;
  }

  lemma ParsedIsValid(s: string)
    ensures ParseUtc(s).Some? ==> ValidInstant(ParseUtc(s).value)
  {
    hide MonthDay;
    hide ParseClock;
    hide Cut;
  }

  lemma BuiltReceivable(values: map<int, string>, n: Numbers, preserve: bool)
    requires {35, 49, 56, 52} <= values.Keys && PlainValues(values) && n.sequence > 0
    requires Build(values, n, preserve).Success?
    ensures var m := Build(values, n, preserve).value;
            && Receivable(m, preserve)
            && (m.originallyAt.Some? <==> 122 in values) && (m.possDup <==> 43 in values && values[43] == "Y")
  {
    hide Build;
    hide Strip;
    hide ParseUtc;
    hide ValidFields;
    hide FieldsOf;
    hide ExtensionsOf;
    hide NonBlank;
    hide ValidInstant;
    hide IsField;
    hide IsKnown;
    var m := Build(values, n, preserve).value;
    var fields, extensions := FieldsOf(values), ExtensionsOf(values);
    BuiltShape(values, n, preserve);
    SubPlain(values);
    AddTime(m.kind, fields, values[52]);
    StripFields(m.kind, fields);
    StrippedTexts(fields);
    StrippedTexts(extensions);
    StripTwice(values[49]);
    StripTwice(values[56]);
    ParsedIsValid(values[52]);
    if 122 in values {
      ParsedIsValid(values[122]);
    }
    StrippedClean(m, fields, extensions);
  }

  lemma BuiltShape(values: map<int, string>, n: Numbers, preserve: bool)
    requires {35, 49, 56, 52} <= values.Keys && Build(values, n, preserve).Success?
    ensures var m := Build(values, n, preserve).value;
            && m.sequence == n.sequence && m.sender == Strip(values[49]) != "" && m.target == Strip(values[56]) != ""
            && m.fields == Stripped(FieldsOf(values)) && m.extensions == Stripped(ExtensionsOf(values))
            && NonBlank(FieldsOf(values)) && NonBlank(ExtensionsOf(values)) && (ExtensionsOf(values) == map[] || preserve)
            && ValidFields(m.kind, FieldsOf(values)[52 := values[52]])
            && ParseUtc(values[52]) == Some(m.sentAt) && (m.possDup ==> m.originallyAt.Some?)
            && (if 122 in values then m.originallyAt.Some? && ParseUtc(values[122]) == m.originallyAt else m.originallyAt.None?)
            && (m.possDup <==> 43 in values && values[43] == "Y")
  {
    hide Strip;
    hide ParseUtc;
    hide ValidFields;
    hide FieldsOf;
    hide ExtensionsOf;
    hide NonBlank;
    hide Stripped;
    hide TypeOf;
    var m := Build(values, n, preserve).value;
    TimeChecked(m.kind, FieldsOf(values)[52 := values[52]]);
  }

  lemma TimeChecked(t: MsgType, fields: map<int, string>)
    requires ValidFields(t, fields) && 52 in fields
    ensures ParseUtc(fields[52]).Some?
  {
    hide ParseUtc;
    assert ValidValue(52, fields[52]);
  }

  lemma StrippedClean(m: FixMessage, fields: map<int, string>, extensions: map<int, string>)
    requires m.fields == Stripped(fields) && m.extensions == Stripped(extensions)
    requires PlainValues(m.fields) && PlainValues(m.extensions) && NoSoh(m.sender) && NoSoh(m.target)
    requires forall k :: k in fields ==> IsField(k)
    requires forall k :: k in extensions ==> !IsKnown(k)
    ensures Clean(m)
  {
    hide Strip;
    hide IsField;
    hide IsKnown;
  }

  lemma SequencePositive(values: map<int, string>)
    requires {9, 10, 34} <= values.Keys && ReadNumbers(values).Success?
    ensures ReadNumbers(values).value.sequence > 0
  {
    hide PyInt;
  }

  /** What was accepted is a valid message that can be sent again; tag 122 and 43 say what its flags say. */
  lemma Accepted(raw: string, preserve: bool)
    requires Decode(raw, preserve).Success?
    ensures Receivable(Decode(raw, preserve).value, preserve)
    ensures ParseItems(Split(raw[..|raw| - 1])).Success?
    ensures var m := Decode(raw, preserve).value; var values := Values(ParseItems(Split(raw[..|raw| - 1])).value);
            && (m.originallyAt.Some? <==> 122 in values) && (m.possDup <==> 43 in values && values[43] == "Y")
  {
    FixLaws.AcceptedFrame(raw, preserve);
    ReadPlain(raw);
    hide Decode;
    hide Split;
    hide ParseItems;
    hide PlainValues;
    hide NoDuplicates;
    hide Build;
    hide Sealed;
    hide Receivable;
    var values := Values(ParseItems(Split(raw[..|raw| - 1])).value);
    assert {35, 49, 56, 52, 9, 10, 34} <= values.Keys;
    hide Framed;
    hide Values;
    SequencePositive(values);
    hide ReadNumbers;
    BuiltReceivable(values, ReadNumbers(values).value, preserve);
  }

  // ---------------------------------------------------------------- the main results

  predicate AsciiFields(fs: seq<Field>) {
    forall i :: 0 <= i < |fs| ==> Ascii(fs[i].value)
  }

  lemma {:induction false} JoinAscii(fs: seq<Field>)
    requires AsciiFields(fs)
    ensures Ascii(Join(fs))
    decreases |fs|
  {
    if fs != [] {
      var front, last := fs[..|fs| - 1], fs[|fs| - 1];
      JoinAscii(front);
      StrAscii(last.tag);
      hide Str;
      hide Join;
      AsciiParts(Str(last.tag) + "=", last.value);
      AsciiParts(Str(last.tag), "=");
      AsciiParts(Join(front), Item(last));
      AsciiParts(Join(front) + Item(last), [SOH]);
      hide Ascii;
      JoinStep(fs);
    }
  }

  lemma JoinStep(fs: seq<Field>)
    requires fs != []
    ensures Join(fs) == Join(fs[..|fs| - 1]) + Item(fs[|fs| - 1]) + [SOH]
  {
  }

  lemma TimestampAscii(t: Instant)
    ensures Ascii(FormatUtc(t))
  {
    PadDigits(t.year, 4);
    PadDigits(t.month, 2);
    PadDigits(t.day, 2);
    PadDigits(t.hour, 2);
    PadDigits(t.minute, 2);
    PadDigits(t.second, 2);
    PadDigits(t.micro, 6);
    TrimRightLaw(Pad(t.micro, 6), (c: char) => c == '0');
    hide Pad;
    hide TrimRight;
    assert Ascii(Fraction(t.micro));
    assert Ascii(Clock(t));
  }

  predicate AsciiValues(m: map<int, string>) {
    forall k :: k in m ==> Ascii(m[k])
  }

  lemma BodyAscii(m: FixMessage)
    requires Ascii(m.sender) && Ascii(m.target) && AsciiValues(m.fields) && AsciiValues(m.extensions)
    ensures Ascii(Join(BodyFields(m)))
  {
    HeaderAscii(m);
    ListingAscii(m.fields, Weight);
    ListingAscii(m.extensions, (tag: int) => 0);
    JoinAscii(BodyFields(m)) by {
      hide HeaderFields;
      hide Listing;
      hide Ascii;
    }
  }

  lemma HeaderAscii(m: FixMessage)
    requires Ascii(m.sender) && Ascii(m.target)
    ensures AsciiFields(HeaderFields(m))
  {
    StrAscii(m.sequence);
    TimestampAscii(m.sentAt);
    if m.originallyAt.Some? {
      TimestampAscii(m.originallyAt.value);
    }
    CodeAscii(m.kind);
    hide Str;
    hide FormatUtc;
    hide TypeCode;
    hide Ascii;
  }

  lemma CodeAscii(t: MsgType)
    ensures Ascii(TypeCode(t)) && Ascii("Y")
  {
  }

  lemma ListingAscii(fields: map<int, string>, weight: int -> int)
    requires AsciiValues(fields)
    ensures AsciiFields(Listing(fields, weight))
  {
    ListingLaw(fields, weight);
    EntriesOf(Listing(fields, weight));
    hide Listing;
    hide Values;
    hide NoDuplicates;
    hide Ascii;
    hide NoSoh;
  }

  lemma AsciiEncodes(m: FixMessage, preserve: bool)
    requires Ascii(m.sender) && Ascii(m.target) && AsciiValues(m.fields) && AsciiValues(m.extensions)
    requires ValidFields(m.kind, m.fields) && (m.extensions == map[] || preserve)
    ensures Encode(m, preserve).Success?
  {
    BodyAscii(m);
    hide BodyFields;
    hide Join;
    hide Ascii;
    hide AsciiValues;
    hide ValidFields;
  }

  lemma CanEncode(m: FixMessage, preserve: bool)
    requires Receivable(m, preserve)
    ensures Encode(m, preserve).Success?
  {
    hide Ascii;
    hide NoSoh;
    hide ValidMessage;
    hide Clean;
    hide ValidFields;
    hide Encode;
    AsciiEncodes(m, preserve);
  }

  /** Only a duplicate carries the time at which it was first sent. */
  predicate OriginOnlyIfDuplicate(m: FixMessage) {
    m.originallyAt.Some? ==> m.possDup
  }

  predicate Arrives(m: FixMessage, raw: string, preserve: bool) {
    Decode(raw, preserve).Success? && Logical(Decode(raw, preserve).value) == Logical(m)
  }

  /** An encoded message decodes to itself exactly when no value holds the delimiter, every tag is in its own part,
      and an original sending time comes only with the duplicate flag; values may well hold `=` or `10=`. */
  lemma RoundTrip(m: FixMessage, preserve: bool)
    requires ValidMessage(m) && Encode(m, preserve).Success?
    ensures Arrives(m, Encode(m, preserve).value, preserve) <==> Clean(m) && OriginOnlyIfDuplicate(m)
    ensures Clean(m) && OriginOnlyIfDuplicate(m) ==>
              Decode(Encode(m, preserve).value, preserve)
              == Success(m.(bodyLength := Some(|Join(BodyFields(m))|),
                            checksum := Some(Sum(Prefix(Join(BodyFields(m))) + Join(BodyFields(m))) % 256)))
  {
    var raw := Encode(m, preserve).value;
    if Clean(m) {
      Delivered(m, preserve);
    } else if Arrives(m, raw, preserve) {
      Accepted(raw, preserve);
      SameClean(m, Decode(raw, preserve).value);
    }
    hide Decode;
    hide Encode;
    hide Clean;
    hide Join;
    hide BodyFields;
    hide Prefix;
    hide Sum;
    hide ValidInstant;
    hide Texts;
    hide Text;
  }

  lemma SameClean(m: FixMessage, other: FixMessage)
    requires Logical(m) == Logical(other) && Clean(other)
    ensures Clean(m)
  {
  }

  /** Whatever the decoder accepts can be encoded again, and decodes to the same logical message exactly when tag
      122 came only with 43=Y. */
  lemma Reencode(raw: string, preserve: bool)
    requires Decode(raw, preserve).Success?
    ensures var m := Decode(raw, preserve).value;
            && Encode(m, preserve).Success?
            && (Arrives(m, Encode(m, preserve).value, preserve) <==> OriginOnlyIfDuplicate(m))
    ensures ParseItems(Split(raw[..|raw| - 1])).Success?
    ensures var values := Values(ParseItems(Split(raw[..|raw| - 1])).value);
            OriginOnlyIfDuplicate(Decode(raw, preserve).value) <==> (122 in values ==> 43 in values && values[43] == "Y")
  {
    var m := Decode(raw, preserve).value;
    Accepted(raw, preserve);
    CanEncode(m, preserve);
    RoundTrip(m, preserve);
    hide Decode;
    hide Encode;
    hide Arrives;
    hide Values;
    hide ParseItems;
    hide Split;
  }

  // ---------------------------------------------------------------- messages that do not survive

  const NOON := Instant(2024, 1, 1, 12, 0, 0, 0)

  /** A plain message that carries the given parts. */
  function Bulletin(kind: MsgType, fields: map<int, string>, origin: Option<Instant>, extensions: map<int, string>): FixMessage {
    FixMessage(kind, 1, "A", "B", NOON, fields, false, origin, extensions, None, None)
  }

  lemma BulletinEncodes(kind: MsgType, fields: map<int, string>, origin: Option<Instant>, extensions: map<int, string>)
    requires kind == Heartbeat || kind == Logout
    requires fields.Keys <= {58} && extensions.Keys <= {58} && fields.Keys !! extensions.Keys
    requires (58 in fields ==> Text(fields[58]) && Ascii(fields[58])) && (58 in extensions ==> Text(extensions[58]) && Ascii(extensions[58]))
    requires origin.Some? ==> ValidInstant(origin.value)
    ensures var m := Bulletin(kind, fields, origin, extensions); ValidMessage(m) && Encode(m, true).Success?
  {
    TrimBare("A", IsSpace);
    TrimBare("B", IsSpace);
    hide Strip;
    var m := Bulletin(kind, fields, origin, extensions);
    assert ValidMessage(m);
    assert ValidFields(m.kind, m.fields);
    hide Encode;
    AsciiEncodes(m, true);
  }

  /** A heartbeat with an original sending time and no duplicate flag encodes without that time. */
  lemma OriginWithoutFlagIsDropped()
    ensures var m := Bulletin(Heartbeat, map[], Some(NOON), map[]);
            ValidMessage(m) && Encode(m, true).Success? && !Arrives(m, Encode(m, true).value, true)
  {
    BulletinEncodes(Heartbeat, map[], Some(NOON), map[]);
    hide Encode;
    hide ValidMessage;
    RoundTrip(Bulletin(Heartbeat, map[], Some(NOON), map[]), true);
  }

  /** A text with the delimiter inside encodes, and is read as something else or not at all. */
  lemma DelimiterInTextIsLost()
    ensures var m := Bulletin(Logout, map[58 := ['a', SOH, 'b']], None, map[]);
            ValidMessage(m) && Encode(m, true).Success? && !Arrives(m, Encode(m, true).value, true)
  {
    var text := ['a', SOH, 'b'];
    TrimBare(text, IsSpace);
    hide Strip;
    BulletinEncodes(Logout, map[58 := text], None, map[]);
    hide Encode;
    hide ValidMessage;
    var m := Bulletin(Logout, map[58 := text], None, map[]);
    assert m.fields[58][1] == SOH;
    RoundTrip(m, true);
  }

  /** A known tag among the extensions comes back among the fields. */
  lemma MisplacedTagMoves()
    ensures var m := Bulletin(Logout, map[], None, map[58 := "a"]);
            ValidMessage(m) && Encode(m, true).Success? && !Arrives(m, Encode(m, true).value, true)
  {
    TrimBare("a", IsSpace);
    hide Strip;
    BulletinEncodes(Logout, map[], None, map[58 := "a"]);
    hide Encode;
    hide ValidMessage;
    var m := Bulletin(Logout, map[], None, map[58 := "a"]);
    assert 58 in m.extensions && IsKnown(58);
    RoundTrip(m, true);
  }
}
