/** What the FIX codec is for: messages survive the wire, and damage to a byte does not. */
module FixLaws {
  import opened Results
  import opened FixText
  import opened FixCodec

  // ---------------------------------------------------------------- error detection

  lemma {:induction false} SumUpdate(s: string, i: nat, c: char)
    requires i < |s|
    ensures Sum(s[i := c]) == Sum(s) - Code(s[i]) + Code(c)
    decreases |s|
  {
    var t := s[i := c];
    if i == |s| - 1 {
      assert t[..|t| - 1] == s[..|s| - 1];
    } else {
      SumUpdate(s[..|s| - 1], i, c);
      assert t[..|t| - 1] == s[..|s| - 1][i := c];
    }
  }

  lemma {:induction false} TrailerStays(s: string, i: nat, c: char)
    requires i < LastTrailer(s)
    ensures LastTrailer(s[i := c]) == LastTrailer(s)
    decreases |s|
  {
    SameEnd(s, i, c);
    if s[|s| - 3..] != "10=" {
      TrailerStays(s[..|s| - 1], i, c);
    }
  }

  /** Replacing a byte leaves the last three alone, unless it is one of them. */
  lemma SameEnd(s: string, i: nat, c: char)
    requires i + 3 < |s|
    ensures s[i := c][|s| - 3..] == s[|s| - 3..] && s[i := c][..|s| - 1] == s[..|s| - 1][i := c]
  {
  }

  /** The text after the last `=`. */
  function AfterLast(s: string): string {
    if s == "" || s[|s| - 1] == '=' then "" else AfterLast(s[..|s| - 1]) + [s[|s| - 1]]
  }

  /** What a text declares as its checksum: the number after its last `=`, the final delimiter aside. */
  function Declared(raw: string): Option<int>
    requires raw != ""
  {
    PyInt(AfterLast(raw[..|raw| - 1]))
  }

  function Checksum(s: string): int {
    Sum(s) % 256
  }

  lemma {:induction false} AfterLastOf(s: string, v: string)
    requires '=' !in v
    ensures AfterLast(s + "=" + v) == v
    decreases |v|
  {
    var t := s + "=" + v;
    if v != "" {
      AfterLastOf(s, v[..|v| - 1]);
      assert t[..|t| - 1] == s + "=" + v[..|v| - 1];
      assert v[|v| - 1] in v;
    }
  }

  lemma {:induction false} AfterLastStays(s: string, i: nat, c: char, e: nat)
    requires i < e < |s| && s[e] == '='
    ensures AfterLast(s[i := c]) == AfterLast(s)
    decreases |s|
  {
    var t := s[i := c];
    if s[|s| - 1] != '=' {
      AfterLastStays(s[..|s| - 1], i, c, e);
      assert t[..|t| - 1] == s[..|s| - 1][i := c];
    }
  }

  predicate EndsWith(s: string, end: string) {
    |end| <= |s| && s[|s| - |end|..] == end
  }

  /** Splitting leaves the last item at the end of the text. */
  lemma {:induction false} SplitEnd(s: string)
    ensures EndsWith(s, Split(s)[|Split(s)| - 1])
    decreases |s|
  {
    if s != "" && s[|s| - 1] != SOH {
      var front, items := s[..|s| - 1], Split(s[..|s| - 1]);
      SplitEnd(front);
      var last := items[|items| - 1];
      assert Split(s)[|Split(s)| - 1] == last + [s[|s| - 1]];
      hide Split;
      EndGrows(s, last);
    }
  }

  lemma EndGrows(s: string, end: string)
    requires s != "" && EndsWith(s[..|s| - 1], end)
    ensures EndsWith(s, end + [s[|s| - 1]])
  {
    var front := s[..|s| - 1];
    assert s[|s| - |end| - 1..] == front[|front| - |end|..] + [s[|s| - 1]];
  }

  lemma {:induction false} ItemsParsed(items: seq<string>)
    requires ParseItems(items).Success?
    ensures |ParseItems(items).value| == |items|
    ensures forall i :: 0 <= i < |items| ==> ParseItem(items[i]) == Success(ParseItems(items).value[i])
    decreases |items|
  {
    if items != [] {
      ItemsParsed(items[..|items| - 1]);
    }
  }

  lemma ItemParts(item: string)
    requires ParseItem(item).Success?
    ensures exists key :: item == key + "=" + ParseItem(item).value.value
  {
    CutLaw(item, IsEqualSign);
    var parts := Cut(item, IsEqualSign).value;
    var c :| IsEqualSign(c) && item == parts.0 + [c] + parts.1;
    assert item == parts.0 + "=" + parts.1;
  }

  /** What acceptance says about the frame. */
  lemma AcceptedFrame(raw: string, preserve: bool)
    requires Decode(raw, preserve).Success?
    ensures raw != "" && Ascii(raw) && raw[|raw| - 1] == SOH && ParseItems(Split(raw[..|raw| - 1])).Success?
    ensures var pairs := ParseItems(Split(raw[..|raw| - 1])).value;
            && NoDuplicates(pairs) && Framed(pairs) && ReadNumbers(Values(pairs)).Success?
            && Sealed(raw, ReadNumbers(Values(pairs)).value).Success?
            && Decode(raw, preserve) == Build(Values(pairs), ReadNumbers(Values(pairs)).value, preserve)
  {
    hide ParseItems;
    hide Split;
    hide NoDuplicates;
    hide Framed;
    hide ReadNumbers;
    hide Sealed;
    hide Build;
  }

  lemma SealedSum(raw: string, n: Numbers)
    requires n.length >= 0 && Sealed(raw, n).Success?
    ensures LastTrailer(raw) >= 0 && Sum(raw[..LastTrailer(raw)]) % 256 == n.checksum
    ensures LastTrailer(raw) - BodyStart(raw) == n.length
  {
  }

  /** The declared checksum of an accepted message is read from the text after its last `=`. */
  lemma DeclaredChecksum(raw: string, preserve: bool)
    requires Decode(raw, preserve).Success?
    ensures LastTrailer(raw) >= 0 && raw != "" && Declared(raw) == Some(Checksum(raw[..LastTrailer(raw)]))
  {
    AcceptedFrame(raw, preserve);
    hide Decode;
    hide Split;
    hide Sum;
    hide LastTrailer;
    hide PyInt;
    hide ParseItem;
    var text := raw[..|raw| - 1];
    var items := Split(text);
    var pairs := ParseItems(items).value;
    var n := ReadNumbers(Values(pairs)).value;
    SealedSum(raw, n);
    hide Sealed;
    ItemsParsed(items);
    hide ParseItems;
    var v := pairs[|pairs| - 1].value;
    assert Values(pairs)[10] == v;
    SplitEnd(text);
    LastValue(text, items[|items| - 1], v);
  }

  lemma LastValue(text: string, last: string, v: string)
    requires EndsWith(text, last) && ParseItem(last).Success? && ParseItem(last).value.value == v && PyInt(v).Some?
    ensures AfterLast(text) == v
  {
    hide PyInt;
    hide ParseItem;
    hide AfterLast;
    hide Strip;
    ItemParts(last);
    PyIntChars(v);
    var key :| last == key + "=" + v;
    var front := text[..|text| - |last|];
    AfterLastOf(front + key, v);
    assert text == (front + key) + "=" + v;
  }

  /** Error detection: in an accepted message, replacing any one byte before the trailer is always noticed. */
  lemma OneByteIsDetected(raw: string, i: nat, c: char, preserve: bool)
    requires Decode(raw, preserve).Success?
    requires i < LastTrailer(raw) && c != raw[i]
    ensures Decode(raw[i := c], preserve).Failure?
  {
    hide Decode;
    hide Sum;
    hide LastTrailer;
    if Decode(raw[i := c], preserve).Success? {
      var before := raw[..LastTrailer(raw)];
      SameDeclaration(raw, i, c, preserve);
      SumUpdate(before, i, c);
      SumCovers(before, i);
      DifferModulo(Sum(before), Code(raw[i]), Code(c));
    }
  }

  /** Were the damaged message accepted too, the sums before the trailer would agree modulo 256. */
  lemma SameDeclaration(raw: string, i: nat, c: char, preserve: bool)
    requires Decode(raw, preserve).Success? && i < LastTrailer(raw) && Decode(raw[i := c], preserve).Success?
    ensures Code(raw[i]) < 128 && Code(c) < 128
    ensures var before := raw[..LastTrailer(raw)]; Checksum(before[i := c]) == Checksum(before)
  {
    hide Decode;
    hide Checksum;
    hide LastTrailer;
    hide Declared;
    var damaged, at := raw[i := c], LastTrailer(raw);
    TrailerStays(raw, i, c);
    DeclaredChecksum(raw, preserve);
    DeclaredChecksum(damaged, preserve);
    BeforeEnd(raw, preserve);
    AsciiOf(raw, preserve, i);
    AsciiOf(damaged, preserve, i);
    DeclarationStays(raw, i, c, at + 2);
    assert damaged[..at] == raw[..at][i := c];
  }

  lemma DeclarationStays(raw: string, i: nat, c: char, e: nat)
    requires i < e < |raw| - 1 && raw[e] == '='
    ensures Declared(raw[i := c]) == Declared(raw)
  {
    hide PyInt;
    hide AfterLast;
    var text := raw[..|raw| - 1];
    AfterLastStays(text, i, c, e);
    assert raw[i := c][..|raw| - 1] == text[i := c];
  }

  lemma AsciiOf(raw: string, preserve: bool, i: nat)
    requires Decode(raw, preserve).Success? && i < |raw|
    ensures Code(raw[i]) < 128
  {
    hide ParseItems;
    hide Split;
    hide DecodePairs;
  }

  lemma {:induction false} SumCovers(s: string, i: nat)
    requires i < |s|
    ensures Code(s[i]) <= Sum(s)
    decreases |s|
  {
    if i < |s| - 1 {
      SumCovers(s[..|s| - 1], i);
    }
  }

  lemma BeforeEnd(raw: string, preserve: bool)
    requires Decode(raw, preserve).Success?
    ensures LastTrailer(raw) + 2 < |raw| - 1 && raw[LastTrailer(raw) + 2] == '='
  {
    var at := LastTrailer(raw);
    DeclaredChecksum(raw, preserve);
    AcceptedFrame(raw, preserve);
    hide Decode;
    assert raw[at..at + 3][2] == '=';
    assert raw[|raw| - 1] == SOH;
  }

  lemma DifferModulo(sum: nat, x: nat, y: nat)
    requires x < 256 && y < 256 && x != y && x <= sum
    ensures sum % 256 != (sum - x + y) % 256
  {
  }
}
