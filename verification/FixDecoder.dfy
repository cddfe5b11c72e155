/** The decoder's loops (fix/codec.py), each equal to its function in `FixCodec`. */
module FixDecoder {
  import opened Results
  import opened FixText
  import opened FixCodec

  lemma {:induction false} ParseItemsStops(items: seq<string>, n: nat)
    requires n < |items| && ParseItems(items[..n]).Success? && ParseItem(items[n]).Failure?
    ensures ParseItems(items) == Failure(ParseItem(items[n]).error)
    decreases |items|
  {
    hide ParseItem;
    if n == |items| - 1 {
      assert items[..n] == items[..|items| - 1];
    } else {
      assert items[..|items| - 1][..n] == items[..n];
      ParseItemsStops(items[..|items| - 1], n);
    }
  }

  method ReadPairs(items: seq<string>) returns (r: Result<seq<Field>, FixError>)
    ensures r == ParseItems(items)
  {
    hide ParseItem;
    var pairs: seq<Field> := [];
    for i := 0 to |items|
      invariant ParseItems(items[..i]) == Success(pairs)
    {
      assert items[..i + 1][..i] == items[..i];
      var field := ParseItem(items[i]);
      if field.Failure? {
        ParseItemsStops(items, i);
        return Failure(field.error);
      }
      pairs := pairs + [field.value];
    }
    assert items[..|items|] == items;
    r := Success(pairs);
  }

  lemma {:induction false} DuplicateStays(pairs: seq<Field>, n: nat)
    requires n <= |pairs| && !NoDuplicates(pairs[..n])
    ensures !NoDuplicates(pairs)
    decreases |pairs|
  {
    if n == |pairs| {
      assert pairs[..n] == pairs;
    } else {
      assert pairs[..|pairs| - 1][..n] == pairs[..n];
      DuplicateStays(pairs[..|pairs| - 1], n);
    }
  }

  method CheckDuplicates(pairs: seq<Field>) returns (ok: bool)
    ensures ok <==> NoDuplicates(pairs)
  {
    var seen: set<int> := {};
    for i := 0 to |pairs|
      invariant NoDuplicates(pairs[..i]) && seen == Values(pairs[..i]).Keys
    {
      assert pairs[..i + 1][..i] == pairs[..i];
      if pairs[i].tag in seen {
        DuplicateStays(pairs, i + 1);
        return false;
      }
      seen := seen + {pairs[i].tag};
    }
    assert pairs[..|pairs|] == pairs;
    ok := true;
  }

  method Collect(pairs: seq<Field>) returns (values: map<int, string>)
    ensures values == Values(pairs)
  {
    values := map[];
    for i := 0 to |pairs|
      invariant values == Values(pairs[..i])
    {
      assert pairs[..i + 1][..i] == pairs[..i];
      values := values[pairs[i].tag := pairs[i].value];
    }
    assert pairs[..|pairs|] == pairs;
  }

  /** `_validate_fields`: the checks of every value present. */
  method ValidateFields(t: MsgType, fields: map<int, string>) returns (ok: bool)
    ensures ok <==> ValidFields(t, fields)
  {
    hide ValidValue;
    if !(Required(t) <= fields.Keys) || !OrderPricesGiven(fields) {
      return false;
    }
    var tags := fields.Keys;
    while |tags| > 0
      invariant tags <= fields.Keys
      invariant forall tag :: tag in fields && tag !in tags ==> ValidValue(tag, fields[tag])
      decreases tags
    {
      assert (forall tag :: tag !in tags) ==> tags == {};
      var tag :| tag in tags;
      if !ValidValue(tag, fields[tag]) {
        return false;
      }
      tags := tags - {tag};
    }
    ok := true;
  }

  /** `FixCodec.decode`. */
  method DecodeMessage(raw: string, preserve: bool) returns (r: Result<FixMessage, FixError>)
    ensures r == Decode(raw, preserve)
  {
    hide Sealed;
    hide Build;
    hide NoDuplicates;
    if raw == "" || raw[|raw| - 1] != SOH {
      return Failure(Malformed);
    }
    if !Ascii(raw) {
      return Failure(NotAscii);
    }
    var parsed := ReadPairs(Split(raw[..|raw| - 1]));
    if parsed.Failure? {
      return Failure(parsed.error);
    }
    var pairs := parsed.value;
    var unique := CheckDuplicates(pairs);
    if !unique {
      return Failure(DuplicateTag);
    }
    if !Framed(pairs) {
      return Failure(BadHeader);
    }
    var values := Collect(pairs);
    var numbers := ReadNumbers(values);
    if numbers.Failure? {
      return Failure(numbers.error);
    }
    var frame := Sealed(raw, numbers.value);
    if frame.Failure? {
      return Failure(frame.error);
    }
    r := Build(values, numbers.value, preserve);
  }
}
