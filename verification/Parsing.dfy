/** Printers and parsers of bounded binary formats. A printer puts its bytes in front of what
    follows; a parser takes them from there and gives back what follows. */
module Parsing {
  import opened Bytes
  import opened Types

  /** A value read from the front of the input, and the bytes behind it. */
  datatype Parsed<+T> = Parsed(value: T, rest: seq<byte>)

  type Parse<+T> = Result<Parsed<T>, Error>

  // ----- single values -----

  function Take(s: seq<byte>, length: nat): Parse<seq<byte>> {
    if length <= |s| then Ok(Parsed(s[..length], s[length..])) else Err(Malformed)
  }

  function TakeNumber(s: seq<byte>, width: nat): (p: Parse<nat>)
    ensures p.Ok? ==> p.value.value < Bound(width)
  {
    var Parsed(bytes, rest) :- Take(s, width);
    Ok(Parsed(FromBigEndian(bytes), rest))
  }

  function ParseU8(s: seq<byte>): Parse<byte> {
    if s == [] then Err(Malformed) else Ok(Parsed(s[0], s[1..]))
  }

  function ParseU16(s: seq<byte>): Parse<u16> {
    Widths();
    var Parsed(number, rest) :- TakeNumber(s, 2);
    Ok(Parsed(number, rest))
  }

  function ParseU32(s: seq<byte>): Parse<u32> {
    Widths();
    var Parsed(number, rest) :- TakeNumber(s, 4);
    Ok(Parsed(number, rest))
  }

  function ParseU64(s: seq<byte>): Parse<u64> {
    Widths();
    var Parsed(number, rest) :- TakeNumber(s, 8);
    Ok(Parsed(number, rest))
  }

  function ParseU128(s: seq<byte>): Parse<u128> {
    Widths();
    var Parsed(number, rest) :- TakeNumber(s, 16);
    Ok(Parsed(number, rest))
  }

  function PutByte(b: byte, rest: seq<byte>): seq<byte> { [b] + rest }

  function PutNumber(number: nat, width: nat, rest: seq<byte>): seq<byte> { BigEndian(number, width) + rest }

  lemma TakeRoundTrip(bytes: seq<byte>, rest: seq<byte>)
    ensures Take(bytes + rest, |bytes|) == Ok(Parsed(bytes, rest))
  {
  }

  lemma TakeCanonical(s: seq<byte>, length: nat)
    requires Take(s, length).Ok?
    ensures var p := Take(s, length).value; |p.value| == length && s == p.value + p.rest
  {
  }

  lemma ByteRoundTrip(b: byte, rest: seq<byte>)
    ensures ParseU8(PutByte(b, rest)) == Ok(Parsed(b, rest))
  {
  }

  lemma ByteCanonical(s: seq<byte>)
    requires ParseU8(s).Ok?
    ensures s == PutByte(ParseU8(s).value.value, ParseU8(s).value.rest)
  {
  }

  lemma NumberRoundTrip(number: nat, width: nat, rest: seq<byte>)
    requires number < Bound(width)
    ensures TakeNumber(PutNumber(number, width, rest), width) == Ok(Parsed(number, rest))
  {
    TakeRoundTrip(BigEndian(number, width), rest);
    BigEndianRoundTrip(number, width);
  }

  lemma NumberCanonical(s: seq<byte>, width: nat)
    requires TakeNumber(s, width).Ok?
    ensures s == PutNumber(TakeNumber(s, width).value.value, width, TakeNumber(s, width).value.rest)
  {
    FromBigEndianRoundTrip(s[..width]);
  }

  // ----- a counted run of items -----

  /** `count` more items after those in `done`, which the parser of one item may consult. */
  function ParseMany<T>(parse: (seq<byte>, seq<T>) -> Parse<T>, s: seq<byte>, count: nat, done: seq<T>): Parse<seq<T>>
    decreases count
  {
    if count == 0 then Ok(Parsed(done, s))
    else
      var Parsed(item, rest) :- parse(s, done);
      ParseMany(parse, rest, count - 1, done + [item])
  }

  function PutMany<T>(put: (T, seq<byte>) -> seq<byte>, items: seq<T>, rest: seq<byte>): seq<byte> {
    if items == [] then rest else put(items[0], PutMany(put, items[1..], rest))
  }

  /** Each item is acceptable after those before it. */
  ghost predicate AllGood<T>(good: (T, seq<T>) -> bool, items: seq<T>, done: seq<T>)
    decreases |items|
  {
    items == [] || (good(items[0], done) && AllGood(good, items[1..], done + [items[0]]))
  }

  ghost predicate ReadsBack<T(!new)>(put: (T, seq<byte>) -> seq<byte>, parse: (seq<byte>, seq<T>) -> Parse<T>,
                                     good: (T, seq<T>) -> bool)
  {
    forall item, done, rest :: good(item, done) ==> parse(put(item, rest), done) == Ok(Parsed(item, rest))
  }

  ghost predicate Canonical<T(!new)>(put: (T, seq<byte>) -> seq<byte>, parse: (seq<byte>, seq<T>) -> Parse<T>,
                                     good: (T, seq<T>) -> bool)
  {
    forall s, done :: parse(s, done).Ok? ==>
      good(parse(s, done).value.value, done) && s == put(parse(s, done).value.value, parse(s, done).value.rest)
  }

  lemma {:induction false} ManyRoundTrip<T(!new)>(put: (T, seq<byte>) -> seq<byte>,
                                                  parse: (seq<byte>, seq<T>) -> Parse<T>,
                                            good: (T, seq<T>) -> bool, items: seq<T>, done: seq<T>, rest: seq<byte>)
    requires ReadsBack(put, parse, good) && AllGood(good, items, done)
    ensures ParseMany(parse, PutMany(put, items, rest), |items|, done) == Ok(Parsed(done + items, rest))
    decreases |items|
  {
    if items == [] {
      assert done + items == done;
    } else {
      Uncons(items);
      Regroup(done, items[0], items[1..]);
      ManyRoundTrip(put, parse, good, items[1..], done + [items[0]], rest);
    }
  }

  lemma {:induction false} ManyCanonical<T(!new)>(put: (T, seq<byte>) -> seq<byte>,
                                                  parse: (seq<byte>, seq<T>) -> Parse<T>,
                                            good: (T, seq<T>) -> bool, s: seq<byte>, count: nat, done: seq<T>)
    returns (items: seq<T>)
    requires Canonical(put, parse, good) && ParseMany(parse, s, count, done).Ok?
    ensures |items| == count && AllGood(good, items, done)
    ensures var p := ParseMany(parse, s, count, done).value; p.value == done + items && s == PutMany(put, items, p.rest)
    decreases count
  {
    items := [];
    if count > 0 {
      var Parsed(first, rest) := parse(s, done).value;
      var others := ManyCanonical(put, parse, good, rest, count - 1, done + [first]);
      items := [first] + others;
      Regroup(done, first, others);
    }
  }

  /** The printer leaves what follows as it is. */
  ghost predicate PutsInFront<T(!new)>(put: (T, seq<byte>) -> seq<byte>) {
    forall item, rest :: put(item, rest) == put(item, []) + rest
  }

  lemma {:induction false} ManyExtends<T(!new)>(put: (T, seq<byte>) -> seq<byte>, items: seq<T>, rest: seq<byte>)
    requires PutsInFront(put)
    ensures PutMany(put, items, rest) == PutMany(put, items, []) + rest
  {
    if items != [] {
      var tail := PutMany(put, items[1..], []);
      ManyExtends(put, items[1..], rest);
      assert put(items[0], tail + rest) == put(items[0], []) + tail + rest == put(items[0], tail) + rest;
    }
  }

  lemma Regroup<T>(done: seq<T>, first: T, others: seq<T>)
    ensures done + [first] + others == done + ([first] + others)
    ensures ([first] + others)[0] == first && ([first] + others)[1..] == others
  {
  }

  lemma Uncons<T>(s: seq<T>)
    requires s != []
    ensures s == [s[0]] + s[1..]
  {
  }
}
