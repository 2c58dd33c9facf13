/** The structured values that the store keeps serialized in its TEXT payload
    columns (`metadata`, `chunks_json`, `language_results_json`), and the codec
    that turns them into text and back.

    `Encode` stands for `JSON.stringify` and `Decode` for `JSON.parse`. The text
    format is a self-delimiting, tagged stand-in rather than JSON's grammar:
    what the store relies on is only that decoding what was encoded gives the
    value back, that an encoding is never the empty string, and that decoding
    arbitrary text may fail. */
module Json {
  import opened Wrappers

  /** A JSON value. Numbers are integers: fractional numbers are not modelled. */
  datatype Value =
    | Null
    | Bool(b: bool)
    | Num(n: int)
    | Str(s: string)
    | Arr(items: seq<Value>)
    | Obj(members: seq<Member>)

  /** One `key: value` pair of an object, in insertion order. */
  datatype Member = Member(key: string, val: Value)

  /** The value `{}`. */
  const EmptyObject: Value := Obj([])

  // ---------------------------------------------------------------------------
  // Decimal digits

  predicate IsDigit(c: char) {
    '0' <= c <= '9'
  }

  predicate AllDigits(t: string) {
    forall i :: 0 <= i < |t| ==> IsDigit(t[i])
  }

  function DigitChar(d: nat): (c: char)
    requires d < 10
    ensures IsDigit(c) && c as int - '0' as int == d
  {
    ('0' as int + d) as char
  }

  /** The decimal numeral of `n`, most significant digit first. */
  function NatText(n: nat): (t: string)
    ensures t != []
  {
    if n < 10 then [DigitChar(n)] else NatText(n / 10) + [DigitChar(n % 10)]
  }

  lemma {:induction false} NatTextDigits(n: nat)
    ensures AllDigits(NatText(n))
  {
    if n >= 10 {
      NatTextDigits(n / 10);
    }
  }

  function DigitValue(c: char): nat {
    if IsDigit(c) then c as int - '0' as int else 0
  }

  /** The number a string of decimal digits denotes. */
  function DigitsValue(t: string): nat {
    if t == [] then 0 else DigitsValue(t[..|t| - 1]) * 10 + DigitValue(t[|t| - 1])
  }

  lemma {:induction false} NatTextValue(n: nat)
    ensures DigitsValue(NatText(n)) == n
  {
    if n >= 10 {
      var t := NatText(n);
      assert t[..|t| - 1] == NatText(n / 10);
      NatTextValue(n / 10);
    }
  }

  /** The length of the longest prefix of `s` made of digits. */
  function SpanDigits(s: string): (k: nat)
    ensures k <= |s|
  {
    if s != [] && IsDigit(s[0]) then 1 + SpanDigits(s[1..]) else 0
  }

  /** Reads a maximal, non-empty run of digits as a number. */
  function ParseNat(s: string): (r: Option<(nat, string)>)
    ensures r.Some? ==> |r.value.1| < |s|
  {
    var k := SpanDigits(s);
    if k == 0 then None else Some((DigitsValue(s[..k]), s[k..]))
  }

  lemma {:induction false} SpanOfDigits(t: string, rest: string)
    requires AllDigits(t)
    requires rest == [] || !IsDigit(rest[0])
    ensures SpanDigits(t + rest) == |t|
  {
    if t != [] {
      assert (t + rest)[1..] == t[1..] + rest;
      SpanOfDigits(t[1..], rest);
    }
  }

  lemma ParseNatText(n: nat, rest: string)
    requires rest == [] || !IsDigit(rest[0])
    ensures ParseNat(NatText(n) + rest) == Some((n, rest))
  {
    var t, s := NatText(n), NatText(n) + rest;
    NatTextDigits(n);
    SpanOfDigits(t, rest);
    assert s[..|t|] == t && s[|t|..] == rest;
    NatTextValue(n);
  }

  // ---------------------------------------------------------------------------
  // Encoding

  /** The first character of every encoded value. */
  predicate IsTag(c: char) {
    c == 'n' || c == 't' || c == 'f' || c == 'i' || c == 's' || c == 'a' || c == 'o'
  }

  /** The decimal numeral of `n`, with a leading minus sign when negative. */
  function IntText(n: int): string {
    if n < 0 then "-" + NatText(-n) else NatText(n)
  }

  /** A string preceded by its length: `<digits>:<characters>`. */
  function Chunk(s: string): string {
    NatText(|s|) + ":" + s
  }

  /** The text of `v`; each form starts with a tag character that is neither a
      digit nor the end marker `e`. */
  function Serialize(v: Value): (t: string)
    ensures t != [] && IsTag(t[0])
  {
    match v
    case Null => "n"
    case Bool(b) => if b then "t" else "f"
    case Num(n) => "i" + IntText(n) + "e"
    case Str(s) => "s" + Chunk(s)
    case Arr(items) => "a" + SerializeItems(items) + "e"
    case Obj(members) => "o" + SerializeMembers(members) + "e"
  }

  function SerializeItems(vs: seq<Value>): string {
    if vs == [] then "" else Serialize(vs[0]) + SerializeItems(vs[1..])
  }

  function SerializeMembers(ms: seq<Member>): string {
    if ms == [] then "" else Chunk(ms[0].key) + Serialize(ms[0].val) + SerializeMembers(ms[1..])
  }

  // ---------------------------------------------------------------------------
  // Decoding

  function ParseChunk(s: string): (r: Option<(string, string)>)
    ensures r.Some? ==> |r.value.1| < |s|
  {
    match ParseNat(s)
    case None => None
    case Some((len, rest)) =>
      if |rest| > len && rest[0] == ':' then Some((rest[1..len + 1], rest[len + 1..])) else None
  }

  /** Reads digits closed by the end marker `e`. */
  function ParseUnsigned(s: string): (r: Option<(nat, string)>)
    ensures r.Some? ==> |r.value.1| < |s|
  {
    match ParseNat(s)
    case None => None
    case Some((n, rest)) => if rest != [] && rest[0] == 'e' then Some((n, rest[1..])) else None
  }

  function ParseNum(s: string): (r: Option<(Value, string)>)
    ensures r.Some? ==> |r.value.1| < |s|
  {
    if s != [] && s[0] == '-' then
      match ParseUnsigned(s[1..])
      case None => None
      case Some((n, rest)) => Some((Num(-(n as int)), rest))
    else
      match ParseUnsigned(s)
      case None => None
      case Some((n, rest)) => Some((Num(n), rest))
  }

  /** Reads one value from the front of `s` and returns it with the text after it. */
  function ParseValue(s: string): (r: Option<(Value, string)>)
    ensures r.Some? ==> |r.value.1| < |s|
    decreases |s|, 0
  {
    if s == [] then None
    else if s[0] == 'n' then Some((Null, s[1..]))
    else if s[0] == 't' then Some((Bool(true), s[1..]))
    else if s[0] == 'f' then Some((Bool(false), s[1..]))
    else if s[0] == 'i' then ParseNum(s[1..])
    else if s[0] == 's' then
      match ParseChunk(s[1..])
      case None => None
      case Some((t, rest)) => Some((Str(t), rest))
    else if s[0] == 'a' then
      match ParseItems(s[1..])
      case None => None
      case Some((vs, rest)) => Some((Arr(vs), rest))
    else if s[0] == 'o' then
      match ParseMembers(s[1..])
      case None => None
      case Some((ms, rest)) => Some((Obj(ms), rest))
    else None
  }

  /** Reads values up to and including the end marker `e`. */
  function ParseItems(s: string): (r: Option<(seq<Value>, string)>)
    ensures r.Some? ==> |r.value.1| < |s|
    decreases |s|, 1
  {
    if s == [] then None
    else if s[0] == 'e' then Some(([], s[1..]))
    else
      match ParseValue(s)
      case None => None
      case Some((v, rest)) =>
        match ParseItems(rest)
        case None => None
        case Some((vs, rest')) => Some(([v] + vs, rest'))
  }

  /** Reads `key value` pairs up to and including the end marker `e`. */
  function ParseMembers(s: string): (r: Option<(seq<Member>, string)>)
    ensures r.Some? ==> |r.value.1| < |s|
    decreases |s|, 1
  {
    if s == [] then None
    else if s[0] == 'e' then Some(([], s[1..]))
    else
      match ParseChunk(s)
      case None => None
      case Some((key, rest)) =>
        match ParseValue(rest)
        case None => None
        case Some((v, rest')) =>
          match ParseMembers(rest')
          case None => None
          case Some((ms, rest'')) => Some(([Member(key, v)] + ms, rest''))
  }

  // ---------------------------------------------------------------------------
  // Round trip

  lemma ParseChunkText(t: string, rest: string)
    ensures ParseChunk(Chunk(t) + rest) == Some((t, rest))
  {
    var tail := ":" + t + rest;
    assert Chunk(t) + rest == NatText(|t|) + tail;
    ParseNatText(|t|, tail);
    assert tail[1..|t| + 1] == t && tail[|t| + 1..] == rest;
  }

  lemma ParseUnsignedText(m: nat, rest: string)
    ensures ParseUnsigned(NatText(m) + "e" + rest) == Some((m, rest))
  {
    var after := "e" + rest;
    assert NatText(m) + "e" + rest == NatText(m) + after;
    ParseNatText(m, after);
    assert after[0] == 'e' && after[1..] == rest;
  }

  // One step of each parser, stated on a plain string so that the lemmas
  // below need not unfold the parsers on concatenations.

  lemma ParseNegativeStep(s: string, n: nat, rest: string)
    requires s != [] && s[0] == '-' && ParseUnsigned(s[1..]) == Some((n, rest))
    ensures ParseNum(s) == Some((Num(-(n as int)), rest))
  {
  }

  lemma ParseNonNegativeStep(s: string, n: nat, rest: string)
    requires s != [] && s[0] != '-' && ParseUnsigned(s) == Some((n, rest))
    ensures ParseNum(s) == Some((Num(n), rest))
  {
  }

  lemma ParseItemsStep(s: string, v: Value, tail: string, vs: seq<Value>, rest: string)
    requires s != [] && s[0] != 'e'
    requires ParseValue(s) == Some((v, tail)) && ParseItems(tail) == Some((vs, rest))
    ensures ParseItems(s) == Some(([v] + vs, rest))
  {
  }

  lemma ParseMembersStep(s: string, key: string, afterKey: string, v: Value, tail: string,
                         ms: seq<Member>, rest: string)
    requires s != [] && s[0] != 'e'
    requires ParseChunk(s) == Some((key, afterKey))
    requires ParseValue(afterKey) == Some((v, tail)) && ParseMembers(tail) == Some((ms, rest))
    ensures ParseMembers(s) == Some(([Member(key, v)] + ms, rest))
  {
  }

  lemma ParseNegativeText(m: nat, rest: string)
    ensures ParseNum("-" + (NatText(m) + "e" + rest)) == Some((Num(-(m as int)), rest))
  {
    var unsigned := NatText(m) + "e" + rest;
    ParseUnsignedText(m, rest);
    assert ("-" + unsigned)[0] == '-' && ("-" + unsigned)[1..] == unsigned;
    ParseNegativeStep("-" + unsigned, m, rest);
  }

  lemma ParseNonNegativeText(m: nat, rest: string)
    ensures ParseNum(NatText(m) + "e" + rest) == Some((Num(m), rest))
  {
    ParseUnsignedText(m, rest);
    NatTextDigits(m);
    assert (NatText(m) + "e" + rest)[0] == NatText(m)[0];
    ParseNonNegativeStep(NatText(m) + "e" + rest, m, rest);
  }

  lemma ParseIntText(n: int, rest: string)
    ensures ParseNum(IntText(n) + "e" + rest) == Some((Num(n), rest))
  {
    if n < 0 {
      NegativeTextShape(n, rest);
      ParseNegativeText(-n, rest);
    } else {
      ParseNonNegativeText(n, rest);
    }
  }

  lemma NegativeTextShape(n: int, rest: string)
    requires n < 0
    ensures IntText(n) + "e" + rest == "-" + (NatText(-n) + "e" + rest)
  {
  }

  lemma NumTextShape(n: int, rest: string)
    ensures Serialize(Num(n)) + rest == "i" + (IntText(n) + "e" + rest)
  {
  }

  /** The first character of a tagged text is its tag; the rest follows it. */
  lemma TagStep(tag: char, tail: string)
    ensures [tag] + tail != [] && ([tag] + tail)[0] == tag && ([tag] + tail)[1..] == tail
  {
  }

  lemma ParseSerializedNum(n: int, rest: string)
    ensures ParseValue(Serialize(Num(n)) + rest) == Some((Num(n), rest))
  {
    NumTextShape(n, rest);
    TagStep('i', IntText(n) + "e" + rest);
    ParseIntText(n, rest);
  }

  lemma {:induction false} ParseSerialized(v: Value, rest: string)
    ensures ParseValue(Serialize(v) + rest) == Some((v, rest))
    decreases v
  {
    var s := Serialize(v) + rest;
    match v
    case Null =>
      assert s[0] == 'n' && s[1..] == rest;
    case Bool(b) =>
      assert s[0] == (if b then 't' else 'f') && s[1..] == rest;
    case Num(n) =>
      ParseSerializedNum(n, rest);
    case Str(t) =>
      var tail := Chunk(t) + rest;
      assert s == "s" + tail;
      TagStep('s', tail);
      ParseChunkText(t, rest);
    case Arr(items) =>
      var tail := SerializeItems(items) + "e" + rest;
      assert s == "a" + tail;
      TagStep('a', tail);
      ParseSerializedItems(items, rest);
    case Obj(members) =>
      var tail := SerializeMembers(members) + "e" + rest;
      assert s == "o" + tail;
      TagStep('o', tail);
      ParseSerializedMembers(members, rest);
  }

  lemma ItemsTextCons(vs: seq<Value>, rest: string)
    requires vs != []
    ensures SerializeItems(vs) + "e" + rest == Serialize(vs[0]) + (SerializeItems(vs[1..]) + "e" + rest)
  {
  }

  lemma MembersTextCons(ms: seq<Member>, rest: string)
    requires ms != []
    ensures SerializeMembers(ms) + "e" + rest ==
            Chunk(ms[0].key) + (Serialize(ms[0].val) + (SerializeMembers(ms[1..]) + "e" + rest))
  {
  }

  lemma ChunkHead(t: string, more: string)
    ensures Chunk(t) + more != [] && (Chunk(t) + more)[0] != 'e'
  {
    NatTextDigits(|t|);
    assert (Chunk(t) + more)[0] == NatText(|t|)[0];
  }

  lemma EndMarker(rest: string)
    ensures "e" + rest != [] && ("e" + rest)[0] == 'e' && ("e" + rest)[1..] == rest
  {
  }

  lemma {:induction false} ParseSerializedItems(vs: seq<Value>, rest: string)
    ensures ParseItems(SerializeItems(vs) + "e" + rest) == Some((vs, rest))
    decreases vs
  {
    if vs == [] {
      assert SerializeItems(vs) + "e" + rest == "e" + rest;
      EndMarker(rest);
    } else {
      var tail := SerializeItems(vs[1..]) + "e" + rest;
      ItemsTextCons(vs, rest);
      ParseSerialized(vs[0], tail);
      ParseSerializedItems(vs[1..], rest);
      ParseItemsStep(Serialize(vs[0]) + tail, vs[0], tail, vs[1..], rest);
      assert [vs[0]] + vs[1..] == vs;
    }
  }

  lemma ParseMemberText(m: Member, tail: string, ms: seq<Member>, rest: string)
    requires ParseValue(Serialize(m.val) + tail) == Some((m.val, tail))
    requires ParseMembers(tail) == Some((ms, rest))
    ensures ParseMembers(Chunk(m.key) + (Serialize(m.val) + tail)) == Some(([m] + ms, rest))
  {
    var afterKey := Serialize(m.val) + tail;
    ChunkHead(m.key, afterKey);
    ParseChunkText(m.key, afterKey);
    ParseMembersStep(Chunk(m.key) + afterKey, m.key, afterKey, m.val, tail, ms, rest);
  }

  lemma {:induction false} ParseSerializedMembers(ms: seq<Member>, rest: string)
    ensures ParseMembers(SerializeMembers(ms) + "e" + rest) == Some((ms, rest))
    decreases ms
  {
    if ms == [] {
      assert SerializeMembers(ms) + "e" + rest == "e" + rest;
      EndMarker(rest);
    } else {
      var tail := SerializeMembers(ms[1..]) + "e" + rest;
      MembersTextCons(ms, rest);
      ParseSerialized(ms[0].val, tail);
      ParseSerializedMembers(ms[1..], rest);
      ParseMemberText(ms[0], tail, ms[1..], rest);
      assert [ms[0]] + ms[1..] == ms;
    }
  }

  // ---------------------------------------------------------------------------
  // The codec the store uses

  /** `JSON.parse`: the value of the whole text, or None where it would throw. */
  function Decode(text: string): (r: Option<Value>)
    ensures r.Some? ==> text != []
  {
    match ParseValue(text)
    case None => None
    case Some((v, rest)) => if rest == [] then Some(v) else None
  }

  /** `JSON.stringify`: never empty, and decoding gives the value back. */
  function Encode(v: Value): (text: string)
    ensures text != []
    ensures Decode(text) == Some(v)
  {
    ParseSerialized(v, []);
    assert Serialize(v) + [] == Serialize(v);
    Serialize(v)
  }
}
