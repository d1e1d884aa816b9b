/** The reader of `.torrent` files: bencoding (BEP 3) with a depth limit and exact byte spans. */
module Bencode {
  import opened Basics
  import opened Torrents

  type Byte = b: int | 0 <= b < 256
  type Bytes = seq<Byte>

  const MAX_DEPTH: nat := 32
  const I64_MIN: int := -0x8000_0000_0000_0000
  const I64_MAX: int := 0x7FFF_FFFF_FFFF_FFFF
  const U64_MAX: int := 0xFFFF_FFFF_FFFF_FFFF

  const E: Byte := 101
  const I: Byte := 105
  const L: Byte := 108
  const D: Byte := 100
  const COLON: Byte := 58
  const ZERO: Byte := 48
  const NINE: Byte := 57
  const MINUS: Byte := 45
  const PLUS: Byte := 43

  /** A parsed value; a dictionary entry keeps the bytes its value was read from. */
  datatype Value =
    | Integer(n: int)
    | Text(bytes: Bytes)
    | List(items: seq<Value>)
    | Dictionary(entries: seq<Entry>)

  datatype Entry = Entry(key: Bytes, value: Value, encoded: Bytes)

  /** The first position of a byte. */
  function Position(input: Bytes, b: Byte): (r: Option<nat>)
    ensures match r
            case Some(k) => k < |input| && input[k] == b && forall i :: 0 <= i < k ==> input[i] != b
            case None => b !in input
  {
    if input == [] then None
    else if input[0] == b then Some(0)
    else match Position(input[1..], b)
      case Some(k) => Some(k + 1)
      case None => None
  }

  predicate IsDigit(b: Byte) { ZERO <= b <= NINE }

  /** The number that decimal digits write; none when there are no digits or anything else. */
  function Digits(s: Bytes): Option<nat> {
    if s == [] then None
    else if !IsDigit(s[|s| - 1]) then None
    else if |s| == 1 then Some(s[0] - ZERO)
    else match Digits(s[..|s| - 1])
      case Some(n) => Some(10 * n + (s[|s| - 1] - ZERO))
      case None => None
  }

  /** A signed 64-bit integer as the standard library reads one: an optional sign, then digits. */
  function ParseI64(s: Bytes): Option<int> {
    if s == [] then None
    else
      var signed := s[0] == MINUS || s[0] == PLUS;
      match Digits(if signed then s[1..] else s)
      case None => None
      case Some(n) =>
        var v: int := if s[0] == MINUS then 0 - n else n;
        if I64_MIN <= v <= I64_MAX then Some(v) else None
  }

  /** An unsigned length; it starts with a digit, so a sign is never read. */
  function ParseLength(s: Bytes): Option<nat> {
    match Digits(s)
    case Some(n) => if n <= U64_MAX then Some(n) else None
    case None => None
  }

  datatype Parsed<+T> = Fail | Done(value: T, rest: Bytes)

  /** One value at this depth; the rest of the input follows it. */
  function Parse(input: Bytes, depth: nat): (r: Parsed<Value>)
    ensures r.Done? ==> |r.rest| < |input|
    decreases |input|, 0
  {
    if depth > MAX_DEPTH || input == [] then Fail
    else if input[0] == I then ParseInteger(input)
    else if input[0] == L then
      match ParseItems(input[1..], depth)
      case Fail => Fail
      case Done(items, rest) => Done(List(items), rest)
    else if input[0] == D then
      match ParseEntries(input[1..], depth)
      case Fail => Fail
      case Done(entries, rest) => Done(Dictionary(entries), rest)
    else if IsDigit(input[0]) then ParseText(input)
    else Fail
  }

  function ParseInteger(input: Bytes): (r: Parsed<Value>)
    requires input != [] && input[0] == I
    ensures r.Done? ==> |r.rest| < |input|
  {
    match Position(input, E)
    case None => Fail
    case Some(end) =>
      match ParseI64(input[1..end])
      case None => Fail
      case Some(n) => Done(Integer(n), input[end + 1..])
  }

  function ParseText(input: Bytes): (r: Parsed<Value>)
    ensures r.Done? ==> |r.rest| < |input|
  {
    match Position(input, COLON)
    case None => Fail
    case Some(colon) =>
      match ParseLength(input[..colon])
      case None => Fail
      case Some(length) =>
        if colon + 1 + length > |input| then Fail
        else Done(Text(input[colon + 1..colon + 1 + length]), input[colon + 1 + length..])
  }

  /** List items up to and including the closing `e`. */
  function ParseItems(input: Bytes, depth: nat): (r: Parsed<seq<Value>>)
    ensures r.Done? ==> |r.rest| < |input|
    decreases |input|, 1
  {
    if input == [] then Fail
    else if input[0] == E then Done([], input[1..])
    else match Parse(input, depth + 1)
      case Fail => Fail
      case Done(item, after) =>
        match ParseItems(after, depth)
        case Fail => Fail
        case Done(items, rest) => Done([item] + items, rest)
  }

  /** One dictionary entry: a byte string, then a value whose bytes are kept. */
  function ParseEntry(input: Bytes, depth: nat): (r: Parsed<Entry>)
    ensures r.Done? ==> |r.rest| < |input|
    decreases |input|, 1
  {
    match Parse(input, depth + 1)
    case Done(Text(key), after) =>
      (match Parse(after, depth + 1)
       case Fail => Fail
       case Done(value, rest) => Done(Entry(key, value, after[..|after| - |rest|]), rest))
    case _ => Fail
  }

  function ParseEntries(input: Bytes, depth: nat): (r: Parsed<seq<Entry>>)
    ensures r.Done? ==> |r.rest| < |input|
    decreases |input|, 2
  {
    if input == [] then Fail
    else if input[0] == E then Done([], input[1..])
    else match ParseEntry(input, depth)
      case Fail => Fail
      case Done(entry, after) =>
        match ParseEntries(after, depth)
        case Fail => Fail
        case Done(entries, rest) => Done([entry] + entries, rest)
  }

  // ---------- Locality ----------

  /** The parse read exactly the bytes before `rest`, and reads the same from them before any other tail. */
  ghost predicate ReadsPrefix<T>(input: Bytes, r: Parsed<T>, other: Parsed<T>, tail: Bytes) {
    && r.Done? && |r.rest| < |input|
    && r.rest == input[|input| - |r.rest|..]
    && other == Done(r.value, tail)
  }

  function Swap(input: Bytes, rest: Bytes, tail: Bytes): Bytes
    requires |rest| <= |input|
  {
    input[..|input| - |rest|] + tail
  }

  lemma PositionIn(input: Bytes, b: Byte, k: nat, tail: Bytes)
    requires Position(input, b) == Some(k)
    ensures Position(input[..k + 1] + tail, b) == Some(k)
  {
    var other := input[..k + 1] + tail;
    assert other[k] == b;
  }

  lemma IntegerLocal(input: Bytes, tail: Bytes)
    requires input != [] && input[0] == I && ParseInteger(input).Done?
    ensures var r := ParseInteger(input); var other := Swap(input, r.rest, tail);
      other != [] && other[0] == I && ReadsPrefix(input, r, ParseInteger(other), tail)
  {
    var end := Position(input, E).value;
    var other := input[..end + 1] + tail;
    PositionIn(input, E, end, tail);
    assert other[1..end] == input[1..end];
    assert other[end + 1..] == tail;
  }

  lemma TextLocal(input: Bytes, tail: Bytes)
    requires ParseText(input).Done?
    ensures var r := ParseText(input); ReadsPrefix(input, r, ParseText(Swap(input, r.rest, tail)), tail)
  {
    var colon := Position(input, COLON).value;
    var length := ParseLength(input[..colon]).value;
    var n := colon + 1 + length;
    var other := input[..n] + tail;
    PositionIn(input, COLON, colon, input[colon + 1..n] + tail);
    assert other == input[..colon + 1] + (input[colon + 1..n] + tail);
    assert other[..colon] == input[..colon];
    assert other[colon + 1..n] == input[colon + 1..n];
    assert other[n..] == tail;
  }

  lemma {:induction false} ParseLocal(input: Bytes, depth: nat, tail: Bytes)
    requires Parse(input, depth).Done?
    ensures var r := Parse(input, depth); ReadsPrefix(input, r, Parse(Swap(input, r.rest, tail), depth), tail)
    decreases |input|, 0
  {
    var r := Parse(input, depth);
    if input[0] == I {
      IntegerLocal(input, tail);
    } else if input[0] == L {
      ItemsLocal(input[1..], depth, tail);
      assert Swap(input, r.rest, tail)[1..] == Swap(input[1..], r.rest, tail);
    } else if input[0] == D {
      EntriesLocal(input[1..], depth, tail);
      assert Swap(input, r.rest, tail)[1..] == Swap(input[1..], r.rest, tail);
    } else {
      TextLocal(input, tail);
    }
  }

  lemma SwapTwice(input: Bytes, after: Bytes, rest: Bytes, tail: Bytes)
    requires |rest| <= |after| <= |input| && after == input[|input| - |after|..]
    ensures Swap(input, after, Swap(after, rest, tail)) == Swap(input, rest, tail)
    ensures rest == after[|after| - |rest|..] ==> rest == input[|input| - |rest|..]
  {
  }

  lemma {:induction false} ItemsLocal(input: Bytes, depth: nat, tail: Bytes)
    requires ParseItems(input, depth).Done?
    ensures var r := ParseItems(input, depth); ReadsPrefix(input, r, ParseItems(Swap(input, r.rest, tail), depth), tail)
    decreases |input|, 1
  {
    var r := ParseItems(input, depth);
    var other := Swap(input, r.rest, tail);
    assert other[0] == input[0];
    if input[0] == E {
      assert other[1..] == tail;
    } else {
      var after := Parse(input, depth + 1).rest;
      ItemsLocal(after, depth, tail);
      ParseLocal(input, depth + 1, Swap(after, r.rest, tail));
      SwapTwice(input, after, r.rest, tail);
    }
  }

  lemma {:induction false} EntryLocal(input: Bytes, depth: nat, tail: Bytes)
    requires ParseEntry(input, depth).Done?
    ensures var r := ParseEntry(input, depth); ReadsPrefix(input, r, ParseEntry(Swap(input, r.rest, tail), depth), tail)
    decreases |input|, 1
  {
    var r := ParseEntry(input, depth);
    var after := Parse(input, depth + 1).rest;
    ParseLocal(after, depth + 1, tail);
    ParseLocal(input, depth + 1, Swap(after, r.rest, tail));
    SwapTwice(input, after, r.rest, tail);
    assert Swap(after, r.rest, tail)[..|after| - |r.rest|] == after[..|after| - |r.rest|];
  }

  lemma {:induction false} EntriesLocal(input: Bytes, depth: nat, tail: Bytes)
    requires ParseEntries(input, depth).Done?
    ensures var r := ParseEntries(input, depth);
      ReadsPrefix(input, r, ParseEntries(Swap(input, r.rest, tail), depth), tail)
    decreases |input|, 2
  {
    var r := ParseEntries(input, depth);
    var other := Swap(input, r.rest, tail);
    assert other[0] == input[0];
    if input[0] == E {
      assert other[1..] == tail;
    } else {
      var after := ParseEntry(input, depth).rest;
      EntriesLocal(after, depth, tail);
      EntryLocal(input, depth, Swap(after, r.rest, tail));
      SwapTwice(input, after, r.rest, tail);
    }
  }

  // ---------- Kept slices ----------

  /** Less nesting allowed does not change what a successful parse reads. */
  lemma {:induction false} ShallowerParses(input: Bytes, depth: nat, shallower: nat)
    requires Parse(input, depth).Done? && shallower <= depth
    ensures Parse(input, shallower) == Parse(input, depth)
    decreases |input|, 0
  {
    if input[0] == L {
      ShallowerItems(input[1..], depth, shallower);
    } else if input[0] == D {
      ShallowerEntries(input[1..], depth, shallower);
    }
  }

  lemma {:induction false} ShallowerItems(input: Bytes, depth: nat, shallower: nat)
    requires ParseItems(input, depth).Done? && shallower <= depth
    ensures ParseItems(input, shallower) == ParseItems(input, depth)
    decreases |input|, 1
  {
    if input[0] != E {
      ShallowerParses(input, depth + 1, shallower + 1);
      ShallowerItems(Parse(input, depth + 1).rest, depth, shallower);
    }
  }

  lemma {:induction false} ShallowerEntries(input: Bytes, depth: nat, shallower: nat)
    requires ParseEntries(input, depth).Done? && shallower <= depth
    ensures ParseEntries(input, shallower) == ParseEntries(input, depth)
    decreases |input|, 1
  {
    if input[0] != E {
      var after := Parse(input, depth + 1).rest;
      ShallowerParses(input, depth + 1, shallower + 1);
      ShallowerParses(after, depth + 1, shallower + 1);
      ShallowerEntries(ParseEntry(input, depth).rest, depth, shallower);
    }
  }

  /** The bytes kept for an entry parse alone to its value. */
  ghost predicate KeepsItsBytes(e: Entry) {
    Parse(e.encoded, 0) == Done(e.value, [])
  }

  lemma {:induction false} EntriesKeepTheirBytes(input: Bytes, depth: nat)
    requires ParseEntries(input, depth).Done?
    ensures forall i :: 0 <= i < |ParseEntries(input, depth).value| ==>
      KeepsItsBytes(ParseEntries(input, depth).value[i])
    decreases |input|
  {
    if input[0] != E {
      var after := Parse(input, depth + 1).rest;
      var rest := ParseEntry(input, depth).rest;
      var entry := ParseEntry(input, depth).value;
      ParseLocal(after, depth + 1, []);
      assert Swap(after, rest, []) == entry.encoded;
      ShallowerParses(entry.encoded, depth + 1, 0);
      EntriesKeepTheirBytes(rest, depth);
    }
  }

  // ---------- Encoding and the round trip ----------

  /** What a bencoded file means: a value without its bytes. */
  datatype Term =
    | IntegerTerm(n: int)
    | TextTerm(bytes: Bytes)
    | ListTerm(items: seq<Term>)
    | DictionaryTerm(pairs: seq<Pair>)

  datatype Pair = Pair(key: Bytes, term: Term)

  function Decimal(n: nat): (s: Bytes)
    ensures s != [] && (forall i :: 0 <= i < |s| ==> IsDigit(s[i]))
    ensures Digits(s) == Some(n)
  {
    if n < 10 then [ZERO + n] else Decimal(n / 10) + [ZERO + n % 10]
  }

  function EncodeText(b: Bytes): Bytes {
    Decimal(|b|) + [COLON] + b
  }

  function EncodeInteger(n: int): Bytes {
    [I] + (if n < 0 then [MINUS] + Decimal(-n) else Decimal(n)) + [E]
  }

  function Encode(t: Term): (s: Bytes)
    ensures s != [] && s[0] != E
    decreases t
  {
    match t
    case IntegerTerm(n) => EncodeInteger(n)
    case TextTerm(b) => EncodeText(b)
    case ListTerm(items) => [L] + EncodeItems(items) + [E]
    case DictionaryTerm(pairs) => [D] + EncodePairs(pairs) + [E]
  }

  function EncodeItems(items: seq<Term>): Bytes
    decreases items
  {
    if items == [] then [] else Encode(items[0]) + EncodeItems(items[1..])
  }

  function EncodePairs(pairs: seq<Pair>): Bytes
    decreases pairs
  {
    if pairs == [] then [] else EncodeText(pairs[0].key) + (Encode(pairs[0].term) + EncodePairs(pairs[1..]))
  }

  /** The value a term parses to: each dictionary value keeps its encoding. */
  function Annotate(t: Term): Value
    decreases t
  {
    match t
    case IntegerTerm(n) => Integer(n)
    case TextTerm(b) => Text(b)
    case ListTerm(items) => List(AnnotateItems(items))
    case DictionaryTerm(pairs) => Dictionary(AnnotatePairs(pairs))
  }

  function AnnotateItems(items: seq<Term>): seq<Value>
    decreases items
  {
    if items == [] then [] else [Annotate(items[0])] + AnnotateItems(items[1..])
  }

  function AnnotatePairs(pairs: seq<Pair>): seq<Entry>
    decreases pairs
  {
    if pairs == [] then []
    else [Entry(pairs[0].key, Annotate(pairs[0].term), Encode(pairs[0].term))] + AnnotatePairs(pairs[1..])
  }

  /** How many containers enclose the most enclosed value. */
  function Nesting(t: Term): nat
    decreases t
  {
    match t
    case ListTerm(items) => NestingItems(items)
    case DictionaryTerm(pairs) => NestingPairs(pairs)
    case _ => 0
  }

  function Max(a: nat, b: nat): nat { if a > b then a else b }

  function NestingItems(items: seq<Term>): nat
    decreases items
  {
    if items == [] then 0 else Max(1 + Nesting(items[0]), NestingItems(items[1..]))
  }

  function NestingPairs(pairs: seq<Pair>): nat
    decreases pairs
  {
    if pairs == [] then 0 else Max(1 + Nesting(pairs[0].term), NestingPairs(pairs[1..]))
  }

  /** Integers fit 64 bits and lengths an unsigned 64-bit number. */
  predicate Representable(t: Term)
    decreases t
  {
    match t
    case IntegerTerm(n) => -0x8000_0000_0000_0000 <= n <= 0x7FFF_FFFF_FFFF_FFFF
    case TextTerm(b) => |b| <= 0xFFFF_FFFF_FFFF_FFFF
    case ListTerm(items) => forall i :: 0 <= i < |items| ==> Representable(items[i])
    case DictionaryTerm(pairs) =>
        forall i :: 0 <= i < |pairs| ==> |pairs[i].key| <= U64_MAX && Representable(pairs[i].term)
  }

  lemma PositionAt(input: Bytes, b: Byte, k: nat)
    requires k < |input| && input[k] == b && forall i :: 0 <= i < k ==> input[i] != b
    ensures Position(input, b) == Some(k)
  {
    assert b in input;
  }

  lemma IntegerRoundTrip(n: int, rest: Bytes)
    requires I64_MIN <= n <= I64_MAX
    ensures ParseInteger(EncodeInteger(n) + rest) == Done(Integer(n), rest)
  {
    var digits := if n < 0 then [MINUS] + Decimal(-n) else Decimal(n);
    var input := EncodeInteger(n) + rest;
    assert input == [I] + digits + [E] + rest;
    PositionAt(input, E, |digits| + 1);
    assert input[1..|digits| + 1] == digits;
    assert input[|digits| + 2..] == rest;
    DecimalParses(n);
    hide ParseI64, Decimal, EncodeInteger;
  }

  lemma DecimalParses(n: int)
    requires I64_MIN <= n <= I64_MAX
    ensures ParseI64(if n < 0 then [MINUS] + Decimal(-n) else Decimal(n)) == Some(n)
  {
    if n < 0 { assert ([MINUS] + Decimal(-n))[1..] == Decimal(-n); }
  }

  lemma TextRoundTrip(b: Bytes, rest: Bytes)
    requires |b| <= U64_MAX
    ensures ParseText(EncodeText(b) + rest) == Done(Text(b), rest)
    ensures IsDigit((EncodeText(b) + rest)[0])
  {
    var digits := Decimal(|b|);
    var input := EncodeText(b) + rest;
    assert input == digits + [COLON] + b + rest;
    PositionAt(input, COLON, |digits|);
    assert input[..|digits|] == digits;
    assert input[|digits| + 1..|digits| + 1 + |b|] == b;
    assert input[|digits| + 1 + |b|..] == rest;
  }

  /**
   * The encoding of a representable value, followed by any bytes, parses to that value and leaves
   * exactly those bytes when it nests no deeper than the limit allows; otherwise it is refused.
   */
  lemma {:induction false} RoundTrip(t: Term, depth: nat, rest: Bytes)
    requires Representable(t)
    ensures Parse(Encode(t) + rest, depth) == if depth + Nesting(t) <= 32 then Done(Annotate(t), rest) else Fail
    decreases t
  {
    var input := Encode(t) + rest;
    match t
    case IntegerTerm(n) =>
      IntegerRoundTrip(n, rest);
      hide ParseInteger, ParseText, ParseItems, ParseEntries;
    case TextTerm(b) =>
      TextRoundTrip(b, rest);
      hide ParseInteger, ParseText, ParseItems, ParseEntries;
    case ListTerm(items) =>
      var body := EncodeItems(items) + ([E] + rest);
      if depth <= MAX_DEPTH { ItemsRoundTrip(items, depth, rest); }
      ListParses(body, depth);
      assert input == [L] + body;
      hide Parse, ParseItems, EncodeItems, NestingItems, AnnotateItems;
    case DictionaryTerm(pairs) =>
      var body := EncodePairs(pairs) + ([E] + rest);
      if depth <= MAX_DEPTH { PairsRoundTrip(pairs, depth, rest); }
      DictionaryParses(body, depth);
      assert input == [D] + body;
      hide Parse, ParseEntries, EncodePairs, NestingPairs, AnnotatePairs;
  }

  lemma ListParses(body: Bytes, depth: nat)
    ensures Parse([L] + body, depth) ==
      if depth > MAX_DEPTH || ParseItems(body, depth).Fail? then Fail
      else Done(List(ParseItems(body, depth).value), ParseItems(body, depth).rest)
  {
    assert ([L] + body)[1..] == body;
    hide ParseItems, ParseEntries, ParseText, ParseInteger;
  }

  lemma DictionaryParses(body: Bytes, depth: nat)
    ensures Parse([D] + body, depth) ==
      if depth > MAX_DEPTH || ParseEntries(body, depth).Fail? then Fail
      else Done(Dictionary(ParseEntries(body, depth).value), ParseEntries(body, depth).rest)
  {
    assert ([D] + body)[1..] == body;
    hide ParseItems, ParseEntries, ParseText, ParseInteger;
  }

  lemma {:induction false} ItemsRoundTrip(items: seq<Term>, depth: nat, rest: Bytes)
    requires forall i :: 0 <= i < |items| ==> Representable(items[i])
    requires depth <= MAX_DEPTH
    ensures ParseItems(EncodeItems(items) + ([E] + rest), depth)
         == if depth + NestingItems(items) <= MAX_DEPTH then Done(AnnotateItems(items), rest) else Fail
    decreases items
  {
    var input := EncodeItems(items) + ([E] + rest);
    if items == [] {
      assert input == [E] + rest;
    } else {
      var tail := EncodeItems(items[1..]) + ([E] + rest);
      assert input == Encode(items[0]) + tail;
      RoundTrip(items[0], depth + 1, tail);
      ItemsRoundTrip(items[1..], depth, rest);
    }
  }

  lemma {:induction false} PairsRoundTrip(pairs: seq<Pair>, depth: nat, rest: Bytes)
    requires forall i :: 0 <= i < |pairs| ==> |pairs[i].key| <= U64_MAX && Representable(pairs[i].term)
    requires depth <= MAX_DEPTH
    ensures ParseEntries(EncodePairs(pairs) + ([E] + rest), depth)
         == if depth + NestingPairs(pairs) <= MAX_DEPTH then Done(AnnotatePairs(pairs), rest) else Fail
    decreases pairs
  {
    var input := EncodePairs(pairs) + ([E] + rest);
    if pairs == [] {
      assert input == [E] + rest;
    } else {
      var tail := EncodePairs(pairs[1..]) + ([E] + rest);
      assert input == EncodeText(pairs[0].key) + (Encode(pairs[0].term) + tail);
      PairRoundTrip(pairs[0], depth, tail);
      PairsRoundTrip(pairs[1..], depth, rest);
      assert input[0] != E by { TextRoundTrip(pairs[0].key, Encode(pairs[0].term) + tail); }
      hide ParseEntry;
    }
  }

  lemma {:induction false} PairRoundTrip(pair: Pair, depth: nat, tail: Bytes)
    requires |pair.key| <= U64_MAX && Representable(pair.term)
    ensures ParseEntry(EncodeText(pair.key) + (Encode(pair.term) + tail), depth)
         == if depth + 1 + Nesting(pair.term) <= MAX_DEPTH
            then Done(Entry(pair.key, Annotate(pair.term), Encode(pair.term)), tail) else Fail
    decreases pair
  {
    var after := Encode(pair.term) + tail;
    var input := EncodeText(pair.key) + after;
    TextRoundTrip(pair.key, after);
    RoundTrip(pair.term, depth + 1, tail);
    assert after[..|after| - |tail|] == Encode(pair.term);
    assert Parse(input, depth + 1) == if depth + 1 <= MAX_DEPTH then Done(Text(pair.key), after) else Fail;
  }

  // ---------- Reading a torrent file ----------

  const INFO: Bytes := [105, 110, 102, 111]
  const LENGTH: Bytes := [108, 101, 110, 103, 116, 104]
  const FILES: Bytes := [102, 105, 108, 101, 115]

  /** The first entry with this key. */
  function Find(entries: seq<Entry>, key: Bytes): (r: Option<Entry>)
    ensures r.Some? ==> r.value in entries && r.value.key == key
    ensures r.None? ==> forall i :: 0 <= i < |entries| ==> entries[i].key != key
  {
    if entries == [] then None
    else if entries[0].key == key then Some(entries[0])
    else Find(entries[1..], key)
  }

  /** The first length entry that is a number of bytes. */
  function FileLength(entries: seq<Entry>): Option<nat> {
    if entries == [] then None
    else if entries[0].key == LENGTH && entries[0].value.Integer? && entries[0].value.n >= 0
    then Some(entries[0].value.n)
    else FileLength(entries[1..])
  }

  /** The total of the files' lengths, unless one has none or it exceeds 64 bits. */
  function TotalLength(files: seq<Value>, total: nat): Option<nat> {
    if files == [] then Some(total)
    else if !files[0].Dictionary? then None
    else match FileLength(files[0].entries)
      case None => None
      case Some(length) => if total + length > U64_MAX then None else TotalLength(files[1..], total + length)
  }

  function SizeOf(info: seq<Entry>): Option<nat> {
    match (Find(info, LENGTH), Find(info, FILES))
    case (Some(Entry(_, Integer(n), _)), None) => if n >= 0 then Some(n) else None
    case (None, Some(Entry(_, List(files), _))) => TotalLength(files, 0)
    case _ => None
  }

  datatype TorrentFile = TorrentFile(hash: Hash, size: nat)

  /** Name a torrent file by the digest of the bytes of its `info`, and size it. */
  function Read(bytes: Bytes, digest: Bytes -> nat): Option<TorrentFile> {
    match Parse(bytes, 0)
    case Done(Dictionary(entries), rest) =>
      if rest != [] then None
      else (match Find(entries, INFO)
            case Some(Entry(_, Dictionary(info), encoded)) =>
              (match SizeOf(info)
               case Some(size) => Some(TorrentFile(V1(digest(encoded)), size))
               case None => None)
            case _ => None)
    case _ => None
  }

  // ---------- Sizes ----------

  /** An entry that gives a file's length. */
  predicate GivesLength(e: Entry) {
    e.key == LENGTH && e.value.Integer? && e.value.n >= 0
  }

  /** The first entry that gives a length is this one, and gives this length. */
  ghost predicate LengthAt(entries: seq<Entry>, i: nat, n: nat) {
    && i < |entries| && GivesLength(entries[i]) && entries[i].value.n == n
    && (forall j :: 0 <= j < i ==> !GivesLength(entries[j]))
  }

  lemma {:induction false} FileLengthIs(entries: seq<Entry>)
    ensures FileLength(entries).Some? ==> exists i: nat :: LengthAt(entries, i, FileLength(entries).value)
    ensures FileLength(entries).None? ==> forall i :: 0 <= i < |entries| ==> !GivesLength(entries[i])
  {
    if entries != [] {
      var rest := entries[1..];
      FileLengthIs(rest);
      if GivesLength(entries[0]) {
        assert LengthAt(entries, 0, FileLength(entries).value);
      } else if FileLength(rest).Some? {
        var i: nat :| LengthAt(rest, i, FileLength(rest).value);
        assert LengthAt(entries, i + 1, FileLength(rest).value);
      } else {
        assert forall i :: 1 <= i < |entries| ==> entries[i] == rest[i - 1];
      }
    }
  }

  lemma FileLengthIff(entries: seq<Entry>, i: nat, n: nat)
    requires LengthAt(entries, i, n)
    ensures FileLength(entries) == Some(n)
  {
    FileLengthIs(entries);
    if FileLength(entries).Some? {
      var j: nat :| LengthAt(entries, j, FileLength(entries).value);
      assert i == j;
    }
  }

  function Sum(lengths: seq<nat>): nat {
    if lengths == [] then 0 else Sum(lengths[..|lengths| - 1]) + lengths[|lengths| - 1]
  }

  lemma {:induction false} SumFirst(lengths: seq<nat>)
    requires lengths != []
    ensures Sum(lengths) == lengths[0] + Sum(lengths[1..])
  {
    if |lengths| > 1 {
      SumFirst(lengths[..|lengths| - 1]);
      assert lengths[..|lengths| - 1][1..] == lengths[1..][..|lengths| - 2];
    }
  }

  /** Each file is a dictionary with a length, and these are the lengths. */
  ghost predicate Sized(files: seq<Value>, lengths: seq<nat>) {
    && |files| == |lengths|
    && (forall i :: 0 <= i < |files| ==> files[i].Dictionary? && FileLength(files[i].entries) == Some(lengths[i]))
  }

  /** The total is the sum of the lengths, if every file has one and it fits 64 bits. */
  lemma {:induction false} TotalIsSum(files: seq<Value>, total: nat, lengths: seq<nat>)
    requires Sized(files, lengths) && total <= 0xFFFF_FFFF_FFFF_FFFF
    ensures TotalLength(files, total) ==
      if total + Sum(lengths) <= 0xFFFF_FFFF_FFFF_FFFF then Some(total + Sum(lengths)) else None
  {
    if files != [] {
      SumFirst(lengths);
      if total + lengths[0] <= U64_MAX { TotalIsSum(files[1..], total + lengths[0], lengths[1..]); }
    }
  }

  /** Without a length for every file there is no total. */
  lemma {:induction false} NoTotalUnlessSized(files: seq<Value>, total: nat, i: nat)
    requires i < |files| && !(files[i].Dictionary? && FileLength(files[i].entries).Some?)
    ensures TotalLength(files, total) == None
  {
    if i > 0 && files[0].Dictionary? && FileLength(files[0].entries).Some? {
      NoTotalUnlessSized(files[1..], total + FileLength(files[0].entries).value, i - 1);
    }
  }

  predicate HasKey(entries: seq<Entry>, key: Bytes) {
    exists i :: 0 <= i < |entries| && entries[i].key == key
  }

  /** The first entry with this key has this value. */
  ghost predicate FirstIs(entries: seq<Entry>, key: Bytes, value: Value) {
    exists i :: 0 <= i < |entries| && entries[i].key == key && entries[i].value == value
      && forall j :: 0 <= j < i ==> entries[j].key != key
  }

  lemma {:induction false} FindsFirst(entries: seq<Entry>, key: Bytes)
    ensures Find(entries, key).Some? <==> HasKey(entries, key)
    ensures Find(entries, key).Some? ==> FirstIs(entries, key, Find(entries, key).value.value)
  {
    if entries != [] {
      FindsFirst(entries[1..], key);
      if entries[0].key != key && Find(entries, key).Some? {
        var i :| 0 <= i < |entries[1..]| && entries[1..][i].key == key
          && entries[1..][i].value == Find(entries, key).value.value
          && forall j :: 0 <= j < i ==> entries[1..][j].key != key;
        assert entries[i + 1] == entries[1..][i];
      }
    }
  }

  /**
   * A torrent's size is its length, when it has one and no files; or the sum of its files' lengths,
   * when it has files and no length of its own, and each file has one.
   */
  lemma SizeIs(info: seq<Entry>, n: nat)
    requires SizeOf(info) == Some(n)
    ensures HasKey(info, LENGTH) != HasKey(info, FILES)
    ensures HasKey(info, LENGTH) ==> FirstIs(info, LENGTH, Integer(n))
    ensures HasKey(info, FILES) ==> exists files, lengths ::
      FirstIs(info, FILES, List(files)) && Sized(files, lengths) && n == Sum(lengths) <= 0xFFFF_FFFF_FFFF_FFFF
  {
    FindsFirst(info, LENGTH);
    FindsFirst(info, FILES);
    if HasKey(info, FILES) {
      var files := Find(info, FILES).value.value.items;
      forall i | 0 <= i < |files| ensures files[i].Dictionary? && FileLength(files[i].entries).Some? {
        if !(files[i].Dictionary? && FileLength(files[i].entries).Some?) { NoTotalUnlessSized(files, 0, i); }
      }
      var lengths := LengthsOf(files);
      TotalIsSum(files, 0, lengths);
      assert FirstIs(info, FILES, List(files));
    }
  }

  function LengthsOf(files: seq<Value>): (lengths: seq<nat>)
    requires forall i :: 0 <= i < |files| ==> files[i].Dictionary? && FileLength(files[i].entries).Some?
    ensures Sized(files, lengths)
  {
    if files == [] then []
    else LengthsOf(files[..|files| - 1]) + [FileLength(files[|files| - 1].entries).value]
  }

  /** Each such torrent is sized. */
  lemma SizesEveryTorrent(info: seq<Entry>, n: int, files: seq<Value>, lengths: seq<nat>)
    ensures FirstIs(info, LENGTH, Integer(n)) && !HasKey(info, FILES) && n >= 0 ==> SizeOf(info) == Some(n)
    ensures FirstIs(info, FILES, List(files)) && !HasKey(info, LENGTH) && Sized(files, lengths) ==>
      SizeOf(info) == if Sum(lengths) <= 0xFFFF_FFFF_FFFF_FFFF then Some(Sum(lengths)) else None
  {
    FindsFirst(info, LENGTH);
    FindsFirst(info, FILES);
    if Sized(files, lengths) { TotalIsSum(files, 0, lengths); }
    hide TotalLength, Sum, Sized, FileLength;
  }

  /** These bytes are this text in ASCII. */
  predicate Spells(bytes: Bytes, text: string) {
    |bytes| == |text| && forall i :: 0 <= i < |bytes| ==> bytes[i] == text[i] as int
  }

  lemma KeysSpell()
    ensures Spells(INFO, "info") && Spells(LENGTH, "length") && Spells(FILES, "files")
    ensures Spells([E, I, L, D], "eild") && Spells([COLON, MINUS, PLUS, ZERO, NINE], ":-+09")
  {
  }

  /** A torrent reads only from bytes that are one dictionary and nothing after it, whose first `info` is one too. */
  lemma ReadNeedsTheWhole(bytes: Bytes, digest: Bytes -> nat)
    requires Read(bytes, digest).Some?
    ensures exists entries, info ::
      Parse(bytes, 0) == Done(Dictionary(entries), []) && FirstIs(entries, INFO, Dictionary(info))
  {
    var entries := Parse(bytes, 0).value.entries;
    FindsFirst(entries, INFO);
    var info := Find(entries, INFO).value.value.entries;
    assert FirstIs(entries, INFO, Dictionary(info));
  }

  /** The bytes named by the hash of a torrent that reads are a slice that parses alone to its `info`. */
  lemma ReadNamesItsInfo(bytes: Bytes, digest: Bytes -> nat)
    requires Read(bytes, digest).Some?
    ensures exists info: seq<Entry>, encoded: Bytes ::
      && Parse(encoded, 0) == Done(Dictionary(info), [])
      && SizeOf(info).Some? && Read(bytes, digest) == Some(TorrentFile(V1(digest(encoded)), SizeOf(info).value))
  {
    var entries := Parse(bytes, 0).value.entries;
    EntriesKeepTheirBytes(bytes[1..], 0);
    var entry := Find(entries, INFO).value;
    var i :| 0 <= i < |entries| && entries[i] == entry;
    assert KeepsItsBytes(entries[i]);
    assert Parse(entry.encoded, 0) == Done(Dictionary(entry.value.entries), []);
  }

  lemma {:induction false} FindAnnotated(pairs: seq<Pair>, key: Bytes, k: nat)
    requires k < |pairs| && pairs[k].key == key && forall i :: 0 <= i < k ==> pairs[i].key != key
    ensures Find(AnnotatePairs(pairs), key) == Some(Entry(key, Annotate(pairs[k].term), Encode(pairs[k].term)))
  {
    if k > 0 { FindAnnotated(pairs[1..], key, k - 1); }
  }

  /** A torrent file written from its terms is named by its `info` dictionary's own encoding. */
  lemma ReadOfEncoding(pairs: seq<Pair>, k: nat, info: seq<Pair>, digest: Bytes -> nat)
    requires Representable(DictionaryTerm(pairs)) && Nesting(DictionaryTerm(pairs)) <= MAX_DEPTH
    requires k < |pairs| && pairs[k] == Pair(INFO, DictionaryTerm(info))
      && forall i :: 0 <= i < k ==> pairs[i].key != INFO
    ensures Read(Encode(DictionaryTerm(pairs)), digest) ==
      match SizeOf(AnnotatePairs(info))
      case Some(size) => Some(TorrentFile(V1(digest(Encode(DictionaryTerm(info)))), size))
      case None => None
  {
    RoundTrip(DictionaryTerm(pairs), 0, []);
    assert Encode(DictionaryTerm(pairs)) + [] == Encode(DictionaryTerm(pairs));
    FindAnnotated(pairs, INFO, k);
    hide Parse, Encode, SizeOf;
  }

  // ---------- The reader's loops ----------

  /** The recursive parser as written: loops collect items and entries and advance the rest. */
  method ParseValue(input: Bytes, depth: nat) returns (r: Parsed<Value>)
    ensures r == Parse(input, depth)
    decreases |input|
  {
    if depth > MAX_DEPTH || input == [] {
      return Fail;
    }
    if input[0] == I {
      return ParseInteger(input);
    } else if input[0] == L {
      var rest := input[1..];
      var items: seq<Value> := [];
      PrependNothing(ParseItems(rest, depth));
      while true
        invariant |rest| < |input|
        invariant ParseItems(input[1..], depth) == Prepend(items, ParseItems(rest, depth))
        decreases |rest|
      {
        if rest == [] { return Fail; }
        if rest[0] == E {
          assert items + [] == items;
          return Done(List(items), rest[1..]);
        }
        var item := ParseValue(rest, depth + 1);
        if item.Fail? { return Fail; }
        PrependOne(items, item.value, ParseItems(item.rest, depth));
        items := items + [item.value];
        rest := item.rest;
      }
    } else if input[0] == D {
      var rest := input[1..];
      var entries: seq<Entry> := [];
      PrependNothing(ParseEntries(rest, depth));
      while true
        invariant |rest| < |input|
        invariant ParseEntries(input[1..], depth) == Prepend(entries, ParseEntries(rest, depth))
        decreases |rest|
      {
        if rest == [] { return Fail; }
        if rest[0] == E {
          assert entries + [] == entries;
          return Done(Dictionary(entries), rest[1..]);
        }
        var key := ParseValue(rest, depth + 1);
        if key.Fail? || !key.value.Text? { return Fail; }
        var value := ParseValue(key.rest, depth + 1);
        if value.Fail? { return Fail; }
        var encoded := key.rest[..|key.rest| - |value.rest|];
        var entry := Entry(key.value.bytes, value.value, encoded);
        PrependOne(entries, entry, ParseEntries(value.rest, depth));
        entries := entries + [entry];
        rest := value.rest;
      }
    } else if IsDigit(input[0]) {
      return ParseText(input);
    } else {
      return Fail;
    }
  }

  function Prepend<T>(first: seq<T>, r: Parsed<seq<T>>): Parsed<seq<T>> {
    if r.Fail? then Fail else Done(first + r.value, r.rest)
  }

  lemma PrependNothing<T>(r: Parsed<seq<T>>)
    ensures Prepend([], r) == r
  {
    if r.Done? { assert [] + r.value == r.value; }
  }

  lemma PrependOne<T>(first: seq<T>, x: T, r: Parsed<seq<T>>)
    ensures Prepend(first, Prepend([x], r)) == Prepend(first + [x], r)
  {
    if r.Done? { assert first + ([x] + r.value) == first + [x] + r.value; }
  }
}
