/** The MessagePack subset the signed actions use: nil, bool, int, str, array and ordered map, in the shortest
    form of each format family ("int", "bool", "nil", "str", "array" and "map format family" of the MessagePack
    specification). */
module MessagePack {
  import opened Bytes
  import opened Wrappers

  const TWO_16: int := 0x1_0000
  const TWO_32: int := 0x1_0000_0000
  const TWO_63: int := 0x8000_0000_0000_0000
  const TWO_64: int := 0x1_0000_0000_0000_0000

  type WireInt = n: int | -TWO_63 <= n < TWO_64

  // A string is a sequence of bytes, each held in one char.
  type ByteString = text: string | IsByteString(text)

  predicate IsByteString(text: string) {
    |text| < TWO_32 && forall i | 0 <= i < |text| :: text[i] as int < 256
  }

  datatype Value =
    | Nil
    | Bool(flag: bool)
    | Int(n: WireInt)
    | Str(text: ByteString)
    | Arr(items: seq<Value>)
    | Map(pairs: seq<Pair>)

  datatype Pair = Pair(key: ByteString, value: Value)

  // What stands in front of the payload of a value.
  datatype Head =
    NilHead | BoolHead(flag: bool) | IntHead(n: int) | StrHead(size: nat) | ArrHead(size: nat) | MapHead(size: nat)

  predicate Fits(head: Head) {
    match head
    case NilHead => true
    case BoolHead(_) => true
    case IntHead(n) => -TWO_63 <= n < TWO_64
    case StrHead(size) => size < TWO_32
    case ArrHead(size) => size < TWO_32
    case MapHead(size) => size < TWO_32
  }

  // Every length fits its head.
  predicate Encodable(v: Value) {
    match v
    case Arr(items) => |items| < TWO_32 && AllEncodable(items)
    case Map(pairs) => |pairs| < TWO_32 && AllPairsEncodable(pairs)
    case _ => true
  }

  predicate AllEncodable(items: seq<Value>) {
    forall item | item in items :: Encodable(item)
  }

  predicate AllPairsEncodable(pairs: seq<Pair>) {
    forall pair | pair in pairs :: Encodable(pair.value)
  }

  // ---------- Big-endian numbers ----------

  function Pow256(width: nat): nat {
    if width == 0 then 1 else 256 * Pow256(width - 1)
  }

  function BigEndian(n: nat, width: nat): (bytes: seq<byte>)
    ensures |bytes| == width
  {
    if width == 0 then [] else BigEndian(n / 256, width - 1) + [n % 256]
  }

  function FromBigEndian(bytes: seq<byte>): nat {
    if bytes == [] then 0 else 256 * FromBigEndian(bytes[..|bytes| - 1]) + bytes[|bytes| - 1]
  }

  lemma {:induction false} BigEndianRoundTrip(n: nat, width: nat)
    requires n < Pow256(width)
    ensures FromBigEndian(BigEndian(n, width)) == n
  {
    if width > 0 {
      BigEndianRoundTrip(n / 256, width - 1);
      assert BigEndian(n, width)[..width - 1] == BigEndian(n / 256, width - 1);
    }
  }

  lemma {:induction false} BigEndianBound(bytes: seq<byte>)
    ensures FromBigEndian(bytes) < Pow256(|bytes|)
  {
    if bytes != [] {
      BigEndianBound(bytes[..|bytes| - 1]);
    }
  }

  // The first byte is the most significant.
  lemma {:induction false} HighByteFirst(high: byte, rest: seq<byte>)
    ensures FromBigEndian([high] + rest) == high * Pow256(|rest|) + FromBigEndian(rest)
  {
    var bytes := [high] + rest;
    if rest == [] {
      assert bytes[..0] == [];
    } else {
      var front := rest[..|rest| - 1];
      HighByteFirst(high, front);
      assert bytes[..|bytes| - 1] == [high] + front;
    }
  }

  // ---------- Heads ----------

  // How many bytes of a number follow the first byte of a head.
  function Width(tag: byte): nat {
    if tag in {0xcc, 0xd0, 0xd9} then 1
    else if tag in {0xcd, 0xd1, 0xda, 0xdc, 0xde} then 2
    else if tag in {0xce, 0xd2, 0xdb, 0xdd, 0xdf} then 4
    else if tag in {0xcf, 0xd3} then 8
    else 0
  }

  // The first byte of the shortest form.
  function Tag(head: Head): byte
    requires Fits(head)
  {
    match head
    case NilHead => 0xc0
    case BoolHead(flag) => if flag then 0xc3 else 0xc2
    case IntHead(n) =>
      if n < -0x8000_0000 then 0xd3
      else if n < -0x8000 then 0xd2
      else if n < -0x80 then 0xd1
      else if n < -32 then 0xd0
      else if n < 0 then n + 0x100
      else if n < 0x80 then n
      else if n < 0x100 then 0xcc
      else if n < TWO_16 then 0xcd
      else if n < TWO_32 then 0xce
      else 0xcf
    case StrHead(size) => if size < 32 then 0xa0 + size else if size < 0x100 then 0xd9 else if size < TWO_16 then 0xda
      else 0xdb
    case ArrHead(size) => if size < 16 then 0x90 + size else if size < TWO_16 then 0xdc else 0xdd
    case MapHead(size) => if size < 16 then 0x80 + size else if size < TWO_16 then 0xde else 0xdf
  }

  // The number in the bytes after it; a negative integer is stored in two's complement.
  function Payload(head: Head): nat
    requires Fits(head)
  {
    match head
    case IntHead(n) =>
      var width := Width(Tag(head));
      if width == 0 then 0
      else if n >= 0 then n
      else if width == 1 then n + 0x100
      else if width == 2 then n + TWO_16
      else if width == 4 then n + TWO_32
      else n + TWO_64
    case StrHead(size) => if size < 32 then 0 else size
    case ArrHead(size) => if size < 16 then 0 else size
    case MapHead(size) => if size < 16 then 0 else size
    case _ => 0
  }

  function EncodeHead(head: Head): (bytes: seq<byte>)
    requires Fits(head)
    ensures bytes != []
  {
    [Tag(head)] + BigEndian(Payload(head), Width(Tag(head)))
  }

  // The big-endian number of `width` bytes after the first byte.
  function Number(bytes: seq<byte>, width: nat): (r: Option<(nat, seq<byte>)>)
    ensures r.Some? ==> |r.value.1| == |bytes| - 1 - width
  {
    if |bytes| <= width then None else Some((FromBigEndian(bytes[1..width + 1]), bytes[width + 1..]))
  }

  function Signed(n: int, modulus: int): int {
    if 2 * n < modulus then n else n - modulus
  }

  function HeadOf(tag: byte, n: nat): Option<Head> {
    if tag < 0x80 then Some(IntHead(tag))
    else if tag < 0x90 then Some(MapHead(tag - 0x80))
    else if tag < 0xa0 then Some(ArrHead(tag - 0x90))
    else if tag < 0xc0 then Some(StrHead(tag - 0xa0))
    else if tag >= 0xe0 then Some(IntHead(tag - 0x100))
    else match tag
      case 0xc0 => Some(NilHead)
      case 0xc2 => Some(BoolHead(false))
      case 0xc3 => Some(BoolHead(true))
      case 0xcc => Some(IntHead(n))
      case 0xcd => Some(IntHead(n))
      case 0xce => Some(IntHead(n))
      case 0xcf => Some(IntHead(n))
      case 0xd0 => Some(IntHead(Signed(n, 0x100)))
      case 0xd1 => Some(IntHead(Signed(n, TWO_16)))
      case 0xd2 => Some(IntHead(Signed(n, TWO_32)))
      case 0xd3 => Some(IntHead(Signed(n, TWO_64)))
      case 0xd9 => Some(StrHead(n))
      case 0xda => Some(StrHead(n))
      case 0xdb => Some(StrHead(n))
      case 0xdc => Some(ArrHead(n))
      case 0xdd => Some(ArrHead(n))
      case 0xde => Some(MapHead(n))
      case 0xdf => Some(MapHead(n))
      case _ => None
  }

  // Reads any head of the specification, shortest or not.
  function DecodeHead(bytes: seq<byte>): (r: Option<(Head, seq<byte>)>)
    ensures r.Some? ==> |r.value.1| < |bytes|
  {
    if bytes == [] then None
    else match Number(bytes, Width(bytes[0]))
      case None => None
      case Some((n, rest)) =>
        match HeadOf(bytes[0], n)
        case None => None
        case Some(head) => Some((head, rest))
  }

  lemma NumberRoundTrip(tag: byte, n: nat, width: nat, rest: seq<byte>)
    requires n < Pow256(width)
    ensures Number([tag] + BigEndian(n, width) + rest, width) == Some((n, rest))
  {
    BigEndianRoundTrip(n, width);
    var bytes := [tag] + BigEndian(n, width) + rest;
    assert bytes[1..width + 1] == BigEndian(n, width) && bytes[width + 1..] == rest;
  }

  lemma Widths()
    ensures Pow256(1) == 0x100 && Pow256(2) == TWO_16 && Pow256(4) == TWO_32 && Pow256(8) == TWO_64
  {}

  lemma TagTellsTheHead(head: Head)
    requires Fits(head)
    ensures Payload(head) < Pow256(Width(Tag(head)))
    ensures HeadOf(Tag(head), Payload(head)) == Some(head)
  {
    Widths();
  }

  lemma HeadRoundTrip(head: Head, rest: seq<byte>)
    requires Fits(head)
    ensures DecodeHead(EncodeHead(head) + rest) == Some((head, rest))
  {
    TagTellsTheHead(head);
    NumberRoundTrip(Tag(head), Payload(head), Width(Tag(head)), rest);
  }

  lemma TagIsNarrowest(tag: byte, n: nat)
    requires n < Pow256(Width(tag)) && HeadOf(tag, n).Some?
    ensures Fits(HeadOf(tag, n).value) && Width(Tag(HeadOf(tag, n).value)) <= Width(tag)
  {
    Widths();
  }

  // No encoding of the same head is shorter.
  lemma HeadIsShortest(head: Head, bytes: seq<byte>)
    requires DecodeHead(bytes) == Some((head, []))
    ensures Fits(head) && |EncodeHead(head)| <= |bytes|
  {
    var width := Width(bytes[0]);
    BigEndianBound(bytes[1..width + 1]);
    TagIsNarrowest(bytes[0], FromBigEndian(bytes[1..width + 1]));
  }

  // The formats of the specification that these values use: which first byte announces which head, with how many bytes
  // of a big-endian number behind it.
  ghost predicate IsFormat(head: Head, first: byte, width: nat, number: nat) {
    match head
    case NilHead => width == 0 && first == 0xc0
    case BoolHead(flag) => width == 0 && first == if flag then 0xc3 else 0xc2
    case IntHead(n) =>
      // positive fixint, negative fixint, uint 8 to uint 64, int 8 to int 64
      || (width == 0 && 0 <= n < 0x80 && first == n)
      || (width == 0 && -0x20 <= n < 0 && first == n + 0x100)
      || (n == number && (width, first) in {(1, 0xcc), (2, 0xcd), (4, 0xce), (8, 0xcf)})
      || (-0x80 <= n < 0 && width == 1 && first == 0xd0 && number == n + 0x100)
      || (-0x8000 <= n < 0 && width == 2 && first == 0xd1 && number == n + 0x1_0000)
      || (-0x8000_0000 <= n < 0 && width == 4 && first == 0xd2 && number == n + 0x1_0000_0000)
      || (-0x8000_0000_0000_0000 <= n < 0 && width == 8 && first == 0xd3 && number == n + 0x1_0000_0000_0000_0000)
    case StrHead(size) =>
      // fixstr, str 8, str 16, str 32
      || (width == 0 && size < 0x20 && first == size + 0xa0)
      || (size == number && (width, first) in {(1, 0xd9), (2, 0xda), (4, 0xdb)})
    case ArrHead(size) =>
      // fixarray, array 16, array 32
      || (width == 0 && size < 0x10 && first == size + 0x90)
      || (size == number && (width, first) in {(2, 0xdc), (4, 0xdd)})
    case MapHead(size) =>
      // fixmap, map 16, map 32
      || (width == 0 && size < 0x10 && first == size + 0x80)
      || (size == number && (width, first) in {(2, 0xde), (4, 0xdf)})
  }

  lemma TagIsAFormat(head: Head)
    requires Fits(head)
    ensures IsFormat(head, Tag(head), Width(Tag(head)), Payload(head))
  {}

  // What is written is one of these formats.
  lemma HeadIsAFormat(head: Head)
    requires Fits(head)
    ensures var bytes := EncodeHead(head); IsFormat(head, bytes[0], |bytes| - 1, FromBigEndian(bytes[1..]))
  {
    TagIsAFormat(head);
    TagTellsTheHead(head);
    BigEndianRoundTrip(Payload(head), Width(Tag(head)));
    assert EncodeHead(head)[1..] == BigEndian(Payload(head), Width(Tag(head)));
  }

  // And none of them is shorter.
  lemma FormatIsNoShorter(head: Head, first: byte, width: nat, number: nat)
    requires Fits(head) && IsFormat(head, first, width, number) && number < Pow256(width)
    ensures |EncodeHead(head)| <= 1 + width
  {
    Widths();
  }

  // ---------- Values ----------

  function EncodeText(text: ByteString): seq<byte> {
    EncodeHead(StrHead(|text|)) + BytesOf(text)
  }

  function BytesOf(text: ByteString): (bytes: seq<byte>)
    ensures |bytes| == |text|
  {
    seq(|text|, i requires 0 <= i < |text| => text[i] as int)
  }

  function TextOf(bytes: seq<byte>): ByteString
    requires |bytes| < TWO_32
  {
    seq(|bytes|, i requires 0 <= i < |bytes| => bytes[i] as char)
  }

  function Encode(v: Value): (bytes: seq<byte>)
    requires Encodable(v)
    decreases v
  {
    match v
    case Nil => EncodeHead(NilHead)
    case Bool(flag) => EncodeHead(BoolHead(flag))
    case Int(n) => EncodeHead(IntHead(n))
    case Str(text) => EncodeText(text)
    case Arr(items) => EncodeHead(ArrHead(|items|)) + EncodeItems(items)
    case Map(pairs) => EncodeHead(MapHead(|pairs|)) + EncodePairs(pairs)
  }

  function EncodeItems(items: seq<Value>): seq<byte>
    requires AllEncodable(items)
    decreases items
  {
    if items == [] then [] else Encode(items[0]) + EncodeItems(items[1..])
  }

  function EncodePair(pair: Pair): seq<byte>
    requires Encodable(pair.value)
    decreases pair
  {
    EncodeText(pair.key) + Encode(pair.value)
  }

  function EncodePairs(pairs: seq<Pair>): seq<byte>
    requires AllPairsEncodable(pairs)
    decreases pairs
  {
    if pairs == [] then [] else EncodePair(pairs[0]) + EncodePairs(pairs[1..])
  }

  function TakeText(size: nat, bytes: seq<byte>): (r: Option<(ByteString, seq<byte>)>)
    ensures r.Some? ==> |r.value.1| <= |bytes|
  {
    if |bytes| < size || size >= TWO_32 then None else Some((TextOf(bytes[..size]), bytes[size..]))
  }

  function DecodeText(bytes: seq<byte>): (r: Option<(ByteString, seq<byte>)>)
    ensures r.Some? ==> |r.value.1| < |bytes|
  {
    match DecodeHead(bytes)
    case Some((StrHead(size), rest)) => TakeText(size, rest)
    case _ => None
  }

  // Reads one value and leaves what follows it.
  function Decode(bytes: seq<byte>): (r: Option<(Value, seq<byte>)>)
    ensures r.Some? ==> |r.value.1| < |bytes|
    decreases |bytes|, 0
  {
    match DecodeHead(bytes)
    case None => None
    case Some((NilHead, rest)) => Some((Nil, rest))
    case Some((BoolHead(flag), rest)) => Some((Bool(flag), rest))
    case Some((IntHead(n), rest)) => if -TWO_63 <= n < TWO_64 then Some((Int(n), rest)) else None
    case Some((StrHead(size), rest)) =>
      (match TakeText(size, rest)
       case None => None
       case Some((text, after)) => Some((Str(text), after)))
    case Some((ArrHead(size), rest)) =>
      (match DecodeItems(size, rest)
       case None => None
       case Some((items, after)) => Some((Arr(items), after)))
    case Some((MapHead(size), rest)) =>
      (match DecodePairs(size, rest)
       case None => None
       case Some((pairs, after)) => Some((Map(pairs), after)))
  }

  function DecodeItems(size: nat, bytes: seq<byte>): (r: Option<(seq<Value>, seq<byte>)>)
    ensures r.Some? ==> |r.value.1| <= |bytes|
    decreases |bytes|, size + 1
  {
    if size == 0 then Some(([], bytes))
    else match Decode(bytes)
      case None => None
      case Some((item, rest)) =>
        match DecodeItems(size - 1, rest)
        case None => None
        case Some((items, after)) => Some(([item] + items, after))
  }

  function DecodePairs(size: nat, bytes: seq<byte>): (r: Option<(seq<Pair>, seq<byte>)>)
    ensures r.Some? ==> |r.value.1| <= |bytes|
    decreases |bytes|, size + 1
  {
    if size == 0 then Some(([], bytes))
    else match DecodeText(bytes)
      case None => None
      case Some((key, rest)) =>
        match Decode(rest)
        case None => None
        case Some((value, next)) =>
          match DecodePairs(size - 1, next)
          case None => None
          case Some((pairs, after)) => Some(([Pair(key, value)] + pairs, after))
  }

  lemma TakeTextRoundTrip(text: ByteString, rest: seq<byte>)
    ensures TakeText(|text|, BytesOf(text) + rest) == Some((text, rest))
  {
    var body := BytesOf(text);
    assert (body + rest)[..|text|] == body && (body + rest)[|text|..] == rest;
    assert TextOf(body) == text;
  }

  // ---------- The bytes of a value, in the words of the specification ----------

  ghost predicate Announces(head: Head, bytes: seq<byte>) {
    bytes != [] && IsFormat(head, bytes[0], |bytes| - 1, FromBigEndian(bytes[1..]))
  }

  ghost predicate SpellsText(text: ByteString, bytes: seq<byte>) {
    exists head, rest :: bytes == head + rest && Announces(StrHead(|text|), head)
      && |rest| == |text| && forall i | 0 <= i < |text| :: rest[i] == text[i] as int
  }

  // A string is followed by its characters, an array by its elements, a map by its pairs, keys first, all in order.
  ghost predicate Spells(v: Value, bytes: seq<byte>)
    decreases v
  {
    match v
    case Nil => bytes == [0xc0]
    case Bool(flag) => bytes == [if flag then 0xc3 else 0xc2]
    case Int(n) => Announces(IntHead(n), bytes)
    case Str(text) => SpellsText(text, bytes)
    case Arr(items) => exists head, rest :: bytes == head + rest
                         && Announces(ArrHead(|items|), head) && SpellsItems(items, rest)
    case Map(pairs) => exists head, rest :: bytes == head + rest
                         && Announces(MapHead(|pairs|), head) && SpellsPairs(pairs, rest)
  }

  ghost predicate SpellsItems(items: seq<Value>, bytes: seq<byte>)
    decreases items
  {
    if items == [] then bytes == []
    else exists first, rest :: bytes == first + rest && Spells(items[0], first) && SpellsItems(items[1..], rest)
  }

  ghost predicate SpellsPairs(pairs: seq<Pair>, bytes: seq<byte>)
    decreases pairs
  {
    if pairs == [] then bytes == []
    else exists key, value, rest :: bytes == key + value + rest
           && SpellsText(pairs[0].key, key) && Spells(pairs[0].value, value) && SpellsPairs(pairs[1..], rest)
  }

  lemma TextIsSpelled(text: ByteString)
    ensures SpellsText(text, EncodeText(text))
  {
    HeadAnnounces(StrHead(|text|), EncodeHead(StrHead(|text|)));
  }

  lemma HeadAnnounces(head: Head, bytes: seq<byte>)
    requires Fits(head) && bytes == EncodeHead(head)
    ensures Announces(head, bytes)
  {
    HeadIsAFormat(head);
  }

  // What is written is the value in the formats of the specification.
  lemma {:induction false} EncodingSpells(v: Value)
    requires Encodable(v)
    ensures Spells(v, Encode(v))
    decreases v
  {
    match v
    case Nil =>
    case Bool(flag) =>
    case Int(n) => HeadAnnounces(IntHead(n), Encode(v));
    case Str(text) => TextIsSpelled(text);
    case Arr(items) =>
      var head, rest := EncodeHead(ArrHead(|items|)), EncodeItems(items);
      HeadAnnounces(ArrHead(|items|), head);
      ItemsAreSpelled(items);
    case Map(pairs) =>
      var head, rest := EncodeHead(MapHead(|pairs|)), EncodePairs(pairs);
      HeadAnnounces(MapHead(|pairs|), head);
      PairsAreSpelled(pairs);
  }

  lemma {:induction false} ItemsAreSpelled(items: seq<Value>)
    requires AllEncodable(items)
    ensures SpellsItems(items, EncodeItems(items))
    decreases items
  {
    if items != [] {
      var first, rest := Encode(items[0]), EncodeItems(items[1..]);
      EncodingSpells(items[0]);
      ItemsAreSpelled(items[1..]);
    }
  }

  lemma {:induction false} PairsAreSpelled(pairs: seq<Pair>)
    requires AllPairsEncodable(pairs)
    ensures SpellsPairs(pairs, EncodePairs(pairs))
    decreases pairs
  {
    if pairs != [] {
      var key, value, rest := EncodeText(pairs[0].key), Encode(pairs[0].value), EncodePairs(pairs[1..]);
      TextIsSpelled(pairs[0].key);
      EncodingSpells(pairs[0].value);
      PairsAreSpelled(pairs[1..]);
      assert key + value + rest == EncodePairs(pairs);
    }
  }

  // ---------- Reading back what was written ----------

  lemma TextRoundTrip(text: ByteString, rest: seq<byte>)
    ensures DecodeText(EncodeText(text) + rest) == Some((text, rest))
    ensures Decode(EncodeText(text) + rest) == Some((Str(text), rest))
  {
    var body := BytesOf(text);
    TakeTextRoundTrip(text, rest);
    HeadRoundTrip(StrHead(|text|), body + rest);
    assert EncodeText(text) + rest == EncodeHead(StrHead(|text|)) + (body + rest);
  }

  // One step of the decoder, whatever the bytes are.
  lemma DecodeOneItem(size: nat, bytes: seq<byte>, item: Value, next: seq<byte>, items: seq<Value>, rest: seq<byte>)
    requires size > 0 && Decode(bytes) == Some((item, next)) && DecodeItems(size - 1, next) == Some((items, rest))
    ensures DecodeItems(size, bytes) == Some(([item] + items, rest))
  {}

  lemma DecodeOnePair(size: nat, bytes: seq<byte>, key: ByteString, middle: seq<byte>, value: Value, next: seq<byte>,
                      pairs: seq<Pair>, rest: seq<byte>)
    requires size > 0 && DecodeText(bytes) == Some((key, middle)) && Decode(middle) == Some((value, next))
    requires DecodePairs(size - 1, next) == Some((pairs, rest))
    ensures DecodePairs(size, bytes) == Some(([Pair(key, value)] + pairs, rest))
  {}

  lemma DecodeHeaded(head: Head, body: seq<byte>, rest: seq<byte>)
    requires Fits(head)
    ensures head == NilHead ==> Decode(EncodeHead(head) + rest) == Some((Nil, rest))
    ensures head.BoolHead? ==> Decode(EncodeHead(head) + rest) == Some((Bool(head.flag), rest))
    ensures head.IntHead? ==> Decode(EncodeHead(head) + rest) == Some((Int(head.n), rest))
    ensures head.ArrHead? && DecodeItems(head.size, body + rest).Some? ==>
              var parsed := DecodeItems(head.size, body + rest).value;
              Decode(EncodeHead(head) + body + rest) == Some((Arr(parsed.0), parsed.1))
    ensures head.MapHead? && DecodePairs(head.size, body + rest).Some? ==>
              var parsed := DecodePairs(head.size, body + rest).value;
              Decode(EncodeHead(head) + body + rest) == Some((Map(parsed.0), parsed.1))
  {
    HeadRoundTrip(head, rest);
    HeadRoundTrip(head, body + rest);
    assert EncodeHead(head) + body + rest == EncodeHead(head) + (body + rest);
  }

  lemma SplitItems(items: seq<Value>, rest: seq<byte>)
    requires items != [] && AllEncodable(items)
    ensures AllEncodable(items[1..]) && Encodable(items[0]) && [items[0]] + items[1..] == items
    ensures EncodeItems(items) + rest == Encode(items[0]) + (EncodeItems(items[1..]) + rest)
  {}

  lemma Regrouped(a: seq<byte>, b: seq<byte>, c: seq<byte>, d: seq<byte>)
    ensures a + b + c + d == a + (b + (c + d))
  {}

  lemma SplitPairs(pairs: seq<Pair>, rest: seq<byte>)
    requires pairs != [] && AllPairsEncodable(pairs)
    ensures AllPairsEncodable(pairs[1..]) && Encodable(pairs[0].value)
    ensures [Pair(pairs[0].key, pairs[0].value)] + pairs[1..] == pairs
    ensures EncodePairs(pairs) + rest
         == EncodeText(pairs[0].key) + (Encode(pairs[0].value) + (EncodePairs(pairs[1..]) + rest))
  {
    FirstPair(pairs);
    Regrouped(EncodeText(pairs[0].key), Encode(pairs[0].value), EncodePairs(pairs[1..]), rest);
  }

  lemma FirstPair(pairs: seq<Pair>)
    requires pairs != [] && AllPairsEncodable(pairs)
    ensures AllPairsEncodable(pairs[1..]) && Encodable(pairs[0].value)
    ensures EncodePairs(pairs) == EncodeText(pairs[0].key) + Encode(pairs[0].value) + EncodePairs(pairs[1..])
  {}

  // An encoding says where it ends: whatever follows, exactly the value is read back and the rest is left.
  lemma {:induction false} RoundTrip(v: Value, rest: seq<byte>)
    requires Encodable(v)
    ensures Decode(Encode(v) + rest) == Some((v, rest))
    decreases v
  {
    match v
    case Nil => DecodeHeaded(NilHead, [], rest);
    case Bool(flag) => DecodeHeaded(BoolHead(flag), [], rest);
    case Int(n) => DecodeHeaded(IntHead(n), [], rest);
    case Str(text) => TextRoundTrip(text, rest);
    case Arr(items) =>
      ItemsRoundTrip(items, rest);
      DecodeHeaded(ArrHead(|items|), EncodeItems(items), rest);
    case Map(pairs) =>
      PairsRoundTrip(pairs, rest);
      DecodeHeaded(MapHead(|pairs|), EncodePairs(pairs), rest);
  }

  lemma {:induction false} ItemsRoundTrip(items: seq<Value>, rest: seq<byte>)
    requires AllEncodable(items)
    ensures DecodeItems(|items|, EncodeItems(items) + rest) == Some((items, rest))
    decreases items
  {
    if items == [] {
      assert EncodeItems(items) + rest == rest;
    } else {
      SplitItems(items, rest);
      var item, others := items[0], items[1..];
      var next := EncodeItems(others) + rest;
      RoundTrip(item, next);
      ItemsRoundTrip(others, rest);
      DecodeOneItem(|items|, Encode(item) + next, item, next, others, rest);
    }
  }

  lemma {:induction false} PairsRoundTrip(pairs: seq<Pair>, rest: seq<byte>)
    requires AllPairsEncodable(pairs)
    ensures DecodePairs(|pairs|, EncodePairs(pairs) + rest) == Some((pairs, rest))
    decreases pairs
  {
    if pairs == [] {
      assert EncodePairs(pairs) + rest == rest;
    } else {
      SplitPairs(pairs, rest);
      var pair, others := pairs[0], pairs[1..];
      var next := EncodePairs(others) + rest;
      var middle := Encode(pair.value) + next;
      TextRoundTrip(pair.key, middle);
      RoundTrip(pair.value, next);
      PairsRoundTrip(others, rest);
      DecodeOnePair(|pairs|, EncodeText(pair.key) + middle, pair.key, middle, pair.value, next, others, rest);
    }
  }

  // One more at the end is one more encoding at the end.
  lemma {:induction false} LastPair(done: seq<Pair>, pair: Pair)
    requires AllPairsEncodable(done) && Encodable(pair.value)
    ensures AllPairsEncodable(done + [pair]) && EncodePairs(done + [pair]) == EncodePairs(done) + EncodePair(pair)
  {
    var longer := done + [pair];
    if done == [] {
      assert longer[1..] == [];
    } else {
      LastPair(done[1..], pair);
      assert longer[1..] == done[1..] + [pair];
    }
  }

  lemma {:induction false} LastItem(done: seq<Value>, item: Value)
    requires AllEncodable(done) && Encodable(item)
    ensures AllEncodable(done + [item]) && EncodeItems(done + [item]) == EncodeItems(done) + Encode(item)
  {
    if done == [] {
      FirstItem(item, []);
      assert done + [item] == [item] + [];
    } else {
      var first, rest := done[0], done[1..];
      LastItem(rest, item);
      FirstItem(first, rest);
      FirstItem(first, rest + [item]);
      assert done == [first] + rest && done + [item] == [first] + (rest + [item]);
      GroupedLeft(Encode(first), EncodeItems(rest), Encode(item));
    }
  }

  lemma GroupedLeft(a: seq<byte>, b: seq<byte>, c: seq<byte>)
    ensures a + b + c == a + (b + c)
  {}

  lemma FirstItem(item: Value, rest: seq<Value>)
    requires Encodable(item) && AllEncodable(rest)
    ensures AllEncodable([item] + rest) && EncodeItems([item] + rest) == Encode(item) + EncodeItems(rest)
  {
    assert ([item] + rest)[1..] == rest;
  }

  // The encoder with compact integers switched on, writing to a byte slice.
  class Encoder {
    var buf: seq<byte>

    constructor ()
      ensures buf == []
    {
      buf := [];
    }

    method EncodeNil()
      modifies this
      ensures buf == old(buf) + Encode(Nil)
    {
      buf := buf + EncodeHead(NilHead);
    }

    method EncodeBool(flag: bool)
      modifies this
      ensures buf == old(buf) + Encode(Bool(flag))
    {
      buf := buf + EncodeHead(BoolHead(flag));
    }

    method EncodeInt(n: int)
      requires -TWO_63 <= n < TWO_63
      modifies this
      ensures buf == old(buf) + Encode(Int(n))
    {
      if n >= 0 {
        EncodeUint(n);
      } else if n >= -32 {
        WriteNumber(n + 0x100, 0, 0);
      } else if n >= -0x80 {
        WriteNumber(0xd0, n + 0x100, 1);
      } else if n >= -0x8000 {
        WriteNumber(0xd1, n + TWO_16, 2);
      } else if n >= -0x8000_0000 {
        WriteNumber(0xd2, n + TWO_32, 4);
      } else {
        WriteNumber(0xd3, n + TWO_64, 8);
      }
    }

    method EncodeUint(n: int)
      requires 0 <= n < TWO_64
      modifies this
      ensures buf == old(buf) + Encode(Int(n))
    {
      if n < 0x80 {
        WriteNumber(n, 0, 0);
      } else if n < 0x100 {
        WriteNumber(0xcc, n, 1);
      } else if n < TWO_16 {
        WriteNumber(0xcd, n, 2);
      } else if n < TWO_32 {
        WriteNumber(0xce, n, 4);
      } else {
        WriteNumber(0xcf, n, 8);
      }
    }

    // A first byte and a number of `width` bytes, the highest first.
    method WriteNumber(tag: byte, n: nat, width: nat)
      modifies this
      ensures buf == old(buf) + ([tag] + BigEndian(n, width))
    {
      buf := buf + ([tag] + BigEndian(n, width));
    }

    method EncodeString(text: ByteString)
      modifies this
      ensures buf == old(buf) + EncodeText(text)
    {
      buf := buf + EncodeText(text);
    }

    method EncodeArrayLen(size: nat)
      requires size < TWO_32
      modifies this
      ensures buf == old(buf) + EncodeHead(ArrHead(size))
    {
      buf := buf + EncodeHead(ArrHead(size));
    }

    method EncodeMapLen(size: nat)
      requires size < TWO_32
      modifies this
      ensures buf == old(buf) + EncodeHead(MapHead(size))
    {
      buf := buf + EncodeHead(MapHead(size));
    }

    // What a value's own marshaller returned is written through.
    method Write(bytes: seq<byte>)
      modifies this
      ensures buf == old(buf) + bytes
    {
      buf := buf + bytes;
    }

    // A scalar whose type decides how it is written.
    method EncodeScalar(v: Value)
      requires Encodable(v) && !v.Arr? && !v.Map?
      modifies this
      ensures buf == old(buf) + Encode(v)
    {
      match v
      case Nil => EncodeNil();
      case Bool(flag) => EncodeBool(flag);
      case Int(n) => if n < TWO_63 { EncodeInt(n); } else { EncodeUint(n); }
      case Str(text) => EncodeString(text);
    }
  }
}
