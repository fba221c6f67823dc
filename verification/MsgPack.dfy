/**
 The MessagePack primitives the generated codecs are built from: the int, nil, str, bin, array and map
 formats of the MessagePack specification, section "Formats", appended to and read from byte strings.
 A length is written as a 32-bit number, so it is cut to 32 bits.
 */
module MsgPack {
  import opened Common

  type Byte = b: int | 0 <= b < 256

  type Bytes = seq<Byte>

  datatype DecodeError = ShortBytes | WrongType | InvalidPrefix | Overflow

  type Read<T> = Result<(T, Bytes), DecodeError>

  // ---------------------------------------------------------------- big-endian numbers

  function Pow256(w: nat): (p: nat)
    ensures p > 0
  {
    if w == 0 then 1 else 256 * Pow256(w - 1)
  }

  function BigEndian(n: nat, w: nat): (b: Bytes)
    ensures |b| == w
  {
    if w == 0 then [] else BigEndian(n / 256, w - 1) + [n % 256]
  }

  function FromBigEndian(b: Bytes): nat {
    if b == [] then 0 else 256 * FromBigEndian(b[..|b| - 1]) + b[|b| - 1]
  }

  lemma {:induction false} BigEndianRoundTrip(n: nat, w: nat)
    requires n < Pow256(w)
    ensures FromBigEndian(BigEndian(n, w)) == n
  {
    if w > 0 {
      BigEndianRoundTrip(n / 256, w - 1);
      var b := BigEndian(n, w);
      assert b[..w - 1] == BigEndian(n / 256, w - 1);
    }
  }

  lemma {:induction false} FromBigEndianBound(b: Bytes)
    ensures FromBigEndian(b) < Pow256(|b|)
  {
    if b != [] { FromBigEndianBound(b[..|b| - 1]); }
  }

  const MAX_LENGTH: nat := 0x1_0000_0000

  lemma Powers()
    ensures Pow256(1) == 0x100 && Pow256(2) == 0x1_0000 && Pow256(4) == MAX_LENGTH
    ensures Pow256(8) == 0x1_0000_0000_0000_0000
  {
    assert Pow256(3) == 0x100_0000;
    assert Pow256(4) == 256 * Pow256(3);
    assert Pow256(5) == 256 * Pow256(4);
    assert Pow256(6) == 256 * Pow256(5);
    assert Pow256(7) == 256 * Pow256(6);
  }

  /** The number in the `w` bytes after the first. */
  function ReadNumber(b: Bytes, w: nat): Read<nat> {
    if |b| < 1 + w then Err(ShortBytes) else Ok((FromBigEndian(b[1..1 + w]), b[1 + w..]))
  }

  lemma ReadNumberBack(code: Byte, n: nat, w: nat, rest: Bytes)
    requires n < Pow256(w)
    ensures ReadNumber([code] + BigEndian(n, w) + rest, w) == Ok((n, rest))
  {
    var b := [code] + BigEndian(n, w) + rest;
    assert b[1..1 + w] == BigEndian(n, w);
    assert b[1 + w..] == rest;
    BigEndianRoundTrip(n, w);
  }

  // ---------------------------------------------------------------- lengths

  /** A family of formats that carry a length: in the first byte, or in one, two or four bytes after it. */
  datatype Family = Family(fixFirst: Byte, fixCount: nat, code8: Option<Byte>, code16: Byte, code32: Byte)

  const STR := Family(0xa0, 32, Some(0xd9), 0xda, 0xdb)
  const ARRAY := Family(0x90, 16, None, 0xdc, 0xdd)
  const MAP := Family(0x80, 16, None, 0xde, 0xdf)
  const BIN := Family(0, 0, Some(0xc4), 0xc5, 0xc6)

  predicate Separate(f: Family) {
    && f.fixFirst + f.fixCount <= 256
    && f.fixCount <= 256
    && f.code16 != f.code32
    && f.code8 != Some(f.code16) && f.code8 != Some(f.code32)
    && !(f.fixFirst <= f.code16 < f.fixFirst + f.fixCount)
    && !(f.fixFirst <= f.code32 < f.fixFirst + f.fixCount)
    && (f.code8.Some? ==> !(f.fixFirst <= f.code8.value < f.fixFirst + f.fixCount))
  }

  function Header(f: Family, n: nat): (h: Bytes)
    requires Separate(f)
    ensures 1 <= |h| <= 5
  {
    if n < f.fixCount then [f.fixFirst + n]
    else if f.code8.Some? && n < 0x100 then [f.code8.value] + BigEndian(n, 1)
    else if n < 0x1_0000 then [f.code16] + BigEndian(n, 2)
    else [f.code32] + BigEndian(n % MAX_LENGTH, 4)
  }

  function ReadHeader(f: Family, b: Bytes): Read<nat> {
    if b == [] then Err(ShortBytes)
    else if f.fixFirst <= b[0] < f.fixFirst + f.fixCount then Ok((b[0] - f.fixFirst, b[1..]))
    else if f.code8 == Some(b[0]) then ReadNumber(b, 1)
    else if b[0] == f.code16 then ReadNumber(b, 2)
    else if b[0] == f.code32 then ReadNumber(b, 4)
    else Err(WrongType)
  }

  lemma HeaderRoundTrip(f: Family, n: nat, rest: Bytes)
    requires Separate(f) && n < MAX_LENGTH
    ensures ReadHeader(f, Header(f, n) + rest) == Ok((n, rest))
  {
    hide ReadNumber, BigEndian, Pow256;
    Powers();
    var b := Header(f, n) + rest;
    if n < f.fixCount {
      assert b[1..] == rest;
    } else if f.code8.Some? && n < 0x100 {
      ReadNumberBack(f.code8.value, n, 1, rest);
    } else if n < 0x1_0000 {
      ReadNumberBack(f.code16, n, 2, rest);
    } else {
      ReadNumberBack(f.code32, n, 4, rest);
    }
  }

  /** What a number field of `w` bytes can hold. */
  lemma ReadNumberBound(b: Bytes, w: nat)
    requires ReadNumber(b, w).Ok? && ReadNumber(b, w).value.1 == []
    ensures |b| == 1 + w && ReadNumber(b, w).value.0 < Pow256(w)
  {
    FromBigEndianBound(b[1..1 + w]);
  }

  /** No shorter header of the family stands for the length. */
  lemma HeaderIsShortest(f: Family, n: nat, h: Bytes)
    requires Separate(f) && ReadHeader(f, h) == Ok((n, []))
    ensures |Header(f, n)| <= |h|
  {
    hide ReadNumber, Pow256, BigEndian;
    Powers();
    if f.fixFirst <= h[0] < f.fixFirst + f.fixCount {
    } else if f.code8 == Some(h[0]) {
      ReadNumberBound(h, 1);
    } else if h[0] == f.code16 {
      ReadNumberBound(h, 2);
    } else {
      ReadNumberBound(h, 4);
    }
  }

  // ---------------------------------------------------------------- strings

  function EncodeString(s: Bytes): (b: Bytes)
    ensures |b| <= 5 + |s|
  {
    Header(STR, |s|) + s
  }

  function ReadBytes(f: Family, b: Bytes): Read<Bytes> {
    match ReadHeader(f, b)
    case Err(e) => Err(e)
    case Ok((n, rest)) => if |rest| < n then Err(ShortBytes) else Ok((rest[..n], rest[n..]))
  }

  function ReadString(b: Bytes): Read<Bytes> {
    ReadBytes(STR, b)
  }

  lemma StringRoundTrip(s: Bytes, rest: Bytes)
    requires |s| < MAX_LENGTH
    ensures ReadString(EncodeString(s) + rest) == Ok((s, rest))
  {
    hide ReadHeader, Header;
    HeaderRoundTrip(STR, |s|, s + rest);
    assert EncodeString(s) + rest == Header(STR, |s|) + (s + rest);
    assert (s + rest)[..|s|] == s && (s + rest)[|s|..] == rest;
  }

  /** A map key may be a string or a byte string. */
  function ReadKey(b: Bytes): Read<Bytes> {
    match ReadString(b)
    case Ok(r) => Ok(r)
    case Err(e) =>
      if e == WrongType && b != [] && (Some(b[0]) == BIN.code8 || b[0] == BIN.code16 || b[0] == BIN.code32)
      then ReadBytes(BIN, b) else Err(e)
  }

  // ---------------------------------------------------------------- nil

  const NIL: Byte := 0xc0

  predicate IsNil(b: Bytes) {
    b != [] && b[0] == NIL
  }

  // ---------------------------------------------------------------- integers

  const MAX_INT64: int := 0x7fff_ffff_ffff_ffff
  const MIN_INT64: int := -0x8000_0000_0000_0000

  predicate IsInt64(i: int) {
    MIN_INT64 <= i <= MAX_INT64
  }

  /** The two's complement of `i`, for words of `p` values. */
  function Complement(i: int, p: nat): nat
    requires -(p as int) <= i < p
  {
    if i < 0 then i + p else i
  }

  function FromComplement(n: nat, p: nat): int {
    if 2 * n < p then n else n - p
  }

  function EncodeInt64(i: int): (b: Bytes)
    requires IsInt64(i)
    ensures |b| <= 9
  {
    if 0 <= i < 0x80 then [i]
    else if -32 <= i < 0 then [0x100 + i]
    else if -0x80 <= i < 0 then [0xd0] + BigEndian(Complement(i, 0x100), 1)
    else if -0x8000 <= i < 0x8000 then [0xd1] + BigEndian(Complement(i, 0x1_0000), 2)
    else if -0x8000_0000 <= i < 0x8000_0000 then [0xd2] + BigEndian(Complement(i, MAX_LENGTH), 4)
    else [0xd3] + BigEndian(Complement(i, 0x1_0000_0000_0000_0000), 8)
  }

  function ReadSigned(b: Bytes, w: nat): Read<int> {
    match ReadNumber(b, w)
    case Err(e) => Err(e)
    case Ok((n, rest)) => Ok((FromComplement(n, Pow256(w)), rest))
  }

  function ReadUnsigned(b: Bytes, w: nat): Read<int> {
    match ReadNumber(b, w)
    case Err(e) => Err(e)
    case Ok((n, rest)) => if n > MAX_INT64 then Err(Overflow) else Ok((n, rest))
  }

  /** Any of the integer formats is accepted, as long as the value fits. */
  function ReadInt64(b: Bytes): Read<int> {
    if b == [] then Err(ShortBytes)
    else if b[0] < 0x80 then Ok((b[0], b[1..]))
    else if b[0] >= 0xe0 then Ok((b[0] as int - 0x100, b[1..]))
    else if b[0] == 0xd0 then ReadSigned(b, 1)
    else if b[0] == 0xd1 then ReadSigned(b, 2)
    else if b[0] == 0xd2 then ReadSigned(b, 4)
    else if b[0] == 0xd3 then ReadSigned(b, 8)
    else if b[0] == 0xcc then ReadUnsigned(b, 1)
    else if b[0] == 0xcd then ReadUnsigned(b, 2)
    else if b[0] == 0xce then ReadUnsigned(b, 4)
    else if b[0] == 0xcf then ReadUnsigned(b, 8)
    else Err(WrongType)
  }

  lemma ReadSignedBack(code: Byte, i: int, w: nat, p: nat, rest: Bytes)
    requires p == Pow256(w) && -(p as int) <= 2 * i < p
    ensures ReadSigned([code] + BigEndian(Complement(i, p), w) + rest, w) == Ok((i, rest))
  {
    hide Pow256, BigEndian, ReadNumber;
    ReadNumberBack(code, Complement(i, p), w, rest);
  }

  lemma Int64RoundTrip(i: int, rest: Bytes)
    requires IsInt64(i)
    ensures ReadInt64(EncodeInt64(i) + rest) == Ok((i, rest))
  {
    hide ReadSigned, BigEndian, Pow256, Complement, ReadUnsigned;
    Powers();
    var b := EncodeInt64(i) + rest;
    if -32 <= i < 0x80 {
      assert b[1..] == rest;
    } else if -0x80 <= i < 0 {
      ReadSignedBack(0xd0, i, 1, 0x100, rest);
    } else if -0x8000 <= i < 0x8000 {
      ReadSignedBack(0xd1, i, 2, 0x1_0000, rest);
    } else if -0x8000_0000 <= i < 0x8000_0000 {
      ReadSignedBack(0xd2, i, 4, MAX_LENGTH, rest);
    } else {
      ReadSignedBack(0xd3, i, 8, 0x1_0000_0000_0000_0000, rest);
    }
  }

  /** No shorter signed form stands for the integer. */
  lemma Int64IsShortest(i: int, h: Bytes)
    requires IsInt64(i) && ReadInt64(h) == Ok((i, [])) && !(0xcc <= h[0] <= 0xcf)
    ensures |EncodeInt64(i)| <= |h|
  {
    hide ReadNumber, Pow256, BigEndian, Complement;
    Powers();
    if h[0] == 0xd0 {
      ReadNumberBound(h, 1);
    } else if h[0] == 0xd1 {
      ReadNumberBound(h, 2);
    } else if h[0] == 0xd2 {
      ReadNumberBound(h, 4);
    } else if h[0] == 0xd3 {
      ReadNumberBound(h, 8);
    }
  }

  // ---------------------------------------------------------------- skipping

  /** Bytes an object takes before its elements, and how many objects follow as its elements. */
  function ObjectSize(b: Bytes): (r: Result<(nat, nat), DecodeError>)
    requires b != []
    ensures r.Ok? ==> r.value.0 >= 1
  {
    var c := b[0];
    if c < 0x80 || c >= 0xe0 || c == NIL || c == 0xc2 || c == 0xc3 then Ok((1, 0))
    else if c < 0x90 then Ok((1, 2 * (c - 0x80)))
    else if c < 0xa0 then Ok((1, c - 0x90))
    else if c < 0xc0 then Ok((1 + c - 0xa0, 0))
    else if c == 0xcc || c == 0xd0 then Ok((2, 0))
    else if c == 0xcd || c == 0xd1 then Ok((3, 0))
    else if c == 0xca || c == 0xce || c == 0xd2 then Ok((5, 0))
    else if c == 0xcb || c == 0xcf || c == 0xd3 then Ok((9, 0))
    else if c == 0xd4 then Ok((3, 0))
    else if c == 0xd5 then Ok((4, 0))
    else if c == 0xd6 then Ok((6, 0))
    else if c == 0xd7 then Ok((10, 0))
    else if c == 0xd8 then Ok((18, 0))
    else if c == 0xc4 || c == 0xd9 then Sized(b, 1, 0, 1, 0)
    else if c == 0xc5 || c == 0xda then Sized(b, 2, 0, 1, 0)
    else if c == 0xc6 || c == 0xdb then Sized(b, 4, 0, 1, 0)
    else if c == 0xc7 then Sized(b, 1, 1, 1, 0)
    else if c == 0xc8 then Sized(b, 2, 1, 1, 0)
    else if c == 0xc9 then Sized(b, 4, 1, 1, 0)
    else if c == 0xdc then Sized(b, 2, 0, 0, 1)
    else if c == 0xdd then Sized(b, 4, 0, 0, 1)
    else if c == 0xde then Sized(b, 2, 0, 0, 2)
    else if c == 0xdf then Sized(b, 4, 0, 0, 2)
    else Err(InvalidPrefix)
  }

  /** An object whose length stands in `w` bytes: `extra` more, then that many bytes or elements. */
  function Sized(b: Bytes, w: nat, extra: nat, bytesEach: nat, elementsEach: nat): (r: Result<(nat, nat), DecodeError>)
    requires b != []
    ensures r.Ok? ==> r.value.0 >= 1
  {
    match ReadNumber(b, w)
    case Err(e) => Err(e)
    case Ok((n, _)) => Ok((1 + w + extra + n * bytesEach, n * elementsEach))
  }

  /** The bytes after the next `n` objects. */
  function Skip(b: Bytes, n: nat): Result<Bytes, DecodeError>
    decreases |b|
  {
    if n == 0 then Ok(b)
    else if b == [] then Err(ShortBytes)
    else match ObjectSize(b)
      case Err(e) => Err(e)
      case Ok((size, elements)) =>
        if |b| < size then Err(ShortBytes) else Skip(b[size..], elements + n - 1)
  }

  // ---------------------------------------------------------------- what is skipped

  const EXT := Family(0, 0, Some(0xc7), 0xc8, 0xc9)

  /**
   Any MessagePack object. `Plain` is nil, a boolean, a number or an extension of fixed size: one byte that
   tells how many follow. The items of a `Dict` are its keys and values in turn.
   */
  datatype Object =
    | Plain(head: Byte, body: Bytes)
    | Text(bytes: Bytes)
    | Binary(bytes: Bytes)
    | Extension(kind: Byte, bytes: Bytes)
    | List(items: seq<Object>)
    | Dict(items: seq<Object>)

  /** How many bytes follow the first byte of a plain object. */
  function PlainBody(c: Byte): Option<nat> {
    if c < 0x80 || c >= 0xe0 || c == NIL || c == 0xc2 || c == 0xc3 then Some(0)
    else if c == 0xcc || c == 0xd0 then Some(1)
    else if c == 0xcd || c == 0xd1 || c == 0xd4 then Some(2)
    else if c == 0xd5 then Some(3)
    else if c == 0xca || c == 0xce || c == 0xd2 then Some(4)
    else if c == 0xd6 then Some(5)
    else if c == 0xcb || c == 0xcf || c == 0xd3 then Some(8)
    else if c == 0xd7 then Some(9)
    else if c == 0xd8 then Some(17)
    else None
  }

  predicate WellFormed(o: Object) {
    match o
    case Plain(head, body) => PlainBody(head) == Some(|body|)
    case Text(bytes) => |bytes| < MAX_LENGTH
    case Binary(bytes) => |bytes| < MAX_LENGTH
    case Extension(_, bytes) => |bytes| < MAX_LENGTH
    case List(items) => |items| < MAX_LENGTH && forall i :: 0 <= i < |items| ==> WellFormed(items[i])
    case Dict(items) =>
      |items| % 2 == 0 && |items| / 2 < MAX_LENGTH && forall i :: 0 <= i < |items| ==> WellFormed(items[i])
  }

  function EncodeObject(o: Object): Bytes {
    match o
    case Plain(head, body) => [head] + body
    case Text(bytes) => EncodeString(bytes)
    case Binary(bytes) => Header(BIN, |bytes|) + bytes
    case Extension(kind, bytes) => Header(EXT, |bytes|) + ([kind] + bytes)
    case List(items) => Header(ARRAY, |items|) + EncodeObjects(items)
    case Dict(items) => Header(MAP, |items| / 2) + EncodeObjects(items)
  }

  function EncodeObjects(items: seq<Object>): Bytes {
    if items == [] then [] else EncodeObject(items[0]) + EncodeObjects(items[1..])
  }

  /** The size of an object that begins with a length header, and the number of objects inside it. */
  lemma SizeOfHeader(f: Family, n: nat, rest: Bytes)
    requires f in {STR, BIN, EXT, ARRAY, MAP} && n < MAX_LENGTH
    ensures var h := |Header(f, n)|;
            ObjectSize(Header(f, n) + rest) ==
            if f == STR || f == BIN then Ok((h + n, 0))
            else if f == EXT then Ok((h + 1 + n, 0))
            else if f == ARRAY then Ok((h, n)) else Ok((h, 2 * n))
  {
    hide ReadNumber, BigEndian, Pow256;
    Powers();
    if n >= f.fixCount {
      if f.code8.Some? && n < 0x100 {
        ReadNumberBack(f.code8.value, n, 1, rest);
      } else if n < 0x1_0000 {
        ReadNumberBack(f.code16, n, 2, rest);
      } else {
        ReadNumberBack(f.code32, n, 4, rest);
      }
    }
  }

  lemma SkipStep(b: Bytes, size: nat, elements: nat, n: nat, rest: Bytes)
    requires b != [] && ObjectSize(b) == Ok((size, elements)) && size <= |b| && b[size..] == rest
    ensures Skip(b, n + 1) == Skip(rest, elements + n)
  {
    hide ObjectSize;
  }

  lemma SkipHeaded(f: Family, n: nat, body: Bytes, rest: Bytes, k: nat)
    requires f in {STR, BIN, EXT} && n < MAX_LENGTH && |body| == n + if f == EXT then 1 else 0
    ensures Skip(Header(f, n) + body + rest, k + 1) == Skip(rest, k)
  {
    hide Skip, ObjectSize, Header;
    var b := Header(f, n) + body + rest;
    assert b == Header(f, n) + (body + rest);
    SizeOfHeader(f, n, body + rest);
    SkipStep(b, |Header(f, n)| + |body|, 0, k, rest);
  }

  lemma SkipNested(f: Family, n: nat, body: Bytes, rest: Bytes, k: nat)
    requires f in {ARRAY, MAP} && n < MAX_LENGTH
    ensures Skip(Header(f, n) + body + rest, k + 1) == Skip(body + rest, k + if f == ARRAY then n else 2 * n)
  {
    hide Skip, ObjectSize, Header;
    var b := Header(f, n) + body + rest;
    assert b == Header(f, n) + (body + rest);
    SizeOfHeader(f, n, body + rest);
    SkipStep(b, |Header(f, n)|, if f == ARRAY then n else 2 * n, k, body + rest);
  }

  /** Skipping passes over exactly one object, whatever follows it. */
  lemma {:induction false} SkipObject(o: Object, rest: Bytes, n: nat)
    requires WellFormed(o)
    ensures Skip(EncodeObject(o) + rest, n + 1) == Skip(rest, n)
    decreases o
  {
    hide Skip, ObjectSize, Header, EncodeObjects;
    match o {
      case Plain(head, body) =>
        var b := EncodeObject(o) + rest;
        assert b == [head] + (body + rest);
        PlainSize(head, body + rest);
        SkipStep(b, 1 + |body|, 0, n, rest);
      case Text(bytes) => SkipHeaded(STR, |bytes|, bytes, rest, n);
      case Binary(bytes) => SkipHeaded(BIN, |bytes|, bytes, rest, n);
      case Extension(kind, bytes) => SkipHeaded(EXT, |bytes|, [kind] + bytes, rest, n);
      case List(items) =>
        SkipNested(ARRAY, |items|, EncodeObjects(items), rest, n);
        SkipObjects(items, rest, n);
      case Dict(items) =>
        SkipNested(MAP, |items| / 2, EncodeObjects(items), rest, n);
        SkipObjects(items, rest, n);
    }
  }

  lemma PlainSize(head: Byte, rest: Bytes)
    requires PlainBody(head).Some?
    ensures ObjectSize([head] + rest) == Ok((1 + PlainBody(head).value, 0))
  {
  }

  lemma {:induction false} SkipObjects(items: seq<Object>, rest: Bytes, n: nat)
    requires forall i :: 0 <= i < |items| ==> WellFormed(items[i])
    ensures Skip(EncodeObjects(items) + rest, |items| + n) == Skip(rest, n)
    decreases items
  {
    hide Skip, EncodeObject, WellFormed;
    if items == [] {
      assert EncodeObjects(items) + rest == rest;
    } else {
      var tail := EncodeObjects(items[1..]) + rest;
      assert EncodeObjects(items) + rest == EncodeObject(items[0]) + tail;
      SkipObject(items[0], tail, |items| - 1 + n);
      SkipObjects(items[1..], rest, n);
    }
  }

  /** Skipping one object leaves exactly what follows it. */
  lemma SkipOne(o: Object, rest: Bytes)
    requires WellFormed(o)
    ensures Skip(EncodeObject(o) + rest, 1) == Ok(rest)
  {
    SkipObject(o, rest, 0);
  }
}
