/**
 The binary form of DKG public keys: an `Mpk` is a node's ID and its list of keys, an `Mpks` maps node
 IDs to optional `Mpk`s. The encoding and decoding functions are the specification; the methods are
 the append and count-down loops of the codec, proved equal to them. A nil map or list is its empty
 one.
 */
module MpksCodec {
  import opened Common
  import opened MsgPack
  import opened KeyOrder

  datatype Mpk = Mpk(id: Bytes, mpk: seq<Bytes>)

  type Entries = map<Bytes, Option<Mpk>>

  const ID: Bytes := [0x49, 0x44]
  const MPK: Bytes := [0x4d, 0x70, 0x6b]
  const MPKS: Bytes := [0x4d, 0x70, 0x6b, 0x73]

  const NO_MPK := Mpk([], [])

  // ---------------------------------------------------------------- encoding

  function EncodeStrings(ss: seq<Bytes>): Bytes {
    if ss == [] then [] else EncodeString(ss[0]) + EncodeStrings(ss[1..])
  }

  function EncodeMpk(m: Mpk): Bytes {
    [0x82, 0xa2, 0x49, 0x44] + EncodeString(m.id) +
    ([0xa3, 0x4d, 0x70, 0x6b] + Header(ARRAY, |m.mpk| % MAX_LENGTH) + EncodeStrings(m.mpk))
  }

  function EncodeValue(v: Option<Mpk>): Bytes {
    if v.None? then [NIL] else EncodeMpk(v.value)
  }

  function EncodeEntries(m: Entries, keys: seq<Bytes>): Bytes
    requires forall k :: k in keys ==> k in m
  {
    if keys == [] then [] else EncodeString(keys[0]) + EncodeValue(m[keys[0]]) + EncodeEntries(m, keys[1..])
  }

  /** The entries of `m` in the order of `keys`. */
  function EncodeMpks(m: Entries, keys: seq<Bytes>): Bytes
    requires forall k :: k in keys ==> k in m
  {
    [0x81, 0xa4, 0x4d, 0x70, 0x6b, 0x73] + Header(MAP, |m| % MAX_LENGTH) + EncodeEntries(m, keys)
  }

  /** `keys` lists the keys of `m`, each once. */
  ghost predicate Lists(keys: seq<Bytes>, m: Entries) {
    multiset(keys) == multiset(m.Keys)
  }

  // ---------------------------------------------------------------- decoding

  function ReadStrings(b: Bytes, n: nat): Read<seq<Bytes>> {
    if n == 0 then Ok(([], b))
    else match ReadString(b)
      case Err(e) => Err(e)
      case Ok((s, b1)) =>
        match ReadStrings(b1, n - 1)
        case Err(e) => Err(e)
        case Ok((ss, b2)) => Ok(([s] + ss, b2))
  }

  /** The value of one field, stored in the receiver; an unknown field is skipped. */
  function ReadMpkField(z: Mpk, key: Bytes, b: Bytes): Read<Mpk> {
    if key == ID then
      match ReadString(b)
      case Err(e) => Err(e)
      case Ok((s, b1)) => Ok((z.(id := s), b1))
    else if key == MPK then
      match ReadHeader(ARRAY, b)
      case Err(e) => Err(e)
      case Ok((n, b1)) =>
        match ReadStrings(b1, n)
        case Err(e) => Err(e)
        case Ok((ss, b2)) => Ok((z.(mpk := ss), b2))
    else
      match Skip(b, 1)
      case Err(e) => Err(e)
      case Ok(b1) => Ok((z, b1))
  }

  function ReadMpkFields(z: Mpk, b: Bytes, n: nat): Read<Mpk>
    decreases n
  {
    if n == 0 then Ok((z, b))
    else match ReadKey(b)
      case Err(e) => Err(e)
      case Ok((key, b1)) =>
        match ReadMpkField(z, key, b1)
        case Err(e) => Err(e)
        case Ok((z', b2)) => ReadMpkFields(z', b2, n - 1)
  }

  function DecodeMpk(z: Mpk, b: Bytes): Read<Mpk> {
    match ReadHeader(MAP, b)
    case Err(e) => Err(e)
    case Ok((n, b1)) => ReadMpkFields(z, b1, n)
  }

  function DecodeValue(b: Bytes): Read<Option<Mpk>> {
    if IsNil(b) then Ok((None, b[1..]))
    else match DecodeMpk(NO_MPK, b)
      case Err(e) => Err(e)
      case Ok((m, b1)) => Ok((Some(m), b1))
  }

  /** The receiver as decoding leaves it, and the remaining bytes or the first error. */
  datatype Filled = Filled(entries: Entries, rest: Result<Bytes, DecodeError>)

  function ReadEntries(m: Entries, b: Bytes, n: nat): Filled
    decreases n
  {
    if n == 0 then Filled(m, Ok(b))
    else match ReadString(b)
      case Err(e) => Filled(m, Err(e))
      case Ok((k, b1)) =>
        match DecodeValue(b1)
        case Err(e) => Filled(m, Err(e))
        case Ok((v, b2)) => ReadEntries(m[k := v], b2, n - 1)
  }

  function ReadMpksField(z: Entries, key: Bytes, b: Bytes): Filled {
    if key == MPKS then
      match ReadHeader(MAP, b)
      case Err(e) => Filled(z, Err(e))
      case Ok((n, b1)) => ReadEntries(map[], b1, n)
    else Filled(z, Skip(b, 1))
  }

  function ReadMpksFields(z: Entries, b: Bytes, n: nat): Filled
    decreases n
  {
    if n == 0 then Filled(z, Ok(b))
    else match ReadKey(b)
      case Err(e) => Filled(z, Err(e))
      case Ok((key, b1)) =>
        var f := ReadMpksField(z, key, b1);
        match f.rest
        case Err(_) => f
        case Ok(b2) => ReadMpksFields(f.entries, b2, n - 1)
  }

  function DecodeMpks(z: Entries, b: Bytes): Filled {
    match ReadHeader(MAP, b)
    case Err(e) => Filled(z, Err(e))
    case Ok((n, b1)) => ReadMpksFields(z, b1, n)
  }

  // ---------------------------------------------------------------- round trips

  /** Lengths that a 32-bit number can carry. */
  predicate FitsMpk(m: Mpk) {
    |m.id| < MAX_LENGTH && |m.mpk| < MAX_LENGTH && forall s :: s in m.mpk ==> |s| < MAX_LENGTH
  }

  predicate Fits(m: Entries) {
    |m| < MAX_LENGTH && forall k :: k in m ==> |k| < MAX_LENGTH && (m[k].Some? ==> FitsMpk(m[k].value))
  }

  lemma ReadStringsCons(b: Bytes, n: nat, s: Bytes, b1: Bytes, ss: seq<Bytes>, rest: Bytes)
    requires n > 0 && ReadString(b) == Ok((s, b1)) && ReadStrings(b1, n - 1) == Ok((ss, rest))
    ensures ReadStrings(b, n) == Ok(([s] + ss, rest))
  {
    hide ReadString;
  }

  lemma EncodeStringsCons(ss: seq<Bytes>, rest: Bytes)
    requires ss != []
    ensures EncodeStrings(ss) + rest == EncodeString(ss[0]) + (EncodeStrings(ss[1..]) + rest)
  {
    hide EncodeString;
  }

  lemma {:induction false} StringsRoundTrip(ss: seq<Bytes>, rest: Bytes)
    requires forall s :: s in ss ==> |s| < MAX_LENGTH
    ensures ReadStrings(EncodeStrings(ss) + rest, |ss|) == Ok((ss, rest))
  {
    hide EncodeString, ReadString, EncodeStrings, ReadStrings;
    if ss == [] {
      ReadNoStrings(rest);
    } else {
      var tail := EncodeStrings(ss[1..]) + rest;
      EncodeStringsCons(ss, rest);
      assert ss == [ss[0]] + ss[1..];
      StringRoundTrip(ss[0], tail);
      StringsRoundTrip(ss[1..], rest);
      ReadStringsCons(EncodeStrings(ss) + rest, |ss|, ss[0], tail, ss[1..], rest);
    }
  }

  lemma ReadNoStrings(rest: Bytes)
    ensures ReadStrings(EncodeStrings([]) + rest, 0) == Ok(([], rest))
  {
    assert EncodeStrings([]) + rest == rest;
  }

  /** The literal bytes before the fields are a map header and field names. */
  lemma Names(rest: Bytes)
    ensures ReadHeader(MAP, [0x82] + rest) == Ok((2, rest)) && ReadHeader(MAP, [0x81] + rest) == Ok((1, rest))
    ensures ReadKey([0xa2, 0x49, 0x44] + rest) == Ok((ID, rest))
    ensures ReadKey([0xa3, 0x4d, 0x70, 0x6b] + rest) == Ok((MPK, rest))
    ensures ReadKey([0xa4, 0x4d, 0x70, 0x6b, 0x73] + rest) == Ok((MPKS, rest))
  {
    hide Pow256, BigEndian, FromBigEndian;
    HeaderRoundTrip(MAP, 2, rest);
    HeaderRoundTrip(MAP, 1, rest);
    StringRoundTrip(ID, rest);
    assert EncodeString(ID) == [0xa2, 0x49, 0x44];
    StringRoundTrip(MPK, rest);
    assert EncodeString(MPK) == [0xa3, 0x4d, 0x70, 0x6b];
    StringRoundTrip(MPKS, rest);
    assert EncodeString(MPKS) == [0xa4, 0x4d, 0x70, 0x6b, 0x73];
  }

  lemma IdFieldBack(z: Mpk, id: Bytes, rest: Bytes)
    requires |id| < MAX_LENGTH
    ensures ReadMpkField(z, ID, EncodeString(id) + rest) == Ok((z.(id := id), rest))
  {
    hide ReadString, EncodeString;
    StringRoundTrip(id, rest);
  }

  lemma MpkFieldBack(z: Mpk, ss: seq<Bytes>, rest: Bytes)
    requires |ss| < MAX_LENGTH && forall s :: s in ss ==> |s| < MAX_LENGTH
    ensures ReadMpkField(z, MPK, Header(ARRAY, |ss|) + EncodeStrings(ss) + rest) == Ok((z.(mpk := ss), rest))
  {
    hide ReadStrings, EncodeStrings, ReadHeader, Header, Skip, ReadString;
    HeaderRoundTrip(ARRAY, |ss|, EncodeStrings(ss) + rest);
    assert Header(ARRAY, |ss|) + EncodeStrings(ss) + rest == Header(ARRAY, |ss|) + (EncodeStrings(ss) + rest);
    StringsRoundTrip(ss, rest);
  }

  /** Decoding overwrites both fields of the receiver and stops at the first byte after the record. */
  lemma MpkRoundTrip(z: Mpk, m: Mpk, rest: Bytes)
    requires FitsMpk(m)
    ensures DecodeMpk(z, EncodeMpk(m) + rest) == Ok((m, rest))
  {
    hide ReadMpkField, EncodeStrings, ReadHeader, Header, EncodeString, ReadKey;
    var list := Header(ARRAY, |m.mpk|) + EncodeStrings(m.mpk);
    var fromMpk := [0xa3, 0x4d, 0x70, 0x6b] + (list + rest);
    var fromId := [0xa2, 0x49, 0x44] + (EncodeString(m.id) + fromMpk);
    assert EncodeMpk(m) + rest == [0x82] + fromId;
    Names(fromId);
    Names(EncodeString(m.id) + fromMpk);
    IdFieldBack(z, m.id, fromMpk);
    Names(list + rest);
    MpkFieldBack(z.(id := m.id), m.mpk, rest);
    assert ReadMpkFields(m, rest, 0) == Ok((m, rest));
    assert ReadMpkFields(z.(id := m.id), fromMpk, 1) == Ok((m, rest));
  }

  // ---------------------------------------------------------------- fields in any order

  /** A field as some encoder may write it: one of the record's two, or one this decoder does not know. */
  datatype Field = IdField(id: Bytes) | KeysField(mpk: seq<Bytes>) | OtherField(name: Bytes, value: Object)

  predicate FitsField(f: Field) {
    match f
    case IdField(id) => |id| < MAX_LENGTH
    case KeysField(mpk) => |mpk| < MAX_LENGTH && forall s :: s in mpk ==> |s| < MAX_LENGTH
    case OtherField(name, value) => |name| < MAX_LENGTH && name != ID && name != MPK && WellFormed(value)
  }

  function EncodeField(f: Field): Bytes {
    match f
    case IdField(id) => EncodeString(ID) + EncodeString(id)
    case KeysField(mpk) => EncodeString(MPK) + (Header(ARRAY, |mpk|) + EncodeStrings(mpk))
    case OtherField(name, value) => EncodeString(name) + EncodeObject(value)
  }

  function EncodeFields(fs: seq<Field>): Bytes {
    if fs == [] then [] else EncodeField(fs[0]) + EncodeFields(fs[1..])
  }

  /** What a field does to the receiver. */
  function Applied(z: Mpk, f: Field): Mpk {
    match f
    case IdField(id) => z.(id := id)
    case KeysField(mpk) => z.(mpk := mpk)
    case OtherField(_, _) => z
  }

  function AllApplied(z: Mpk, fs: seq<Field>): Mpk
    decreases fs
  {
    if fs == [] then z else AllApplied(Applied(z, fs[0]), fs[1..])
  }

  lemma KeyBack(name: Bytes, rest: Bytes)
    requires |name| < MAX_LENGTH
    ensures ReadKey(EncodeString(name) + rest) == Ok((name, rest))
  {
    hide ReadString, EncodeString;
    StringRoundTrip(name, rest);
  }

  lemma FieldBack(z: Mpk, f: Field, rest: Bytes, n: nat)
    requires FitsField(f)
    ensures ReadMpkFields(z, EncodeField(f) + rest, n + 1) == ReadMpkFields(Applied(z, f), rest, n)
  {
    hide EncodeString, EncodeStrings, ReadKey, ReadMpkField, Header, EncodeObject, WellFormed;
    var b := EncodeField(f) + rest;
    match f {
      case IdField(id) =>
        assert b == EncodeString(ID) + (EncodeString(id) + rest);
        KeyBack(ID, EncodeString(id) + rest);
        IdFieldBack(z, id, rest);
      case KeysField(mpk) =>
        var list := Header(ARRAY, |mpk|) + EncodeStrings(mpk);
        assert b == EncodeString(MPK) + (list + rest);
        KeyBack(MPK, list + rest);
        MpkFieldBack(z, mpk, rest);
      case OtherField(name, value) =>
        assert b == EncodeString(name) + (EncodeObject(value) + rest);
        KeyBack(name, EncodeObject(value) + rest);
        OtherFieldBack(z, name, value, rest);
    }
  }

  lemma OtherFieldBack(z: Mpk, name: Bytes, value: Object, rest: Bytes)
    requires WellFormed(value) && name != ID && name != MPK
    ensures ReadMpkField(z, name, EncodeObject(value) + rest) == Ok((z, rest))
  {
    hide Skip, WellFormed, EncodeObject;
    SkipOne(value, rest);
  }

  /** Fields decode one after the other: a later one replaces an earlier, an unknown one changes nothing. */
  lemma {:induction false} FieldsRoundTrip(z: Mpk, fs: seq<Field>, rest: Bytes)
    requires forall f :: f in fs ==> FitsField(f)
    ensures ReadMpkFields(z, EncodeFields(fs) + rest, |fs|) == Ok((AllApplied(z, fs), rest))
    decreases fs
  {
    hide ReadMpkFields, EncodeField, FitsField, Applied;
    if fs == [] {
      assert EncodeFields(fs) + rest == rest;
      NoFields(z, rest);
    } else {
      var tail := EncodeFields(fs[1..]) + rest;
      assert EncodeFields(fs) + rest == EncodeField(fs[0]) + tail;
      FieldBack(z, fs[0], tail, |fs| - 1);
      FieldsRoundTrip(Applied(z, fs[0]), fs[1..], rest);
    }
  }

  lemma NoFields(z: Mpk, rest: Bytes)
    ensures ReadMpkFields(z, rest, 0) == Ok((z, rest))
  {
  }

  /** The fields say what `m` says. */
  predicate Describe(fs: seq<Field>, m: Mpk) {
    && (forall f :: f in fs && f.IdField? ==> f.id == m.id)
    && (forall f :: f in fs && f.KeysField? ==> f.mpk == m.mpk)
  }

  lemma {:induction false} AllAppliedIs(z: Mpk, fs: seq<Field>, m: Mpk)
    requires Describe(fs, m)
    ensures AllApplied(z, fs).id == (if IdField(m.id) in fs then m.id else z.id)
    ensures AllApplied(z, fs).mpk == (if KeysField(m.mpk) in fs then m.mpk else z.mpk)
    decreases fs
  {
    if fs != [] {
      assert fs == [fs[0]] + fs[1..];
      AllAppliedIs(Applied(z, fs[0]), fs[1..], m);
    }
  }

  /**
   A record whose two fields come in any order, with any unknown fields before, between and after them, decodes
   to the record, and exactly the bytes after it are left.
   */
  lemma FieldOrderDoesNotMatter(z: Mpk, m: Mpk, fs: seq<Field>, rest: Bytes)
    requires |fs| < MAX_LENGTH && forall f :: f in fs ==> FitsField(f)
    requires Describe(fs, m) && IdField(m.id) in fs && KeysField(m.mpk) in fs
    ensures DecodeMpk(z, Header(MAP, |fs|) + EncodeFields(fs) + rest) == Ok((m, rest))
  {
    hide ReadMpkFields, EncodeFields, ReadHeader, Header, FitsField, Describe, AllApplied;
    assert Header(MAP, |fs|) + EncodeFields(fs) + rest == Header(MAP, |fs|) + (EncodeFields(fs) + rest);
    HeaderRoundTrip(MAP, |fs|, EncodeFields(fs) + rest);
    FieldsRoundTrip(z, fs, rest);
    AllAppliedIs(z, fs, m);
  }

  lemma ValueRoundTrip(v: Option<Mpk>, rest: Bytes)
    requires v.Some? ==> FitsMpk(v.value)
    ensures DecodeValue(EncodeValue(v) + rest) == Ok((v, rest))
  {
    hide DecodeMpk;
    if v.Some? {
      MpkRoundTrip(NO_MPK, v.value, rest);
    }
  }

  /** `acc` with the entries of `m` under `keys` written over it. */
  function Overlay(acc: Entries, m: Entries, keys: seq<Bytes>): Entries
    requires forall k :: k in keys ==> k in m
  {
    map k | k in acc.Keys + (set j | j in keys) :: if k in keys then m[k] else acc[k]
  }

  lemma {:induction false} EntriesRoundTrip(acc: Entries, m: Entries, keys: seq<Bytes>, rest: Bytes)
    requires Fits(m) && forall k :: k in keys ==> k in m
    ensures ReadEntries(acc, EncodeEntries(m, keys) + rest, |keys|) == Filled(Overlay(acc, m, keys), Ok(rest))
    decreases keys
  {
    hide DecodeValue, EncodeValue, EncodeString, ReadString, FitsMpk, Overlay;
    OverlayStep(acc, m, keys);
    if keys == [] {
      assert [] + rest == rest;
    } else {
      var k, tail := keys[0], EncodeEntries(m, keys[1..]) + rest;
      assert EncodeEntries(m, keys) + rest == EncodeString(k) + (EncodeValue(m[k]) + tail);
      StringRoundTrip(k, EncodeValue(m[k]) + tail);
      ValueRoundTrip(m[k], tail);
      EntriesRoundTrip(acc[k := m[k]], m, keys[1..], rest);
    }
  }

  lemma OverlayStep(acc: Entries, m: Entries, keys: seq<Bytes>)
    requires forall k :: k in keys ==> k in m
    ensures Overlay(acc, m, keys) == if keys == [] then acc else Overlay(acc[keys[0] := m[keys[0]]], m, keys[1..])
  {
    assert keys != [] ==> keys == [keys[0]] + keys[1..];
  }

  lemma MpksFieldBack(z: Entries, m: Entries, keys: seq<Bytes>, rest: Bytes)
    requires Fits(m) && |keys| == |m| && forall k :: k in keys <==> k in m
    ensures ReadMpksField(z, MPKS, Header(MAP, |m|) + (EncodeEntries(m, keys) + rest)) == Filled(m, Ok(rest))
  {
    hide ReadEntries, EncodeEntries, ReadHeader, Header, Fits, Skip;
    FitsSize(m);
    HeaderRoundTrip(MAP, |m|, EncodeEntries(m, keys) + rest);
    EntriesRoundTrip(map[], m, keys, rest);
    assert m == Overlay(map[], m, keys);
  }

  /** Decoding an encoded map, in whatever order its entries were written, gives it back, whatever the receiver held. */
  lemma MpksRoundTrip(z: Entries, m: Entries, keys: seq<Bytes>, rest: Bytes)
    requires Fits(m) && Lists(keys, m)
    ensures forall k :: k in keys ==> k in m
    ensures DecodeMpks(z, EncodeMpks(m, keys) + rest) == Filled(m, Ok(rest))
  {
    hide ReadMpksField, EncodeEntries, ReadHeader, Header, ReadKey, Fits, Lists;
    ListedKeys(m, keys);
    FitsSize(m);
    var entries := Header(MAP, |m|) + (EncodeEntries(m, keys) + rest);
    assert EncodeMpks(m, keys) + rest == [0x81] + ([0xa4, 0x4d, 0x70, 0x6b, 0x73] + entries);
    Names([0xa4, 0x4d, 0x70, 0x6b, 0x73] + entries);
    Names(entries);
    MpksFieldBack(z, m, keys, rest);
    assert ReadMpksFields(m, rest, 0) == Filled(m, Ok(rest));
  }

  lemma FitsSize(m: Entries)
    requires Fits(m)
    ensures |m| < MAX_LENGTH
  {
  }

  lemma ListedKeys(m: Entries, keys: seq<Bytes>)
    requires Lists(keys, m)
    ensures |keys| == |m| && forall k :: k in keys <==> k in m
  {
    assert |keys| == |multiset(keys)| == |multiset(m.Keys)| == |m.Keys|;
    forall k ensures k in keys <==> k in m { assert k in keys <==> k in multiset(keys); }
  }

  /** What is written when the runtime enumerates the map as `keys`: its entries in sorted order. */
  ghost function SortedEncoding(m: Entries, keys: seq<Bytes>): Bytes
    requires Lists(keys, m)
  {
    ListedKeys(m, SortKeys(keys));
    EncodeMpks(m, SortKeys(keys))
  }

  /** However the runtime enumerates the map, the encoding is the same. */
  lemma EncodingIgnoresMapOrder(m: Entries, one: seq<Bytes>, other: seq<Bytes>)
    requires Lists(one, m) && Lists(other, m)
    ensures SortedEncoding(m, one) == SortedEncoding(m, other)
  {
    hide EncodeMpks, SortKeys, Sorted;
    SortKeysSorted(one);
    SortKeysSorted(other);
    SortedUnique(SortKeys(one), SortKeys(other));
  }

  // ---------------------------------------------------------------- size bounds

  function StringsSize(ss: seq<Bytes>): nat {
    if ss == [] then 0 else 5 + |ss[0]| + StringsSize(ss[1..])
  }

  function MpkSize(m: Mpk): nat {
    1 + 3 + 5 + |m.id| + 4 + 5 + StringsSize(m.mpk)
  }

  function ValueSize(v: Option<Mpk>): nat {
    if v.None? then 1 else MpkSize(v.value)
  }

  function EntriesSize(m: Entries, keys: seq<Bytes>): nat
    requires forall k :: k in keys ==> k in m
  {
    if keys == [] then 0 else 5 + |keys[0]| + ValueSize(m[keys[0]]) + EntriesSize(m, keys[1..])
  }

  function MpksSize(m: Entries, keys: seq<Bytes>): nat
    requires forall k :: k in keys ==> k in m
  {
    1 + 5 + 5 + EntriesSize(m, keys)
  }

  lemma {:induction false} StringsFit(ss: seq<Bytes>)
    ensures |EncodeStrings(ss)| <= StringsSize(ss)
  {
    if ss != [] { StringsFit(ss[1..]); }
  }

  /** The encoding of a record is never longer than its size estimate. */
  lemma MpkFitsItsSize(m: Mpk)
    ensures |EncodeMpk(m)| <= MpkSize(m)
  {
    StringsFit(m.mpk);
  }

  lemma {:induction false} EntriesFit(m: Entries, keys: seq<Bytes>)
    requires forall k :: k in keys ==> k in m
    ensures |EncodeEntries(m, keys)| <= EntriesSize(m, keys)
  {
    if keys != [] {
      EntriesFit(m, keys[1..]);
      if m[keys[0]].Some? { MpkFitsItsSize(m[keys[0]].value); }
    }
  }

  lemma {:induction false} EntriesSizeConcat(m: Entries, one: seq<Bytes>, two: seq<Bytes>)
    requires forall k :: k in one + two ==> k in m
    ensures forall k :: k in one || k in two ==> k in m
    ensures EntriesSize(m, one + two) == EntriesSize(m, one) + EntriesSize(m, two)
  {
    forall k | k in one || k in two ensures k in m { assert k in one + two; }
    if one == [] {
      assert one + two == two;
    } else {
      assert (one + two)[1..] == one[1..] + two;
      EntriesSizeConcat(m, one[1..], two);
    }
  }

  /** The size estimate does not depend on the order in which the map is walked. */
  lemma {:induction false} EntriesSizeAnyOrder(m: Entries, one: seq<Bytes>, other: seq<Bytes>)
    requires multiset(one) == multiset(other) && forall k :: k in one || k in other ==> k in m
    ensures EntriesSize(m, one) == EntriesSize(m, other)
  {
    assert |one| == |multiset(one)| == |multiset(other)| == |other|;
    if one != [] {
      var k := one[0];
      assert k in multiset(other);
      var i :| 0 <= i < |other| && other[i] == k;
      var left, right := other[..i], other[i + 1..];
      assert other == left + ([k] + right);
      assert ([k] + right)[1..] == right;
      Pull(one, left, k, right);
      EntriesSizeAnyOrder(m, one[1..], left + right);
      EntriesSizeConcat(m, left, [k] + right);
      EntriesSizeConcat(m, left, right);
    }
  }

  lemma Pull(one: seq<Bytes>, left: seq<Bytes>, k: Bytes, right: seq<Bytes>)
    requires one != [] && one[0] == k && multiset(one) == multiset(left + ([k] + right))
    ensures multiset(one[1..]) == multiset(left + right)
    ensures forall j :: j in one[1..] || j in left + right ==> j in one || j in left + ([k] + right)
  {
    assert one == [k] + one[1..];
    assert multiset(one[1..]) == multiset(one) - multiset{k};
    assert multiset([k] + right) == multiset{k} + multiset(right);
    assert multiset(left + right) == multiset(left + ([k] + right)) - multiset{k};
    forall j | j in one[1..] || j in left + right ensures j in one || j in left + ([k] + right) {
      assert j in one[1..] ==> j in one;
    }
  }

  /** The encoding of a map is never longer than its size estimate, whatever orders the two walks take. */
  lemma MpksFitsItsSize(m: Entries, one: seq<Bytes>, other: seq<Bytes>)
    requires Lists(one, m) && Lists(other, m)
    ensures forall k :: k in one || k in other ==> k in m
    ensures |EncodeMpks(m, one)| <= MpksSize(m, other)
  {
    ListedKeys(m, one);
    ListedKeys(m, other);
    EntriesFit(m, one);
    EntriesSizeAnyOrder(m, one, other);
  }

  // ---------------------------------------------------------------- the codec's loops

  lemma {:induction false} StringsAppend(ss: seq<Bytes>, s: Bytes)
    ensures EncodeStrings(ss + [s]) == EncodeStrings(ss) + EncodeString(s)
    ensures StringsSize(ss + [s]) == StringsSize(ss) + 5 + |s|
  {
    if ss == [] {
      assert ss + [s] == [s];
      assert EncodeStrings([s]) == EncodeString(s) + EncodeStrings([s][1..]);
    } else {
      assert (ss + [s])[1..] == ss[1..] + [s];
      StringsAppend(ss[1..], s);
    }
  }

  method MarshalMpk(m: Mpk, b: Bytes) returns (o: Bytes)
    ensures o == b + EncodeMpk(m)
  {
    hide EncodeString, Header, EncodeStrings;
    o := b + [0x82, 0xa2, 0x49, 0x44];
    o := o + EncodeString(m.id);
    o := o + [0xa3, 0x4d, 0x70, 0x6b];
    o := o + Header(ARRAY, |m.mpk| % MAX_LENGTH);
    ghost var start := o;
    assert m.mpk[..0] == [];
    assert EncodeStrings([]) == [] by { NoStrings(); }
    for i := 0 to |m.mpk|
      invariant o == start + EncodeStrings(m.mpk[..i])
    {
      assert m.mpk[..i + 1] == m.mpk[..i] + [m.mpk[i]];
      StringsAppend(m.mpk[..i], m.mpk[i]);
      o := o + EncodeString(m.mpk[i]);
    }
    assert m.mpk[..|m.mpk|] == m.mpk;
  }

  lemma NoStrings()
    ensures EncodeStrings([]) == [] && StringsSize([]) == 0
  {
  }

  method MsgsizeMpk(m: Mpk) returns (s: nat)
    ensures s == MpkSize(m)
    ensures |EncodeMpk(m)| <= s
  {
    hide EncodeMpk;
    s := 1 + 3 + 5 + |m.id| + 4 + 5;
    ghost var start := s;
    for i := 0 to |m.mpk|
      invariant s == start + StringsSize(m.mpk[..i])
    {
      assert m.mpk[..i + 1] == m.mpk[..i] + [m.mpk[i]];
      StringsAppend(m.mpk[..i], m.mpk[i]);
      s := s + 5 + |m.mpk[i]|;
    }
    assert m.mpk[..|m.mpk|] == m.mpk;
    MpkFitsItsSize(m);
  }

  function Prepend(done: seq<Bytes>, r: Read<seq<Bytes>>): Read<seq<Bytes>> {
    match r
    case Err(e) => Err(e)
    case Ok((ss, rest)) => Ok((done + ss, rest))
  }

  method UnmarshalStrings(bts: Bytes, n: nat) returns (r: Read<seq<Bytes>>)
    ensures r == ReadStrings(bts, n)
  {
    hide ReadString;
    var done: seq<Bytes>, b := [], bts;
    assert Prepend([], ReadStrings(bts, n)) == ReadStrings(bts, n) by {
      if ReadStrings(bts, n).Ok? { assert [] + ReadStrings(bts, n).value.0 == ReadStrings(bts, n).value.0; }
    }
    var i := 0;
    while i < n
      invariant i <= n
      invariant Prepend(done, ReadStrings(b, n - i)) == ReadStrings(bts, n)
    {
      match ReadString(b) {
        case Err(e) => return Err(e);
        case Ok((s, rest)) =>
          PrependOne(done, s, ReadStrings(rest, n - i - 1));
          done, b := done + [s], rest;
      }
      i := i + 1;
    }
    assert done + [] == done;
    r := Ok((done, b));
  }

  lemma PrependOne(done: seq<Bytes>, s: Bytes, r: Read<seq<Bytes>>)
    ensures Prepend(done + [s], r) == Prepend(done, Prepend([s], r))
  {
    if r.Ok? { assert done + [s] + r.value.0 == done + ([s] + r.value.0); }
  }

  /** Reads a record into the receiver `z0`. */
  method UnmarshalMpk(z0: Mpk, bts: Bytes) returns (r: Read<Mpk>)
    ensures r == DecodeMpk(z0, bts)
  {
    hide ReadString, ReadKey, ReadHeader, Skip, ReadStrings;
    var n, b, z := 0, bts, z0;
    match ReadHeader(MAP, bts) {
      case Err(e) => return Err(e);
      case Ok((n1, b1)) => n, b := n1, b1;
    }
    while n > 0
      invariant ReadMpkFields(z, b, n) == DecodeMpk(z0, bts)
    {
      n := n - 1;
      var field;
      match ReadKey(b) {
        case Err(e) => return Err(e);
        case Ok((key, b1)) => field, b := key, b1;
      }
      if field == ID {
        match ReadString(b) {
          case Err(e) => return Err(e);
          case Ok((s, b1)) => z, b := z.(id := s), b1;
        }
      } else if field == MPK {
        var count;
        match ReadHeader(ARRAY, b) {
          case Err(e) => return Err(e);
          case Ok((n1, b1)) => count, b := n1, b1;
        }
        var list := UnmarshalStrings(b, count);
        match list {
          case Err(e) => return Err(e);
          case Ok((ss, b1)) => z, b := z.(mpk := ss), b1;
        }
      } else {
        match Skip(b, 1) {
          case Err(e) => return Err(e);
          case Ok(b1) => b := b1;
        }
      }
    }
    r := Ok((z, b));
  }

  lemma {:induction false} EntriesAppend(m: Entries, keys: seq<Bytes>, k: Bytes)
    requires k in m && forall j :: j in keys ==> j in m
    ensures EncodeEntries(m, keys + [k]) == EncodeEntries(m, keys) + EncodeString(k) + EncodeValue(m[k])
  {
    hide EncodeString, EncodeValue;
    if keys == [] {
      assert keys + [k] == [k];
      assert EncodeEntries(m, [k]) == EncodeString(k) + EncodeValue(m[k]) + EncodeEntries(m, [k][1..]);
    } else {
      assert (keys + [k])[1..] == keys[1..] + [k];
      EntriesAppend(m, keys[1..], k);
    }
  }

  /** A map of node IDs to records, as the codec's receiver. */
  class Mpks {
    var entries: Entries

    constructor ()
      ensures entries == map[]
    {
      entries := map[];
    }

    /** The same bytes for every order in which the runtime may enumerate the map. */
    method MarshalMsg(b: Bytes) returns (o: Bytes)
      ensures forall keys :: Lists(keys, entries) ==> o == b + SortedEncoding(entries, keys)
    {
      hide EncodeString, Header, EncodeEntries, EncodeMpk, SortKeys, Lists;
      o := b + [0x81, 0xa4, 0x4d, 0x70, 0x6b, 0x73];
      o := o + Header(MAP, |entries| % MAX_LENGTH);
      var order := EnumerateKeys(entries);
      var keys := SortKeys(order);
      SortedLists(entries, order);
      ListedKeys(entries, keys);
      ghost var start := o;
      NoEntries(entries);
      for i := 0 to |keys|
        invariant o == start + EncodeEntries(entries, keys[..i])
      {
        assert keys[..i + 1] == keys[..i] + [keys[i]];
        EntriesAppend(entries, keys[..i], keys[i]);
        o := o + EncodeString(keys[i]);
        var v := entries[keys[i]];
        if v.None? {
          o := o + [NIL];
        } else {
          o := MarshalMpk(v.value, o);
        }
      }
      assert keys[..|keys|] == keys;
      assert o == b + SortedEncoding(entries, order);
      forall any | Lists(any, entries) ensures o == b + SortedEncoding(entries, any) {
        EncodingIgnoresMapOrder(entries, order, any);
      }
    }

    /** The same number for every order in which the runtime may enumerate the map, and enough for the encoding. */
    method Msgsize() returns (s: nat)
      ensures forall keys :: Lists(keys, entries) ==> s == ListedSize(entries, keys)
      ensures forall keys :: Lists(keys, entries) ==> |SortedEncoding(entries, keys)| <= s
    {
      hide Lists;
      var order;
      s, order := SumSizes(entries);
      forall keys | Lists(keys, entries)
        ensures s == ListedSize(entries, keys) && |SortedEncoding(entries, keys)| <= s
      {
        SizesAgree(entries, order, keys);
      }
    }

    /** Also after an error the receiver is determined: what was read before it. */
    method UnmarshalMsg(bts: Bytes) returns (o: Result<Bytes, DecodeError>)
      modifies this
      ensures Filled(entries, o) == DecodeMpks(old(entries), bts)
    {
      hide ReadString, ReadKey, ReadHeader, Skip, DecodeMpk;
      var n, b := 0, bts;
      match ReadHeader(MAP, bts) {
        case Err(e) => return Err(e);
        case Ok((n1, b1)) => n, b := n1, b1;
      }
      while n > 0
        invariant ReadMpksFields(entries, b, n) == DecodeMpks(old(entries), bts)
      {
        n := n - 1;
        var field;
        match ReadKey(b) {
          case Err(e) => return Err(e);
          case Ok((key, b1)) => field, b := key, b1;
        }
        if field == MPKS {
          var count;
          match ReadHeader(MAP, b) {
            case Err(e) => return Err(e);
            case Ok((n1, b1)) => count, b := n1, b1;
          }
          var r := UnmarshalEntries(b, count);
          match r {
            case Err(e) => return Err(e);
            case Ok(b1) => b := b1;
          }
        } else {
          match Skip(b, 1) {
            case Err(e) => return Err(e);
            case Ok(b1) => b := b1;
          }
        }
      }
      o := Ok(b);
    }

    /** Clears the map and reads `count` entries into it. */
    method UnmarshalEntries(bts: Bytes, count: nat) returns (o: Result<Bytes, DecodeError>)
      modifies this
      ensures Filled(entries, o) == ReadEntries(map[], bts, count)
    {
      hide ReadString, DecodeMpk;
      entries := map[];
      var n, b := count, bts;
      while n > 0
        invariant ReadEntries(entries, b, n) == ReadEntries(map[], bts, count)
      {
        n := n - 1;
        var k;
        match ReadString(b) {
          case Err(e) => return Err(e);
          case Ok((s, b1)) => k, b := s, b1;
        }
        var v: Option<Mpk> := None;
        if IsNil(b) {
          b := b[1..];
        } else {
          var r := UnmarshalMpk(NO_MPK, b);
          match r {
            case Err(e) => return Err(e);
            case Ok((m, b1)) => v, b := Some(m), b1;
          }
        }
        entries := entries[k := v];
      }
      o := Ok(b);
    }
  }

  /** The loop over the map: the sum, and the order in which the entries happened to come. */
  method SumSizes(m: Entries) returns (s: nat, order: seq<Bytes>)
    ensures Lists(order, m) && s == ListedSize(m, order)
  {
    s := 1 + 5 + 5;
    var left := m.Keys;
    order := [];
    while left != {}
      invariant left <= m.Keys && multiset(order) == multiset(m.Keys - left)
      invariant forall k :: k in order ==> k in m
      invariant s == MpksSize(m, order)
      decreases left
    {
      var k :| k in left;
      s := s + 5 + |k|;
      if m[k].None? {
        s := s + 1;
      } else {
        var t := MsgsizeMpk(m[k].value);
        s := s + t;
      }
      EntriesSizeConcat(m, order, [k]);
      OneMoreKey(m.Keys, left, k);
      left := left - {k};
      order := order + [k];
    }
    assert m.Keys - {} == m.Keys;
  }

  lemma SortedLists(m: Entries, keys: seq<Bytes>)
    requires Lists(keys, m)
    ensures Lists(SortKeys(keys), m)
  {
  }

  ghost function ListedSize(m: Entries, keys: seq<Bytes>): nat
    requires Lists(keys, m)
  {
    ListedKeys(m, keys);
    MpksSize(m, keys)
  }

  lemma SizesAgree(m: Entries, one: seq<Bytes>, other: seq<Bytes>)
    requires Lists(one, m) && Lists(other, m)
    ensures ListedSize(m, one) == ListedSize(m, other) && |SortedEncoding(m, other)| <= ListedSize(m, one)
  {
    hide EntriesSize, EncodeMpks, SortKeys;
    ListedKeys(m, one);
    ListedKeys(m, other);
    EntriesSizeAnyOrder(m, one, other);
    SortedLists(m, other);
    MpksFitsItsSize(m, SortKeys(other), one);
  }

  lemma NoEntries(m: Entries)
    ensures EncodeEntries(m, []) == []
  {
  }

  lemma OneMoreKey(all: set<Bytes>, left: set<Bytes>, k: Bytes)
    requires k in left && left <= all
    ensures multiset(all - (left - {k})) == multiset(all - left) + multiset{k}
  {
    assert all - (left - {k}) == (all - left) + {k};
  }

  /** The keys of a map, in an order of the runtime's choosing. */
  method EnumerateKeys(m: Entries) returns (keys: seq<Bytes>)
    ensures Lists(keys, m)
  {
    keys := [];
    var left := m.Keys;
    while left != {}
      invariant left <= m.Keys && multiset(keys) == multiset(m.Keys - left)
      decreases left
    {
      var k :| k in left;
      OneMoreKey(m.Keys, left, k);
      left := left - {k};
      keys := keys + [k];
    }
    assert m.Keys - {} == m.Keys;
  }
}
