/** The binary form of the latest finalized block's round and hash. */
module LfbRoundCodec {
  import opened Common
  import opened MsgPack

  datatype LfbRound = LfbRound(round: int, hash: Bytes)

  const ROUND: Bytes := [0x72]
  const HASH: Bytes := [0x62]

  function Encode(r: LfbRound): (b: Bytes)
    requires IsInt64(r.round)
  {
    [0x82, 0xa1, 0x72] + EncodeInt64(r.round) + [0xa1, 0x62] + EncodeString(r.hash)
  }

  function Size(r: LfbRound): nat {
    1 + 2 + 9 + 2 + 5 + |r.hash|
  }

  function ReadField(z: LfbRound, key: Bytes, b: Bytes): Read<LfbRound> {
    if key == ROUND then
      match ReadInt64(b)
      case Err(e) => Err(e)
      case Ok((i, b1)) => Ok((z.(round := i), b1))
    else if key == HASH then
      match ReadString(b)
      case Err(e) => Err(e)
      case Ok((s, b1)) => Ok((z.(hash := s), b1))
    else
      match Skip(b, 1)
      case Err(e) => Err(e)
      case Ok(b1) => Ok((z, b1))
  }

  function ReadFields(z: LfbRound, b: Bytes, n: nat): Read<LfbRound>
    decreases n
  {
    if n == 0 then Ok((z, b))
    else match ReadKey(b)
      case Err(e) => Err(e)
      case Ok((key, b1)) =>
        match ReadField(z, key, b1)
        case Err(e) => Err(e)
        case Ok((z', b2)) => ReadFields(z', b2, n - 1)
  }

  function Decode(z: LfbRound, b: Bytes): Read<LfbRound> {
    match ReadHeader(MAP, b)
    case Err(e) => Err(e)
    case Ok((n, b1)) => ReadFields(z, b1, n)
  }

  lemma Names(rest: Bytes)
    ensures ReadHeader(MAP, [0x82] + rest) == Ok((2, rest))
    ensures ReadKey([0xa1, 0x72] + rest) == Ok((ROUND, rest)) && ReadKey([0xa1, 0x62] + rest) == Ok((HASH, rest))
  {
    hide Pow256, BigEndian, FromBigEndian;
    HeaderRoundTrip(MAP, 2, rest);
    StringRoundTrip(ROUND, rest);
    assert EncodeString(ROUND) == [0xa1, 0x72];
    StringRoundTrip(HASH, rest);
    assert EncodeString(HASH) == [0xa1, 0x62];
  }

  /** The encoding is never longer than the size estimate. */
  lemma FitsItsSize(r: LfbRound)
    requires IsInt64(r.round)
    ensures |Encode(r)| <= Size(r)
  {
    hide EncodeInt64, EncodeString;
  }

  /** Decoding an encoding gives the value and the bytes after it, whatever the receiver held. */
  lemma RoundTrip(z: LfbRound, r: LfbRound, rest: Bytes)
    requires IsInt64(r.round) && |r.hash| < MAX_LENGTH
    ensures Decode(z, Encode(r) + rest) == Ok((r, rest))
  {
    hide ReadInt64, ReadString, EncodeInt64, EncodeString, ReadKey, ReadHeader;
    var fromHash := [0xa1, 0x62] + (EncodeString(r.hash) + rest);
    var fromRound := [0xa1, 0x72] + (EncodeInt64(r.round) + fromHash);
    assert Encode(r) + rest == [0x82] + fromRound;
    Names(fromRound);
    Names(EncodeInt64(r.round) + fromHash);
    Int64RoundTrip(r.round, fromHash);
    Names(EncodeString(r.hash) + rest);
    StringRoundTrip(r.hash, rest);
    assert ReadFields(r, rest, 0) == Ok((r, rest));
    assert ReadFields(z.(round := r.round), fromHash, 1) == Ok((r, rest));
  }

  /** The decoding loop, on the receiver's fields. */
  class Receiver {
    var round: int
    var hash: Bytes

    constructor (round: int, hash: Bytes)
      ensures this.round == round && this.hash == hash
    {
      this.round, this.hash := round, hash;
    }

    method UnmarshalMsg(bts: Bytes) returns (o: Result<Bytes, DecodeError>)
      modifies this
      ensures match Decode(LfbRound(old(round), old(hash)), bts)
              case Err(e) => o == Err(e)
              case Ok((r, rest)) => o == Ok(rest) && LfbRound(round, hash) == r
    {
      hide ReadInt64, ReadString, ReadKey, ReadHeader, Skip;
      var n, b := 0, bts;
      match ReadHeader(MAP, bts) {
        case Err(e) => return Err(e);
        case Ok((n1, b1)) => n, b := n1, b1;
      }
      while n > 0
        invariant ReadFields(LfbRound(round, hash), b, n) == Decode(LfbRound(old(round), old(hash)), bts)
      {
        n := n - 1;
        var field;
        match ReadKey(b) {
          case Err(e) => return Err(e);
          case Ok((key, b1)) => field, b := key, b1;
        }
        if field == ROUND {
          match ReadInt64(b) {
            case Err(e) => return Err(e);
            case Ok((i, b1)) => round, b := i, b1;
          }
        } else if field == HASH {
          match ReadString(b) {
            case Err(e) => return Err(e);
            case Ok((s, b1)) => hash, b := s, b1;
          }
        } else {
          match Skip(b, 1) {
            case Err(e) => return Err(e);
            case Ok(b1) => b := b1;
          }
        }
      }
      o := Ok(b);
    }
  }
}
