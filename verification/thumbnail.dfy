/**
 The on-disk thumbnail entry: a fixed marker, the fetch time as sixteen big-endian bytes of
 nanoseconds, a media code, a checksum and the image. Encoding and decoding are inverse to each
 other in both directions.
 */
module Thumbnail {
  import opened Wrappers
  import opened Bytes

  /** The bytes of `CCERTHM2`. */
  const MAGIC: seq<byte> := [67, 67, 69, 82, 84, 72, 77, 50]
  const TIMESTAMP_BYTES: nat := 16
  const CHECKSUM_BYTES: nat := 32
  const NANOS_PER_SECOND: nat := 1_000_000_000

  /** The system clock counts seconds in a signed 64-bit number. */
  const SECONDS_LIMIT: int := 0x8000_0000_0000_0000

  type Checksum = bytes: seq<byte> | |bytes| == CHECKSUM_BYTES
    witness seq(CHECKSUM_BYTES, _ => 0)

  /** The digest of marker, timestamp, media code and image. */
  type Digest = (seq<byte>, byte, seq<byte>) -> Checksum

  datatype MediaType = Jpeg | Png | Webp

  /** A moment relative to the epoch, which may lie before it. */
  datatype SystemTime = SystemTime(seconds: int, nanoseconds: nat)

  predicate ValidTime(time: SystemTime) {
    -SECONDS_LIMIT <= time.seconds < SECONDS_LIMIT && time.nanoseconds < NANOS_PER_SECOND
  }

  datatype ThumbnailEntry = ThumbnailEntry(mediaType: MediaType, bytes: seq<byte>, fetchedAt: SystemTime)

  // ----- Big-endian numbers -----

  function Pow256(width: nat): (r: nat)
    ensures r > 0
  {
    if width == 0 then 1 else 256 * Pow256(width - 1)
  }

  function ToBigEndian(n: nat, width: nat): (r: seq<byte>)
    ensures |r| == width
  {
    if width == 0 then [] else ToBigEndian(n / 256, width - 1) + [(n % 256) as byte]
  }

  function FromBigEndian(bytes: seq<byte>): nat {
    if bytes == [] then 0
    else FromBigEndian(bytes[..|bytes| - 1]) * 256 + bytes[|bytes| - 1] as nat
  }

  lemma {:induction false} NumberSurvives(n: nat, width: nat)
    requires n < Pow256(width)
    ensures FromBigEndian(ToBigEndian(n, width)) == n
  {
    if width > 0 {
      NumberSurvives(n / 256, width - 1);
      var bytes := ToBigEndian(n, width);
      assert bytes[..width - 1] == ToBigEndian(n / 256, width - 1);
    }
  }

  lemma {:induction false} BytesSurvive(bytes: seq<byte>)
    ensures FromBigEndian(bytes) < Pow256(|bytes|)
    ensures ToBigEndian(FromBigEndian(bytes), |bytes|) == bytes
  {
    if bytes != [] {
      var before, last := bytes[..|bytes| - 1], bytes[|bytes| - 1];
      BytesSurvive(before);
      var n := FromBigEndian(before);
      assert (n * 256 + last as nat) / 256 == n && (n * 256 + last as nat) % 256 == last as nat;
      assert bytes == before + [last];
    }
  }

  // ----- Times -----

  /** Nanoseconds since the epoch, when the time is not before it. */
  function EpochNanos(time: SystemTime): Option<nat> {
    if time.seconds < 0 then None else Some(time.seconds * NANOS_PER_SECOND + time.nanoseconds)
  }

  function TimeFromEpochNanos(nanos: nat): (r: Option<SystemTime>)
    ensures r.Some? ==> ValidTime(r.value)
  {
    var seconds := nanos / NANOS_PER_SECOND;
    if seconds < SECONDS_LIMIT then Some(SystemTime(seconds, nanos % NANOS_PER_SECOND)) else None
  }

  lemma NanosFitTimestamp(time: SystemTime)
    requires ValidTime(time) && time.seconds >= 0
    ensures EpochNanos(time).value < Pow256(TIMESTAMP_BYTES)
  {
    assert Pow256(4) == 0x1_0000_0000;
    assert Pow256(8) == 0x1_0000_0000_0000_0000;
    assert Pow256(12) == 0x1_0000_0000_0000_0000_0000_0000;
    assert Pow256(16) == 0x1_0000_0000_0000_0000_0000_0000_0000_0000;
  }

  lemma TimeSurvives(time: SystemTime)
    requires ValidTime(time) && time.seconds >= 0
    ensures TimeFromEpochNanos(EpochNanos(time).value) == Some(time)
  {
  }

  lemma NanosSurvive(nanos: nat)
    requires TimeFromEpochNanos(nanos).Some?
    ensures EpochNanos(TimeFromEpochNanos(nanos).value) == Some(nanos)
  {
  }

  // ----- Entries -----

  function MediaCode(mediaType: MediaType): byte {
    match mediaType
    case Jpeg => 1
    case Png => 2
    case Webp => 3
  }

  function DecodeMedia(code: byte): Option<MediaType> {
    if code == 1 then Some(Jpeg) else if code == 2 then Some(Png) else if code == 3 then Some(Webp) else None
  }

  lemma MediaSurvives(code: byte)
    ensures DecodeMedia(code).Some? ==> MediaCode(DecodeMedia(code).value) == code
  {
  }

  function Encode(digest: Digest, entry: ThumbnailEntry): Option<seq<byte>> {
    if entry.bytes == [] then None
    else
      match EpochNanos(entry.fetchedAt)
      case None => None
      case Some(nanos) =>
        var timestamp, code := ToBigEndian(nanos, TIMESTAMP_BYTES), MediaCode(entry.mediaType);
        Some(MAGIC + timestamp + [code] + digest(timestamp, code, entry.bytes) + entry.bytes)
  }

  function HeaderLength(): nat {
    |MAGIC| + TIMESTAMP_BYTES + 1 + CHECKSUM_BYTES
  }

  function Decode(digest: Digest, bytes: seq<byte>): Option<ThumbnailEntry> {
    if |bytes| <= HeaderLength() || bytes[..|MAGIC|] != MAGIC then None
    else
      var timestamp := bytes[|MAGIC|..|MAGIC| + TIMESTAMP_BYTES];
      var code := bytes[|MAGIC| + TIMESTAMP_BYTES];
      match DecodeMedia(code)
      case None => None
      case Some(mediaType) =>
        var checksum := bytes[|MAGIC| + TIMESTAMP_BYTES + 1..HeaderLength()];
        var payload := bytes[HeaderLength()..];
        if digest(timestamp, code, payload) != checksum then None
        else
          match TimeFromEpochNanos(FromBigEndian(timestamp))
          case None => None
          case Some(fetchedAt) => Some(ThumbnailEntry(mediaType, payload, fetchedAt))
  }

  method EncodeEntry(digest: Digest, mediaType: MediaType, bytes: seq<byte>, fetchedAt: SystemTime)
    returns (r: Option<seq<byte>>)
    ensures r == Encode(digest, ThumbnailEntry(mediaType, bytes, fetchedAt))
    ensures r.Some? <==> bytes != [] && fetchedAt.seconds >= 0
  {
    if bytes == [] { return None; }
    var nanos := EpochNanos(fetchedAt);
    if nanos.None? { return None; }
    var timestamp, code := ToBigEndian(nanos.value, TIMESTAMP_BYTES), MediaCode(mediaType);
    var encoded: seq<byte> := [];
    encoded := encoded + MAGIC;
    assert encoded == MAGIC;
    encoded := encoded + timestamp;
    encoded := encoded + [code];
    encoded := encoded + digest(timestamp, code, bytes);
    encoded := encoded + bytes;
    return Some(encoded);
  }

  /** Five parts of fixed lengths, all but the last, are found again where they were put. */
  lemma PartsAreFound(timestamp: seq<byte>, code: byte, checksum: seq<byte>, payload: seq<byte>)
    requires |timestamp| == TIMESTAMP_BYTES && |checksum| == CHECKSUM_BYTES
    ensures var bytes := MAGIC + timestamp + [code] + checksum + payload;
            && |bytes| == HeaderLength() + |payload|
            && bytes[..|MAGIC|] == MAGIC
            && bytes[|MAGIC|..|MAGIC| + TIMESTAMP_BYTES] == timestamp
            && bytes[|MAGIC| + TIMESTAMP_BYTES] == code
            && bytes[|MAGIC| + TIMESTAMP_BYTES + 1..HeaderLength()] == checksum
            && bytes[HeaderLength()..] == payload
  {
  }

  /** Decoding an encoded entry gives back its media type, image and time to the nanosecond. */
  lemma DecodeUndoesEncode(digest: Digest, entry: ThumbnailEntry)
    requires ValidTime(entry.fetchedAt) && Encode(digest, entry).Some?
    ensures Decode(digest, Encode(digest, entry).value) == Some(entry)
  {
    hide ToBigEndian, FromBigEndian, Pow256, TimeFromEpochNanos;
    var nanos := EpochNanos(entry.fetchedAt).value;
    var timestamp, code := ToBigEndian(nanos, TIMESTAMP_BYTES), MediaCode(entry.mediaType);
    PartsAreFound(timestamp, code, digest(timestamp, code, entry.bytes), entry.bytes);
    NanosFitTimestamp(entry.fetchedAt);
    NumberSurvives(nanos, TIMESTAMP_BYTES);
    TimeSurvives(entry.fetchedAt);
  }

  /** Whatever is accepted from disk is exactly what encoding its entry writes. */
  lemma DecodedIsCanonical(digest: Digest, bytes: seq<byte>)
    requires Decode(digest, bytes).Some?
    ensures Encode(digest, Decode(digest, bytes).value) == Some(bytes)
  {
    var timestamp := bytes[|MAGIC|..|MAGIC| + TIMESTAMP_BYTES];
    var code := bytes[|MAGIC| + TIMESTAMP_BYTES];
    var checksum := bytes[|MAGIC| + TIMESTAMP_BYTES + 1..HeaderLength()];
    var payload := bytes[HeaderLength()..];
    hide ToBigEndian, FromBigEndian, TimeFromEpochNanos, EpochNanos, Pow256, MediaCode, DecodeMedia;
    MediaSurvives(code);
    BytesSurvive(timestamp);
    NanosSurvive(FromBigEndian(timestamp));
    PartsMakeWhole(bytes);
  }

  lemma PartsMakeWhole(bytes: seq<byte>)
    requires |bytes| > HeaderLength() && bytes[..|MAGIC|] == MAGIC
    ensures bytes == MAGIC + bytes[|MAGIC|..|MAGIC| + TIMESTAMP_BYTES] + [bytes[|MAGIC| + TIMESTAMP_BYTES]]
                     + bytes[|MAGIC| + TIMESTAMP_BYTES + 1..HeaderLength()] + bytes[HeaderLength()..]
  {
  }

  /** No two entries share an encoding, and no two accepted files hold the same entry. */
  lemma OneFilePerEntry(digest: Digest, one: seq<byte>, other: seq<byte>)
    requires Decode(digest, one).Some? && Decode(digest, other).Some?
    ensures Decode(digest, one) == Decode(digest, other) <==> one == other
  {
    hide Encode, Decode;
    DecodedIsCanonical(digest, one);
    DecodedIsCanonical(digest, other);
  }

  // ----- The bytes themselves -----

  /** The first byte counts most: once for every number that the bytes behind it can tell apart. */
  lemma {:induction false} FirstByteCountsMost(first: byte, rest: seq<byte>)
    ensures FromBigEndian([first] + rest) == first as nat * Pow256(|rest|) + FromBigEndian(rest)
    decreases |rest|
  {
    if rest == [] {
      assert [first] + rest == [first] && [first][..0] == [];
    } else {
      var before := rest[..|rest| - 1];
      FirstByteCountsMost(first, before);
      assert ([first] + rest)[..|rest|] == [first] + before;
      Distributes(first as nat, Pow256(|before|), FromBigEndian(before));
    }
  }

  lemma Distributes(first: nat, power: nat, rest: nat)
    ensures (first * power + rest) * 256 == first * (256 * power) + rest * 256
  {
  }

  /** A file is marker, time, media code, checksum and image, at these places. */
  lemma EncodedLayout(digest: Digest, entry: ThumbnailEntry)
    requires Encode(digest, entry).Some?
    ensures var file, nanos := Encode(digest, entry).value, entry.fetchedAt.seconds * 1_000_000_000
                               + entry.fetchedAt.nanoseconds;
            && |file| == 57 + |entry.bytes|
            && file[..8] == [67, 67, 69, 82, 84, 72, 77, 50]
            && nanos >= 0 && file[8..24] == ToBigEndian(nanos, 16)
            && file[24] == (if entry.mediaType.Jpeg? then 1 else if entry.mediaType.Png? then 2 else 3)
            && file[25..57] == digest(file[8..24], file[24], entry.bytes)
            && file[57..] == entry.bytes
  {
    hide ToBigEndian;
    var nanos := EpochNanos(entry.fetchedAt).value;
    var timestamp, code := ToBigEndian(nanos, TIMESTAMP_BYTES), MediaCode(entry.mediaType);
    PartsAreFound(timestamp, code, digest(timestamp, code, entry.bytes), entry.bytes);
  }
}
