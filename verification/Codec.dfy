/** The SMKEX record format (smkexrecord.cpp). Integers are copied with memcpy, so their
    bytes are little-endian two's complement. */
module Codec {
  import opened Base

  type int64 = x: int | -0x8000_0000_0000_0000 <= x < 0x8000_0000_0000_0000
  type uint16 = x: int | 0 <= x < 0x1_0000

  /** Bytes whose length fits the 16-bit length field that travels with them. */
  type Bytes16 = s: seq<byte> | |s| < 0x1_0000

  const HANDSHAKE_KEY: byte := 0
  const HANDSHAKE_NONCE: byte := 1
  const HANDSHAKE_NONCE_H: byte := 2
  const HANDSHAKE_H: byte := 3
  const ALERT: byte := 4
  const APPLICATION_DATA: byte := 5

  datatype Record = Record(version: byte, timestamp: int64, dest: Bytes16, sender: Bytes16, kind: byte, data: Bytes16)

  // Little-endian integers ---------------------------------------------------------------

  function Pow256(n: nat): (r: nat)
    ensures r > 0
  {
    if n == 0 then 1 else 256 * Pow256(n - 1)
  }

  function LE(x: nat, n: nat): (r: seq<byte>)
    ensures |r| == n
  {
    if n == 0 then [] else [x % 256] + LE(x / 256, n - 1)
  }

  function FromLE(s: seq<byte>): nat {
    if s == [] then 0 else s[0] + 256 * FromLE(s[1..])
  }

  lemma {:induction false} FromLEInverse(x: nat, n: nat)
    requires x < Pow256(n)
    ensures FromLE(LE(x, n)) == x
  {
    if n > 0 {
      assert x / 256 < Pow256(n - 1);
      FromLEInverse(x / 256, n - 1);
      assert LE(x, n)[1..] == LE(x / 256, n - 1);
    }
  }

  lemma {:induction false} FromLEBound(s: seq<byte>)
    ensures FromLE(s) < Pow256(|s|)
  {
    if s != [] { FromLEBound(s[1..]); }
  }

  lemma {:induction false} LEInverse(s: seq<byte>)
    ensures LE(FromLE(s), |s|) == s
  {
    if s != [] {
      LEInverse(s[1..]);
      LowByte(s[0], FromLE(s[1..]));
      assert s == [s[0]] + s[1..];
    }
  }

  lemma LowByte(low: byte, high: nat)
    ensures (low + 256 * high) % 256 == low && (low + 256 * high) / 256 == high
  {}

  lemma Widths()
    ensures Pow256(2) == 0x1_0000 && Pow256(8) == 0x1_0000_0000_0000_0000
  {
    assert Pow256(0) == 1 && Pow256(1) == 256 && Pow256(2) == 0x1_0000 && Pow256(3) == 0x100_0000;
    assert Pow256(4) == 0x1_0000_0000 && Pow256(5) == 0x100_0000_0000 && Pow256(6) == 0x1_0000_0000_0000;
    assert Pow256(7) == 0x100_0000_0000_0000;
  }

  function TimestampBytes(t: int64): seq<byte> {
    LE(if t < 0 then t + 0x1_0000_0000_0000_0000 else t, 8)
  }

  function TimestampOf(s: seq<byte>): int64
    requires |s| == 8
  {
    FromLEBound(s); Widths();
    var u := FromLE(s);
    if u >= 0x8000_0000_0000_0000 then u - 0x1_0000_0000_0000_0000 else u
  }

  /** A length as the reader takes it: through a signed 16-bit integer, which is then
      converted to the unsigned field it is stored in. */
  function LengthOf(s: seq<byte>): uint16
    requires |s| == 2
  {
    FromLEBound(s); Widths();
    var u := FromLE(s);
    var signed := if u >= 0x8000 then u - 0x1_0000 else u;
    signed % 0x1_0000
  }

  lemma TimestampInverse(t: int64, s: seq<byte>)
    ensures TimestampOf(TimestampBytes(t)) == t
    ensures |s| == 8 ==> TimestampBytes(TimestampOf(s)) == s
  {
    Widths();
    FromLEInverse(if t < 0 then t + 0x1_0000_0000_0000_0000 else t, 8);
    if |s| == 8 { FromLEBound(s); LEInverse(s); }
  }

  /** The signed detour loses nothing, for every length up to 65535. */
  lemma LengthInverse(n: uint16, s: seq<byte>)
    ensures LengthOf(LE(n, 2)) == n
    ensures |s| == 2 ==> LE(LengthOf(s), 2) == s
  {
    Widths();
    FromLEInverse(n, 2);
    if |s| == 2 { FromLEBound(s); LEInverse(s); }
  }

  // The format -----------------------------------------------------------------------------

  function Encode(r: Record): (b: seq<byte>)
    ensures |b| == 16 + |r.dest| + |r.sender| + |r.data|
  {
    [r.version] + TimestampBytes(r.timestamp) + LE(|r.dest|, 2) + r.dest + LE(|r.sender|, 2) + r.sender
        + [r.kind] + LE(|r.data|, 2) + r.data
  }

  /** The record at the start of `b` and the number of bytes it takes; None when `b` ends
      before the lengths it declares. */
  function Decode(b: seq<byte>): Option<(Record, nat)> {
    if |b| < 11 then None else
    var destLen := LengthOf(b[9..11]);
    if |b| < 13 + destLen then None else
    var senderLen := LengthOf(b[11 + destLen..13 + destLen]);
    var at := 13 + destLen + senderLen;
    if |b| < at + 3 then None else
    var length := LengthOf(b[at + 1..at + 3]);
    if |b| < at + 3 + length then None else
    Some((Record(b[0], TimestampOf(b[1..9]), b[11..11 + destLen],
                 b[13 + destLen..at], b[at], b[at + 3..at + 3 + length]),
          at + 3 + length))
  }

  lemma FieldAt(p: seq<byte>, m: seq<byte>, b: seq<byte>)
    requires p + m <= b
    ensures p <= b && b[|p|..|p| + |m|] == m
  {
    assert b[..|p| + |m|] == p + m;
  }

  lemma FieldsOf(p: seq<byte>, m1: seq<byte>, m2: seq<byte>, m3: seq<byte>, b: seq<byte>)
    requires p + m1 + m2 + m3 <= b
    ensures p <= b && b[|p|..|p| + |m1|] == m1
    ensures b[|p| + |m1|..|p| + |m1| + |m2|] == m2
    ensures b[|p| + |m1| + |m2|..|p| + |m1| + |m2| + |m3|] == m3
  {
    FieldAt(p + m1 + m2, m3, b);
    FieldAt(p + m1, m2, b);
    FieldAt(p, m1, b);
  }

  /** Where each field of a serialized record stands. */
  ghost predicate Laid(r: Record, b: seq<byte>, n: nat) {
    var i := 11 + |r.dest|;
    var j := i + 2 + |r.sender|;
    && j + 3 + |r.data| == n <= |b|
    && [r.version] == b[..1] && TimestampBytes(r.timestamp) == b[1..9] && LE(|r.dest|, 2) == b[9..11]
    && r.dest == b[11..i] && LE(|r.sender|, 2) == b[i..i + 2] && r.sender == b[i + 2..j]
    && [r.kind] == b[j..j + 1] && LE(|r.data|, 2) == b[j + 1..j + 3] && r.data == b[j + 3..n]
  }

  lemma EncodedIsLaid(r: Record, rest: seq<byte>)
    ensures Laid(r, Encode(r) + rest, |Encode(r)|)
  {
    var b := Encode(r) + rest;
    var t, d, s, x := TimestampBytes(r.timestamp), LE(|r.dest|, 2), LE(|r.sender|, 2), LE(|r.data|, 2);
    var p1 := [r.version] + t + d;
    var p2 := p1 + r.dest + s + r.sender;
    assert p2 + [r.kind] + x + r.data == Encode(r);
    FieldsOf(p2, [r.kind], x, r.data, b);
    FieldsOf(p1, r.dest, s, r.sender, b);
    FieldsOf([], [r.version], t, d, b);
  }

  /** The bytes of an integer, the lowest first. */
  lemma {:induction false} LEByte(x: nat, n: nat, k: nat)
    requires k < n
    ensures LE(x, n)[k] == x / Pow256(k) % 256
  {
    if k > 0 {
      LEByte(x / 256, n - 1, k - 1);
      DivTwice(x, Pow256(k - 1));
    }
  }

  lemma DivTwice(x: nat, p: nat)
    requires p > 0
    ensures x / 256 / p == x / (256 * p)
  {
    var a, e := x / 256, x % 256;
    var b, c := a / p, a % p;
    assert a == p * b + c && x == 256 * a + e;
    Regroup(p, b);
    assert x == (256 * p) * b + (256 * c + e);
    DivOnce(b, 256 * p, 256 * c + e);
  }

  lemma Regroup(p: nat, b: nat)
    ensures 256 * (p * b) == (256 * p) * b
  {}

  lemma DivOnce(q: nat, p: nat, r: nat)
    requires r < p
    ensures (p * q + r) / p == q
  {
    var x := p * q + r;
    var d, m := x / p, x % p;
    assert x == p * d + m && 0 <= m < p;
    assert p * (d - q) == r - m;
    OnlyZero(p, d - q);
  }

  /** The only multiple of `p` between -p and p. */
  lemma OnlyZero(p: int, k: int)
    requires 0 - p < p * k < p
    ensures k == 0
  {
    AtLeast(p, k);
    AtLeast(p, -k);
  }

  lemma AtLeast(p: int, k: int)
    requires p >= 0
    ensures k >= 1 ==> p * k >= p
  {
    if k >= 1 { assert p * k == p + p * (k - 1) && p * (k - 1) >= 0; }
  }

  /** The layout of a record: version, eight bytes of the timestamp, two of the length of the receiver's name,
      the name, two of the length of the sender's name, the name, the type, two of the length of the data, the
      data; integers with the lowest byte first. */
  lemma EncodedBytes(r: Record)
    ensures var b := Encode(r);
            var i, j := 11 + |r.dest|, 13 + |r.dest| + |r.sender|;
            var u := if r.timestamp < 0 then r.timestamp + 0x1_0000_0000_0000_0000 else r.timestamp;
            && |b| == j + 3 + |r.data| && b[0] == r.version
            && (forall k :: 0 <= k < 8 ==> b[1 + k] == u / Pow256(k) % 256)
            && b[9] == |r.dest| % 256 && b[10] == |r.dest| / 256 && b[11..i] == r.dest
            && b[i] == |r.sender| % 256 && b[i + 1] == |r.sender| / 256 && b[i + 2..j] == r.sender
            && b[j] == r.kind
            && b[j + 1] == |r.data| % 256 && b[j + 2] == |r.data| / 256 && b[j + 3..] == r.data
  {
    var b := Encode(r);
    var i, j := 11 + |r.dest|, 13 + |r.dest| + |r.sender|;
    EncodedIsLaid(r, []);
    assert b + [] == b;
    TwoBytes(|r.dest|, b, 9);
    TwoBytes(|r.sender|, b, i);
    TwoBytes(|r.data|, b, j + 1);
    var u := if r.timestamp < 0 then r.timestamp + 0x1_0000_0000_0000_0000 else r.timestamp;
    forall k | 0 <= k < 8 ensures b[1 + k] == u / Pow256(k) % 256 {
      LEByte(u, 8, k);
      assert b[1..9][k] == b[1 + k];
    }
    assert b[..1][0] == b[0] && b[j..j + 1][0] == b[j];
  }

  lemma TwoBytes(n: uint16, b: seq<byte>, at: nat)
    requires at + 2 <= |b| && b[at..at + 2] == LE(n, 2)
    ensures b[at] == n % 256 && b[at + 1] == n / 256
  {
    LEByte(n, 2, 0);
    LEByte(n, 2, 1);
    assert Pow256(0) == 1 && Pow256(1) == 256;
    assert b[at] == b[at..at + 2][0] && b[at + 1] == b[at..at + 2][1];
  }

  lemma LaidDecodes(r: Record, b: seq<byte>, n: nat)
    requires Laid(r, b, n)
    ensures Decode(b) == Some((r, n))
  {
    TimestampInverse(r.timestamp, []);
    LengthInverse(|r.dest|, []);
    LengthInverse(|r.sender|, []);
    LengthInverse(|r.data|, []);
  }

  /** Self-delimiting: whatever bytes follow, reading gives the record back and stops at its end. */
  lemma DecodeEncode(r: Record, rest: seq<byte>)
    ensures Decode(Encode(r) + rest) == Some((r, 16 + |r.dest| + |r.sender| + |r.data|))
  {
    EncodedIsLaid(r, rest);
    LaidDecodes(r, Encode(r) + rest, |Encode(r)|);
  }

  /** The fields that were read serialize to the slices they were read from. */
  lemma DecodedIsLaid(b: seq<byte>)
    requires Decode(b).Some?
    ensures Laid(Decode(b).value.0, b, Decode(b).value.1)
  {
    var d: int := LengthOf(b[9..11]);
    assert LE(d, 2) == b[9..11] by { LengthInverse(0, b[9..11]); }
    var i := 11 + d;
    var s: int := LengthOf(b[i..i + 2]);
    assert LE(s, 2) == b[i..i + 2] by { LengthInverse(0, b[i..i + 2]); }
    var j := i + 2 + s;
    var x: int := LengthOf(b[j + 1..j + 3]);
    assert LE(x, 2) == b[j + 1..j + 3] by { LengthInverse(0, b[j + 1..j + 3]); }
    assert TimestampBytes(TimestampOf(b[1..9])) == b[1..9] by { TimestampInverse(0, b[1..9]); }
    DecodedFields(b, i, j, j + 3 + x);
  }

  lemma DecodedFields(b: seq<byte>, i: nat, j: nat, n: nat)
    requires 11 <= i && i + 2 <= j && j + 3 <= n <= |b|
    requires i == 11 + LengthOf(b[9..11]) && j == i + 2 + LengthOf(b[i..i + 2]) && n == j + 3 + LengthOf(b[j + 1..j + 3])
    ensures Decode(b) == Some((Record(b[0], TimestampOf(b[1..9]), b[11..i], b[i + 2..j], b[j], b[j + 3..n]), n))
  {}

  lemma Join(b: seq<byte>, i: nat, j: nat)
    requires i <= j <= |b|
    ensures b[..i] + b[i..j] == b[..j]
  {}

  lemma JoinAll(b: seq<byte>, i: nat, j: nat, n: nat)
    requires 11 <= i && i + 2 <= j && j + 3 <= n <= |b|
    ensures b[..1] + b[1..9] + b[9..11] + b[11..i] + b[i..i + 2] + b[i + 2..j] + b[j..j + 1] + b[j + 1..j + 3]
        + b[j + 3..n]
            == b[..n]
  {
    Join(b, 1, 9); Join(b, 9, 11); Join(b, 11, i); Join(b, i, i + 2);
    Join(b, i + 2, j); Join(b, j, j + 1); Join(b, j + 1, j + 3); Join(b, j + 3, n);
  }

  /** The other inverse: re-serializing what was read gives back exactly the consumed bytes. */
  lemma EncodeDecode(b: seq<byte>)
    requires Decode(b).Some?
    ensures var (r, n) := Decode(b).value; n <= |b| && Encode(r) == b[..n]
  {
    DecodedIsLaid(b);
    var (r, n) := Decode(b).value;
    var i := 11 + |r.dest|;
    JoinAll(b, i, i + 2 + |r.sender|, n);
  }

  /** No serialization is a proper prefix of another, and serializing is injective. */
  lemma PrefixFree(r: Record, q: Record)
    requires Encode(r) <= Encode(q)
    ensures r == q
  {
    var rest := Encode(q)[|Encode(r)|..];
    assert Encode(q) == Encode(r) + rest;
    DecodeEncode(r, rest);
    DecodeEncode(q, []);
    assert Encode(q) + [] == Encode(q);
  }

  /** The name fields that getSmkexT4mRecord2 makes: the characters and their terminating
      zero, cut to the length that survives in 16 bits. */
  function NameField(name: seq<byte>): Bytes16 {
    (name + [0])[..(|name| + 1) % 0x1_0000]
  }

  function MakeRecord(timestamp: int64, dest: seq<byte>, sender: seq<byte>, kind: byte, version: byte,
                      data: Bytes16): Record {
    Record(version, timestamp, NameField(dest), NameField(sender), kind, data)
  }

  /** The receiver can read the name back exactly when it is shorter than 65535 characters;
      one more and the length wraps to zero. */
  lemma NameSurvives(name: seq<byte>)
    ensures name <= NameField(name) <==> |name| % 0x1_0000 == |name| && |name| != 0xFFFF
    ensures NameField(name) == name + [0] <==> |name| < 0xFFFF
  {
    if |name| < 0xFFFF {
      assert NameField(name)[..|name|] == name;
    } else if |name| == 0xFFFF {
      assert NameField(name) == [];
    }
  }

  /** What a made record brings to the receiver, whatever bytes follow: everything but names that are too long. */
  lemma MadeRecordArrives(timestamp: int64, dest: seq<byte>, sender: seq<byte>, kind: byte, version: byte, data: Bytes16,
                          rest: seq<byte>)
    ensures var p := Decode(Encode(MakeRecord(timestamp, dest, sender, kind, version, data)) + rest);
            && p.Some?
            && var r := p.value.0;
            && r.timestamp == timestamp && r.kind == kind && r.version == version && r.data == data
            && (dest <= r.dest <==> |dest| % 0x1_0000 == |dest| && |dest| != 0xFFFF)
            && (sender <= r.sender <==> |sender| % 0x1_0000 == |sender| && |sender| != 0xFFFF)
            && (r.dest == dest + [0] <==> |dest| < 0xFFFF) && (r.sender == sender + [0] <==> |sender| < 0xFFFF)
  {
    DecodeEncode(MakeRecord(timestamp, dest, sender, kind, version, data), rest);
    NameSurvives(dest);
    NameSurvives(sender);
  }

  // The code -------------------------------------------------------------------------------

  /** memcpy into `dst` at `at`. */
  method CopyBytes(dst: array<byte>, at: nat, src: seq<byte>)
    requires at + |src| <= dst.Length
    modifies dst
    ensures dst[..] == old(dst[..at]) + src + old(dst[at + |src|..])
  {
    for i := 0 to |src|
      invariant dst[..] == old(dst[..at]) + src[..i] + old(dst[at + i..])
    {
      dst[at + i] := src[i];
    }
  }

  method SerializeRecord(r: Record) returns (serial: array<byte>)
    ensures fresh(serial) && serial[..] == Encode(r)
  {
    serial := new byte[16 + |r.dest| + |r.sender| + |r.data|];
    var cursor := 0;
    CopyBytes(serial, cursor, [r.version]);
    cursor := cursor + 1;
    CopyBytes(serial, cursor, TimestampBytes(r.timestamp));
    cursor := cursor + 8;
    CopyBytes(serial, cursor, LE(|r.dest|, 2));
    cursor := cursor + 2;
    ghost var head := [r.version] + TimestampBytes(r.timestamp) + LE(|r.dest|, 2);
    assert serial[..cursor] == head;
    CopyBytes(serial, cursor, r.dest);
    cursor := cursor + |r.dest|;
    assert serial[..cursor] == head + r.dest;
    CopyBytes(serial, cursor, LE(|r.sender|, 2));
    cursor := cursor + 2;
    assert serial[..cursor] == head + r.dest + LE(|r.sender|, 2);
    CopyBytes(serial, cursor, r.sender);
    cursor := cursor + |r.sender|;
    assert serial[..cursor] == head + r.dest + LE(|r.sender|, 2) + r.sender;
    CopyBytes(serial, cursor, [r.kind]);
    cursor := cursor + 1;
    CopyBytes(serial, cursor, LE(|r.data|, 2));
    cursor := cursor + 2;
    assert serial[..cursor] == head + r.dest + LE(|r.sender|, 2) + r.sender + [r.kind] + LE(|r.data|, 2);
    CopyBytes(serial, cursor, r.data);
  }

  /** getRecordFromSerial on the bytes of `buf` from `base` on. The bounds tests stand for
      memory the code reads without testing. */
  method GetRecordFromSerial(buf: array<byte>, base: nat) returns (r: Option<Record>)
    requires base <= buf.Length
    ensures r == match Decode(buf[base..]) case None => None case Some(p) => Some(p.0)
  {
    ghost var b := buf[base..];
    if buf.Length - base < 11 { return None; }
    var version := buf[base];
    var timestamp := TimestampOf(buf[base + 1..base + 9]);
    assert buf[base + 1..base + 9] == b[1..9] && buf[base + 9..base + 11] == b[9..11];
    var destLen: int := LengthOf(buf[base + 9..base + 11]);
    if buf.Length - base < 13 + destLen { return None; }
    var dest := buf[base + 11..base + 11 + destLen];
    assert dest == b[11..11 + destLen];
    assert buf[base + 11 + destLen..base + 13 + destLen] == b[11 + destLen..13 + destLen];
    var senderLen: int := LengthOf(buf[base + 11 + destLen..base + 13 + destLen]);
    var at := 13 + destLen + senderLen;
    if buf.Length - base < at + 3 { return None; }
    var sender := buf[base + 13 + destLen..base + at];
    assert sender == b[13 + destLen..at];
    var kind := buf[base + at];
    assert buf[base + at + 1..base + at + 3] == b[at + 1..at + 3];
    var length: int := LengthOf(buf[base + at + 1..base + at + 3]);
    if buf.Length - base < at + 3 + length { return None; }
    var data := buf[base + at + 3..base + at + 3 + length];
    assert data == b[at + 3..at + 3 + length];
    r := Some(Record(version, timestamp, dest, sender, kind, data));
  }
}
