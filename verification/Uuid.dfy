/** The bit and format part of OfflineUUID, pkg/mcproto/mcproto.go. MD5 is a parameter. */
module Uuid {
  import opened Bytes

  type Digest = d: bytes | |d| == 16 witness seq(16, i => 0)

  const DASH: byte := 45

  /** Version 3 in the high nibble of byte 6, the RFC variant in the top two bits of byte 8. */
  function Stamp(d: Digest): Digest {
    d[6 := d[6] % 16 + 0x30][8 := d[8] % 64 + 0x80]
  }

  /** %x of one nibble. */
  function HexDigit(n: int): byte
    requires 0 <= n < 16
  {
    if n < 10 then 48 + n else 87 + n
  }

  /** %x of a byte slice. */
  function Hex(b: bytes): (s: bytes)
    ensures |s| == 2 * |b|
  {
    seq(2 * |b|, i requires 0 <= i < 2 * |b| =>
      HexDigit(if i % 2 == 0 then b[i / 2] / 16 else b[i / 2] % 16))
  }

  function Dashed(a: bytes, b: bytes, c: bytes, d: bytes, e: bytes): bytes {
    a + [DASH] + b + [DASH] + c + [DASH] + d + [DASH] + e
  }

  function Render(d: Digest): bytes {
    Dashed(Hex(d[0..4]), Hex(d[4..6]), Hex(d[6..8]), Hex(d[8..10]), Hex(d[10..16]))
  }

  /** "OfflinePlayer:" */
  const OFFLINE_PLAYER: bytes := [79, 102, 102, 108, 105, 110, 101, 80, 108, 97, 121, 101, 114, 58]

  function OfflineUuid(md5: bytes -> Digest, name: bytes): bytes {
    Render(Stamp(md5(OFFLINE_PLAYER + name)))
  }

  method OfflineUUID(md5: bytes -> Digest, name: bytes) returns (uuid: bytes)
    ensures uuid == OfflineUuid(md5, name)
  {
    var digest := md5(OFFLINE_PLAYER + name);
    var sum := new byte[16](i requires 0 <= i < 16 => digest[i]);
    sum[6] := sum[6] % 16 + 0x30;
    sum[8] := sum[8] % 64 + 0x80;
    assert sum[..] == Stamp(digest);
    return Render(sum[..]);
  }

  lemma HexInjective(a: bytes, b: bytes)
    requires |a| == |b| && Hex(a) == Hex(b)
    ensures a == b
  {
    forall i | 0 <= i < |a|
      ensures a[i] == b[i]
    {
      assert Hex(a)[2 * i] == Hex(b)[2 * i];
      assert Hex(a)[2 * i + 1] == Hex(b)[2 * i + 1];
    }
  }

  lemma DashedPieces(a: bytes, b: bytes, c: bytes, d: bytes, e: bytes)
    requires |a| == 8 && |b| == 4 && |c| == 4 && |d| == 4 && |e| == 12
    ensures var u := Dashed(a, b, c, d, e);
            && |u| == 36
            && u[..8] == a && u[9..13] == b && u[14..18] == c && u[19..23] == d && u[24..] == e
            && u[8] == u[13] == u[18] == u[23] == DASH
  {
  }

  lemma HexIsPlain(b: bytes)
    ensures DASH !in Hex(b) && 0 !in Hex(b)
  {
  }

  /** The canonical form: dashes in place and nowhere else, version 3, an RFC variant, no NUL. */
  lemma UuidShape(md5: bytes -> Digest, name: bytes)
    ensures var u := OfflineUuid(md5, name);
            && |u| == 36
            && u[8] == u[13] == u[18] == u[23] == DASH
            && DASH !in u[..8] + u[9..13] + u[14..18] + u[19..23] + u[24..]
            && u[14] == 51
            && u[19] in {56, 57, 97, 98}
            && 0 !in u
  {
    var s := Stamp(md5(OFFLINE_PLAYER + name));
    var u := Render(s);
    StampedDigits(md5(OFFLINE_PLAYER + name));
    DashedPieces(Hex(s[0..4]), Hex(s[4..6]), Hex(s[6..8]), Hex(s[8..10]), Hex(s[10..16]));
    HexIsPlain(s[0..4]);
    HexIsPlain(s[4..6]);
    HexIsPlain(s[6..8]);
    HexIsPlain(s[8..10]);
    HexIsPlain(s[10..16]);
    assert u[14] == u[14..18][0] && u[19] == u[19..23][0];
  }

  lemma StampedDigits(d: Digest)
    ensures Hex(Stamp(d)[6..8])[0] == HexDigit(3)
    ensures Hex(Stamp(d)[8..10])[0] in {HexDigit(8), HexDigit(9), HexDigit(10), HexDigit(11)}
  {
    assert Hex(Stamp(d)[6..8])[0] == HexDigit(Stamp(d)[6] / 16);
    assert Hex(Stamp(d)[8..10])[0] == HexDigit(Stamp(d)[8] / 16);
  }

  /** A lower-case hexadecimal digit, read. */
  function DigitValue(c: byte): int {
    if 48 <= c <= 57 then c - 48 else if 97 <= c <= 102 then c - 97 + 10 else -1
  }

  /** Where the two digits of byte i are in the dashed form. */
  function Position(i: nat): nat {
    2 * i + (if i < 4 then 0 else if i < 6 then 1 else if i < 8 then 2 else if i < 10 then 3 else 4)
  }

  lemma HexReads(b: bytes, i: nat)
    requires i < |b|
    ensures 0 <= DigitValue(Hex(b)[2 * i]) && 0 <= DigitValue(Hex(b)[2 * i + 1])
    ensures DigitValue(Hex(b)[2 * i]) * 16 + DigitValue(Hex(b)[2 * i + 1]) == b[i]
  {
    assert (2 * i) / 2 == i && (2 * i + 1) / 2 == i;
  }

  /** The digits of b, found from lo on in u. */
  lemma PieceReads(u: bytes, lo: nat, b: bytes, i: nat)
    requires i < |b| && lo + 2 * |b| <= |u| && u[lo..lo + 2 * |b|] == Hex(b)
    ensures DigitValue(u[lo + 2 * i]) >= 0 && DigitValue(u[lo + 2 * i + 1]) >= 0
    ensures DigitValue(u[lo + 2 * i]) * 16 + DigitValue(u[lo + 2 * i + 1]) == b[i]
  {
    HexReads(b, i);
    hide Hex, DigitValue;
    assert u[lo + 2 * i] == u[lo..lo + 2 * |b|][2 * i] && u[lo + 2 * i + 1] == u[lo..lo + 2 * |b|][2 * i + 1];
  }

  lemma RenderPieces(d: Digest)
    ensures var u := Render(d);
            && |u| == 36
            && u[0..8] == Hex(d[0..4]) && u[9..13] == Hex(d[4..6]) && u[14..18] == Hex(d[6..8])
            && u[19..23] == Hex(d[8..10]) && u[24..36] == Hex(d[10..16])
  {
    DashedPieces(Hex(d[0..4]), Hex(d[4..6]), Hex(d[6..8]), Hex(d[8..10]), Hex(d[10..16]));
    hide Hex, Dashed;
    assert Render(d)[0..8] == Render(d)[..8] && Render(d)[24..36] == Render(d)[24..];
  }

  lemma RenderReads(d: Digest, i: nat)
    requires i < 16
    ensures |Render(d)| == 36
    ensures var u, j := Render(d), Position(i);
            && DigitValue(u[j]) >= 0 && DigitValue(u[j + 1]) >= 0
            && DigitValue(u[j]) * 16 + DigitValue(u[j + 1]) == d[i]
  {
    hide Hex, DigitValue, Render;
    RenderPieces(d);
    var u := Render(d);
    if i < 4 {
      PieceReads(u, 0, d[0..4], i);
    } else if i < 6 {
      PieceReads(u, 9, d[4..6], i - 4);
    } else if i < 8 {
      PieceReads(u, 14, d[6..8], i - 6);
    } else if i < 10 {
      PieceReads(u, 19, d[8..10], i - 8);
    } else {
      PieceReads(u, 24, d[10..16], i - 10);
    }
  }

  /**
   * Read as hexadecimal the UUID is the MD5 of "OfflinePlayer:" and the name,
   * except for version 3 in byte 6 and the variant in byte 8.
   */
  lemma UuidReads(md5: bytes -> Digest, name: bytes, i: nat)
    requires i < 16
    ensures |OfflineUuid(md5, name)| == 36
    ensures var u, j := OfflineUuid(md5, name), Position(i);
            var d := md5([79, 102, 102, 108, 105, 110, 101, 80, 108, 97, 121, 101, 114, 58] + name);
            && DigitValue(u[j]) >= 0 && DigitValue(u[j + 1]) >= 0
            && DigitValue(u[j]) * 16 + DigitValue(u[j + 1])
               == if i == 6 then 0x30 + d[6] % 16 else if i == 8 then 0x80 + d[8] % 64 else d[i]
  {
    RenderReads(Stamp(md5(OFFLINE_PLAYER + name)), i);
  }

  /** What two digests must share to be stamped alike. */
  predicate AgreeOutsideStamp(d: Digest, e: Digest) {
    && (forall i :: 0 <= i < 16 && i != 6 && i != 8 ==> d[i] == e[i])
    && d[6] % 16 == e[6] % 16 && d[8] % 64 == e[8] % 64
  }

  lemma StampInjective(d: Digest, e: Digest)
    ensures Stamp(d) == Stamp(e) <==> AgreeOutsideStamp(d, e)
  {
    var s, t := Stamp(d), Stamp(e);
    if s == t {
      assert s[6] == t[6] && s[8] == t[8];
      forall i | 0 <= i < 16 && i != 6 && i != 8
        ensures d[i] == e[i]
      {
        assert s[i] == d[i] && t[i] == e[i];
      }
    }
  }

  lemma RenderInjective(s: Digest, t: Digest)
    requires Render(s) == Render(t)
    ensures s == t
  {
    DashedPieces(Hex(s[0..4]), Hex(s[4..6]), Hex(s[6..8]), Hex(s[8..10]), Hex(s[10..16]));
    DashedPieces(Hex(t[0..4]), Hex(t[4..6]), Hex(t[6..8]), Hex(t[8..10]), Hex(t[10..16]));
    hide Hex, Dashed;
    HexInjective(s[0..4], t[0..4]);
    HexInjective(s[4..6], t[4..6]);
    HexInjective(s[6..8], t[6..8]);
    HexInjective(s[8..10], t[8..10]);
    HexInjective(s[10..16], t[10..16]);
    assert s == s[0..4] + s[4..6] + s[6..8] + s[8..10] + s[10..16];
    assert t == t[0..4] + t[4..6] + t[6..8] + t[8..10] + t[10..16];
  }

  /** Two digests give one UUID exactly when they agree outside the six stamped bits. */
  lemma UuidKeepsTheRest(d: Digest, e: Digest)
    ensures Render(Stamp(d)) == Render(Stamp(e)) <==> AgreeOutsideStamp(d, e)
  {
    hide AgreeOutsideStamp, Stamp, Render;
    StampInjective(d, e);
    if Render(Stamp(d)) == Render(Stamp(e)) {
      RenderInjective(Stamp(d), Stamp(e));
    }
  }
}
