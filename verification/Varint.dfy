/** The three varint decoders and the encoder of pkg/mcproto/mcproto.go. */
module Varint {
  import opened Bytes
  import opened Common

  /** 128 to the power n: the weight of the n-th seven-bit group. */
  function Pow128(n: nat): (p: nat)
    ensures p >= 1
  {
    if n == 0 then 1 else 128 * Pow128(n - 1)
  }

  lemma Pow128Small()
    ensures Pow128(0) == 1 && Pow128(1) == 0x80 && Pow128(2) == 0x4000
    ensures Pow128(3) == 0x20_0000 && Pow128(4) == 0x1000_0000 && Pow128(5) == 0x8_0000_0000
  {
    assert Pow128(2) == 128 * Pow128(1);
    assert Pow128(3) == 128 * Pow128(2);
    assert Pow128(4) == 128 * Pow128(3);
  }

  // ---------- what the bytes mean ----------

  /** Little-endian base-128 number spelled by the low seven bits of each byte, unbounded. */
  function Base128(w: bytes): nat {
    if w == [] then 0 else w[0] % 128 + 128 * Base128(w[1..])
  }

  /** One complete varint: one to five bytes, the last and only the last without its top bit. */
  predicate IsVarint(w: bytes) {
    && 1 <= |w| <= 5
    && w[|w| - 1] < 128
    && forall i :: 0 <= i < |w| - 1 ==> w[i] >= 128
  }

  /** The int32 a complete varint denotes: bits above the 32nd are shifted out. */
  function Value(w: bytes): int32 {
    Signed(Base128(w))
  }

  /** Length of the varint that starts b[i..], counted from b[0]; 0 when there is none within five bytes. */
  function ScanVarint(b: bytes, i: nat): (n: nat)
    requires i <= 5
    ensures n != 0 ==> i < n <= 5 && n <= |b|
    decreases 5 - i
  {
    if i == 5 || i >= |b| then 0
    else if b[i] < 128 then i + 1
    else ScanVarint(b, i + 1)
  }

  /** Length of the varint at the front of b, or 0. */
  function VarintLen(b: bytes): (n: nat)
    ensures n <= 5 && n <= |b|
  {
    ScanVarint(b, 0)
  }

  lemma {:induction false} ScanVarintSpec(b: bytes, i: nat)
    requires i <= 5
    ensures var n := ScanVarint(b, i);
            if n == 0 then forall j :: i <= j < 5 && j < |b| ==> b[j] >= 128
            else b[n - 1] < 128 && forall j :: i <= j < n - 1 ==> b[j] >= 128
    decreases 5 - i
  {
    if i < 5 && i < |b| && b[i] >= 128 {
      ScanVarintSpec(b, i + 1);
    }
  }

  /** VarintLen finds the complete varint b starts with, if there is one. */
  lemma VarintLenSpec(b: bytes)
    ensures VarintLen(b) != 0 ==> IsVarint(b[..VarintLen(b)])
    ensures VarintLen(b) == 0 ==> forall n :: 0 <= n <= |b| ==> !IsVarint(b[..n])
  {
    ScanVarintSpec(b, 0);
    if VarintLen(b) == 0 {
      forall n | 0 <= n <= |b| && 1 <= n <= 5
        ensures !IsVarint(b[..n])
      {
        assert b[..n][n - 1] == b[n - 1] >= 128;
      }
    }
  }

  /** The varint at the front of b and the bytes after it. */
  function TakeVarint(b: bytes): Option<(int32, bytes)> {
    var n := VarintLen(b);
    if n == 0 then None else Some((Value(b[..n]), b[n..]))
  }

  function Group(w: bytes, i: nat): int {
    if i < |w| then w[i] % 128 else 0
  }

  function From(w: bytes, i: nat): int {
    if i < |w| then Base128(w[i..]) else 0
  }

  lemma FromStep(w: bytes, i: nat)
    ensures From(w, i) == Group(w, i) + 128 * From(w, i + 1)
  {
    if i < |w| {
      assert w[i..][1..] == w[i + 1..];
    }
  }

  /** The value of a varint by its bytes: seven bits each, the least significant first, modulo 2 to the 32. */
  lemma ValueByBytes(w: bytes)
    requires |w| <= 5
    ensures (Value(w) - (Group(w, 0) + 0x80 * Group(w, 1) + 0x4000 * Group(w, 2)
                         + 0x20_0000 * Group(w, 3) + 0x1000_0000 * Group(w, 4))) % 0x1_0000_0000 == 0
  {
    FromStep(w, 0);
    FromStep(w, 1);
    FromStep(w, 2);
    FromStep(w, 3);
    FromStep(w, 4);
    assert From(w, 5) == 0;
    assert From(w, 0) == Base128(w) by { assert w[0..] == w; }
    SignedIsCongruent(Base128(w));
    hide Base128, From, Group, Signed;
  }

  lemma SignedIsCongruent(n: int)
    ensures (Signed(n) - n) % 0x1_0000_0000 == 0
  {
  }

  // ---------- the encoding ----------

  function EncodeU(u: nat): (w: bytes)
    ensures |w| >= 1
  {
    if u < 128 then [u] else [u % 128 + 128] + EncodeU(u / 128)
  }

  function Encode(v: int32): bytes {
    EncodeU(Unsigned(v))
  }

  // ---------- lemmas ----------

  lemma {:induction false} Base128Append(w: bytes, x: byte)
    ensures Base128(w + [x]) == Base128(w) + x % 128 * Pow128(|w|)
  {
    if w == [] {
      assert w + [x] == [x];
      assert Base128([x]) == x % 128 + 128 * Base128([]);
    } else {
      assert (w + [x])[1..] == w[1..] + [x];
      Base128Append(w[1..], x);
      var p := Pow128(|w| - 1);
      assert Pow128(|w|) == 128 * p;
      assert x % 128 * (128 * p) == 128 * (x % 128 * p);
    }
  }

  lemma {:induction false} Base128Bound(w: bytes)
    ensures Base128(w) < Pow128(|w|)
  {
    if w != [] {
      Base128Bound(w[1..]);
    }
  }

  /** A complete varint is recognised whatever follows it, and exactly it is taken. */
  lemma VarintPrefix(w: bytes, rest: bytes)
    requires IsVarint(w)
    ensures VarintLen(w + rest) == |w|
    ensures TakeVarint(w + rest) == Some((Value(w), rest))
  {
    var b := w + rest;
    ScanVarintSpec(b, 0);
    assert b[|w| - 1] < 128;
    assert VarintLen(b) != 0;
    assert b[VarintLen(b) - 1] < 128;
    assert b[..|w|] == w && b[|w|..] == rest;
  }

  lemma {:induction false} EncodeUShape(u: nat, k: nat)
    requires 1 <= k && u < Pow128(k)
    ensures |EncodeU(u)| <= k
    ensures EncodeU(u)[|EncodeU(u)| - 1] < 128
    ensures forall i :: 0 <= i < |EncodeU(u)| - 1 ==> EncodeU(u)[i] >= 128
    ensures Base128(EncodeU(u)) == u
    decreases k
  {
    if u < 128 {
      assert Base128([u]) == u % 128 + 128 * Base128([]);
    } else {
      Pow128Small();
      assert k > 1;
      EncodeUShape(u / 128, k - 1);
      var t := EncodeU(u / 128);
      assert EncodeU(u) == [u % 128 + 128] + t;
      assert EncodeU(u)[1..] == t;
    }
  }

  lemma SignedUnsigned(v: int32)
    ensures Signed(Unsigned(v)) == v && 0 <= Unsigned(v) < 0x8_0000_0000
  {
  }

  lemma EncodeIsVarint(v: int32)
    ensures IsVarint(Encode(v)) && Value(Encode(v)) == v
  {
    Pow128Small();
    EncodeUShape(Unsigned(v), 5);
    SignedUnsigned(v);
    hide EncodeU, Base128, Pow128, Signed, Unsigned;
  }

  /** An encoding cut short is no varint. */
  lemma TruncatedVarint(v: int32, k: nat)
    requires k < |Encode(v)|
    ensures TakeVarint(Encode(v)[..k]) == None
  {
    EncodeIsVarint(v);
    ScanVarintSpec(Encode(v)[..k], 0);
    hide EncodeU, Base128, ScanVarint;
  }

  /** Decoding inverts appendVarint on all of int32, whatever bytes follow. */
  lemma DecodeEncode(v: int32, rest: bytes)
    ensures 1 <= |Encode(v)| <= 5
    ensures VarintLen(Encode(v) + rest) == |Encode(v)|
    ensures TakeVarint(Encode(v) + rest) == Some((v, rest))
  {
    EncodeIsVarint(v);
    VarintPrefix(Encode(v), rest);
  }

  /** No varint of the same value is shorter than the one appendVarint writes. */
  lemma EncodeIsShortest(w: bytes)
    requires IsVarint(w)
    ensures |Encode(Value(w))| <= |w|
  {
    Pow128Small();
    Base128Bound(w);
    if |w| < 5 {
      assert Base128(w) < 0x1000_0000;
      EncodeUShape(Unsigned(Value(w)), |w|);
    } else {
      EncodeUShape(Unsigned(Value(w)), 5);
    }
  }

  // ---------- the loops ----------

  /**
   * Go's v |= int32(x) << (7*i). The bits of v lie below the shifted group
   * (OrIsAddition), so the disjunction is a sum; Signed drops what is shifted out.
   */
  function OrGroup(v: int32, x: byte, i: nat): int32
    requires i < 5 && 0 <= v < Pow128(i)
  {
    Signed(v + x % 128 * Pow128(i))
  }

  lemma OrIsAddition(v: bv32, x: bv32)
    ensures v < 0x80 ==> v | ((x & 0x7F) << 7) == v + ((x & 0x7F) << 7)
    ensures v < 0x4000 ==> v | ((x & 0x7F) << 14) == v + ((x & 0x7F) << 14)
    ensures v < 0x20_0000 ==> v | ((x & 0x7F) << 21) == v + ((x & 0x7F) << 21)
    ensures v < 0x1000_0000 ==> v | ((x & 0x7F) << 28) == v + ((x & 0x7F) << 28)
  {
  }

  /** One more group read: the accumulator is again the value of what was read. */
  lemma OrGroupIsValue(b: bytes, i: nat, v: int32)
    requires i < 5 && i < |b|
    requires v == Base128(b[..i])
    ensures 0 <= v < Pow128(i)
    ensures OrGroup(v, b[i], i) == Value(b[..i + 1])
    ensures i < 4 ==> OrGroup(v, b[i], i) == Base128(b[..i + 1])
  {
    Base128Bound(b[..i]);
    assert b[..i + 1] == b[..i] + [b[i]];
    Base128Append(b[..i], b[i]);
    Base128Bound(b[..i + 1]);
    FourGroupsFit(i);
    hide Base128, Pow128;
  }

  lemma FourGroupsFit(i: nat)
    requires i < 5
    ensures Pow128(i) <= 0x1000_0000 && (i < 4 ==> Pow128(i + 1) <= 0x1000_0000)
  {
    Pow128Small();
  }

  method DecodeVarint(b: bytes) returns (v: int32, n: nat)
    ensures n == VarintLen(b)
    ensures v == if n == 0 then 0 else Value(b[..n])
  {
    v := 0;
    var i := 0;
    while i < 5 && i < |b|
      invariant i <= 5 && i <= |b|
      invariant VarintLen(b) == ScanVarint(b, i)
      invariant i < 5 ==> v == Base128(b[..i])
    {
      OrGroupIsValue(b, i, v);
      v := OrGroup(v, b[i], i);
      if b[i] < 128 {
        return v, i + 1;
      }
      i := i + 1;
    }
    return 0, 0;
  }

  method AppendVarint(b: bytes, v: int32) returns (out: bytes)
    ensures out == b + Encode(v)
  {
    var u := Unsigned(v);
    out := b;
    while true
      invariant 0 <= u
      invariant out + EncodeU(u) == b + Encode(v)
      decreases u
    {
      var low, high := u % 128, u / 128;
      if high == 0 {
        assert EncodeU(u) == [low];
        return out + [low];
      }
      assert EncodeU(u) == [low + 128] + EncodeU(high);
      assert out + EncodeU(u) == (out + [low + 128]) + EncodeU(high);
      out := out + [low + 128];
      u := high;
    }
  }

  /** bytes.Reader: a byte slice and a cursor. */
  class ByteReader {
    const data: bytes
    var pos: nat

    ghost predicate Valid()
      reads this
    {
      pos <= |data|
    }

    function Rest(): bytes
      requires Valid()
      reads this
    {
      data[pos..]
    }

    constructor (b: bytes)
      ensures Valid() && Rest() == b
    {
      data := b;
      pos := 0;
    }

    method ReadByte() returns (x: Option<byte>)
      requires Valid()
      modifies this
      ensures Valid()
      ensures old(Rest()) == [] ==> x == None && Rest() == []
      ensures old(Rest()) != [] ==> x == Some(old(Rest())[0]) && Rest() == old(Rest())[1..]
    {
      if pos == |data| {
        return None;
      }
      x := Some(data[pos]);
      pos := pos + 1;
    }

    /** io.ReadFull into a buffer of n bytes. */
    method ReadFull(n: nat) returns (p: Option<bytes>)
      requires Valid()
      modifies this
      ensures Valid()
      ensures n <= |old(Rest())| ==> p == Some(old(Rest())[..n]) && Rest() == old(Rest())[n..]
      ensures n > |old(Rest())| ==> p == None && Rest() == []
    {
      if n > |data| - pos {
        pos := |data|;
        return None;
      }
      assert data[pos..][..n] == data[pos..pos + n];
      p := Some(data[pos..pos + n]);
      pos := pos + n;
    }

    method ReadVarint() returns (v: Option<int32>)
      requires Valid()
      modifies this
      ensures Valid()
      ensures match TakeVarint(old(Rest()))
              case None => v == None
              case Some((x, rest)) => v == Some(x) && Rest() == rest
    {
      ghost var b := Rest();
      var acc: int32 := 0;
      var i := 0;
      while i < 5
        invariant Valid() && i <= 5 && i <= |b| && Rest() == b[i..]
        invariant VarintLen(b) == ScanVarint(b, i)
        invariant i < 5 ==> acc == Base128(b[..i])
      {
        var x := ReadByte();
        if x == None {
          return None;
        }
        assert x.value == b[i];
        OrGroupIsValue(b, i, acc);
        acc := OrGroup(acc, x.value, i);
        if x.value < 128 {
          return Some(acc);
        }
        i := i + 1;
      }
      return None;
    }

    method ReadString() returns (s: Option<bytes>)
      requires Valid()
      modifies this
      ensures Valid()
      ensures match TakeString(old(Rest()))
              case None => s == None
              case Some((x, rest)) => s == Some(x) && Rest() == rest
    {
      var n := ReadVarint();
      if n == None || n.value < 0 || n.value > |data| - pos {
        return None;
      }
      s := ReadFull(n.value);
    }
  }

  // ---------- strings ----------

  /** A varint-prefixed string at the front of b and the bytes after it. */
  function TakeString(b: bytes): Option<(bytes, bytes)> {
    match TakeVarint(b)
    case None => None
    case Some((n, rest)) =>
      if n < 0 || n > |rest| then None else Some((rest[..n], rest[n..]))
  }

  /** appendString's bytes; the length prefix is int32(len(s)). */
  function EncodeString(s: bytes): bytes {
    Encode(Signed(|s|)) + s
  }

  lemma TakeStringPrefix(w: bytes, s: bytes, rest: bytes)
    requires IsVarint(w) && Value(w) == |s|
    ensures TakeString((w + s) + rest) == Some((s, rest))
  {
    var tail := s + rest;
    assert (w + s) + rest == w + tail;
    VarintPrefix(w, tail);
    assert tail[..|s|] == s && tail[|s|..] == rest;
  }

  /** A string is read if and only if its announced length is not negative and that much is there. */
  lemma TakeStringIff(n: int32, rest: bytes)
    ensures TakeString(Encode(n) + rest) == if 0 <= n <= |rest| then Some((rest[..n], rest[n..])) else None
  {
    hide EncodeU, Base128, ScanVarint;
    DecodeEncode(n, rest);
  }

  /** A string whose length fits int32 reads back, leaving what follows it. */
  lemma TakeEncodedString(s: bytes, rest: bytes)
    requires |s| < 0x8000_0000
    ensures TakeString(EncodeString(s) + rest) == Some((s, rest))
  {
    hide EncodeU, Base128, ScanVarint, TakeString;
    EncodeIsVarint(Signed(|s|));
    TakeStringPrefix(Encode(Signed(|s|)), s, rest);
  }
}
