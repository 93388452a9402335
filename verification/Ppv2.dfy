/** The PROXY protocol version 2 header: pkg/ppv2/ppv2.go. */
module Ppv2 {
  import opened Bytes
  import opened Streams

  const SIGNATURE: bytes := [0x0D, 0x0A, 0x0D, 0x0A, 0x00, 0x0D, 0x0A, 0x51, 0x55, 0x49, 0x54, 0x0A]

  const COMMAND_LOCAL: byte := 0
  const COMMAND_PROXY: byte := 1
  const FAMILY_UNSPEC: byte := 0
  const FAMILY_INET: byte := 1
  const FAMILY_INET6: byte := 2
  const PROTOCOL_UNSPEC: byte := 0
  const PROTOCOL_STREAM: byte := 1
  const PROTOCOL_DGRAM: byte := 2

  const MIN_HEADER_SIZE: nat := 16
  const MAX_HEADER_SIZE: nat := 52

  // ---------- net.IP ----------

  /** A net.IP is a byte slice, possibly nil and possibly of a length no address has. */
  datatype IP = NilIP | Addr(b: bytes)

  const V4_IN_V6: bytes := [0, 0, 0, 0, 0, 0, 0, 0, 0, 0, 0xFF, 0xFF]

  function To4(ip: IP): (r: IP)
    ensures r.Addr? ==> |r.b| == 4
  {
    if ip.Addr? && |ip.b| == 4 then ip
    else if ip.Addr? && |ip.b| == 16 && ip.b[..12] == V4_IN_V6 then Addr(ip.b[12..])
    else NilIP
  }

  function To16(ip: IP): (r: IP)
    ensures r.Addr? ==> |r.b| == 16
  {
    if ip.Addr? && |ip.b| == 4 then Addr(V4_IN_V6 + ip.b)
    else if ip.Addr? && |ip.b| == 16 then ip
    else NilIP
  }

  // ---------- headers ----------

  datatype Header = Header(
    command: byte, family: byte, protocol: byte,
    src: IP, dst: IP, srcPort: uint16, dstPort: uint16)
  {
    predicate Valid() {
      && (command == COMMAND_LOCAL || command == COMMAND_PROXY)
      && (|| protocol == PROTOCOL_STREAM
          || protocol == PROTOCOL_DGRAM
          || (protocol == PROTOCOL_UNSPEC && family == FAMILY_UNSPEC))
      && if family == FAMILY_UNSPEC then src == NilIP && dst == NilIP
         else if family == FAMILY_INET then To4(src) != NilIP && To4(dst) != NilIP
         else if family == FAMILY_INET6 then
           src != NilIP && dst != NilIP && To4(src) == NilIP && To4(dst) == NilIP
         else false
    }

    function AddressSize(): nat {
      if family == FAMILY_INET then 4 else if family == FAMILY_INET6 then 16 else 0
    }

    function AddressBlockLen(): nat {
      if family == FAMILY_INET then 12 else if family == FAMILY_INET6 then 36 else 0
    }

    /** Announced as the total encoded size; see SizeIsTwoShort. */
    function Size(): nat {
      12 + 2 + AddressBlockLen()
    }
  }

  /** The bytes writeIP leaves in a zeroed field: nothing is copied for an address of no known length. */
  function FieldOf(ip: IP, size: nat): (f: bytes)
    requires size == 4 || size == 16
    ensures |f| == size
  {
    var a := if size == 4 then To4(ip) else To16(ip);
    if a == NilIP then seq(size, i => 0) else a.b
  }

  /** The header on the wire, section 2.2 of the PROXY protocol. */
  function Encoded(h: Header): bytes
    requires h.Valid() && h.family != FAMILY_UNSPEC
  {
    var n := h.AddressSize();
    Fixed(h) + (FieldOf(h.src, n) + FieldOf(h.dst, n) + PutUint16(h.srcPort) + PutUint16(h.dstPort))
  }

  datatype MarshalResult = Bytes(b: bytes) | InvalidHeader | IndexPanic

  /** copy(buf[off:], data). */
  method CopyAt(buf: array<byte>, off: nat, data: bytes)
    requires off + |data| <= buf.Length
    modifies buf
    ensures buf[..off] == old(buf[..off])
    ensures buf[off..off + |data|] == data
    ensures buf[off + |data|..] == old(buf[off + |data|..])
  {
    var i := 0;
    while i < |data|
      invariant i <= |data|
      invariant buf[..off] == old(buf[..off])
      invariant buf[off..off + i] == data[..i]
      invariant buf[off + i..] == old(buf[off + i..])
    {
      assert old(buf[off + i..])[1..] == old(buf[off + i + 1..]);
      buf[off + i] := data[i];
      i := i + 1;
    }
  }

  method WriteIP(buf: array<byte>, off: nat, ip: IP, size: nat) returns (next: nat)
    requires size == 4 || size == 16
    requires off + size <= buf.Length
    requires forall i :: off <= i < buf.Length ==> buf[i] == 0
    modifies buf
    ensures next == off + size
    ensures buf[..next] == old(buf[..off]) + FieldOf(ip, size)
    ensures forall i :: next <= i < buf.Length ==> buf[i] == 0
  {
    next := off + size;
    ghost var before := buf[..off];
    var a := if size == 4 then To4(ip) else To16(ip);
    if a != NilIP {
      CopyAt(buf, off, a.b);
      forall i | next <= i < buf.Length
        ensures buf[i] == 0
      {
        assert buf[next..][i - next] == old(buf[next..])[i - next];
      }
    } else {
      assert buf[off..next] == seq(size, i => 0);
    }
    assert buf[..next] == buf[..off] + buf[off..next];
  }

  /** The signature, version and command, family and protocol, and block length. */
  function Fixed(h: Header): bytes
    requires h.Valid()
  {
    SIGNATURE + ([0x20 + h.command, h.family * 16 + h.protocol] + PutUint16(h.AddressBlockLen()))
  }

  method WriteFixed(buf: array<byte>, h: Header)
    requires h.Valid() && buf.Length >= 16
    requires forall i :: 0 <= i < buf.Length ==> buf[i] == 0
    modifies buf
    ensures buf[..16] == Fixed(h)
    ensures forall i :: 16 <= i < buf.Length ==> buf[i] == 0
  {
    CopyAt(buf, 0, SIGNATURE);
    forall i | 12 <= i < buf.Length
      ensures buf[i] == 0
    {
      assert buf[12..][i - 12] == old(buf[12..])[i - 12];
    }
    assert buf[..12] == SIGNATURE;
    buf[12] := 0x20 + h.command;
    buf[13] := h.family * 16 + h.protocol;
    buf[14] := h.AddressBlockLen() / 256;
    buf[15] := h.AddressBlockLen() % 256;
    assert buf[..16] == buf[..12] + buf[12..16];
    assert buf[12..16] == [0x20 + h.command, h.family * 16 + h.protocol] + PutUint16(h.AddressBlockLen());
  }

  method WritePorts(buf: array<byte>, off: nat, src: uint16, dst: uint16)
    requires off + 4 == buf.Length
    modifies buf
    ensures buf[..] == old(buf[..off]) + PutUint16(src) + PutUint16(dst)
  {
    CopyAt(buf, off, PutUint16(src));
    assert buf[..off + 2] == buf[..off] + buf[off..off + 2];
    CopyAt(buf, off + 2, PutUint16(dst));
    assert buf[..] == buf[..off + 2] + buf[off + 2..off + 4];
  }

  /**
   * Marshal writes the ports after the address block even when there is none,
   * which indexes past the 16-byte buffer of an unspecified family.
   */
  method Marshal(h: Header) returns (res: MarshalResult)
    ensures res == MarshalOf(h)
  {
    if !h.Valid() {
      return InvalidHeader;
    }
    var buf := new byte[16 + h.AddressBlockLen()](i => 0);
    WriteFixed(buf, h);
    hide Fixed, FieldOf, PutUint16;
    var off := 16;
    if h.family == FAMILY_INET {
      off := WriteIP(buf, off, h.src, 4);
      off := WriteIP(buf, off, h.dst, 4);
    } else if h.family == FAMILY_INET6 {
      off := WriteIP(buf, off, h.src, 16);
      off := WriteIP(buf, off, h.dst, 16);
    }
    if off + 4 > buf.Length {
      return IndexPanic;
    }
    WritePorts(buf, off, h.srcPort, h.dstPort);
    ghost var n := h.AddressSize();
    InOrder(Fixed(h), FieldOf(h.src, n), FieldOf(h.dst, n), PutUint16(h.srcPort), PutUint16(h.dstPort));
    return Bytes(buf[..]);
  }

  lemma InOrder(a: bytes, b: bytes, c: bytes, d: bytes, e: bytes)
    ensures (((a + b) + c) + d) + e == a + (((b + c) + d) + e)
  {
  }

  function MarshalOf(h: Header): MarshalResult {
    if !h.Valid() then InvalidHeader
    else if h.family == FAMILY_UNSPEC then IndexPanic
    else Bytes(Encoded(h))
  }

  // ---------- reading ----------

  datatype HeaderSplit =
    | Parsed(header: Header, rest: bytes)
    | Short
    | NoHeader
    | BlockTooLarge

  function HeaderOf(fixed: bytes, block: bytes): Header
    requires |fixed| == 4
  {
    var h := Header(fixed[0] % 16, fixed[1] / 16, fixed[1] % 16, NilIP, NilIP, 0, 0);
    if h.family == FAMILY_INET && |block| >= 12 then
      h.(src := Addr(block[..4]), dst := Addr(block[4..8]),
         srcPort := Uint16(block[8], block[9]), dstPort := Uint16(block[10], block[11]))
    else if h.family == FAMILY_INET6 && |block| >= 36 then
      h.(src := Addr(block[..16]), dst := Addr(block[16..32]),
         srcPort := Uint16(block[32], block[33]), dstPort := Uint16(block[34], block[35]))
    else h
  }

  function SplitHeader(s: bytes): HeaderSplit {
    if |s| < 12 then Short
    else if s[..12] != SIGNATURE then NoHeader
    else if |s| < 16 then Short
    else
      var blockLen := Uint16(s[14], s[15]);
      if blockLen > MAX_HEADER_SIZE - MIN_HEADER_SIZE then BlockTooLarge
      else if |s| < 16 + blockLen then Short
      else Parsed(HeaderOf(s[12..16], s[16..16 + blockLen]), s[16 + blockLen..])
  }

  datatype HeaderResult = HeaderRead(header: Header) | HeaderError(err: ReadError) | NoSignature | TooLarge

  method ReadHeader(r: Source) returns (res: HeaderResult)
    modifies r
    ensures SuffixOf(r.rest, old(r.rest))
    ensures match res
            case HeaderRead(h) => SplitHeader(old(r.rest)) == Parsed(h, r.rest)
            case HeaderError(e) => e == Failed || (e == Eof && SplitHeader(old(r.rest)) == Short)
            case NoSignature => SplitHeader(old(r.rest)) == NoHeader && r.rest == old(r.rest)[12..]
            case TooLarge => SplitHeader(old(r.rest)) == BlockTooLarge
    ensures (res == HeaderError(Failed) ==> r.failed) && (old(r.failed) ==> r.failed)
  {
    hide SuffixOf, HeaderOf;
    ghost var s := r.rest;
    var sig, err := r.ReadFull(12);
    SuffixOfConcat(sig, r.rest);
    if err != NoError {
      return HeaderError(err);
    }
    assert s[..12] == sig;
    if sig != SIGNATURE {
      return NoSignature;
    }
    ghost var s1 := r.rest;
    var fixed;
    fixed, err := r.ReadFull(4);
    SuffixOfConcat(fixed, r.rest);
    SuffixTransitive(r.rest, s1, s);
    if err != NoError {
      return HeaderError(err);
    }
    assert s[12..16] == s1[..4] == fixed;
    var blockLen := Uint16(fixed[2], fixed[3]);
    if blockLen > MAX_HEADER_SIZE - MIN_HEADER_SIZE {
      return TooLarge;
    }
    ghost var s2 := r.rest;
    var block;
    block, err := r.ReadFull(blockLen);
    SuffixOfConcat(block, r.rest);
    SuffixTransitive(r.rest, s2, s);
    if err != NoError {
      return HeaderError(err);
    }
    assert s2 == s[16..];
    assert s[16..16 + blockLen] == s2[..blockLen] == block;
    return HeaderRead(HeaderOf(fixed, block));
  }

  // ---------- the round trip ----------

  /** The header with its addresses as the wire carries them: 4 bytes for INET, 16 for INET6. */
  function Normalised(h: Header): Header
    requires h.Valid() && h.family != FAMILY_UNSPEC
  {
    h.(src := Addr(FieldOf(h.src, h.AddressSize())), dst := Addr(FieldOf(h.dst, h.AddressSize())))
  }

  lemma SplitPieces(fixed: bytes, block: bytes, rest: bytes)
    requires |fixed| == 4 && Uint16(fixed[2], fixed[3]) == |block| <= 36
    ensures SplitHeader(SIGNATURE + fixed + block + rest) == Parsed(HeaderOf(fixed, block), rest)
  {
    var s := SIGNATURE + fixed + block + rest;
    assert s[..12] == SIGNATURE;
    assert s[12..16] == fixed;
    assert s[16..16 + |block|] == block;
    assert s[16 + |block|..] == rest;
  }

  lemma BlockPieces(src: bytes, dst: bytes, p: uint16, q: uint16)
    requires |src| == |dst|
    ensures var b := src + dst + PutUint16(p) + PutUint16(q); var n := |src|;
            && |b| == 2 * n + 4 && b[..n] == src && b[n..2 * n] == dst
            && Uint16(b[2 * n], b[2 * n + 1]) == p && Uint16(b[2 * n + 2], b[2 * n + 3]) == q
  {
  }

  /**
   * Reading back what Marshal wrote returns the normalised header and leaves
   * exactly what followed; it takes 28 bytes for INET and 52 for INET6.
   */
  lemma ReadEncoded(h: Header, rest: bytes)
    requires h.Valid() && h.family != FAMILY_UNSPEC
    ensures SplitHeader(Encoded(h) + rest) == Parsed(Normalised(h), rest)
    ensures |Encoded(h)| == 16 + h.AddressBlockLen() == if h.family == FAMILY_INET then 28 else 52
  {
    var n := h.AddressSize();
    var fixed := [0x20 + h.command, h.family * 16 + h.protocol] + PutUint16(h.AddressBlockLen());
    var src, dst := FieldOf(h.src, n), FieldOf(h.dst, n);
    var block := src + dst + PutUint16(h.srcPort) + PutUint16(h.dstPort);
    BlockPieces(src, dst, h.srcPort, h.dstPort);
    assert HeaderOf(fixed, block) == Normalised(h);
    hide FieldOf, SplitHeader, HeaderOf, Normalised;
    assert Encoded(h) == SIGNATURE + fixed + block;
    SplitPieces(fixed, block, rest);
  }

  lemma SizeIsTwoShort(h: Header)
    requires h.Valid() && h.family != FAMILY_UNSPEC
    ensures h.Size() == |Encoded(h)| - 2
  {
    ReadEncoded(h, []);
  }

  /** The header itself comes back exactly when its addresses have the length their family has on the wire. */
  lemma ReadsBackUnchanged(h: Header, rest: bytes)
    requires h.Valid() && h.family != FAMILY_UNSPEC
    ensures SplitHeader(Encoded(h) + rest) == Parsed(h, rest)
       <==> |h.src.b| == h.AddressSize() && |h.dst.b| == h.AddressSize()
  {
    ReadEncoded(h, rest);
  }

  // ---------- the bytes, by section 2.2 ----------

  /** Signature, version 2 and command, family and protocol, length of the addresses. */
  function WireStart(command: int, familyAndProtocol: int, length: int): seq<int> {
    [0x0D, 0x0A, 0x0D, 0x0A, 0x00, 0x0D, 0x0A, 0x51, 0x55, 0x49, 0x54, 0x0A, 0x20 + command, familyAndProtocol, 0, length]
  }

  /** A port, high byte first. */
  function WirePort(port: uint16): seq<int> {
    [port / 256, port % 256]
  }

  /** The 28 bytes of an IPv4 header. */
  lemma WireOfINET(h: Header)
    requires h.Valid() && h.family == 1
    ensures To4(h.src) != NilIP && To4(h.dst) != NilIP
    ensures Encoded(h) == WireStart(h.command, 0x10 + h.protocol, 12)
                          + To4(h.src).b + To4(h.dst).b + WirePort(h.srcPort) + WirePort(h.dstPort)
  {
  }

  /** The 52 bytes of an IPv6 header; an address of no known length is all zeros. */
  lemma WireOfINET6(h: Header)
    requires h.Valid() && h.family == 2
    ensures Encoded(h) == WireStart(h.command, 0x20 + h.protocol, 36)
                          + Known(h.src) + Known(h.dst) + WirePort(h.srcPort) + WirePort(h.dstPort)
  {
  }

  function Known(ip: IP): bytes {
    if ip.Addr? && |ip.b| == 16 then ip.b else [0, 0, 0, 0, 0, 0, 0, 0, 0, 0, 0, 0, 0, 0, 0, 0]
  }

  /** Of the 16-byte addresses those that map an IPv4 address are held to be IPv4. */
  lemma MappedIsIPv4(b: bytes)
    requires |b| == 16
    ensures To4(Addr(b)) == (if b[..12] == [0, 0, 0, 0, 0, 0, 0, 0, 0, 0, 255, 255] then Addr(b[12..]) else NilIP)
  {
  }

  function AnnouncedLength(s: bytes): int
    requires |s| >= 16
  {
    var hi: int, lo: int := s[14], s[15];
    hi * 256 + lo
  }

  /**
   * What ReadHeader accepts, on any stream: the signature, a length of at most
   * 36 and that many bytes. It does not look at the version.
   */
  lemma AcceptedIff(s: bytes)
    ensures SplitHeader(s).Parsed? <==>
              && |s| >= 16
              && s[..12] == [0x0D, 0x0A, 0x0D, 0x0A, 0x00, 0x0D, 0x0A, 0x51, 0x55, 0x49, 0x54, 0x0A]
              && AnnouncedLength(s) <= 36 && |s| >= 16 + AnnouncedLength(s)
    ensures SplitHeader(s).Parsed? ==> SplitHeader(s).rest == s[16 + AnnouncedLength(s)..]
  {
  }

  /** A header of any version is read as one of version 2, although the standard has a receiver refuse it. */
  lemma VersionIsIgnored(h: Header, v: int, rest: bytes)
    requires h.Valid() && h.family != FAMILY_UNSPEC && 0 <= v < 16
    ensures |Encoded(h)| > 12
    ensures SplitHeader(Encoded(h)[12 := v * 16 + h.command] + rest) == Parsed(Normalised(h), rest)
  {
    var n := h.AddressSize();
    var fixed := [v * 16 + h.command, h.family * 16 + h.protocol] + PutUint16(h.AddressBlockLen());
    var src, dst := FieldOf(h.src, n), FieldOf(h.dst, n);
    var block := src + dst + PutUint16(h.srcPort) + PutUint16(h.dstPort);
    BlockPieces(src, dst, h.srcPort, h.dstPort);
    assert HeaderOf(fixed, block) == Normalised(h);
    hide FieldOf, SplitHeader, HeaderOf, Normalised;
    assert Encoded(h)[12 := v * 16 + h.command] == SIGNATURE + fixed + block;
    SplitPieces(fixed, block, rest);
  }

  /** What is accepted need not be a valid header; it is exactly when its nibbles and its addresses are. */
  lemma AcceptedIsValidIff(s: bytes)
    requires SplitHeader(s).Parsed?
    ensures |s| >= 16
    ensures var h, length := SplitHeader(s).header, AnnouncedLength(s);
            h.Valid() <==>
              && s[12] % 16 <= 1 && s[13] % 16 <= 2
              && (|| s[13] / 16 == 0
                  || (s[13] / 16 == 1 && s[13] % 16 != 0 && length >= 12)
                  || (s[13] / 16 == 2 && s[13] % 16 != 0 && length == 36 && To4(h.src) == To4(h.dst) == NilIP))
  {
  }

  /** Which Valid headers have an encoding at all: not those of unspecified family. */
  lemma MarshalSucceedsIff(h: Header)
    ensures MarshalOf(h).Bytes? <==> h.Valid() && h.family != FAMILY_UNSPEC
    ensures MarshalOf(h).Bytes? <==>
              && h.command <= 1 && 1 <= h.protocol <= 2
              && (|| (h.family == 1 && To4(h.src) != NilIP && To4(h.dst) != NilIP)
                  || (h.family == 2 && h.src != NilIP && h.dst != NilIP && To4(h.src) == To4(h.dst) == NilIP))
    ensures Header(COMMAND_LOCAL, FAMILY_UNSPEC, PROTOCOL_UNSPEC, NilIP, NilIP, 0, 0).Valid()
    ensures MarshalOf(Header(COMMAND_LOCAL, FAMILY_UNSPEC, PROTOCOL_UNSPEC, NilIP, NilIP, 0, 0)) == IndexPanic
  {
  }
}
