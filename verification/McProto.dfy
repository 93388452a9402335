/** Frames and the handshake and login-start packets: pkg/mcproto/mcproto.go. */
module McProto {
  import opened Bytes
  import opened Common
  import opened Varint
  import opened Streams

  const MAX_FRAME: int := 0x1_0000

  datatype Frame = Frame(id: int32, body: bytes, raw: bytes)
  datatype Handshake = Handshake(protocol: int32, host: bytes, port: uint16, intent: int32)

  // ---------- framing ----------

  /** What the bytes of a stream, all of them, have at their front. */
  datatype Split =
    | Framed(frame: Frame, rest: bytes)
    | Incomplete
    | LengthTooLong
    | BadLength(length: int32)

  function FrameOf(prefix: bytes, payload: bytes): Frame {
    var k := VarintLen(payload);
    Frame(if k == 0 then 0 else Value(payload[..k]), payload[k..], prefix + payload)
  }

  function SplitFrame(s: bytes): Split {
    var n := VarintLen(s);
    if n == 0 then
      if |s| >= 5 then LengthTooLong else Incomplete
    else
      var length := Value(s[..n]);
      if length <= 0 || length > MAX_FRAME then BadLength(length)
      else if |s| < n + length then Incomplete
      else Framed(FrameOf(s[..n], s[n..n + length]), s[n + length..])
  }

  /** Replaying raw before the rest of the stream restores the stream. */
  lemma FrameIsVerbatim(s: bytes)
    requires SplitFrame(s).Framed?
    ensures SplitFrame(s).frame.raw + SplitFrame(s).rest == s
  {
    hide ScanVarint, Base128, Signed;
    var n := VarintLen(s);
    var length := Value(s[..n]);
    assert s == s[..n] + s[n..n + length] + s[n + length..];
  }

  /** A frame is decided by its own bytes: whatever follows is left alone. */
  lemma FramePrefix(w: bytes, payload: bytes, rest: bytes)
    requires IsVarint(w) && Value(w) == |payload|
    ensures SplitFrame(w + payload + rest)
         == if 0 < |payload| <= 65536 then Framed(FrameOf(w, payload), rest) else BadLength(|payload|)
  {
    hide ScanVarint, Base128;
    var s := w + payload + rest;
    assert s == w + (payload + rest);
    VarintPrefix(w, payload + rest);
    assert s[..|w|] == w;
    if 0 < |payload| <= MAX_FRAME {
      assert s[|w|..|w| + |payload|] == payload;
      assert s[|w| + |payload|..] == rest;
    }
  }

  datatype FrameResult =
    | FrameRead(frame: Frame)
    | IoError(err: ReadError)
    | TooLong
    | OutOfRange(length: int32)

  datatype LengthResult = Length(value: int32) | LengthError(err: ReadError) | LengthRunsOn

  /** The length loop of ReadFrame: the third varint decoder, one byte per read. */
  method ReadLength(r: Source) returns (rawLen: bytes, res: LengthResult)
    modifies r
    ensures old(r.rest) == rawLen + r.rest
    ensures match res
            case Length(v) => VarintLen(old(r.rest)) == |rawLen| > 0 && v == Value(rawLen)
            case LengthError(e) =>
              e == Failed || (e == Eof && VarintLen(old(r.rest)) == 0 && |old(r.rest)| < 5)
            case LengthRunsOn => VarintLen(old(r.rest)) == 0 && |old(r.rest)| >= 5
    ensures (res == LengthError(Failed) ==> r.failed) && (old(r.failed) ==> r.failed)
  {
    ghost var s := r.rest;
    rawLen := [];
    var length: int32 := 0;
    var i := 0;
    while true
      invariant i < 5 && |rawLen| == i && s == rawLen + r.rest
      invariant VarintLen(s) == ScanVarint(s, i)
      invariant length == Base128(rawLen)
      invariant old(r.failed) ==> r.failed
      decreases 5 - i
    {
      var one, err := r.ReadFull(1);
      assert s == (rawLen + one) + r.rest;
      if err != NoError {
        assert rawLen + one == rawLen;
        return rawLen, LengthError(err);
      }
      OrGroupIsValue(rawLen + one, i, length) by {
        assert (rawLen + one)[..i] == rawLen;
      }
      rawLen := rawLen + one;
      assert rawLen[..i + 1] == rawLen && s[i] == rawLen[i];
      length := OrGroup(length, rawLen[i], i);
      if rawLen[i] < 128 {
        return rawLen, Length(length);
      }
      if i == 4 {
        return rawLen, LengthRunsOn;
      }
      i := i + 1;
    }
  }

  /** Bytes are consumed exactly: a frame read leaves precisely what followed it. */
  method ReadFrame(r: Source) returns (res: FrameResult)
    modifies r
    ensures SuffixOf(r.rest, old(r.rest))
    ensures match res
            case FrameRead(f) => SplitFrame(old(r.rest)) == Framed(f, r.rest)
            case IoError(e) => e == Failed || (e == Eof && SplitFrame(old(r.rest)) == Incomplete)
            case TooLong => SplitFrame(old(r.rest)) == LengthTooLong
            case OutOfRange(n) => SplitFrame(old(r.rest)) == BadLength(n)
    ensures (res == IoError(Failed) ==> r.failed) && (old(r.failed) ==> r.failed)
  {
    hide VarintLen, Value, SuffixOf;
    ghost var s := r.rest;
    var rawLen, prefix := ReadLength(r);
    SuffixOfConcat(rawLen, r.rest);
    assert s[..|rawLen|] == rawLen && s[|rawLen|..] == r.rest;
    if prefix.LengthError? {
      return IoError(prefix.err);
    }
    if prefix.LengthRunsOn? {
      return TooLong;
    }
    var length := prefix.value;
    if length <= 0 || length > MAX_FRAME {
      return OutOfRange(length);
    }
    ghost var after := r.rest;
    var payload, err := r.ReadFull(length);
    SuffixOfConcat(payload, r.rest);
    SuffixTransitive(r.rest, after, s);
    if err != NoError {
      return IoError(err);
    }
    assert s[|rawLen|..|rawLen| + length] == after[..length] == payload;
    assert s[|rawLen| + length..] == after[length..] == r.rest;
    var id, idLen := DecodeVarint(payload);
    return FrameRead(Frame(id, payload[idLen..], rawLen + payload));
  }

  // ---------- handshake ----------

  function HandshakeOfBody(b: bytes): Option<Handshake> {
    match TakeVarint(b)
    case None => None
    case Some((protocol, b1)) =>
      match TakeString(b1)
      case None => None
      case Some((host, b2)) =>
        if |b2| < 2 then None
        else
          match TakeVarint(b2[2..])
          case None => None
          case Some((intent, _)) => Some(Handshake(protocol, host, Uint16(b2[0], b2[1]), intent))
  }

  function HandshakeOf(f: Frame): Option<Handshake> {
    if f.id != 0 then None else HandshakeOfBody(f.body)
  }

  method ParseHandshake(f: Frame) returns (h: Option<Handshake>)
    ensures h == HandshakeOf(f)
  {
    if f.id != 0 {
      return None;
    }
    var r := new ByteReader(f.body);
    var proto := r.ReadVarint();
    if proto == None {
      return None;
    }
    var host := r.ReadString();
    if host == None {
      return None;
    }
    var port := r.ReadFull(2);
    if port == None {
      return None;
    }
    var intent := r.ReadVarint();
    if intent == None {
      return None;
    }
    return Some(Handshake(proto.value, host.value, Uint16(port.value[0], port.value[1]), intent.value));
  }

  function HandshakeBody(h: Handshake, host: bytes): bytes {
    Encode(h.protocol) + (EncodeString(host) + (PutUint16(h.port) + Encode(h.intent)))
  }

  function Payload(h: Handshake, host: bytes): bytes {
    Encode(0) + HandshakeBody(h, host)
  }

  function Marshalled(h: Handshake, host: bytes): Frame {
    var payload := Payload(h, host);
    Frame(0, HandshakeBody(h, host), Encode(Signed(|payload|)) + payload)
  }

  lemma AppendInOrder(a: bytes, b: bytes, c: bytes, d: bytes, e: bytes)
    ensures ((([] + a) + b) + c) + d + e == a + ((b + c) + (d + e))
  {
  }

  method MarshalHandshake(h: Handshake, host: bytes) returns (f: Frame)
    ensures f == Marshalled(h, host)
  {
    hide EncodeU, Signed;
    var body := AppendVarint([], h.protocol);
    body := AppendVarint(body, Signed(|host|));
    body := body + host;
    body := body + [h.port / 256, h.port % 256];
    body := AppendVarint(body, h.intent);
    AppendInOrder(Encode(h.protocol), Encode(Signed(|host|)), host, PutUint16(h.port), Encode(h.intent));

    var payload := AppendVarint([], 0);
    payload := payload + body;
    var raw := AppendVarint([], Signed(|payload|));
    raw := raw + payload;
    return Frame(0, body, raw);
  }

  lemma PayloadSize(h: Handshake, host: bytes)
    ensures |host| <= |Payload(h, host)| <= |host| + 22
  {
    hide EncodeU;
    DecodeEncode(0, []);
    DecodeEncode(h.protocol, []);
    DecodeEncode(h.intent, []);
    DecodeEncode(Signed(|host|), []);
  }

  /** A body is read field by field, however its varints are spelled and whatever follows it. */
  lemma AnySpellingReads(p: bytes, l: bytes, host: bytes, port: uint16, i: bytes, junk: bytes)
    requires IsVarint(p) && IsVarint(l) && IsVarint(i) && Value(l) == |host|
    ensures HandshakeOfBody(p + (l + host + ([port / 256, port % 256] + (i + junk))))
         == Some(Handshake(Value(p), host, port, Value(i)))
  {
    hide ScanVarint, Base128, IsVarint, Value, TakeVarint, TakeString;
    var tail := i + junk;
    var b2 := [port / 256, port % 256] + tail;
    VarintPrefix(p, l + host + b2);
    TakeStringPrefix(l, host, b2);
    DropPort(port, tail);
    VarintPrefix(i, junk);
  }

  /** A body reads back, whatever follows it. */
  lemma BodyReads(h: Handshake, host: bytes, junk: bytes)
    requires |host| < 0x8000_0000
    ensures HandshakeOfBody(HandshakeBody(h, host) + junk) == Some(h.(host := host))
  {
    EncodeIsVarint(h.protocol);
    EncodeIsVarint(h.intent);
    EncodeIsVarint(Signed(|host|));
    hide Encode, IsVarint, Value, HandshakeOfBody;
    AnySpellingReads(Encode(h.protocol), Encode(Signed(|host|)), host, h.port, Encode(h.intent), junk);
    assert HandshakeBody(h, host) + junk
        == Encode(h.protocol) + (Encode(Signed(|host|)) + host + ([h.port / 256, h.port % 256] + (Encode(h.intent) + junk)));
  }

  /** Every field survives, for every int32 protocol and intent and every host. */
  lemma ParseMarshalled(h: Handshake, host: bytes)
    requires |host| < 0x8000_0000
    ensures HandshakeOf(Marshalled(h, host)) == Some(h.(host := host))
  {
    hide HandshakeBody, HandshakeOfBody;
    BodyReads(h, host, []);
    assert HandshakeBody(h, host) + [] == HandshakeBody(h, host);
  }

  lemma DropPort(port: uint16, tail: bytes)
    ensures var b := PutUint16(port) + tail; |b| >= 2 && b[2..] == tail && Uint16(b[0], b[1]) == port
  {
  }

  /** parse, marshal, parse is parse, however the bytes of f spelled its varints. */
  lemma ParseMarshalParse(f: Frame, h: Handshake, host: bytes)
    requires HandshakeOf(f) == Some(h)
    requires |host| < 0x8000_0000
    ensures HandshakeOf(Marshalled(h, host)) == Some(h.(host := host))
    ensures |h.host| < 0x8000_0000 && HandshakeOf(Marshalled(h, h.host)) == HandshakeOf(f)
  {
    ParseMarshalled(h, host);
    ParseMarshalled(h, h.host);
  }

  /**
   * A rewritten handshake is read back, leaving exactly what followed it, if
   * and only if its payload is within MAX_FRAME (lengths up to int32).
   */
  lemma ReadMarshalled(h: Handshake, host: bytes, rest: bytes)
    requires |Payload(h, host)| < 0x8000_0000
    ensures SplitFrame(Marshalled(h, host).raw + rest) == Framed(Marshalled(h, host), rest)
       <==> |Payload(h, host)| <= 65536
  {
    hide EncodeU, ScanVarint, Base128, HandshakeBody;
    var payload := Payload(h, host);
    var w := Encode(Signed(|payload|));
    EncodeIsVarint(Signed(|payload|));
    FramePrefix(w, payload, rest);
    DecodeEncode(0, HandshakeBody(h, host));
    assert payload[..|Encode(0)|] == Encode(0) && payload[|Encode(0)|..] == HandshakeBody(h, host);
    EncodeIsVarint(0);
  }

  /** The bytes of a handshake: length, id 0, protocol, host length, host, port with its high byte first, intent. */
  lemma WireOfHandshake(h: Handshake, host: bytes)
    requires |host| < 0x7000_0000
    ensures var payload := [0] + Encode(h.protocol) + Encode(|host|) + host + [h.port / 256, h.port % 256] + Encode(h.intent);
            |payload| < 0x8000_0000 && Marshalled(h, host).raw == Encode(|payload|) + payload
  {
    PayloadSize(h, host);
    ZeroIsOneByte();
    hide EncodeU;
    assert Payload(h, host)
        == [0] + Encode(h.protocol) + Encode(|host|) + host + [h.port / 256, h.port % 256] + Encode(h.intent);
  }

  lemma TruncatedString(s: bytes, k: nat)
    requires |s| < 0x8000_0000 && k < |EncodeString(s)|
    ensures TakeString(EncodeString(s)[..k]) == None
  {
    hide EncodeU, Base128, ScanVarint;
    var n := Encode(Signed(|s|));
    var cut := EncodeString(s)[..k];
    if k < |n| {
      assert cut == n[..k];
      TruncatedVarint(Signed(|s|), k);
    } else {
      assert cut == n + s[..k - |n|];
      TakeStringIff(|s|, s[..k - |n|]);
    }
  }

  /** No handshake is parsed from a body that ends early, wherever it ends. */
  lemma TruncatedIsRejected(h: Handshake, k: nat)
    requires |h.host| < 0x8000_0000 && k < |HandshakeBody(h, h.host)|
    ensures HandshakeOfBody(HandshakeBody(h, h.host)[..k]) == None
  {
    hide EncodeU, TakeVarint, TakeString, EncodeString, Encode;
    var p, s, i := Encode(h.protocol), EncodeString(h.host), Encode(h.intent);
    var cut := HandshakeBody(h, h.host)[..k];
    if k < |p| {
      assert cut == p[..k];
      TruncatedVarint(h.protocol, k);
    } else {
      var b1 := (s + (PutUint16(h.port) + i))[..k - |p|];
      assert cut == p + b1;
      DecodeEncode(h.protocol, b1);
      if |b1| < |s| {
        assert b1 == s[..|b1|];
        TruncatedString(h.host, |b1|);
      } else {
        var b2 := (PutUint16(h.port) + i)[..|b1| - |s|];
        assert b1 == s + b2;
        TakeEncodedString(h.host, b2);
        if |b2| >= 2 {
          assert b2[2..] == i[..|b2| - 2];
          TruncatedVarint(h.intent, |b2| - 2);
        }
      }
    }
  }

  /** A varint read and written back is not longer. */
  lemma TakenVarintNotLonger(b: bytes)
    requires TakeVarint(b).Some?
    ensures |Encode(TakeVarint(b).value.0)| + |TakeVarint(b).value.1| <= |b|
  {
    hide EncodeU, Base128;
    VarintLenSpec(b);
    EncodeIsShortest(b[..VarintLen(b)]);
  }

  /** Re-encoding lengthens a handshake by what the host grows, and by at most four bytes of its length. */
  lemma MarshalledNotLonger(f: Frame, host: bytes)
    requires HandshakeOf(f).Some? && |host| < 0x8000_0000
    ensures var h := HandshakeOf(f).value;
            |h.host| <= |f.body| && |Payload(h, host)| <= 1 + |f.body| + (|host| - |h.host|) + 4
  {
    hide EncodeU, Base128, ScanVarint;
    var b1 := TakeVarint(f.body).value.1;
    var b2 := TakeString(b1).value.1;
    TakenVarintNotLonger(f.body);
    TakenVarintNotLonger(b1);
    TakenVarintNotLonger(b2[2..]);
    DecodeEncode(Signed(|host|), []);
    DecodeEncode(0, []);
    ZeroIsOneByte();
  }

  lemma ZeroIsOneByte()
    ensures Encode(0) == [0]
  {
  }

  // ---------- what re-encoding keeps of the bytes ----------

  /** The varint at the front of b is spelled as appendVarint spells its value. */
  predicate Canonical(b: bytes) {
    var n := VarintLen(b);
    n > 0 && b[..n] == Encode(Value(b[..n]))
  }

  /** The protocol, host-length and intent varints are, and nothing follows the intent. */
  predicate CanonicalBody(b: bytes)
    requires HandshakeOfBody(b).Some?
  {
    var b1 := TakeVarint(b).value.1;
    var b2 := TakeString(b1).value.1;
    Canonical(b) && Canonical(b1) && Canonical(b2[2..]) && TakeVarint(b2[2..]).value.1 == []
  }

  /** A canonical varint and the bytes after it are determined by its value. */
  lemma CanonicalIff(b: bytes)
    requires TakeVarint(b).Some?
    ensures Canonical(b) <==> b == Encode(TakeVarint(b).value.0) + TakeVarint(b).value.1
  {
    hide EncodeU, Base128, ScanVarint;
    var n, v, rest := VarintLen(b), TakeVarint(b).value.0, TakeVarint(b).value.1;
    assert b == b[..n] + rest;
    if b == Encode(v) + rest {
      DecodeEncode(v, rest);
      assert b[..|Encode(v)|] == Encode(v);
    }
  }

  lemma BodyPieces(b: bytes, h: Handshake)
    requires HandshakeOfBody(b) == Some(h)
    ensures TakeVarint(b).Some? && TakeString(TakeVarint(b).value.1).Some?
    ensures var b1 := TakeVarint(b).value.1;
            var b2 := TakeString(b1).value.1;
            && TakeVarint(b).value.0 == h.protocol
            && TakeVarint(b1).Some? && TakeVarint(b1).value == (|h.host|, h.host + b2)
            && |b2| >= 2 && b2 == PutUint16(h.port) + b2[2..]
            && TakeVarint(b2[2..]).Some? && TakeVarint(b2[2..]).value.0 == h.intent
  {
    hide TakeVarint;
    var b1 := TakeVarint(b).value.1;
    var b2 := TakeString(b1).value.1;
    var n, rest := TakeVarint(b1).value.0, TakeVarint(b1).value.1;
    assert rest == rest[..n] + rest[n..];
    assert PutUint16(Uint16(b2[0], b2[1])) == b2[..2];
    assert b2 == b2[..2] + b2[2..];
  }

  lemma BodyForm(h: Handshake, b3: bytes)
    requires |h.host| < 0x8000_0000
    ensures var b2 := PutUint16(h.port) + b3;
            Encode(h.protocol) + (EncodeString(h.host) + b2) == Encode(h.protocol) + (Encode(|h.host|) + (h.host + b2))
    ensures HandshakeBody(h, h.host) ==
            Encode(h.protocol) + (EncodeString(h.host) + (PutUint16(h.port) + Encode(h.intent)))
  {
    hide EncodeU;
    var b2 := PutUint16(h.port) + b3;
    assert EncodeString(h.host) + b2 == Encode(|h.host|) + (h.host + b2);
  }

  /** What re-encoding writes is canonical. */
  lemma KeptIsCanonical(b: bytes, h: Handshake)
    requires HandshakeOfBody(b) == Some(h) && b == HandshakeBody(h, h.host)
    ensures CanonicalBody(b)
  {
    hide HandshakeOfBody, HandshakeBody, Encode, EncodeString, Canonical, TakeVarint, TakeString, PutUint16;
    BodyPieces(b, h);
    var b2 := PutUint16(h.port) + Encode(h.intent);
    var b1 := Encode(|h.host|) + (h.host + b2);
    BodyForm(h, Encode(h.intent));
    DecodeEncode(h.protocol, b1);
    DecodeEncode(|h.host|, h.host + b2);
    assert TakeVarint(b).value.1 == b1;
    var c2 := TakeString(b1).value.1;
    assert c2 == (h.host + c2)[|h.host|..] == (h.host + b2)[|h.host|..] == b2;
    assert |PutUint16(h.port)| == 2 by { PortIsTwo(h.port); }
    assert b2[2..] == Encode(h.intent) == Encode(h.intent) + [];
    DecodeEncode(h.intent, []);
    CanonicalIff(b);
    CanonicalIff(b1);
    CanonicalIff(b2[2..]);
  }

  lemma PortIsTwo(port: uint16)
    ensures |PutUint16(port)| == 2
  {
  }

  lemma CanonicalIsKept(b: bytes, h: Handshake)
    requires HandshakeOfBody(b) == Some(h) && CanonicalBody(b)
    ensures b == HandshakeBody(h, h.host)
  {
    hide HandshakeOfBody, HandshakeBody, Encode, EncodeString, Canonical, TakeVarint, TakeString, PutUint16;
    BodyPieces(b, h);
    BodyForm(h, Encode(h.intent));
    var b1 := TakeVarint(b).value.1;
    var b2 := TakeString(b1).value.1;
    CanonicalIff(b);
    CanonicalIff(b1);
    CanonicalIff(b2[2..]);
    assert b2[2..] == Encode(h.intent) + [] == Encode(h.intent);
  }

  /** A body is the re-encoding of what is parsed from it if and only if it is canonical throughout. */
  lemma BodyIsKeptIff(b: bytes, h: Handshake)
    requires HandshakeOfBody(b) == Some(h)
    ensures b == HandshakeBody(h, h.host) <==> CanonicalBody(b)
  {
    hide HandshakeOfBody, HandshakeBody, CanonicalBody;
    if b == HandshakeBody(h, h.host) {
      KeptIsCanonical(b, h);
    }
    if CanonicalBody(b) {
      CanonicalIsKept(b, h);
    }
  }

  /** Two length prefixes with what follows them are equal only piece by piece. */
  lemma PrefixesAgree(w: bytes, a: bytes, v: bytes, b: bytes)
    requires IsVarint(w) && IsVarint(v)
    ensures w + a == v + b <==> w == v && a == b
  {
    hide ScanVarint, Base128, IsVarint;
    VarintPrefix(w, a);
    VarintPrefix(v, b);
    if w + a == v + b {
      assert (w + a)[..|w|] == (v + b)[..|v|];
    }
  }

  /** The same of the payload, under its id. */
  lemma PayloadIsKeptIff(w: bytes, payload: bytes, h: Handshake)
    requires HandshakeOf(FrameOf(w, payload)) == Some(h)
    ensures payload == Payload(h, h.host) <==> Canonical(payload) && CanonicalBody(FrameOf(w, payload).body)
  {
    var id := VarintLen(payload);
    if id == 0 {
      MalformedIdIsHarmless(w, payload);
    }
    var body, again := FrameOf(w, payload).body, HandshakeBody(h, h.host);
    BodyIsKeptIff(body, h);
    assert TakeVarint(payload) == Some((0, body));
    hide EncodeU, HandshakeBody, HandshakeOfBody, CanonicalBody, TakeVarint, VarintLen, FrameOf, Canonical;
    CanonicalIff(payload);
    if payload == Payload(h, h.host) {
      DecodeEncode(0, again);
    }
  }

  /**
   * A frame comes back byte for byte, when its host does, if and only if every
   * varint of it is spelled canonically and nothing follows the intent.
   */
  lemma FrameIsKeptIff(w: bytes, payload: bytes, h: Handshake)
    requires IsVarint(w) && Value(w) == |payload|
    ensures HandshakeOf(FrameOf(w, payload)) == Some(h) ==>
              (Marshalled(h, h.host).raw == FrameOf(w, payload).raw
               <==> w == Encode(|payload|) && Canonical(payload) && CanonicalBody(FrameOf(w, payload).body))
  {
    if HandshakeOf(FrameOf(w, payload)) == Some(h) {
      hide EncodeU, Encode, IsVarint, Value, Payload, Marshalled, FrameOf, HandshakeOf, CanonicalBody, Canonical, Signed;
      var p := Payload(h, h.host);
      PayloadIsKeptIff(w, payload, h);
      RawPieces(w, payload, h);
      EncodeIsVarint(Signed(|p|));
      PrefixesAgree(Encode(Signed(|p|)), p, w, payload);
    }
  }

  lemma RawPieces(w: bytes, payload: bytes, h: Handshake)
    requires Value(w) == |payload|
    ensures FrameOf(w, payload).raw == w + payload && Signed(|payload|) == |payload|
    ensures Marshalled(h, h.host).raw == Encode(Signed(|Payload(h, h.host)|)) + Payload(h, h.host)
  {
    hide EncodeU, Base128, Payload;
  }

  lemma FrameWithIdZero(w: bytes, rest: bytes)
    ensures FrameOf(w, Encode(0) + rest) == Frame(0, rest, w + (Encode(0) + rest))
  {
    hide EncodeU, ScanVarint, Base128;
    DecodeEncode(0, rest);
    EncodeIsVarint(0);
    var payload := Encode(0) + rest;
    assert payload[..|Encode(0)|] == Encode(0) && payload[|Encode(0)|..] == rest;
  }

  /** Whatever follows the intent of a handshake is parsed over, and dropped when it is re-encoded. */
  lemma TrailingBytesAreDropped(h: Handshake, junk: bytes)
    requires junk != [] && |Payload(h, h.host) + junk| <= MAX_FRAME
    ensures var payload := Payload(h, h.host) + junk;
            var w := Encode(|payload|);
            && SplitFrame(w + payload) == Framed(FrameOf(w, payload), [])
            && HandshakeOf(FrameOf(w, payload)) == Some(h)
            && Marshalled(h, h.host).raw != FrameOf(w, payload).raw
  {
    hide EncodeU, HandshakeBody;
    var body, p := HandshakeBody(h, h.host), Payload(h, h.host);
    PayloadSize(h, h.host);
    assert Marshalled(h, h.host).raw == Encode(|p|) + p;
    assert p + junk == Encode(0) + (body + junk);
    hide Payload, Marshalled, HandshakeOfBody, SplitFrame, FrameOf, IsVarint, Value, Encode, Signed;
    FrameWithIdZero(Encode(|p + junk|), body + junk);
    BodyReads(h, h.host, junk);
    PayloadFrames(p + junk);
    EncodeIsVarint(|p + junk|);
    EncodeIsVarint(|p|);
    PrefixesAgree(Encode(|p|), p, Encode(|p + junk|), p + junk);
  }

  /** A payload within the limit frames under the prefix appendVarint gives it. */
  lemma PayloadFrames(payload: bytes)
    requires 0 < |payload| <= MAX_FRAME
    ensures SplitFrame(Encode(|payload|) + payload) == Framed(FrameOf(Encode(|payload|), payload), [])
  {
    hide SplitFrame, FrameOf, Encode, IsVarint, Value;
    EncodeIsVarint(|payload|);
    FramePrefix(Encode(|payload|), payload, []);
    assert Encode(|payload|) + payload + [] == Encode(|payload|) + payload;
  }

  // ---------- login start ----------

  function LoginNameOf(f: Frame): Option<bytes> {
    if f.id != 0 then None
    else
      match TakeString(f.body)
      case None => None
      case Some((name, _)) => Some(name)
  }

  method ParseLoginName(f: Frame) returns (name: Option<bytes>)
    ensures name == LoginNameOf(f)
  {
    if f.id != 0 {
      return None;
    }
    var r := new ByteReader(f.body);
    name := r.ReadString();
  }

  /**
   * A payload whose id varint is malformed is given id 0 and kept whole as the
   * body. Both parsers still reject it, because the body starts with that varint.
   */
  lemma MalformedIdIsHarmless(prefix: bytes, payload: bytes)
    requires VarintLen(payload) == 0
    ensures FrameOf(prefix, payload).id == 0 && FrameOf(prefix, payload).body == payload
    ensures HandshakeOf(FrameOf(prefix, payload)) == None
    ensures LoginNameOf(FrameOf(prefix, payload)) == None
  {
    assert payload[0..] == payload;
  }
}
