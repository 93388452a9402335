/** The client-to-backend data path: forwardPreamble and the pipe, internal/proxy/proxy.go and conn.go. */
module Forwarding {
  import opened Bytes
  import opened Common
  import opened Streams
  import opened McProto
  import opened Uuid
  import Varint
  import P = Ppv2

  const LOGIN: int32 := 2

  datatype Mode = Raw | Bungee | Ppv2

  /** A *net.TCPAddr. */
  datatype TCPAddr = TCPAddr(ip: P.IP, port: uint16)

  /** The text of a 4- or 16-byte address: at most 45 characters, none of them NUL. */
  type PrintedIP = b: bytes | |b| <= 45 && 0 !in b

  /**
   * What a connection carries besides its stream: the remote and the local
   * address of the client's socket, if they are TCP, the printed client
   * address, and MD5.
   */
  datatype Peer = Peer(remote: Option<TCPAddr>, local: Option<TCPAddr>, printedIP: PrintedIP, md5: bytes -> Digest)

  // ---------- what the backend is meant to receive ----------

  /** BungeeCord's server-address field: host, client address and UUID separated by NUL. */
  function ForwardedHost(host: bytes, peer: Peer, name: bytes): bytes {
    host + [0] + peer.printedIP + [0] + OfflineUuid(peer.md5, name)
  }

  /** The login handshake at the front of s, if that is what s starts with. */
  function LoginHandshake(s: bytes): Option<Handshake> {
    match SplitFrame(s)
    case Framed(f, _) =>
      (match HandshakeOf(f)
       case Some(h) => if h.intent == LOGIN then Some(h) else None
       case None => None)
    case _ => None
  }

  /**
   * The whole stream the backend is owed for the whole client stream s; None
   * when the connection is given up before anything is forwarded. Unless s
   * starts with a login handshake and a login start, it is s itself.
   */
  function BungeeTarget(s: bytes, peer: Peer): Option<bytes> {
    if !SplitFrame(s).Framed? then None
    else
      match LoginHandshake(s)
      case None => Some(s)
      case Some(h) => LoginTarget(s, h, SplitFrame(SplitFrame(s).rest), peer)
  }

  /** The same once the handshake h is read and the frame after it is looked at. */
  function LoginTarget(s: bytes, h: Handshake, next: Split, peer: Peer): Option<bytes> {
    match next
    case Framed(lf, rest) =>
      (match LoginNameOf(lf)
       case None => Some(s)
       case Some(name) => Some(Marshalled(h, ForwardedHost(h.host, peer, name)).raw + lf.raw + rest))
    case _ => None
  }

  /** The header writePPv2 builds from the client's socket. */
  function Ppv2Header(peer: Peer): P.Header {
    match (peer.remote, peer.local)
    case (Some(src), Some(dst)) =>
      if P.To4(src.ip) != P.NilIP <==> P.To4(dst.ip) != P.NilIP then
        P.Header(P.COMMAND_PROXY, if P.To4(src.ip) != P.NilIP then P.FAMILY_INET else P.FAMILY_INET6,
                 P.PROTOCOL_STREAM, src.ip, dst.ip, src.port, dst.port)
      else UnspecHeader()
    case _ => UnspecHeader()
  }

  function UnspecHeader(): P.Header {
    P.Header(P.COMMAND_PROXY, P.FAMILY_UNSPEC, P.PROTOCOL_STREAM, P.NilIP, P.NilIP, 0, 0)
  }

  function Target(mode: Mode, s: bytes, peer: Peer): Option<bytes> {
    match mode
    case Raw => Some(s)
    case Bungee => BungeeTarget(s, peer)
    case Ppv2 =>
      match P.MarshalOf(Ppv2Header(peer))
      case Bytes(header) => Some(header + s)
      case _ => None
  }

  /** The header asked for is one that Marshal indexes out of range on. */
  predicate Panics(mode: Mode, peer: Peer) {
    mode == Ppv2 && P.MarshalOf(Ppv2Header(peer)) == P.IndexPanic
  }

  // ---------- the code ----------

  /**
   * The outcomes of forwardPreamble. Rejected, ReadLost and WriteLost are error
   * returns; Panicked is the index panic of Marshal, which nothing recovers.
   */
  datatype Preamble = Forwarded | Rejected | ReadLost | WriteLost | Panicked

  /** What each outcome says of pre, the bytes written, and rest, the bytes left for the pipe. */
  ghost predicate PreambleDone(res: Preamble, pre: bytes, rest: bytes, target: Option<bytes>) {
    match res
    case Forwarded => target.Some? && pre + rest == target.value
    case Rejected => target == None && pre == []
    case ReadLost => pre == []
    case Panicked => target == None && pre == []
    case WriteLost => target.Some? && pre <= target.value
  }

  /** A read or a write is lost only if one of that end has failed. */
  ghost predicate LossIsReal(res: Preamble, in0: bool, in1: bool, out0: bool, out1: bool) {
    && (res == ReadLost ==> in1) && (res == WriteLost ==> out1)
    && (in0 ==> in1) && (out0 ==> out1)
  }

  lemma PrefixAppend(p: bytes, q: bytes, r: bytes)
    requires q <= r
    ensures p + q <= p + r
  {
  }

  method WriteTwo(backend: Sink, a: bytes, b: bytes) returns (ok: bool, ghost written: bytes)
    modifies backend`received, backend`failed
    ensures backend.received == old(backend.received) + written && written <= a + b
    ensures ok ==> written == a + b
    ensures backend.failed == (old(backend.failed) || !ok)
  {
    ghost var base := backend.received;
    var n;
    n, ok := backend.Write(a);
    written := a[..n];
    if ok {
      assert a[..n] == a;
      n, ok := backend.Write(b);
      assert (base + a) + b[..n] == base + (a + b[..n]);
      written := a + b[..n];
    }
  }

  /** BungeeTarget, read off the frames as the code meets them. */
  lemma TargetByFrames(s: bytes, peer: Peer)
    ensures !SplitFrame(s).Framed? ==> BungeeTarget(s, peer) == None
    ensures SplitFrame(s).Framed? ==>
              var hs := HandshakeOf(SplitFrame(s).frame);
              if hs == None || hs.value.intent != LOGIN then BungeeTarget(s, peer) == Some(s)
              else BungeeTarget(s, peer) == LoginTarget(s, hs.value, SplitFrame(SplitFrame(s).rest), peer)
  {
  }

  /** The handshake with forwardBungee's new host. */
  method Rewrite(h: Handshake, peer: Peer, name: bytes) returns (f: Frame)
    ensures f == Marshalled(h, ForwardedHost(h.host, peer, name))
  {
    var forwarded := h.host + [0] + peer.printedIP + [0];
    var uuid := OfflineUUID(peer.md5, name);
    f := MarshalHandshake(h, forwarded + uuid);
  }

  /** The second half of forwardBungee, once the login handshake h has been read from frame f. */
  method ForwardLogin(client: Source, backend: Sink, peer: Peer, f: Frame, h: Handshake)
    returns (res: Preamble, ghost pre: bytes)
    modifies client, backend`received, backend`failed
    ensures backend.received == old(backend.received) + pre
    ensures res != Panicked
    ensures LossIsReal(res, old(client.failed), client.failed, old(backend.failed), backend.failed)
    ensures var s1 := old(client.rest);
            PreambleDone(res, pre, client.rest, LoginTarget(f.raw + s1, h, SplitFrame(s1), peer))
  {
    hide SplitFrame, LoginNameOf, Marshalled, ForwardedHost;
    ghost var s1 := client.rest;
    var read := ReadFrame(client);
    if !read.FrameRead? {
      return if read == IoError(Failed) then ReadLost else Rejected, [];
    }
    FrameIsVerbatim(s1);
    var lf := read.frame;
    assert f.raw + (lf.raw + client.rest) == (f.raw + lf.raw) + client.rest;
    var ok;
    var name := ParseLoginName(lf);
    if name == None {
      ok, pre := WriteTwo(backend, f.raw, lf.raw);
    } else {
      var mf := Rewrite(h, peer, name.value);
      ok, pre := WriteTwo(backend, mf.raw, lf.raw);
    }
    res := if ok then Forwarded else WriteLost;
  }

  method ForwardBungee(client: Source, backend: Sink, peer: Peer) returns (res: Preamble, ghost pre: bytes)
    modifies client, backend`received, backend`failed
    ensures backend.received == old(backend.received) + pre
    ensures res != Panicked
    ensures LossIsReal(res, old(client.failed), client.failed, old(backend.failed), backend.failed)
    ensures PreambleDone(res, pre, client.rest, BungeeTarget(old(client.rest), peer))
  {
    hide SplitFrame, HandshakeOf, BungeeTarget, LoginTarget;
    TargetByFrames(client.rest, peer);
    ghost var s := client.rest;
    var read := ReadFrame(client);
    if !read.FrameRead? {
      return if read == IoError(Failed) then ReadLost else Rejected, [];
    }
    FrameIsVerbatim(s);
    var f := read.frame;
    var hs := ParseHandshake(f);
    if hs == None || hs.value.intent != LOGIN {
      var n, ok := backend.Write(f.raw);
      PrefixAppend(f.raw, [], client.rest);
      assert f.raw[..n] <= f.raw <= f.raw + client.rest;
      return if ok then Forwarded else WriteLost, f.raw[..n];
    }
    res, pre := ForwardLogin(client, backend, peer, f, hs.value);
  }

  method WritePPv2(backend: Sink, peer: Peer, ghost s: bytes) returns (res: Preamble, ghost pre: bytes)
    modifies backend`received, backend`failed
    ensures backend.received == old(backend.received) + pre
    ensures res == Panicked <==> Panics(Ppv2, peer)
    ensures res != ReadLost && LossIsReal(res, false, false, old(backend.failed), backend.failed)
    ensures PreambleDone(res, pre, s, Target(Ppv2, s, peer))
  {
    hide P.Encoded;
    var header := P.Marshal(Ppv2Header(peer));
    if !header.Bytes? {
      return if header == P.IndexPanic then Panicked else Rejected, [];
    }
    var n, ok := backend.Write(header.b);
    PrefixAppend(header.b, [], s);
    assert header.b[..n] <= header.b + [] <= header.b + s;
    assert n == |header.b| ==> header.b[..n] == header.b;
    return if ok then Forwarded else WriteLost, header.b[..n];
  }

  method ForwardPreamble(mode: Mode, client: Source, backend: Sink, peer: Peer) returns (res: Preamble, ghost pre: bytes)
    modifies client, backend`received, backend`failed
    ensures backend.received == old(backend.received) + pre
    ensures res == Panicked <==> Panics(mode, peer)
    ensures LossIsReal(res, old(client.failed), client.failed, old(backend.failed), backend.failed)
    ensures PreambleDone(res, pre, client.rest, Target(mode, old(client.rest), peer))
  {
    match mode
    case Ppv2 => res, pre := WritePPv2(backend, peer, client.rest);
    case Bungee => res, pre := ForwardBungee(client, backend, peer);
    case Raw => return Forwarded, [];
  }

  datatype Outcome = NotForwarded(why: Preamble) | Piped(end: PipeEnd)

  /** What each outcome says of w, the bytes the backend received, when a read or a write was lost and when not. */
  ghost predicate Delivered(out: Outcome, w: bytes, target: Option<bytes>, lost: bool) {
    match target
    case None =>
      && out in {NotForwarded(Rejected), NotForwarded(ReadLost), NotForwarded(Panicked)} && w == []
      && (!lost ==> out != NotForwarded(ReadLost))
    case Some(t) =>
      && out != NotForwarded(Rejected) && out != NotForwarded(Forwarded) && out != NotForwarded(Panicked)
      && w <= t
      && (out == Piped(Drained) ==> w == t)
      && (!lost ==> out == Piped(Drained))
  }

  lemma NotForwardedDelivers(res: Preamble, pre: bytes, rest: bytes, target: Option<bytes>, lost: bool)
    requires res != Forwarded && PreambleDone(res, pre, rest, target)
    requires res == ReadLost || res == WriteLost ==> lost
    ensures Delivered(NotForwarded(res), pre, target, lost)
  {
  }

  lemma PipedDelivers(base: bytes, pre: bytes, rest: bytes, received: bytes, target: Option<bytes>, end: PipeEnd, lost: bool)
    requires PreambleDone(Forwarded, pre, rest, target) && base + pre <= received <= (base + pre) + rest
    requires end == Drained ==> received == (base + pre) + rest
    requires end != Drained ==> lost
    ensures |received| >= |base| && received == base + received[|base|..] && pre <= received[|base|..]
    ensures Delivered(Piped(end), received[|base|..], target, lost)
  {
    var w := received[|base|..];
    assert (base + pre) + rest == base + (pre + rest);
    assert received == base + w && w <= pre + rest;
    assert pre == (base + pre)[|base|..];
  }

  /**
   * One connection, client to backend; w is what the backend receives. received
   * only grows, so what is said of it at the end holds at every earlier moment:
   * the backend never sees a byte that is not the next byte of its target. When
   * no read and no write fails, it receives the whole target if there is one,
   * and otherwise the connection is rejected, or Marshal panics and the process
   * ends.
   */
  method Forward(mode: Mode, client: Source, backend: Sink, peer: Peer, bufSize: int)
    returns (out: Outcome, ghost pre: bytes, ghost w: bytes)
    modifies client, backend
    ensures backend.received == old(backend.received) + w
    ensures Delivered(out, w, Target(mode, old(client.rest), peer), client.failed || backend.failed)
    ensures mode == Raw && !client.failed && !backend.failed ==> w == old(client.rest)
    ensures out == NotForwarded(Panicked) <==> Panics(mode, peer)
    ensures pre <= w && |w| == |pre| + (backend.counted - old(backend.counted))
  {
    ghost var base, goal := backend.received, Target(mode, client.rest, peer);
    assert mode == Raw ==> goal == Some(client.rest);
    var res;
    res, pre := ForwardPreamble(mode, client, backend, peer);
    hide PreambleDone, Target, Panics;
    if res != Forwarded {
      NotForwardedDelivers(res, pre, client.rest, goal, client.failed || backend.failed);
      return NotForwarded(res), pre, pre;
    }
    hide Delivered;
    ghost var rest := client.rest;
    var end := Pipe(backend, client, bufSize);
    PipedDelivers(base, pre, rest, backend.received, goal, end, client.failed || backend.failed);
    w := backend.received[|base|..];
    if mode == Raw && !client.failed && !backend.failed {
      DrainsWhole(Piped(end), w, goal);
    }
    return Piped(end), pre, w;
  }

  lemma DrainsWhole(out: Outcome, w: bytes, target: Option<bytes>)
    requires Delivered(out, w, target, false) && target.Some?
    ensures w == target.value
  {
  }

  // ---------- what the backend makes of it ----------

  /** One zero byte is no login and is not forwarded, so the fallback does not cover all non-Minecraft traffic. */
  lemma FramingErrorIsFatal(peer: Peer)
    ensures LoginHandshake([0]) == None && Target(Bungee, [0], peer) == None
  {
    assert Varint.VarintLen([0]) == 1;
    assert [0][..1] == [0];
    assert Varint.Base128([0]) == 0;
  }

  /** A frame whose id varint is malformed is never rewritten. */
  lemma MalformedIdIsForwarded(s: bytes, peer: Peer)
    requires SplitFrame(s).Framed?
    requires var n := Varint.VarintLen(s); Varint.VarintLen(s[n..n + Varint.Value(s[..n])]) == 0
    ensures Target(Bungee, s, peer) == Some(s)
  {
    var n := Varint.VarintLen(s);
    hide Varint.ScanVarint, Varint.Base128, HandshakeOf;
    MalformedIdIsHarmless(s[..n], s[n..n + Varint.Value(s[..n])]);
  }

  /** The case that is rewritten: a login handshake h in frame f, then a login start by name in frame lf. */
  predicate Logs(s: bytes, f: Frame, h: Handshake, lf: Frame, name: bytes, rest: bytes) {
    && SplitFrame(s).Framed? && SplitFrame(s).frame == f
    && HandshakeOf(f) == Some(h) && h.intent == LOGIN
    && SplitFrame(SplitFrame(s).rest) == Framed(lf, rest)
    && LoginNameOf(lf) == Some(name)
  }

  /** The payload of the login start a client called name sends. */
  function LoginPayload(name: bytes): bytes {
    Varint.Encode(0) + Varint.EncodeString(name)
  }

  function LoginStart(name: bytes): Frame
    requires |LoginPayload(name)| <= MAX_FRAME
  {
    Frame(0, Varint.EncodeString(name), Varint.Encode(|LoginPayload(name)|) + LoginPayload(name))
  }

  lemma ReadLoginStart(name: bytes, rest: bytes)
    requires |LoginPayload(name)| <= MAX_FRAME
    ensures SplitFrame(LoginStart(name).raw + rest) == Framed(LoginStart(name), rest)
    ensures LoginNameOf(LoginStart(name)) == Some(name)
  {
    hide Varint.EncodeU, Varint.ScanVarint, Varint.Base128;
    var payload, tail := LoginPayload(name), Varint.EncodeString(name);
    Varint.DecodeEncode(0, tail);
    assert payload[..|Varint.Encode(0)|] == Varint.Encode(0) && payload[|Varint.Encode(0)|..] == tail;
    Varint.EncodeIsVarint(0);
    Varint.EncodeIsVarint(|payload|);
    FramePrefix(Varint.Encode(|payload|), payload, rest);
    Varint.TakeEncodedString(name, []);
    assert tail + [] == tail;
  }

  /** Every handshake and login start within the frame limit, spelled as appendVarint would, is rewritten. */
  lemma WellFormedLogs(h: Handshake, name: bytes, rest: bytes)
    requires h.intent == 2 && |Payload(h, h.host)| <= 65536 && |LoginPayload(name)| <= 65536
    ensures Logs(Marshalled(h, h.host).raw + (LoginStart(name).raw + rest),
                 Marshalled(h, h.host), h, LoginStart(name), name, rest)
  {
    hide SplitFrame, HandshakeOf, LoginNameOf, LoginStart, Marshalled, HandshakeBody;
    ReadLoginStart(name, rest);
    ReadMarshalled(h, h.host, LoginStart(name).raw + rest);
    PayloadSize(h, h.host);
    ParseMarshalled(h, h.host);
  }

  /** The two frames a rewrite takes are there: a login handshake, and a login start with a name. */
  predicate LogsIn(s: bytes) {
    && LoginHandshake(s).Some?
    && SplitFrame(SplitFrame(s).rest).Framed?
    && LoginNameOf(SplitFrame(SplitFrame(s).rest).frame).Some?
  }

  /** Only packets of id 0, and a handshake of intent 2, make a login. */
  lemma LoginIsIdZeroIntentTwo(s: bytes)
    ensures LogsIn(s) ==>
              && SplitFrame(s).frame.id == 0 && LoginHandshake(s).value.intent == 2
              && SplitFrame(SplitFrame(s).rest).frame.id == 0
  {
    hide SplitFrame, HandshakeOfBody;
  }

  /** The frames forwardBungee reads are there: the first, and after a login handshake the second. */
  predicate Frames(s: bytes) {
    && SplitFrame(s).Framed?
    && (LoginHandshake(s).Some? ==> SplitFrame(SplitFrame(s).rest).Framed?)
  }

  /**
   * For every stream: nothing is forwarded if and only if a frame is missing,
   * and the stream is forwarded as it is if and only if none is and it does not
   * log in. A rewrite therefore always changes the stream.
   */
  lemma FallbackIsTransparentIff(s: bytes, peer: Peer)
    ensures Target(Bungee, s, peer) == None <==> !Frames(s)
    ensures Target(Bungee, s, peer) == Some(s) <==> Frames(s) && !LogsIn(s)
  {
    hide SplitFrame, HandshakeOf, LoginNameOf, Marshalled, ForwardedHost;
    RewriteDiffers(s, peer);
  }

  /** The new host is longer than the one read, and by no more than an address and a UUID. */
  lemma HostGrows(f: Frame, peer: Peer, name: bytes)
    requires HandshakeOf(f).Some?
    ensures var host := HandshakeOf(f).value.host; |host| < |ForwardedHost(host, peer, name)| <= |f.body| + 83
  {
    hide HandshakeOf, OfflineUuid;
    UuidShape(peer.md5, name);
    MarshalledNotLonger(f, []);
  }

  lemma FrameSize(s: bytes)
    requires SplitFrame(s).Framed?
    ensures |SplitFrame(s).frame.body| <= MAX_FRAME
  {
  }

  /** What starts with a rewrite of handshake h starts with no frame, or with another handshake than h. */
  lemma RewriteIsAnother(h: Handshake, host: bytes, tail: bytes)
    requires |h.host| < |host| <= 2 * MAX_FRAME
    ensures var s := Marshalled(h, host).raw + tail; SplitFrame(s).Framed? ==> HandshakeOf(SplitFrame(s).frame) != Some(h)
  {
    hide HandshakeOf, HandshakeBody, Varint.EncodeU, Varint.Base128, Varint.ScanVarint;
    PayloadSize(h, host);
    ParseMarshalled(h, host);
    ReadMarshalled(h, host, tail);
    var payload := Payload(h, host);
    Varint.EncodeIsVarint(|payload|);
    FramePrefix(Varint.Encode(|payload|), payload, tail);
    hide SplitFrame;
  }

  lemma RewriteDiffers(s: bytes, peer: Peer)
    ensures LogsIn(s) ==> BungeeTarget(s, peer) != Some(s)
  {
    hide SplitFrame, HandshakeOf, LoginNameOf, Marshalled, ForwardedHost;
    if LogsIn(s) {
      var next := SplitFrame(SplitFrame(s).rest);
      var h, name := LoginHandshake(s).value, LoginNameOf(next.frame).value;
      HostGrows(SplitFrame(s).frame, peer, name);
      FrameSize(s);
      RewriteIsAnother(h, ForwardedHost(h.host, peer, name), next.frame.raw + next.rest);
      var m := Marshalled(h, ForwardedHost(h.host, peer, name));
      assert m.raw + next.frame.raw + next.rest == m.raw + (next.frame.raw + next.rest);
    }
  }

  /**
   * The backend frames what it receives into the client's handshake, with the
   * host replaced and every other field as it was, then the login start byte
   * for byte, then the rest: provided the rewritten payload is within MAX_FRAME.
   */
  lemma BackendReadsRewrite(s: bytes, peer: Peer, f: Frame, h: Handshake, lf: Frame, name: bytes, rest: bytes)
    ensures Logs(s, f, h, lf, name, rest) && |Payload(h, ForwardedHost(h.host, peer, name))| <= MAX_FRAME ==>
              && Target(Bungee, s, peer).Some?
              && var t := Target(Bungee, s, peer).value;
                 && SplitFrame(t).Framed?
                 && HandshakeOf(SplitFrame(t).frame) == Some(h.(host := ForwardedHost(h.host, peer, name)))
                 && SplitFrame(SplitFrame(t).rest) == Framed(lf, rest)
  {
    hide SplitFrame, HandshakeOf, LoginNameOf, Varint.EncodeU, Varint.Base128, Varint.ScanVarint, ForwardedHost;
    var host := ForwardedHost(h.host, peer, name);
    if Logs(s, f, h, lf, name, rest) && |Payload(h, host)| <= MAX_FRAME {
      var m := Marshalled(h, host);
      FrameIsVerbatim(SplitFrame(s).rest);
      assert m.raw + lf.raw + rest == m.raw + (lf.raw + rest);
      ReadMarshalled(h, host, lf.raw + rest);
      ParseMarshalled(h, host);
    }
  }

  /** That proviso holds for every handshake not within 43 bytes and an address of the limit. */
  lemma RewriteFits(s: bytes, peer: Peer, f: Frame, h: Handshake, lf: Frame, name: bytes, rest: bytes)
    requires |f.body| + |peer.printedIP| + 43 <= MAX_FRAME
    ensures Logs(s, f, h, lf, name, rest) ==> |Payload(h, ForwardedHost(h.host, peer, name))| <= MAX_FRAME
  {
    hide SplitFrame, HandshakeOf, LoginNameOf, Varint.EncodeU, Payload, OfflineUuid;
    UuidShape(peer.md5, name);
    if Logs(s, f, h, lf, name, rest) {
      MarshalledNotLonger(f, []);
      MarshalledNotLonger(f, ForwardedHost(h.host, peer, name));
    }
  }

  // ---------- BungeeCord's fields ----------

  /** The NUL-separated fields of a server address. */
  function Fields(s: bytes): (fs: seq<bytes>)
    ensures |fs| >= 1
  {
    if s == [] then [[]]
    else Extended(s[0], Fields(s[1..]))
  }

  /** The fields of x before a text that has the fields fs. */
  function Extended(x: byte, fs: seq<bytes>): (gs: seq<bytes>)
    requires |fs| >= 1
    ensures |gs| >= 1
  {
    if x == 0 then [[]] + fs else [[x] + fs[0]] + fs[1..]
  }

  lemma ExtendedAppend(x: byte, fs: seq<bytes>, gs: seq<bytes>)
    requires |fs| >= 1
    ensures Extended(x, fs + gs) == Extended(x, fs) + gs
  {
  }

  lemma {:induction false} FieldsOfPlain(a: bytes)
    ensures 0 !in a <==> Fields(a) == [a]
  {
    if a != [] {
      var fs := Fields(a[1..]);
      FieldsOfPlain(a[1..]);
      assert a == [a[0]] + a[1..];
      if a[0] == 0 {
        assert Fields(a) == [[]] + fs && |Fields(a)| >= 2;
      } else {
        assert Fields(a) == [[a[0]] + fs[0]] + fs[1..];
        hide Fields;
        assert fs == [a[1..]] ==> [[a[0]] + fs[0]] + fs[1..] == [a];
        assert fs == [fs[0]] + fs[1..];
        if [[a[0]] + fs[0]] + fs[1..] == [a] {
          assert |fs| == 1 && [a[0]] + fs[0] == [a][0] == a;
          assert fs[0] == ([a[0]] + fs[0])[1..];
        }
      }
    }
  }

  lemma {:induction false} FieldsOfJoin(a: bytes, b: bytes)
    ensures Fields(a + [0] + b) == Fields(a) + Fields(b)
  {
    if a == [] {
      assert a + [0] + b == [0] + b;
      assert ([0] + b)[1..] == b;
    } else {
      var s := a + [0] + b;
      assert s[0] == a[0] && s[1..] == a[1..] + [0] + b;
      hide Extended;
      FieldsOfJoin(a[1..], b);
      ExtendedAppend(a[0], Fields(a[1..]), Fields(b));
    }
  }

  /**
   * The last two fields are always the real client address and the UUID; there
   * is exactly one field before them, the host, if and only if the client's
   * host has no NUL of its own.
   */
  lemma BackendReadsFields(host: bytes, peer: Peer, name: bytes)
    ensures Fields(ForwardedHost(host, peer, name)) == Fields(host) + [peer.printedIP, OfflineUuid(peer.md5, name)]
    ensures Fields(ForwardedHost(host, peer, name)) == [host, peer.printedIP, OfflineUuid(peer.md5, name)]
       <==> 0 !in host
  {
    hide Fields, OfflineUuid;
    var ip, uuid := peer.printedIP, OfflineUuid(peer.md5, name);
    UuidShape(peer.md5, name);
    FieldsOfPlain(uuid);
    FieldsOfPlain(ip);
    FieldsOfPlain(host);
    FieldsOfJoin(host + [0] + ip, uuid);
    FieldsOfJoin(host, ip);
    assert [host, ip, uuid] == [host] + [ip, uuid];
    if Fields(host) + [ip, uuid] == [host] + [ip, uuid] {
      assert Fields(host) == (Fields(host) + [ip, uuid])[..|Fields(host)|];
      assert |Fields(host)| == 1;
    }
  }

  // ---------- PROXY v2 ----------

  predicate RealAddress(a: TCPAddr) {
    a.ip.Addr? && (|a.ip.b| == 4 || |a.ip.b| == 16)
  }

  /**
   * Between addresses of one family, whose IPv4 addresses may be held in 4 or in
   * 16 bytes, a reader of the backend's stream gets the client's and the
   * proxy's addresses and ports, and then exactly the client's stream.
   */
  lemma BackendReadsPpv2(s: bytes, peer: Peer, src: TCPAddr, dst: TCPAddr)
    requires peer.remote == Some(src) && peer.local == Some(dst) && RealAddress(src) && RealAddress(dst)
    requires P.To4(src.ip) != P.NilIP <==> P.To4(dst.ip) != P.NilIP
    ensures Target(Ppv2, s, peer).Some?
    ensures var split := P.SplitHeader(Target(Ppv2, s, peer).value);
            && split.Parsed? && split.rest == s
            && split.header.command == P.COMMAND_PROXY && split.header.protocol == P.PROTOCOL_STREAM
            && split.header.srcPort == src.port && split.header.dstPort == dst.port
            && P.To16(split.header.src) == P.To16(src.ip) && P.To16(split.header.dst) == P.To16(dst.ip)
    ensures var ports := P.WirePort(src.port) + P.WirePort(dst.port);
            Target(Ppv2, s, peer).value ==
            if P.To4(src.ip) != P.NilIP then
              P.WireStart(1, 0x11, 12) + P.To4(src.ip).b + P.To4(dst.ip).b + ports + s
            else P.WireStart(1, 0x21, 36) + src.ip.b + dst.ip.b + ports + s
  {
    hide P.Encoded, P.SplitHeader;
    var h := Ppv2Header(peer);
    P.ReadEncoded(h, s);
    if P.To4(src.ip) != P.NilIP {
      P.WireOfINET(h);
    } else {
      P.WireOfINET6(h);
    }
    To16OfTo4(src.ip);
    To16OfTo4(dst.ip);
  }

  lemma To16OfTo4(ip: P.IP)
    ensures P.To4(ip) != P.NilIP ==> P.To16(P.To4(ip)) == P.To16(ip)
  {
    if P.To4(ip) != P.NilIP && |ip.b| == 16 {
      assert ip.b == ip.b[..12] + ip.b[12..];
    }
  }

  /** Otherwise writePPv2 builds a header Marshal cannot encode, and nothing is forwarded. */
  lemma Ppv2NeedsOneFamily(s: bytes, peer: Peer)
    requires peer.remote.Some? ==> RealAddress(peer.remote.value)
    requires peer.local.Some? ==> RealAddress(peer.local.value)
    ensures Target(Ppv2, s, peer) != None
       <==> && peer.remote.Some? && peer.local.Some?
            && (P.To4(peer.remote.value.ip) != P.NilIP <==> P.To4(peer.local.value.ip) != P.NilIP)
    ensures Target(Ppv2, s, peer) == None ==> P.MarshalOf(Ppv2Header(peer)) == P.IndexPanic
  {
  }
}
