/** The four handshake payloads and the transcripts built from them. */
module HandshakeCodec {
  import opened Base
  import opened Protocol
  import opened Wire
  import Bytes

  const HELLO_LENGTH: nat := 51
  const COOKIE_LENGTH: nat := 40
  const RETRY_LENGTH: nat := 122
  const SERVER_HELLO_LENGTH: nat := 146
  const FINISH_LENGTH: nat := 48

  datatype Parsed<T> = Parsed(value: T) | Malformed

  datatype Cookie = Cookie(issuedAtMs: nat, tag: seq<byte>)

  datatype ClientHello = ClientHello(handshakeId: seq<byte>, clientNonce: seq<byte>, suite: CipherSuite,
                                     cookie: Option<Cookie>, resumption: Option<seq<byte>>)

  datatype HelloRetry = HelloRetry(handshakeId: seq<byte>, clientNonce: seq<byte>, suite: CipherSuite, cookie: Cookie,
                                   hasResumption: bool, tag: seq<byte>)

  datatype ServerHello = ServerHello(handshakeId: seq<byte>, clientNonce: seq<byte>, serverNonce: seq<byte>, salt: seq<byte>,
                                     suite: CipherSuite, resumed: bool, tag: seq<byte>)

  datatype ClientFinish = ClientFinish(handshakeId: seq<byte>, tag: seq<byte>)

  // ---------------------------------------------------------------- fixed-size fields

  predicate ValidCookie(c: Cookie) {
    c.issuedAtMs <= U64_MAX && |c.tag| == 32
  }

  predicate ValidHello(h: ClientHello) {
    && |h.handshakeId| == 16 && |h.clientNonce| == 32
    && (h.cookie.Some? ==> ValidCookie(h.cookie.value))
    && (h.resumption.Some? ==> |h.resumption.value| == CREDENTIAL_LENGTH)
  }

  predicate ValidRetry(r: HelloRetry) {
    |r.handshakeId| == 16 && |r.clientNonce| == 32 && ValidCookie(r.cookie) && |r.tag| == 32
  }

  predicate ValidServerHello(s: ServerHello) {
    |s.handshakeId| == 16 && |s.clientNonce| == 32 && |s.serverNonce| == 32 && |s.salt| == 32 && |s.tag| == 32
  }

  predicate ValidFinish(f: ClientFinish) {
    |f.handshakeId| == 16 && |f.tag| == 32
  }

  // ---------------------------------------------------------------- identifiers

  function SuiteId(s: CipherSuite): byte {
    match s
    case ChaCha20Poly1305 => 1
    case XChaCha20Poly1305 => 2
    case Aes128Gcm => 3
    case Aes256Gcm => 4
    case NoneAuthenticated => 5
  }

  function SuiteOf(id: byte): (r: Option<CipherSuite>)
    ensures r.Some? ==> SuiteId(r.value) == id
    ensures r.None? ==> forall s :: SuiteId(s) != id
  {
    if id == 1 then Some(ChaCha20Poly1305)
    else if id == 2 then Some(XChaCha20Poly1305)
    else if id == 3 then Some(Aes128Gcm)
    else if id == 4 then Some(Aes256Gcm)
    else if id == 5 then Some(NoneAuthenticated)
    else None
  }

  function Flag(b: bool): byte {
    if b then 1 else 0
  }

  // ---------------------------------------------------------------- client hello

  function CookieBytes(c: Option<Cookie>): seq<byte> {
    if c.Some? then [1] + Bytes.Encode(c.value.issuedAtMs, 8) + c.value.tag else [0]
  }

  function ResumptionBytes(r: Option<seq<byte>>): seq<byte> {
    if r.Some? then [1] + r.value else [0]
  }

  /** `ClientHello::encode_payload`. */
  function HelloPayload(h: ClientHello): seq<byte> {
    h.handshakeId + h.clientNonce + [SuiteId(h.suite)] + CookieBytes(h.cookie) + ResumptionBytes(h.resumption)
  }

  function HelloFrame(h: ClientHello): WireFrame {
    WireFrame(0, 0, 0, ClientHelloFrame, None, HelloPayload(h))
  }

  predicate HelloSize(n: nat) {
    || n == HELLO_LENGTH || n == HELLO_LENGTH + COOKIE_LENGTH
    || n == HELLO_LENGTH + CREDENTIAL_LENGTH || n == HELLO_LENGTH + COOKIE_LENGTH + CREDENTIAL_LENGTH
  }

  function CookieOf(p: seq<byte>): Parsed<Option<Cookie>>
    requires HelloSize(|p|)
  {
    if p[49] == 0 then Parsed(None)
    else if p[49] == 1 && |p| >= HELLO_LENGTH + COOKIE_LENGTH then Parsed(Some(Cookie(Bytes.Decode(p[50..58]), p[58..90])))
    else Malformed
  }

  function ResumptionOf(p: seq<byte>, at: nat): Parsed<Option<seq<byte>>>
    requires at < |p|
  {
    if p[at] == 0 && |p| == at + 1 then Parsed(None)
    else if p[at] == 1 && |p| == at + 1 + CREDENTIAL_LENGTH then Parsed(Some(p[at + 1..]))
    else Malformed
  }

  /** `ClientHello::decode`. */
  function DecodeHello(f: WireFrame): Parsed<ClientHello> {
    var p := f.payload;
    if !f.ftype.ClientHelloFrame? || f.sid != 0 || f.number != 0 || f.epoch != 0 || !HelloSize(|p|) then Malformed
    else if SuiteOf(p[48]).None? then Malformed
    else match CookieOf(p)
      case Malformed => Malformed
      case Parsed(cookie) =>
        match ResumptionOf(p, if cookie.Some? then 90 else 50)
        case Malformed => Malformed
        case Parsed(resumption) => Parsed(ClientHello(p[..16], p[16..48], SuiteOf(p[48]).value, cookie, resumption))
  }

  lemma HelloLayout(h: ClientHello)
    requires ValidHello(h)
    ensures var p := HelloPayload(h);
            && HelloSize(|p|)
            && p[..16] == h.handshakeId && p[16..48] == h.clientNonce && p[48] == SuiteId(h.suite)
            && p[49..49 + |CookieBytes(h.cookie)|] == CookieBytes(h.cookie)
            && p[49 + |CookieBytes(h.cookie)|..] == ResumptionBytes(h.resumption)
  {
    var p := HelloPayload(h);
    var front := h.handshakeId + h.clientNonce + [SuiteId(h.suite)];
    assert p == front + (CookieBytes(h.cookie) + ResumptionBytes(h.resumption));
    assert p[..16] == front[..16] && p[16..48] == front[16..48];
    var n := |CookieBytes(h.cookie)|;
    assert p[49..49 + n] == CookieBytes(h.cookie);
  }

  lemma CookieDecodes(h: ClientHello)
    requires ValidHello(h)
    ensures HelloSize(|HelloPayload(h)|) && CookieOf(HelloPayload(h)) == Parsed(h.cookie)
  {
    var p := HelloPayload(h);
    HelloLayout(h);
    var c := CookieBytes(h.cookie);
    assert p[49] == c[0];
    if h.cookie.Some? {
      Bytes.Widths();
      Bytes.DecodeEncode(h.cookie.value.issuedAtMs, 8);
      assert c[1..9] == Bytes.Encode(h.cookie.value.issuedAtMs, 8) && c[9..41] == h.cookie.value.tag;
      assert p[50..58] == p[49..90][1..9] && p[58..90] == p[49..90][9..41];
    }
  }

  /** Decoding an encoded hello gives it back. */
  lemma HelloRoundTrip(h: ClientHello)
    requires ValidHello(h)
    ensures ValidFields(HelloFrame(h)) && InRange(HelloFrame(h)) && DecodeHello(HelloFrame(h)) == Parsed(h)
  {
    var p := HelloPayload(h);
    HelloLayout(h);
    CookieDecodes(h);
    var at := 49 + |CookieBytes(h.cookie)|;
    assert p[at..] == ResumptionBytes(h.resumption);
    assert p[at] == p[at..][0] && p[at + 1..] == p[at..][1..];
  }

  /** A hello that decodes is, byte for byte, the encoding of its fields. */
  lemma HelloExact(f: WireFrame)
    requires DecodeHello(f).Parsed? && ValidFields(f)
    ensures ValidHello(DecodeHello(f).value) && HelloFrame(DecodeHello(f).value) == f
  {
    var p, h := f.payload, DecodeHello(f).value;
    var at := if h.cookie.Some? then 90 else 50;
    if h.cookie.Some? {
      Bytes.Widths();
      Bytes.EncodeDecode(p[50..58]);
      assert p[49..90] == [p[49]] + p[50..58] + p[58..90];
    }
    assert p[49..at] == CookieBytes(h.cookie);
    assert p[at..] == [p[at]] + p[at + 1..];
    assert p[at..] == ResumptionBytes(h.resumption);
    assert p == p[..16] + p[16..48] + [p[48]] + p[49..at] + p[at..];
  }

  lemma HelloInjective(g: ClientHello, h: ClientHello)
    requires ValidHello(g) && ValidHello(h) && HelloPayload(g) == HelloPayload(h)
    ensures g == h
  {
    HelloRoundTrip(g);
    HelloRoundTrip(h);
  }

  // ---------------------------------------------------------------- hello retry

  /** `encode_unsigned_payload` of a retry. */
  function RetryUnsigned(r: HelloRetry): seq<byte> {
    r.handshakeId + r.clientNonce + [SuiteId(r.suite)] + Bytes.Encode(r.cookie.issuedAtMs, 8) + r.cookie.tag + [Flag(r.hasResumption)]
  }

  function RetryFrame(r: HelloRetry): WireFrame {
    WireFrame(0, 0, 0, HelloRetryFrame, None, RetryUnsigned(r) + r.tag)
  }

  function DecodeRetry(f: WireFrame): Parsed<HelloRetry> {
    var p := f.payload;
    if !f.ftype.HelloRetryFrame? || f.sid != 0 || f.number != 0 || f.epoch != 0 || |p| != RETRY_LENGTH then Malformed
    else if SuiteOf(p[48]).None? || p[89] > 1 then Malformed
    else Parsed(HelloRetry(p[..16], p[16..48], SuiteOf(p[48]).value, Cookie(Bytes.Decode(p[49..57]), p[57..89]), p[89] == 1, p[90..122]))
  }

  lemma RetryLayout(r: HelloRetry)
    requires ValidRetry(r)
    ensures var p := RetryUnsigned(r) + r.tag;
            && |RetryUnsigned(r)| == 90 && |p| == RETRY_LENGTH
            && p[..16] == r.handshakeId && p[16..48] == r.clientNonce && p[48] == SuiteId(r.suite)
            && p[49..57] == Bytes.Encode(r.cookie.issuedAtMs, 8) && p[57..89] == r.cookie.tag
            && p[89] == Flag(r.hasResumption) && p[90..122] == r.tag
  {
    var u := RetryUnsigned(r);
    var p := u + r.tag;
    assert u[..16] == r.handshakeId && u[16..48] == r.clientNonce;
    assert u[49..57] == Bytes.Encode(r.cookie.issuedAtMs, 8) && u[57..89] == r.cookie.tag;
    assert p[..16] == u[..16] && p[16..48] == u[16..48] && p[49..57] == u[49..57] && p[57..89] == u[57..89];
  }

  lemma RetryRoundTrip(r: HelloRetry)
    requires ValidRetry(r)
    ensures ValidFields(RetryFrame(r)) && InRange(RetryFrame(r)) && DecodeRetry(RetryFrame(r)) == Parsed(r)
  {
    RetryLayout(r);
    Bytes.Widths();
    Bytes.DecodeEncode(r.cookie.issuedAtMs, 8);
  }

  lemma RetryExact(f: WireFrame)
    requires DecodeRetry(f).Parsed? && ValidFields(f)
    ensures ValidRetry(DecodeRetry(f).value) && RetryFrame(DecodeRetry(f).value) == f
  {
    var p := f.payload;
    Bytes.Widths();
    Bytes.EncodeDecode(p[49..57]);
    assert p == p[..16] + p[16..48] + [p[48]] + p[49..57] + p[57..89] + [p[89]] + p[90..122];
  }

  // ---------------------------------------------------------------- server hello

  function ServerHelloUnsigned(s: ServerHello): seq<byte> {
    s.handshakeId + s.clientNonce + s.serverNonce + s.salt + [SuiteId(s.suite), Flag(s.resumed)]
  }

  function ServerHelloPayload(s: ServerHello): seq<byte> {
    ServerHelloUnsigned(s) + s.tag
  }

  function ServerHelloWire(s: ServerHello, sid: nat): WireFrame {
    WireFrame(sid, 0, 0, ServerHelloFrame, None, ServerHelloPayload(s))
  }

  function DecodeServerHello(f: WireFrame): Parsed<ServerHello> {
    var p := f.payload;
    if !f.ftype.ServerHelloFrame? || f.sid == 0 || f.number != 0 || f.epoch != 0 || |p| != SERVER_HELLO_LENGTH then Malformed
    else if SuiteOf(p[112]).None? || p[113] > 1 then Malformed
    else Parsed(ServerHello(p[..16], p[16..48], p[48..80], p[80..112], SuiteOf(p[112]).value, p[113] == 1, p[114..146]))
  }

  lemma ServerHelloLayout(s: ServerHello)
    requires ValidServerHello(s)
    ensures var p := ServerHelloPayload(s);
            && |ServerHelloUnsigned(s)| == 114 && |p| == SERVER_HELLO_LENGTH
            && p[..16] == s.handshakeId && p[16..48] == s.clientNonce && p[48..80] == s.serverNonce && p[80..112] == s.salt
            && p[112] == SuiteId(s.suite) && p[113] == Flag(s.resumed) && p[114..146] == s.tag
  {
    var u := ServerHelloUnsigned(s);
    var p := u + s.tag;
    assert u[..16] == s.handshakeId && u[16..48] == s.clientNonce && u[48..80] == s.serverNonce && u[80..112] == s.salt;
    assert p[..16] == u[..16] && p[16..48] == u[16..48] && p[48..80] == u[48..80] && p[80..112] == u[80..112];
  }

  lemma ServerHelloRoundTrip(s: ServerHello, sid: nat)
    requires ValidServerHello(s) && 0 < sid <= U64_MAX
    ensures ValidFields(ServerHelloWire(s, sid)) && InRange(ServerHelloWire(s, sid))
    ensures DecodeServerHello(ServerHelloWire(s, sid)) == Parsed(s)
  {
    ServerHelloLayout(s);
  }

  lemma ServerHelloExact(f: WireFrame)
    requires DecodeServerHello(f).Parsed? && ValidFields(f)
    ensures ValidServerHello(DecodeServerHello(f).value) && ServerHelloWire(DecodeServerHello(f).value, f.sid) == f
  {
    var p := f.payload;
    assert p == p[..16] + p[16..48] + p[48..80] + p[80..112] + [p[112], p[113]] + p[114..146];
  }

  // ---------------------------------------------------------------- client finish

  function FinishFrame(c: ClientFinish, sid: nat): WireFrame {
    WireFrame(sid, 0, 0, ClientFinishFrame, None, c.handshakeId + c.tag)
  }

  function DecodeFinish(f: WireFrame): Parsed<ClientFinish> {
    var p := f.payload;
    if !f.ftype.ClientFinishFrame? || f.sid == 0 || f.number != 0 || f.epoch != 0 || |p| != FINISH_LENGTH then Malformed
    else Parsed(ClientFinish(p[..16], p[16..48]))
  }

  lemma FinishRoundTrip(c: ClientFinish, sid: nat)
    requires ValidFinish(c) && 0 < sid <= U64_MAX
    ensures ValidFields(FinishFrame(c, sid)) && InRange(FinishFrame(c, sid)) && DecodeFinish(FinishFrame(c, sid)) == Parsed(c)
  {
    var p := c.handshakeId + c.tag;
    assert p[..16] == c.handshakeId && p[16..48] == c.tag;
  }

  lemma FinishExact(f: WireFrame)
    requires DecodeFinish(f).Parsed? && ValidFields(f)
    ensures ValidFinish(DecodeFinish(f).value) && FinishFrame(DecodeFinish(f).value, f.sid) == f
  {
    var p := f.payload;
    assert p == p[..16] + p[16..48];
  }

  // ---------------------------------------------------------------- resumption credentials

  datatype CredentialBody = CredentialBody(random: seq<byte>, sid: nat, conv: nat, issuedAtMs: nat, expiresAtMs: nat)

  predicate ValidCredential(c: CredentialBody) {
    |c.random| == 32 && c.sid <= U64_MAX && c.conv <= U32_MAX && c.issuedAtMs <= U64_MAX && c.expiresAtMs <= U64_MAX
  }

  /** The 60 bytes that a credential's tag covers. */
  function CredentialUnsigned(c: CredentialBody): seq<byte> {
    c.random + Bytes.Encode(c.sid, 8) + Bytes.Encode(c.conv, 4) + Bytes.Encode(c.issuedAtMs, 8) + Bytes.Encode(c.expiresAtMs, 8)
  }

  function CredentialOf(u: seq<byte>): CredentialBody
    requires |u| >= 60
  {
    CredentialBody(u[..32], Bytes.Decode(u[32..40]), Bytes.Decode(u[40..44]), Bytes.Decode(u[44..52]), Bytes.Decode(u[52..60]))
  }

  lemma CredentialRoundTrip(c: CredentialBody)
    requires ValidCredential(c)
    ensures |CredentialUnsigned(c)| == 60 && CredentialOf(CredentialUnsigned(c)) == c
  {
    var u := CredentialUnsigned(c);
    Bytes.Widths();
    Bytes.DecodeEncode(c.sid, 8);
    Bytes.DecodeEncode(c.conv, 4);
    Bytes.DecodeEncode(c.issuedAtMs, 8);
    Bytes.DecodeEncode(c.expiresAtMs, 8);
    assert u[..32] == c.random && u[32..40] == Bytes.Encode(c.sid, 8) && u[40..44] == Bytes.Encode(c.conv, 4);
    assert u[44..52] == Bytes.Encode(c.issuedAtMs, 8) && u[52..60] == Bytes.Encode(c.expiresAtMs, 8);
  }

  lemma CredentialExact(u: seq<byte>)
    requires |u| == 60
    ensures ValidCredential(CredentialOf(u)) && CredentialUnsigned(CredentialOf(u)) == u
  {
    Bytes.Widths();
    Bytes.EncodeDecode(u[32..40]);
    Bytes.EncodeDecode(u[40..44]);
    Bytes.EncodeDecode(u[44..52]);
    Bytes.EncodeDecode(u[52..60]);
    assert u == u[..32] + u[32..40] + u[40..44] + u[44..52] + u[52..60];
  }
}
