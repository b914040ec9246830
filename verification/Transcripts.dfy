/** The texts that tags and session keys are computed over. */
module Transcripts {
  import opened Base
  import opened HandshakeCodec
  import Bytes

  function Label(s: string): (b: seq<byte>)
    requires forall i :: 0 <= i < |s| ==> s[i] as int < 128
    ensures |b| == |s| && forall i :: 0 <= i < |s| ==> b[i] == s[i] as int
  {
    seq(|s|, i requires 0 <= i < |s| => s[i] as int)
  }

  /** `server_auth_transcript`. */
  function ServerAuth(h: ClientHello, sid: nat, s: ServerHello): seq<byte> {
    Label("udp2raw-ng/v4/server-auth") + HelloPayload(h) + Bytes.Encode(sid, 8) + ServerHelloUnsigned(s)
  }

  /** `full_transcript`. */
  function Full(h: ClientHello, sid: nat, s: ServerHello): seq<byte> {
    Label("udp2raw-ng/v4/full-transcript") + HelloPayload(h) + Bytes.Encode(sid, 8) + ServerHelloPayload(s)
  }

  /** `retry_auth_transcript`. */
  function RetryAuth(r: HelloRetry): seq<byte> {
    Label("udp2raw-ng/v4/hello-retry-auth") + RetryUnsigned(r)
  }

  /** `cookie_transcript`. */
  function CookieText(h: ClientHello, peer: nat, issuedAtMs: nat): seq<byte> {
    Label("udp2raw-ng/v4/handshake-cookie") + Bytes.Encode(peer, 8) + Bytes.Encode(issuedAtMs, 8)
    + h.handshakeId + h.clientNonce + [SuiteId(h.suite)] + ResumptionBytes(h.resumption)
  }

  /** `resumption_transcript`. */
  function CredentialText(c: CredentialBody): seq<byte> {
    Label("udp2raw-ng/v4/resumption-credential") + CredentialUnsigned(c)
  }

  // ---------------------------------------------------------------- injectivity

  /** Equal concatenations with an equal split have equal parts. */
  lemma SplitAt(a1: seq<byte>, b1: seq<byte>, a2: seq<byte>, b2: seq<byte>)
    requires |a1| == |a2| && a1 + b1 == a2 + b2
    ensures a1 == a2 && b1 == b2
  {
    assert (a1 + b1)[..|a1|] == a1 && (a2 + b2)[..|a2|] == a2;
    assert (a1 + b1)[|a1|..] == b1 && (a2 + b2)[|a2|..] == b2;
  }

  lemma HelloThenRest(prefix: seq<byte>, g: ClientHello, h: ClientHello, m: nat, n: nat, x: seq<byte>, y: seq<byte>)
    requires ValidHello(g) && ValidHello(h) && m <= U64_MAX && n <= U64_MAX && |x| == |y|
    requires prefix + HelloPayload(g) + Bytes.Encode(m, 8) + x == prefix + HelloPayload(h) + Bytes.Encode(n, 8) + y
    ensures g == h && m == n && x == y
  {
    var p, q := HelloPayload(g), HelloPayload(h);
    SplitAt(prefix + p + Bytes.Encode(m, 8), x, prefix + q + Bytes.Encode(n, 8), y);
    SplitAt(prefix + p, Bytes.Encode(m, 8), prefix + q, Bytes.Encode(n, 8));
    SplitAt(prefix, p, prefix, q);
    HelloInjective(g, h);
    Bytes.Widths();
    Bytes.EncodeInjective(m, n, 8);
  }

  lemma UnsignedInjective(s: ServerHello, t: ServerHello)
    requires ValidServerHello(s) && ValidServerHello(t) && ServerHelloUnsigned(s) == ServerHelloUnsigned(t)
    ensures s.(tag := t.tag) == t
  {
    var u := s.(tag := t.tag);
    assert ServerHelloPayload(u) == ServerHelloPayload(t);
    ServerHelloRoundTrip(u, 1);
    ServerHelloRoundTrip(t, 1);
  }

  /** The server's tag binds the whole client hello, the session identifier and
      everything of the server hello but the tag itself. */
  lemma ServerAuthInjective(g: ClientHello, h: ClientHello, m: nat, n: nat, s: ServerHello, t: ServerHello)
    requires ValidHello(g) && ValidHello(h) && m <= U64_MAX && n <= U64_MAX && ValidServerHello(s) && ValidServerHello(t)
    requires ServerAuth(g, m, s) == ServerAuth(h, n, t)
    ensures g == h && m == n && s.(tag := t.tag) == t
  {
    ServerHelloLayout(s);
    ServerHelloLayout(t);
    HelloThenRest(Label("udp2raw-ng/v4/server-auth"), g, h, m, n, ServerHelloUnsigned(s), ServerHelloUnsigned(t));
    UnsignedInjective(s, t);
  }

  /** The finish tag and the session keys bind both hellos and the identifier. */
  lemma FullInjective(g: ClientHello, h: ClientHello, m: nat, n: nat, s: ServerHello, t: ServerHello)
    requires ValidHello(g) && ValidHello(h) && m <= U64_MAX && n <= U64_MAX && ValidServerHello(s) && ValidServerHello(t)
    requires Full(g, m, s) == Full(h, n, t)
    ensures g == h && m == n && s == t
  {
    ServerHelloLayout(s);
    ServerHelloLayout(t);
    HelloThenRest(Label("udp2raw-ng/v4/full-transcript"), g, h, m, n, ServerHelloPayload(s), ServerHelloPayload(t));
    ServerHelloRoundTrip(s, 1);
    ServerHelloRoundTrip(t, 1);
  }

  lemma RetryAuthInjective(q: HelloRetry, r: HelloRetry)
    requires ValidRetry(q) && ValidRetry(r) && RetryAuth(q) == RetryAuth(r)
    ensures q.(tag := r.tag) == r
  {
    var prefix := Label("udp2raw-ng/v4/hello-retry-auth");
    SplitAt(prefix, RetryUnsigned(q), prefix, RetryUnsigned(r));
    var u := q.(tag := r.tag);
    assert RetryUnsigned(u) + u.tag == RetryUnsigned(r) + r.tag;
    RetryRoundTrip(u);
    RetryRoundTrip(r);
  }

  /** A cookie's tag binds the peer, the time and every hello field that is not
      the cookie. */
  lemma CookieTextInjective(g: ClientHello, h: ClientHello, p: nat, q: nat, at: nat, bt: nat)
    requires ValidHello(g) && ValidHello(h) && p <= U64_MAX && q <= U64_MAX && at <= U64_MAX && bt <= U64_MAX
    requires CookieText(g, p, at) == CookieText(h, q, bt)
    ensures p == q && at == bt && g.(cookie := None) == h.(cookie := None)
  {
    var prefix := Label("udp2raw-ng/v4/handshake-cookie");
    var a, b := prefix + Bytes.Encode(p, 8), prefix + Bytes.Encode(q, 8);
    var a1, b1 := a + Bytes.Encode(at, 8), b + Bytes.Encode(bt, 8);
    var a2, b2 := a1 + g.handshakeId, b1 + h.handshakeId;
    var a3, b3 := a2 + g.clientNonce, b2 + h.clientNonce;
    var a4, b4 := a3 + [SuiteId(g.suite)], b3 + [SuiteId(h.suite)];
    SplitAt(a4, ResumptionBytes(g.resumption), b4, ResumptionBytes(h.resumption));
    SplitAt(a3, [SuiteId(g.suite)], b3, [SuiteId(h.suite)]);
    SplitAt(a2, g.clientNonce, b2, h.clientNonce);
    SplitAt(a1, g.handshakeId, b1, h.handshakeId);
    SplitAt(a, Bytes.Encode(at, 8), b, Bytes.Encode(bt, 8));
    SplitAt(prefix, Bytes.Encode(p, 8), prefix, Bytes.Encode(q, 8));
    Bytes.Widths();
    Bytes.EncodeInjective(p, q, 8);
    Bytes.EncodeInjective(at, bt, 8);
    ResumptionInjective(g.resumption, h.resumption);
    assert [SuiteId(g.suite)][0] == [SuiteId(h.suite)][0];
    assert SuiteOf(SuiteId(g.suite)) == Some(g.suite) && SuiteOf(SuiteId(h.suite)) == Some(h.suite);
  }

  lemma ResumptionInjective(a: Option<seq<byte>>, b: Option<seq<byte>>)
    requires ResumptionBytes(a) == ResumptionBytes(b)
    ensures a == b
  {
    assert ResumptionBytes(a)[0] == ResumptionBytes(b)[0];
    if a.Some? {
      assert ResumptionBytes(a)[1..] == a.value && ResumptionBytes(b)[1..] == b.value;
    }
  }

  lemma CredentialTextInjective(c: CredentialBody, d: CredentialBody)
    requires ValidCredential(c) && ValidCredential(d) && CredentialText(c) == CredentialText(d)
    ensures c == d
  {
    var prefix := Label("udp2raw-ng/v4/resumption-credential");
    SplitAt(prefix, CredentialUnsigned(c), prefix, CredentialUnsigned(d));
    CredentialRoundTrip(c);
    CredentialRoundTrip(d);
  }

  // ---------------------------------------------------------------- domain separation

  // The fifteenth byte tells the texts of one key apart.

  lemma ServerAuthTells(h: ClientHello, sid: nat, s: ServerHello)
    ensures |ServerAuth(h, sid, s)| > 14 && ServerAuth(h, sid, s)[14] == 's' as int
  {
    hide HelloPayload, ServerHelloUnsigned, ServerHelloPayload, RetryUnsigned, CredentialUnsigned, ResumptionBytes;
    assert Label("udp2raw-ng/v4/server-auth")[14] == 's' as int;
  }

  lemma FullTells(h: ClientHello, sid: nat, s: ServerHello)
    ensures |Full(h, sid, s)| > 14 && Full(h, sid, s)[14] == 'f' as int
  {
    hide HelloPayload, ServerHelloUnsigned, ServerHelloPayload, RetryUnsigned, CredentialUnsigned, ResumptionBytes;
    assert Label("udp2raw-ng/v4/full-transcript")[14] == 'f' as int;
  }

  lemma RetryTells(r: HelloRetry)
    ensures |RetryAuth(r)| > 14 && RetryAuth(r)[14] == 'h' as int
  {
    hide HelloPayload, ServerHelloUnsigned, ServerHelloPayload, RetryUnsigned, CredentialUnsigned, ResumptionBytes;
    assert Label("udp2raw-ng/v4/hello-retry-auth")[14] == 'h' as int;
  }

  lemma CookieTells(h: ClientHello, peer: nat, at: nat)
    ensures |CookieText(h, peer, at)| > 14 && CookieText(h, peer, at)[14] == 'h' as int
  {
    hide HelloPayload, ServerHelloUnsigned, ServerHelloPayload, RetryUnsigned, CredentialUnsigned, ResumptionBytes;
    assert Label("udp2raw-ng/v4/handshake-cookie")[14] == 'h' as int;
  }

  lemma CredentialTells(c: CredentialBody)
    ensures |CredentialText(c)| > 14 && CredentialText(c)[14] == 'r' as int
  {
    hide HelloPayload, ServerHelloUnsigned, ServerHelloPayload, RetryUnsigned, CredentialUnsigned, ResumptionBytes;
    assert Label("udp2raw-ng/v4/resumption-credential")[14] == 'r' as int;
  }

  /** No text of one purpose is a text of another under the same key: the three
      that the handshake key signs, and the two that the server's secret signs. */
  lemma DomainsApart(g: ClientHello, h: ClientHello, m: nat, n: nat, s: ServerHello, t: ServerHello, r: HelloRetry,
                     peer: nat, at: nat, c: CredentialBody)
    ensures ServerAuth(g, m, s) != Full(h, n, t)
    ensures ServerAuth(g, m, s) != RetryAuth(r)
    ensures Full(g, m, s) != RetryAuth(r)
    ensures CookieText(g, peer, at) != CredentialText(c)
  {
    hide ServerAuth, Full, RetryAuth, CookieText, CredentialText;
    ServerAuthTells(g, m, s);
    FullTells(g, m, s);
    FullTells(h, n, t);
    RetryTells(r);
    CookieTells(g, peer, at);
    CredentialTells(c);
  }
}
