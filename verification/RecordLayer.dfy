/** The record layer on bytes: a counter on one side, a window on the other. */
module RecordLayer {
  import opened Base
  import opened Protocol
  import opened Wire
  import opened ReplaySpec
  import HandshakeCodec
  import Bytes
  import ReplayWindow

  /** The primitives, as any functions: an authenticated cipher per suite (key,
      nonce, associated data, text) and a keyed hash. */
  datatype Crypto = Crypto(
    encrypt: (CipherSuite, seq<byte>, seq<byte>, seq<byte>, seq<byte>) -> seq<byte>,
    decrypt: (CipherSuite, seq<byte>, seq<byte>, seq<byte>, seq<byte>) -> Option<seq<byte>>,
    hmac: (seq<byte>, seq<byte>) -> seq<byte>)

  /** Decryption inverts encryption and accepts nothing else; sizes are those of
      the tags. */
  ghost predicate Lawful(c: Crypto) {
    && (forall s, k, n, a, p {:trigger c.encrypt(s, k, n, a, p)} ::
          |c.encrypt(s, k, n, a, p)| == |p| + 16 && c.decrypt(s, k, n, a, c.encrypt(s, k, n, a, p)) == Some(p))
    && (forall s, k, n, a, b {:trigger c.decrypt(s, k, n, a, b)} ::
          c.decrypt(s, k, n, a, b).Some? ==> c.encrypt(s, k, n, a, c.decrypt(s, k, n, a, b).value) == b)
    && (forall k, m {:trigger c.hmac(k, m)} :: |c.hmac(k, m)| == 32)
  }

  /** Such primitives exist: appending a fixed tag is one. */
  lemma LawfulPossible()
    ensures exists c: Crypto :: Lawful(c)
  {
    var tag := seq(16, _ => 0);
    var c := Crypto((s, k, n, a, p) => p + tag,
                    (s, k, n, a, b) => if |b| >= 16 && b[|b| - 16..] == tag then Some(b[..|b| - 16]) else None,
                    (k, m) => seq(32, _ => 0));
    assert Lawful(c);
  }

  datatype Keys = Keys(record: seq<byte>, noncePrefix: seq<byte>)

  /** One direction of one session. */
  datatype Channel = Channel(suite: CipherSuite, dir: Direction, sid: nat, keys: Keys)

  datatype RecordError =
    | InvalidRecordType
    | PacketNumberExhausted
    | KeyDerivationFailed
    | BadFrame(frame: FrameError)
    | SessionMismatch
    | UnsupportedEpoch
    | TruncatedTag
    | AuthenticationFailed
    | Replayed(replay: ReplayError)

  function KeyLength(s: CipherSuite): nat {
    if s.Aes128Gcm? then 16 else 32
  }

  function PrefixLength(s: CipherSuite): nat {
    if s.XChaCha20Poly1305? then 16 else 4
  }

  /** The key material suits the cipher; the keyed hash takes any. */
  predicate KeysFit(ch: Channel) {
    ch.suite.NoneAuthenticated? || (|ch.keys.record| == KeyLength(ch.suite) && |ch.keys.noncePrefix| == PrefixLength(ch.suite))
  }

  /** `nonce_12` and `nonce_24`. */
  function Nonce(ch: Channel, number: nat): seq<byte> {
    ch.keys.noncePrefix + Bytes.Encode(number, 8)
  }

  function DirectionId(d: Direction): byte {
    if d.ClientToServer? then 1 else 2
  }

  /** The associated data: the header, the direction and the suite. */
  function Associated(ch: Channel, f: WireFrame): seq<byte>
    requires f.epoch <= 255
  {
    Header(f) + [DirectionId(ch.dir), HandshakeCodec.SuiteId(ch.suite)]
  }

  /** The body of a record: ciphertext and tag. */
  function Protect(c: Crypto, ch: Channel, f: WireFrame, plain: seq<byte>): seq<byte>
    requires f.epoch <= 255
  {
    if ch.suite.NoneAuthenticated? then plain + c.hmac(ch.keys.record, Associated(ch, f) + plain)
    else c.encrypt(ch.suite, ch.keys.record, Nonce(ch, f.number), Associated(ch, f), plain)
  }

  /** The plaintext of a body, if its tag is right. */
  function Unprotect(c: Crypto, ch: Channel, f: WireFrame): Option<seq<byte>>
    requires f.epoch <= 255 && |f.payload| >= TagLength(ch.suite)
  {
    if ch.suite.NoneAuthenticated? then
      var plain := f.payload[..|f.payload| - 32];
      if c.hmac(ch.keys.record, Associated(ch, f) + plain) == f.payload[|f.payload| - 32..] then Some(plain) else None
    else c.decrypt(ch.suite, ch.keys.record, Nonce(ch, f.number), Associated(ch, f), f.payload)
  }

  function Bare(ch: Channel, number: nat, ftype: FrameType, handle: Option<nat>): WireFrame {
    WireFrame(ch.sid, number, 0, ftype, handle, [])
  }

  datatype Sealed = SealedOk(bytes: seq<byte>) | SealedErr(error: RecordError)

  /** `RecordSealer::seal`. */
  function Seal(c: Crypto, ch: Channel, next: nat, ftype: FrameType, handle: Option<nat>, plain: seq<byte>): Sealed {
    if !IsProtected(ftype) then SealedErr(InvalidRecordType)
    else if next >= U64_MAX then SealedErr(PacketNumberExhausted)
    else if !KeysFit(ch) then SealedErr(KeyDerivationFailed)
    else
      var f := Bare(ch, next, ftype, handle);
      match Encode(f.(payload := Protect(c, ch, f, plain)))
      case Ok(bytes) => SealedOk(bytes)
      case Err(e) => SealedErr(BadFrame(e))
  }

  datatype Opened = OpenedOk(window: Window, ftype: FrameType, handle: Option<nat>, plain: seq<byte>) | OpenedErr(error: RecordError)

  /** `RecordOpener::open`: authentication precedes the window. */
  function Open(c: Crypto, ch: Channel, w: Window, bytes: seq<byte>): Opened {
    match Decode(bytes)
    case Err(e) => OpenedErr(BadFrame(e))
    case Ok(f) =>
      if f.sid != ch.sid then OpenedErr(SessionMismatch)
      else if f.epoch != 0 then OpenedErr(UnsupportedEpoch)
      else if !IsProtected(f.ftype) then OpenedErr(InvalidRecordType)
      else if |f.payload| < TagLength(ch.suite) then OpenedErr(TruncatedTag)
      else if !KeysFit(ch) then OpenedErr(KeyDerivationFailed)
      else match Unprotect(c, ch, f)
        case None => OpenedErr(AuthenticationFailed)
        case Some(plain) =>
          if |plain| > MAX_FRAME_PAYLOAD then OpenedErr(BadFrame(TooLarge))
          else match Accept(w, f.number)
            case Refused(e) => OpenedErr(Replayed(e))
            case Accepted(w1) => OpenedOk(w1, f.ftype, f.handle, plain)
  }

  // ---------------------------------------------------------------- cipher laws

  lemma ProtectLength(c: Crypto, ch: Channel, f: WireFrame, plain: seq<byte>)
    requires Lawful(c) && f.epoch <= 255
    ensures |Protect(c, ch, f, plain)| == |plain| + TagLength(ch.suite)
  {
  }

  lemma AssociatedIgnoresPayload(ch: Channel, f: WireFrame, payload: seq<byte>)
    requires f.epoch <= 255
    ensures Associated(ch, f.(payload := payload)) == Associated(ch, f)
  {
  }

  lemma UnprotectProtect(c: Crypto, ch: Channel, f: WireFrame, plain: seq<byte>)
    requires Lawful(c) && f.epoch <= 255
    ensures var body := Protect(c, ch, f, plain);
            |body| >= TagLength(ch.suite) && Unprotect(c, ch, f.(payload := body)) == Some(plain)
  {
    var body := Protect(c, ch, f, plain);
    ProtectLength(c, ch, f, plain);
    AssociatedIgnoresPayload(ch, f, body);
    if ch.suite.NoneAuthenticated? {
      assert body[..|body| - 32] == plain;
      assert body[|body| - 32..] == c.hmac(ch.keys.record, Associated(ch, f) + plain);
    }
  }

  lemma ProtectUnprotect(c: Crypto, ch: Channel, f: WireFrame)
    requires Lawful(c) && f.epoch <= 255 && |f.payload| >= TagLength(ch.suite) && Unprotect(c, ch, f).Some?
    ensures Protect(c, ch, f.(payload := []), Unprotect(c, ch, f).value) == f.payload
  {
    AssociatedIgnoresPayload(ch, f, []);
    if ch.suite.NoneAuthenticated? {
      assert f.payload == f.payload[..|f.payload| - 32] + f.payload[|f.payload| - 32..];
    }
  }

  // ---------------------------------------------------------------- round trip

  /** Exactly which calls of `seal` succeed. */
  lemma SealSucceeds(c: Crypto, ch: Channel, next: nat, ftype: FrameType, handle: Option<nat>, plain: seq<byte>)
    requires Lawful(c)
    ensures Seal(c, ch, next, ftype, handle, plain).SealedOk? <==>
              && IsProtected(ftype) && next < U64_MAX && KeysFit(ch) && HandleFits(ftype, handle.Some?)
              && |plain| + TagLength(ch.suite) <= MAX_FRAME_BODY
  {
    ProtectLength(c, ch, Bare(ch, next, ftype, handle), plain);
  }

  predicate FitsTypes(ch: Channel, handle: Option<nat>) {
    ch.sid <= U64_MAX && (handle.Some? ==> 1 <= handle.value <= U32_MAX)
  }

  lemma SealDecodes(c: Crypto, ch: Channel, next: nat, ftype: FrameType, handle: Option<nat>, plain: seq<byte>)
    requires Lawful(c) && FitsTypes(ch, handle) && Seal(c, ch, next, ftype, handle, plain).SealedOk?
    ensures var f := Bare(ch, next, ftype, handle);
            Decode(Seal(c, ch, next, ftype, handle, plain).bytes) == Ok(f.(payload := Protect(c, ch, f, plain)))
  {
    var f := Bare(ch, next, ftype, handle);
    DecodeEncode(f.(payload := Protect(c, ch, f, plain)));
  }

  /** What is sealed opens to itself on first arrival inside the window, exactly
      when the plaintext is no longer than the payload limit: `seal` lets through
      up to sixteen bytes more under the four ciphers, which `open` refuses. */
  lemma OpenSeal(c: Crypto, ch: Channel, next: nat, ftype: FrameType, handle: Option<nat>, plain: seq<byte>, w: Window)
    requires Lawful(c) && FitsTypes(ch, handle) && Seal(c, ch, next, ftype, handle, plain).SealedOk?
    requires Accept(w, next).Accepted?
    ensures Open(c, ch, w, Seal(c, ch, next, ftype, handle, plain).bytes)
            == if |plain| <= MAX_FRAME_PAYLOAD then OpenedOk(Accept(w, next).window, ftype, handle, plain)
               else OpenedErr(BadFrame(TooLarge))
  {
    var f := Bare(ch, next, ftype, handle);
    SealDecodes(c, ch, next, ftype, handle, plain);
    UnprotectProtect(c, ch, f, plain);
  }

  /** Some plaintexts are sealed and can never be opened. */
  lemma OversizedSealed(c: Crypto, w: Window)
    requires Lawful(c) && Accept(w, 0).Accepted?
    ensures var ch := Channel(ChaCha20Poly1305, ClientToServer, 1, Keys(seq(32, _ => 0), seq(4, _ => 0)));
            var plain := seq(MAX_FRAME_PAYLOAD + 1, _ => 0);
            && Seal(c, ch, 0, Data, Some(1), plain).SealedOk?
            && Open(c, ch, w, Seal(c, ch, 0, Data, Some(1), plain).bytes).OpenedErr?
  {
    var ch := Channel(ChaCha20Poly1305, ClientToServer, 1, Keys(seq(32, _ => 0), seq(4, _ => 0)));
    var plain: seq<byte> := seq(MAX_FRAME_PAYLOAD + 1, _ => 0);
    SealSucceeds(c, ch, 0, Data, Some(1), plain);
    OpenSeal(c, ch, 0, Data, Some(1), plain, w);
  }

  /** Whatever opens is, byte for byte, what this channel seals under that number,
      type and handle from that plaintext. (The last number is never used for
      sealing: the counter stops before it.) */
  lemma OpenedWasSealed(c: Crypto, ch: Channel, w: Window, bytes: seq<byte>)
    requires Lawful(c) && Open(c, ch, w, bytes).OpenedOk?
    ensures var o := Open(c, ch, w, bytes); var number := Decode(bytes).value.number;
            var f := Bare(ch, number, o.ftype, o.handle);
            && Encode(f.(payload := Protect(c, ch, f, o.plain))) == Ok(bytes)
            && (number < U64_MAX ==> Seal(c, ch, number, o.ftype, o.handle, o.plain) == SealedOk(bytes))
  {
    var f := Decode(bytes).value;
    ProtectUnprotect(c, ch, f);
    EncodeDecode(bytes);
    assert f.(payload := []) == Bare(ch, f.number, f.ftype, f.handle);
    assert f.(payload := []).(payload := f.payload) == f;
  }

  /** Distinct numbers give distinct nonces, and the associated data determines
      direction, suite and header. */
  lemma NoncesApart(ch: Channel, m: nat, n: nat)
    requires m <= U64_MAX && n <= U64_MAX && Nonce(ch, m) == Nonce(ch, n)
    ensures m == n
  {
    var p := |ch.keys.noncePrefix|;
    assert Nonce(ch, m)[p..] == Bytes.Encode(m, 8) && Nonce(ch, n)[p..] == Bytes.Encode(n, 8);
    Bytes.Widths();
    Bytes.EncodeInjective(m, n, 8);
  }

  lemma AssociatedInjective(a: Channel, b: Channel, f: WireFrame, g: WireFrame)
    requires InRange(f) && InRange(g) && f.epoch <= 255 && g.epoch <= 255 && Associated(a, f) == Associated(b, g)
    ensures a.dir == b.dir && a.suite == b.suite && f.(payload := []) == g.(payload := [])
  {
    var x, y := Associated(a, f), Associated(b, g);
    assert x[..HEADER_LENGTH] == Header(f) && y[..HEADER_LENGTH] == Header(g);
    HeaderInjective(f, g);
    assert x[24] == DirectionId(a.dir) && y[24] == DirectionId(b.dir);
    assert x[25] == HandshakeCodec.SuiteId(a.suite) && y[25] == HandshakeCodec.SuiteId(b.suite);
    assert HandshakeCodec.SuiteOf(HandshakeCodec.SuiteId(a.suite)) == Some(a.suite);
    assert HandshakeCodec.SuiteOf(HandshakeCodec.SuiteId(b.suite)) == Some(b.suite);
  }

  // ---------------------------------------------------------------- sequences

  /** The window after a sequence of arrivals, in any order and with repetitions. */
  function After(c: Crypto, ch: Channel, w: Window, arrivals: seq<seq<byte>>): Window {
    if arrivals == [] then w
    else
      var before := After(c, ch, w, arrivals[..|arrivals| - 1]);
      match Open(c, ch, before, arrivals[|arrivals| - 1])
      case OpenedOk(w1, _, _, _) => w1
      case OpenedErr(_) => before
  }

  /** Arrival `i` opens. */
  predicate Opens(c: Crypto, ch: Channel, w: Window, arrivals: seq<seq<byte>>, i: nat)
    requires i < |arrivals|
  {
    Open(c, ch, After(c, ch, w, arrivals[..i]), arrivals[i]).OpenedOk?
  }

  lemma {:induction false} WindowAfter(c: Crypto, ch: Channel, w: Window, arrivals: seq<seq<byte>>, i: nat)
    requires ValidWindow(w) && i <= |arrivals|
    ensures ValidWindow(After(c, ch, w, arrivals))
    ensures After(c, ch, w, arrivals[..i]).seen <= After(c, ch, w, arrivals).seen
    decreases |arrivals|
  {
    if i < |arrivals| {
      var front := arrivals[..|arrivals| - 1];
      WindowAfter(c, ch, w, front, i);
      assert front[..i] == arrivals[..i];
    } else {
      assert arrivals[..i] == arrivals;
      if arrivals != [] {
        WindowAfter(c, ch, w, arrivals[..|arrivals| - 1], 0);
      }
    }
  }

  /** At most once: two arrivals that both open carry different numbers, so that
      no byte string opens twice. */
  lemma OpensOnce(c: Crypto, ch: Channel, w: Window, arrivals: seq<seq<byte>>, i: nat, j: nat)
    requires ValidWindow(w) && i < j < |arrivals|
    requires Opens(c, ch, w, arrivals, i) && Opens(c, ch, w, arrivals, j)
    ensures Decode(arrivals[i]).value.number != Decode(arrivals[j]).value.number
    ensures arrivals[i] != arrivals[j]
  {
    var upto := arrivals[..i + 1];
    assert upto[..i] == arrivals[..i] && upto[i] == arrivals[i];
    WindowAfter(c, ch, w, arrivals[..i], 0);
    var later := arrivals[..j];
    WindowAfter(c, ch, w, later, i + 1);
    assert later[..i + 1] == upto;
  }

  // ---------------------------------------------------------------- the two objects

  class Sealer {
    const channel: Channel
    var next: nat

    constructor (channel: Channel)
      ensures this.channel == channel && next == 0
    {
      this.channel := channel;
      next := 0;
    }

    /** `seal`: the counter moves exactly when a frame comes out. */
    method SealRecord(c: Crypto, ftype: FrameType, handle: Option<nat>, plain: seq<byte>) returns (r: Sealed)
      modifies this
      ensures r == Seal(c, channel, old(next), ftype, handle, plain)
      ensures next == if r.SealedOk? then old(next) + 1 else old(next)
    {
      if !IsProtected(ftype) {
        return SealedErr(InvalidRecordType);
      }
      if next >= U64_MAX {
        return SealedErr(PacketNumberExhausted);
      }
      if !KeysFit(channel) {
        return SealedErr(KeyDerivationFailed);
      }
      var frame := Bare(channel, next, ftype, handle);
      var encoded := Encode(frame.(payload := Protect(c, channel, frame, plain)));
      if encoded.Err? {
        return SealedErr(BadFrame(encoded.error));
      }
      next := next + 1;
      return SealedOk(encoded.value);
    }
  }

  class Opener {
    const channel: Channel
    const replay: ReplayWindow.ReplayFilter

    ghost predicate Valid()
      reads replay, replay.words
    {
      replay.Valid()
    }

    constructor (channel: Channel, width: nat)
      requires width > 0
      ensures this.channel == channel && Valid() && replay.View() == NewWindow(width) && fresh(replay) && fresh(replay.words)
    {
      this.channel := channel;
      replay := new ReplayWindow.ReplayFilter(width);
    }

    /** `open`: a failure leaves the window, bit for bit, as it was. */
    method OpenRecord(c: Crypto, bytes: seq<byte>) returns (error: Option<RecordError>, ftype: FrameType, handle: Option<nat>, plain: seq<byte>)
      requires Valid()
      modifies replay, replay.words
      ensures Valid()
      ensures match Open(c, channel, old(replay.View()), bytes)
              case OpenedOk(w, t, h, p) => error.None? && replay.View() == w && ftype == t && handle == h && plain == p
              case OpenedErr(e) => error == Some(e) && replay.View() == old(replay.View()) && replay.words[..] == old(replay.words[..])
    {
      ftype, handle, plain := Data, None, [];
      var decoded := Decode(bytes);
      if decoded.Err? {
        error := Some(BadFrame(decoded.error));
        return;
      }
      var frame := decoded.value;
      if frame.sid != channel.sid {
        error := Some(SessionMismatch);
        return;
      }
      if frame.epoch != 0 {
        error := Some(UnsupportedEpoch);
        return;
      }
      if !IsProtected(frame.ftype) {
        error := Some(InvalidRecordType);
        return;
      }
      if |frame.payload| < TagLength(channel.suite) {
        error := Some(TruncatedTag);
        return;
      }
      if !KeysFit(channel) {
        error := Some(KeyDerivationFailed);
        return;
      }
      var text := Unprotect(c, channel, frame);
      if text.None? {
        error := Some(AuthenticationFailed);
        return;
      }
      if |text.value| > MAX_FRAME_PAYLOAD {
        error := Some(BadFrame(TooLarge));
        return;
      }
      var refused := replay.Accept(frame.number);
      if refused.Some? {
        error := Some(Replayed(refused.value));
        return;
      }
      error, ftype, handle, plain := None, frame.ftype, frame.handle, text.value;
    }
  }
}
