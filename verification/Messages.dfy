/** Protocol messages as terms.

    The byte layouts are modules `Wire` and `HandshakeCodec`; there each
    encoding is proved to be a bijection and each transcript to determine the
    fields it binds. Here a message is therefore its fields, and cryptography is
    ideal: a tag is the term built from its key and its text, a key is the term
    built from the transcript it is derived from, and a sealed body is the term
    built from everything the cipher authenticates. Anything else is forged. */
module Messages {
  import opened Base
  import opened Protocol

  type SessionId = nat
  type PeerId = nat
  type LocalPeer = nat
  type ConvId = nat
  type Handle = nat
  type Time = nat

  // ---------------------------------------------------------------- tags

  datatype MacKey =
    | HandshakeKey(psk: nat, handshakeId: nat, clientNonce: nat)
    | ServerSecret(secret: nat)

  datatype Mac = Mac(key: MacKey, text: Transcript) | ForgedMac(bits: nat)

  datatype Transcript =
    | ServerAuth(hello: ClientHello, sid: SessionId, server: ServerHelloBody)
    | FullTranscript(hello: ClientHello, sid: SessionId, serverHello: ServerHello)
    | RetryAuth(retry: HelloRetryBody)
    | CookieText(peer: PeerId, issuedAtMs: nat, handshakeId: nat, clientNonce: nat,
                 suite: CipherSuite, resumption: Option<Credential>)
    | CredentialText(credential: CredentialBody)

  datatype Cookie = Cookie(issuedAtMs: nat, tag: Mac)

  datatype CredentialBody = CredentialBody(random: nat, session: SessionId, conversation: ConvId,
                                           issuedAtMs: nat, expiresAtMs: nat)
  datatype Credential = Credential(body: CredentialBody, tag: Mac)

  // ------------------------------------------------------ handshake messages

  datatype ClientHello = ClientHello(handshakeId: nat, clientNonce: nat, suite: CipherSuite,
                                     cookie: Option<Cookie>, resumption: Option<Credential>)

  datatype HelloRetryBody = HelloRetryBody(handshakeId: nat, clientNonce: nat, suite: CipherSuite,
                                           cookie: Cookie, hasResumption: bool)
  datatype HelloRetry = HelloRetry(body: HelloRetryBody, tag: Mac)

  datatype ServerHelloBody = ServerHelloBody(handshakeId: nat, clientNonce: nat, serverNonce: nat,
                                             salt: nat, suite: CipherSuite, resumed: bool)
  datatype ServerHello = ServerHello(body: ServerHelloBody, tag: Mac)

  datatype ClientFinish = ClientFinish(handshakeId: nat, tag: Mac)

  // ---------------------------------------------------------------- records

  /** Everything `session_keys` feeds into the key derivation. */
  datatype SessionKey = SessionKey(psk: nat, hello: ClientHello, serverHello: ServerHello, sid: SessionId)

  datatype DirectionKey = DirectionKey(session: SessionKey, dir: Direction)

  datatype Header = Header(sid: SessionId, number: nat, epoch: nat, ftype: FrameType, handle: Option<Handle>)

  datatype Plain = Payload(bytes: seq<byte>) | CredentialBytes(credential: Credential)

  datatype Body =
    | Sealed(key: DirectionKey, dir: Direction, suite: CipherSuite, header: Header, plain: Plain)
    | ForgedBody(bits: nat)

  function PlainLength(p: Plain): nat {
    match p
    case Payload(bytes) => |bytes|
    case CredentialBytes(_) => CREDENTIAL_LENGTH
  }

  datatype Frame =
    | HelloMsg(hello: ClientHello)
    | RetryMsg(retry: HelloRetry)
    | ServerHelloMsg(sid: SessionId, serverHello: ServerHello)
    | FinishMsg(sid: SessionId, finish: ClientFinish)
    | RecordMsg(header: Header, body: Body)
    | Undecodable

  // ------------------------------------------------------- replies of an engine

  datatype DropReason = ReconnectQueueFull | ReconnectQueueExpired | ConnectionClosed

  datatype Action =
    | SendFrame(to: PeerId, frame: Frame)
    | DeliverToClient(localPeer: LocalPeer, payload: seq<byte>)
    | DeliverToUpstream(sid: SessionId, conv: ConvId, payload: seq<byte>)
    | SessionEstablished(peer: PeerId, sid: SessionId, suite: CipherSuite, resumed: bool)
    | SessionResumed(peer: PeerId, oldSid: SessionId, newSid: SessionId)
    | SessionClosed(peer: PeerId, sid: SessionId)
    | SessionRecoveryExpired(sid: SessionId)
    | ConversationOpened(session: Option<SessionId>, conv: ConvId)
    | ConversationClosed(session: Option<SessionId>, conv: ConvId)
    | DatagramDropped(localPeer: LocalPeer, reason: DropReason)
    | ScheduleTimer(delay: nat)

  datatype EngineError =
    | Malformed
    | UnexpectedMessage
    | HandshakeIdMismatch
    | CipherSuiteMismatch
    | AuthenticationFailed
    | InvalidResumptionCredential
    | UnknownPendingHandshake
    | SessionMismatch
    | UnsupportedEpoch
    | InvalidRecordType
    | InvalidFrameFields
    | PacketNumberExhausted
    | ReplayDuplicate
    | ReplayTooOld
    | InvalidRole
    | ConversationCapacity
    | ConversationHandleExhausted
    | PendingHandshakeCapacity
    | PerPeerPendingHandshakeCapacity
    | HandshakeRateLimited
    | SessionCapacity
    | UnknownConversation
    | PayloadTooLarge
    | SessionNotReady
    | UnknownSession
    | UnexpectedPeer
    | RandomnessUnavailable

  datatype Reply =
    | Ok(actions: seq<Action>)
    | Err(error: EngineError)
    | Panic            // `expect` on a missing value: the engine's task dies

  // -------------------------------------------------- creating and verifying

  function HandshakeTag(psk: nat, handshakeId: nat, clientNonce: nat, text: Transcript): Mac {
    Mac(HandshakeKey(psk, handshakeId, clientNonce), text)
  }

  function CookieFor(secret: nat, hello: ClientHello, peer: PeerId, issuedAtMs: nat): Cookie {
    Cookie(issuedAtMs, Mac(ServerSecret(secret),
      CookieText(peer, issuedAtMs, hello.handshakeId, hello.clientNonce, hello.suite, hello.resumption)))
  }

  function CreateRetry(psk: nat, secret: nat, hello: ClientHello, peer: PeerId, issuedAtMs: nat): HelloRetry {
    var body := HelloRetryBody(hello.handshakeId, hello.clientNonce, hello.suite,
                               CookieFor(secret, hello, peer, issuedAtMs), hello.resumption.Some?);
    HelloRetry(body, HandshakeTag(psk, body.handshakeId, body.clientNonce, RetryAuth(body)))
  }

  /** Why `verify_and_apply` refuses a retry, if it does. */
  function RetryProblem(psk: nat, retry: HelloRetry, hello: ClientHello): Option<EngineError> {
    var b := retry.body;
    if b.handshakeId != hello.handshakeId || b.clientNonce != hello.clientNonce then Some(HandshakeIdMismatch)
    else if b.suite != hello.suite then Some(CipherSuiteMismatch)
    else if b.hasResumption != hello.resumption.Some? then Some(AuthenticationFailed)
    else if retry.tag != HandshakeTag(psk, b.handshakeId, b.clientNonce, RetryAuth(b)) then Some(AuthenticationFailed)
    else None
  }

  predicate CookieVerifies(secret: nat, hello: ClientHello, peer: PeerId, nowMs: nat, lifetime: nat) {
    && hello.cookie.Some?
    && hello.cookie.value.issuedAtMs <= nowMs
    && nowMs - hello.cookie.value.issuedAtMs <= Millis(lifetime)
    && hello.cookie.value == CookieFor(secret, hello, peer, hello.cookie.value.issuedAtMs)
  }

  function CreateServerHello(psk: nat, hello: ClientHello, sid: SessionId, resumed: bool,
                             nonce: nat, salt: nat): ServerHello {
    var body := ServerHelloBody(hello.handshakeId, hello.clientNonce, nonce, salt, hello.suite, resumed);
    ServerHello(body, HandshakeTag(psk, hello.handshakeId, hello.clientNonce, ServerAuth(hello, sid, body)))
  }

  /** Why the client refuses a server hello, if it does. */
  function ServerHelloProblem(psk: nat, sh: ServerHello, hello: ClientHello, sid: SessionId): Option<EngineError> {
    var b := sh.body;
    if b.handshakeId != hello.handshakeId then Some(HandshakeIdMismatch)
    else if b.clientNonce != hello.clientNonce then Some(AuthenticationFailed)
    else if b.suite != hello.suite then Some(CipherSuiteMismatch)
    else if sh.tag != HandshakeTag(psk, b.handshakeId, b.clientNonce, ServerAuth(hello, sid, b)) then
      Some(AuthenticationFailed)
    else None
  }

  function CreateFinish(psk: nat, hello: ClientHello, sh: ServerHello, sid: SessionId): ClientFinish {
    ClientFinish(hello.handshakeId,
                 HandshakeTag(psk, hello.handshakeId, hello.clientNonce, FullTranscript(hello, sid, sh)))
  }

  /** Why the server refuses a client finish, if it does. */
  function FinishProblem(psk: nat, f: ClientFinish, hello: ClientHello, sh: ServerHello, sid: SessionId)
    : Option<EngineError>
  {
    if f.handshakeId != hello.handshakeId then Some(HandshakeIdMismatch)
    else if f.tag != HandshakeTag(psk, f.handshakeId, hello.clientNonce, FullTranscript(hello, sid, sh)) then
      Some(AuthenticationFailed)
    else None
  }

  function IssueCredential(secret: nat, sid: SessionId, conv: ConvId, issuedAtMs: nat, expiresAtMs: nat,
                           random: nat): Credential {
    var body := CredentialBody(random, sid, conv, issuedAtMs, expiresAtMs);
    Credential(body, Mac(ServerSecret(secret), CredentialText(body)))
  }

  predicate CredentialVerifies(secret: nat, c: Credential, nowMs: nat) {
    && c.body.issuedAtMs <= nowMs <= c.body.expiresAtMs
    && c.tag == Mac(ServerSecret(secret), CredentialText(c.body))
    && c.body.conversation != 0
  }
}
