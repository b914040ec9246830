/** Resource and timer limits of an engine; durations are in nanoseconds. */
module Config {
  import opened Protocol

  datatype EngineConfig = EngineConfig(
    suite: CipherSuite,
    replayWindowSize: nat,
    maxConversations: nat,
    maxFramePayload: nat,
    conversationIdleTimeout: nat,
    sessionTimeout: nat,
    sessionIdleTimeout: nat,
    handshakeRetryInterval: nat,
    handshakeTimeout: nat,
    handshakeMaxAttempts: nat,
    reconnectQueueCapacity: nat,
    reconnectQueueTimeout: nat,
    rateLimitBurst: nat,
    rateRefillInterval: nat,
    requireHandshakeCookie: bool,
    handshakeCookieLifetime: nat,
    resumptionLifetime: nat,
    maxPendingHandshakes: nat,
    maxPendingHandshakesPerPeer: nat,
    maxSessions: nat)

  /** `EngineConfig::validate`. */
  predicate ValidConfig(c: EngineConfig) {
    && c.replayWindowSize > 0
    && c.maxConversations > 0
    && 1 <= c.maxFramePayload <= MAX_FRAME_PAYLOAD
    && c.conversationIdleTimeout > 0
    && c.sessionTimeout > 0
    && c.sessionIdleTimeout > 0
    && 0 < c.handshakeRetryInterval <= c.handshakeTimeout
    && c.handshakeMaxAttempts > 0
    && c.reconnectQueueCapacity > 0
    && c.reconnectQueueTimeout > 0
    && c.rateLimitBurst > 0
    && c.rateRefillInterval > 0
    && c.handshakeCookieLifetime > 0
    && c.resumptionLifetime > 0
    && c.maxPendingHandshakes > 0
    && c.maxPendingHandshakesPerPeer > 0
    && c.maxSessions > 0
  }
}
