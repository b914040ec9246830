/** Frame types, cipher suites, directions and size limits of the version 4
    envelope. */
module Protocol {

  const MAX_FRAME_PAYLOAD: nat := 1150
  const MAX_FRAME_BODY: nat := MAX_FRAME_PAYLOAD + 32
  const HEADER_LENGTH: nat := 24
  const CREDENTIAL_LENGTH: nat := 92

  datatype FrameType =
    | ClientHelloFrame
    | ServerHelloFrame
    | ClientFinishFrame
    | HelloRetryFrame
    | Data
    | Close
    | HandshakeAck
    | ResumptionCredential
    | ResumeConversation
    | MtuProbe
    | MtuAck

  predicate IsHandshake(t: FrameType) {
    t.ClientHelloFrame? || t.ServerHelloFrame? || t.ClientFinishFrame? || t.HelloRetryFrame?
  }

  predicate IsProtected(t: FrameType) {
    t.Data? || t.Close? || t.HandshakeAck? || t.ResumptionCredential? || t.ResumeConversation?
  }

  /** `WireFrame::validate_fields`, for an epoch that fits in one byte: which
      frame types must, and which must not, name a conversation. */
  predicate HandleFits(t: FrameType, hasHandle: bool) {
    && (t.Data? || t.ResumptionCredential? || t.ResumeConversation? ==> hasHandle)
    && (IsHandshake(t) || t.HandshakeAck? ==> !hasHandle)
  }

  datatype CipherSuite =
    | ChaCha20Poly1305
    | XChaCha20Poly1305
    | Aes128Gcm
    | Aes256Gcm
    | NoneAuthenticated

  function TagLength(suite: CipherSuite): nat {
    if suite.NoneAuthenticated? then 32 else 16
  }

  datatype Direction = ClientToServer | ServerToClient
}
