/** The version 4 datagram envelope. */
module Wire {
  import opened Base
  import opened Protocol
  import Bytes

  const DISCRIMINATOR: byte := 4

  datatype FrameError = Truncated | InvalidMagic | UnknownFrameType | ReservedFlags | TooLarge | InvalidFields

  datatype Result<T> = Ok(value: T) | Err(error: FrameError)

  datatype WireFrame = WireFrame(sid: nat, number: nat, epoch: nat, ftype: FrameType, handle: Option<nat>, payload: seq<byte>)

  /** The fields fit their machine types; a handle is never zero. */
  predicate InRange(f: WireFrame) {
    && f.sid <= U64_MAX && f.number <= U64_MAX && f.epoch <= U32_MAX
    && (f.handle.Some? ==> 1 <= f.handle.value <= U32_MAX)
  }

  function TypeId(t: FrameType): byte {
    match t
    case ClientHelloFrame => 1
    case ServerHelloFrame => 2
    case ClientFinishFrame => 3
    case HelloRetryFrame => 4
    case Data => 16
    case Close => 18
    case HandshakeAck => 19
    case ResumptionCredential => 20
    case ResumeConversation => 21
    case MtuProbe => 32
    case MtuAck => 33
  }

  /** `FrameType::try_from`. */
  function TypeOf(id: byte): (r: Option<FrameType>)
    ensures r.Some? ==> TypeId(r.value) == id
    ensures r.None? ==> forall t :: TypeId(t) != id
  {
    if id == 1 then Some(ClientHelloFrame)
    else if id == 2 then Some(ServerHelloFrame)
    else if id == 3 then Some(ClientFinishFrame)
    else if id == 4 then Some(HelloRetryFrame)
    else if id == 16 then Some(Data)
    else if id == 18 then Some(Close)
    else if id == 19 then Some(HandshakeAck)
    else if id == 20 then Some(ResumptionCredential)
    else if id == 21 then Some(ResumeConversation)
    else if id == 32 then Some(MtuProbe)
    else if id == 33 then Some(MtuAck)
    else None
  }

  /** `validate_fields`. */
  predicate ValidFields(f: WireFrame) {
    HandleFits(f.ftype, f.handle.Some?) && f.epoch <= 255
  }

  function HandleNumber(h: Option<nat>): nat {
    if h.Some? then h.value else 0
  }

  /** `encoded_header`, for an epoch that fits. */
  function Header(f: WireFrame): (b: seq<byte>)
    requires f.epoch <= 255
    ensures |b| == HEADER_LENGTH
  {
    [DISCRIMINATOR, TypeId(f.ftype), f.epoch, 0]
    + Bytes.Encode(f.sid, 8) + Bytes.Encode(f.number, 8) + Bytes.Encode(HandleNumber(f.handle), 4)
  }

  function Encode(f: WireFrame): Result<seq<byte>> {
    if !ValidFields(f) then Err(InvalidFields)
    else if |f.payload| > MAX_FRAME_BODY then Err(TooLarge)
    else Ok(Header(f) + f.payload)
  }

  function Decode(b: seq<byte>): Result<WireFrame> {
    if |b| < HEADER_LENGTH then Err(Truncated)
    else if b[0] != DISCRIMINATOR then Err(InvalidMagic)
    else if TypeOf(b[1]).None? then Err(UnknownFrameType)
    else if b[3] != 0 then Err(ReservedFlags)
    else if |b| - HEADER_LENGTH > MAX_FRAME_BODY then Err(TooLarge)
    else
      var handle := Bytes.Decode(b[20..24]);
      var f := WireFrame(Bytes.Decode(b[4..12]), Bytes.Decode(b[12..20]), b[2], TypeOf(b[1]).value,
                         if handle == 0 then None else Some(handle), b[HEADER_LENGTH..]);
      if ValidFields(f) then Ok(f) else Err(InvalidFields)
  }

  // ---------------------------------------------------------------- bijection

  lemma HeaderFields(f: WireFrame)
    requires f.epoch <= 255
    ensures var b := Header(f);
            && b[0] == DISCRIMINATOR && b[1] == TypeId(f.ftype) && b[2] == f.epoch && b[3] == 0
            && b[4..12] == Bytes.Encode(f.sid, 8)
            && b[12..20] == Bytes.Encode(f.number, 8)
            && b[20..24] == Bytes.Encode(HandleNumber(f.handle), 4)
  {
  }

  /** Decoding what was encoded gives the frame back. */
  lemma DecodeEncode(f: WireFrame)
    requires InRange(f) && Encode(f).Ok?
    ensures Decode(Encode(f).value) == Ok(f)
  {
    var h := Header(f);
    var b := h + f.payload;
    HeaderFields(f);
    assert b[4..12] == h[4..12] && b[12..20] == h[12..20] && b[20..24] == h[20..24];
    Bytes.Widths();
    Bytes.DecodeEncode(f.sid, 8);
    Bytes.DecodeEncode(f.number, 8);
    Bytes.DecodeEncode(HandleNumber(f.handle), 4);
    assert b[HEADER_LENGTH..] == f.payload;
  }

  /** Whatever decodes is, byte for byte, the encoding of what it decodes to. */
  lemma EncodeDecode(b: seq<byte>)
    requires Decode(b).Ok?
    ensures InRange(Decode(b).value) && Encode(Decode(b).value) == Ok(b)
  {
    HeaderDecode(b);
    assert b == b[..HEADER_LENGTH] + b[HEADER_LENGTH..];
  }

  lemma HeaderDecode(b: seq<byte>)
    requires Decode(b).Ok?
    ensures InRange(Decode(b).value) && Header(Decode(b).value) == b[..HEADER_LENGTH]
  {
    var f := Decode(b).value;
    Bytes.Widths();
    Bytes.EncodeDecode(b[4..12]);
    Bytes.EncodeDecode(b[12..20]);
    Bytes.EncodeDecode(b[20..24]);
    HeaderFields(f);
    var h := Header(f);
    assert h == h[..4] + h[4..12] + h[12..20] + h[20..24];
    assert b[..HEADER_LENGTH] == b[..4] + b[4..12] + b[12..20] + b[20..24];
    assert h[..4] == b[..4];
  }

  /** A byte string decodes exactly when it is some frame's encoding. */
  lemma Decodable(b: seq<byte>)
    ensures Decode(b).Ok? <==> exists f :: InRange(f) && Encode(f) == Ok(b)
  {
    if Decode(b).Ok? {
      EncodeDecode(b);
    }
    if f :| InRange(f) && Encode(f) == Ok(b) {
      DecodeEncode(f);
    }
  }

  lemma HeaderInjective(f: WireFrame, g: WireFrame)
    requires InRange(f) && InRange(g) && f.epoch <= 255 && g.epoch <= 255 && Header(f) == Header(g)
    ensures f.(payload := []) == g.(payload := [])
  {
    HeaderFields(f);
    HeaderFields(g);
    Bytes.Widths();
    Bytes.EncodeInjective(f.sid, g.sid, 8);
    Bytes.EncodeInjective(f.number, g.number, 8);
    Bytes.EncodeInjective(HandleNumber(f.handle), HandleNumber(g.handle), 4);
    assert TypeOf(TypeId(f.ftype)) == Some(f.ftype) && TypeOf(TypeId(g.ftype)) == Some(g.ftype);
  }

  // ---------------------------------------------------------------- filling a buffer

  /** `copy_from_slice` into part of a buffer. */
  method CopyInto(buffer: array<byte>, at: nat, source: seq<byte>)
    requires at + |source| <= buffer.Length
    modifies buffer
    ensures buffer[at..at + |source|] == source
    ensures buffer[..at] == old(buffer[..at]) && buffer[at + |source|..] == old(buffer[at + |source|..])
  {
    var i := 0;
    while i < |source|
      invariant 0 <= i <= |source|
      invariant buffer[at..at + i] == source[..i]
      invariant buffer[..at] == old(buffer[..at]) && buffer[at + i..] == old(buffer[at + i..])
    {
      buffer[at + i] := source[i];
      i := i + 1;
    }
  }

  /** Later fields leave the earlier ones alone. */
  lemma FieldsKept(one: seq<byte>, two: seq<byte>, three: seq<byte>)
    requires |one| == |two| == |three| == HEADER_LENGTH && two[..12] == one[..12] && three[..20] == two[..20]
    ensures three == one[..4] + one[4..12] + two[12..20] + three[20..24]
  {
    assert three == three[..20] + three[20..24];
    assert two[..20] == two[..12] + two[12..20] && one[..12] == one[..4] + one[4..12];
  }

  /** `encoded_header`: a zeroed buffer filled field by field. */
  method WriteHeader(f: WireFrame) returns (output: array<byte>, ok: bool)
    ensures ok <==> f.epoch <= 255
    ensures ok ==> fresh(output) && output[..] == Header(f)
  {
    output := new byte[HEADER_LENGTH](_ => 0);
    ok := f.epoch <= 255;
    if ok {
      output[0] := DISCRIMINATOR;
      output[1] := TypeId(f.ftype);
      output[2] := f.epoch;
      ghost var first := [DISCRIMINATOR, TypeId(f.ftype), f.epoch, 0];
      ghost var sid, number, handle := Bytes.Encode(f.sid, 8), Bytes.Encode(f.number, 8), Bytes.Encode(HandleNumber(f.handle), 4);
      assert output[..4] == first;
      CopyInto(output, 4, Bytes.Encode(f.sid, 8));
      ghost var one := output[..];
      assert one[..4] == first && one[4..12] == sid;
      CopyInto(output, 12, Bytes.Encode(f.number, 8));
      ghost var two := output[..];
      assert two[..12] == one[..12] && two[12..20] == number;
      CopyInto(output, 20, Bytes.Encode(HandleNumber(f.handle), 4));
      assert output[..20] == two[..20] && output[20..24] == handle;
      FieldsKept(one, two, output[..]);
      assert output[..] == first + sid + number + handle;
    }
  }
}
