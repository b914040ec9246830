/** Per-session state: the sealing counter, the opening window and the table
    of conversation handles. */
module Sessions {
  import opened Base
  import opened Protocol
  import opened Messages
  import opened ReplaySpec

  // ---------------------------------------------------------------- sealing

  datatype Sealer = Sealer(suite: CipherSuite, dir: Direction, sid: SessionId, key: DirectionKey, next: nat)

  datatype SealResult = SealOk(sealer: Sealer, frame: Frame) | SealErr(error: EngineError)

  /** `RecordSealer::seal`: the counter moves exactly when a frame comes out. */
  function Seal(s: Sealer, ftype: FrameType, handle: Option<Handle>, plain: Plain): (r: SealResult)
    ensures r.SealOk? ==> r.sealer == s.(next := s.next + 1)
    ensures r.SealOk? ==> r.frame == RecordMsg(Header(s.sid, s.next, 0, ftype, handle),
                                               Sealed(s.key, s.dir, s.suite, Header(s.sid, s.next, 0, ftype, handle), plain))
    ensures r.SealOk? <==> IsProtected(ftype) && s.next < U64_MAX && HandleFits(ftype, handle.Some?)
                           && PlainLength(plain) + TagLength(s.suite) <= MAX_FRAME_BODY
  {
    if !IsProtected(ftype) then SealErr(InvalidRecordType)
    else if s.next >= U64_MAX then SealErr(PacketNumberExhausted)
    else if !HandleFits(ftype, handle.Some?) then SealErr(InvalidFrameFields)
    else if PlainLength(plain) + TagLength(s.suite) > MAX_FRAME_BODY then SealErr(PayloadTooLarge)
    else
      var header := Header(s.sid, s.next, 0, ftype, handle);
      SealOk(s.(next := s.next + 1), RecordMsg(header, Sealed(s.key, s.dir, s.suite, header, plain)))
  }

  // ---------------------------------------------------------------- opening

  datatype Opener = Opener(suite: CipherSuite, dir: Direction, sid: SessionId, key: DirectionKey, window: Window)

  datatype OpenResult = OpenOk(opener: Opener, plain: Plain) | OpenErr(error: EngineError)

  /** The body authenticates under this opener's key, direction and suite, for
      this very header. */
  predicate Authentic(o: Opener, frame: Frame) {
    && frame.RecordMsg?
    && frame.body.Sealed?
    && frame.body == Sealed(o.key, o.dir, o.suite, frame.header, frame.body.plain)
  }

  /** `RecordOpener::open`: authentication precedes the replay window. */
  function Open(o: Opener, frame: Frame): (r: OpenResult)
    ensures r.OpenOk? ==> Authentic(o, frame) && r.plain == frame.body.plain && frame.header.sid == o.sid
    ensures r.OpenOk? ==> IsProtected(frame.header.ftype) && PlainLength(r.plain) <= MAX_FRAME_PAYLOAD
    ensures r.OpenOk? ==> Accept(o.window, frame.header.number).Accepted?
                          && r.opener == o.(window := Accept(o.window, frame.header.number).window)
  {
    if !frame.RecordMsg? then OpenErr(InvalidRecordType)
    else if frame.header.sid != o.sid then OpenErr(SessionMismatch)
    else if frame.header.epoch != 0 then OpenErr(UnsupportedEpoch)
    else if !IsProtected(frame.header.ftype) then OpenErr(InvalidRecordType)
    else if !Authentic(o, frame) then OpenErr(AuthenticationFailed)
    else if PlainLength(frame.body.plain) > MAX_FRAME_PAYLOAD then OpenErr(PayloadTooLarge)
    else match Accept(o.window, frame.header.number)
      case Accepted(w) => OpenOk(o.(window := w), frame.body.plain)
      case Refused(Duplicate) => OpenErr(ReplayDuplicate)
      case Refused(TooOld) => OpenErr(ReplayTooOld)
  }

  // ---------------------------------------------------------------- handles

  datatype HandleTable = HandleTable(byHandle: map<Handle, ConvId>, byId: map<ConvId, Handle>, next: nat)

  function NewTable(): HandleTable {
    HandleTable(map[], map[], 1)
  }

  /** The two maps are mutual inverses. */
  ghost predicate Inverse(t: HandleTable) {
    && (forall h :: h in t.byHandle ==> t.byHandle[h] in t.byId && t.byId[t.byHandle[h]] == h)
    && (forall c :: c in t.byId ==> t.byId[c] in t.byHandle && t.byHandle[t.byId[c]] == c)
  }

  /** Every handle in use was handed out by this table's own counter. */
  ghost predicate AllocateOnly(t: HandleTable) {
    && Inverse(t)
    && 1 <= t.next <= U32_MAX
    && (forall h :: h in t.byHandle ==> 1 <= h < t.next)
  }

  datatype HandleResult = HandleOk(table: HandleTable, handle: Handle) | HandleErr

  /** `handle_for_or_allocate`. */
  function Allocate(t: HandleTable, c: ConvId): (r: HandleResult)
    ensures r.HandleErr? <==> c !in t.byId && t.next >= U32_MAX
    ensures r.HandleOk? && c in t.byId ==> r.table == t && r.handle == t.byId[c]
    ensures r.HandleOk? && c !in t.byId ==> r.handle == t.next && r.table.next == t.next + 1
    ensures AllocateOnly(t) && r.HandleOk? ==>
              && AllocateOnly(r.table)
              && r.handle in r.table.byHandle && r.table.byHandle[r.handle] == c
              && 1 <= r.handle
              && (forall h :: h in t.byHandle ==> h in r.table.byHandle && r.table.byHandle[h] == t.byHandle[h])
              && (forall h :: h in r.table.byHandle && h !in t.byHandle ==> h == r.handle >= t.next)
  {
    if c in t.byId then HandleOk(t, t.byId[c])
    else if t.next >= U32_MAX then HandleErr
    else HandleOk(HandleTable(t.byHandle[t.next := c], t.byId[c := t.next], t.next + 1), t.next)
  }

  datatype BindResult = BindOk(table: HandleTable) | BindErr

  /** `bind`: the server takes the client's handle, or refuses a conflict. */
  function Bind(t: HandleTable, h: Handle, c: ConvId): (r: BindResult)
    ensures r.BindErr? <==> h in t.byHandle || c in t.byId
    ensures r.BindOk? ==> r.table.byHandle == t.byHandle[h := c] && r.table.byId == t.byId[c := h]
    ensures Inverse(t) && r.BindOk? ==> Inverse(r.table)
  {
    if h in t.byHandle || c in t.byId then BindErr
    else BindOk(HandleTable(t.byHandle[h := c], t.byId[c := h], t.next))
  }

  /** `remove`. The counter does not move back. */
  function Remove(t: HandleTable, c: ConvId): (r: HandleTable)
    ensures r.next == t.next
    ensures r.byId == t.byId - {c}
    ensures Inverse(t) ==> Inverse(r)
    ensures AllocateOnly(t) ==> AllocateOnly(r)
    ensures forall h :: h in r.byHandle ==> h in t.byHandle && r.byHandle[h] == t.byHandle[h]
  {
    if c in t.byId then HandleTable(t.byHandle - {t.byId[c]}, t.byId - {c}, t.next) else t
  }

  /** Removing several conversations at once. */
  function RemoveAll(t: HandleTable, gone: set<ConvId>): (r: HandleTable)
    ensures r.next == t.next
    ensures r.byId == t.byId - gone
    ensures Inverse(t) ==> Inverse(r)
    ensures forall h :: h in r.byHandle ==> h in t.byHandle && r.byHandle[h] == t.byHandle[h]
  {
    HandleTable(map h | h in t.byHandle && !(exists c :: c in gone && c in t.byId && t.byId[c] == h) :: t.byHandle[h],
                t.byId - gone, t.next)
  }

  // ------------------------------------------------------- records of a reply

  /** The protected records among the frames of a reply, in order. */
  function Records(actions: seq<Action>): seq<Frame> {
    if actions == [] then []
    else (if actions[0].SendFrame? && actions[0].frame.RecordMsg? then [actions[0].frame] else []) + Records(actions[1..])
  }

  lemma {:induction false} RecordsConcat(a: seq<Action>, b: seq<Action>)
    ensures Records(a + b) == Records(a) + Records(b)
  {
    if a == [] {
      assert a + b == b;
    } else {
      assert (a + b)[1..] == a[1..] + b;
      RecordsConcat(a[1..], b);
    }
  }

  lemma {:induction false} NoRecords(actions: seq<Action>)
    requires forall a :: a in actions && a.SendFrame? ==> !a.frame.RecordMsg?
    ensures Records(actions) == []
  {
    if actions != [] {
      NoRecords(actions[1..]);
    }
  }

  /** Packet numbers go up from record to record. */
  ghost predicate Ascending(frames: seq<Frame>) {
    && (forall i :: 0 <= i < |frames| ==> frames[i].RecordMsg?)
    && (forall i, j :: 0 <= i < j < |frames| ==> frames[i].header.number < frames[j].header.number)
  }
}
