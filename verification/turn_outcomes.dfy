/** Exactly which bytes at the head of a connection let its session live on, leave, or be faulted. */
module TurnOutcomes {
  import opened Basics
  import opened Packets
  import opened SocketUtils
  import opened StateMachines
  import opened ClientSessions
  import opened Dashboards
  import opened SessionTable
  import opened ConformingClients

  /** The stream begins with the whole packet `p`. */
  ghost predicate Heads(p: Packet, inbox: seq<Byte>) {
    p.WellFormed() && EncodePacket(p) <= inbox
  }

  ghost predicate Intact(p: Packet) {
    Checksum(p.payload) == p.header.checksum
  }

  /** A packet that a verified aircraft may send and stay: 20 bytes of telemetry, or a map request that can be met. */
  ghost predicate Acceptable(p: Packet, file: File, window: nat) {
    Intact(p) &&
    ( (p.header.kind == 4 && |p.payload| == 20)
    || (p.header.kind == 5 && p.payload == [] && file.Contents? && window >= 29 + |file.data|))
  }

  ghost predicate IsDigit(b: Byte) {
    48 <= b <= 57
  }

  /** The 16 bytes of the field begin with "AC-", three digits and a NUL. */
  ghost predicate NamesAircraft(f: Field) {
    f[..3] == [65, 67, 45] && IsDigit(f[3]) && IsDigit(f[4]) && IsDigit(f[5]) && f[6] == 0
  }

  /** The valid identifiers are "AC-000" to "AC-999". */
  lemma ValidIdsAre(id: Text)
    ensures ValidAircraftId(id) <==>
      |id| == 6 && id == [65, 67, 45, id[3], id[4], id[5]] && IsDigit(id[3]) && IsDigit(id[4]) && IsDigit(id[5])
  {
    if |id| == 6 {
      assert id[..3] == [id[0], id[1], id[2]];
    }
  }

  /** A header names a valid aircraft exactly if its field reads so. */
  lemma ValidFieldsAre(f: Field)
    ensures ValidAircraftId(ExtractId(f)) <==> NamesAircraft(f)
    ensures NamesAircraft(f) ==> ExtractId(f) == f[..6]
  {
    var id := ExtractId(f);
    ValidIdsAre(id);
    hide ValidAircraftId;
    assert id == f[..|id|] && |id| == TextLength(f);
    if NamesAircraft(f) {
      assert f[0] == f[..3][0] && f[1] == f[..3][1] && f[2] == f[..3][2];
      assert |id| == 6;
    }
    if |id| == 6 {
      assert f[..3] == id[..3];
    }
  }

  /** A request that a pending aircraft may be admitted on. */
  ghost predicate Admissible(p: Packet, links: map<Handle, Link>, self: Handle, window: nat) {
    && p.header.kind == 1 && p.payload == [] && window >= 29
    && NamesAircraft(p.header.aircraft) && !IdInUse(links, self, p.header.aircraft[..6])
  }

  lemma OnePacketHeads(p: Packet, q: Packet, inbox: seq<Byte>)
    requires Heads(p, inbox) && Heads(q, inbox)
    ensures p == q
  {
    var a, b := inbox[|EncodePacket(p)|..], inbox[|EncodePacket(q)|..];
    hide EncodePacket;
    assert EncodePacket(p) + a == inbox == EncodePacket(q) + b;
    SameFirstPacket(p, a, q, b);
  }

  /** The packet at the head of the stream, if a whole one will come. */
  lemma HeadOf(inbox: seq<Byte>) returns (p: Option<Packet>)
    ensures p.Some? ==> Heads(p.value, inbox)
    ensures p.None? ==> forall q :: !Heads(q, inbox)
    ensures p == if |inbox| < HEADER_SIZE then None else
      var header := DecodeHeader(inbox[..HEADER_SIZE]);
      if |inbox| < HEADER_SIZE + header.size then None
      else Some(Packet(header, inbox[HEADER_SIZE..][..header.size]))
  {
    p := None;
    hide EncodeHeader, DecodeHeader;
    if |inbox| >= HEADER_SIZE {
      var header := DecodeHeader(inbox[..HEADER_SIZE]);
      HeaderBytesRoundTrip(inbox[..HEADER_SIZE]);
      if |inbox| >= HEADER_SIZE + header.size {
        p := Some(Packet(header, inbox[HEADER_SIZE..][..header.size]));
        assert inbox[..HEADER_SIZE] + inbox[HEADER_SIZE..][..header.size] == inbox[..HEADER_SIZE + header.size];
      }
      forall q | Heads(q, inbox) ensures p.Some? {
        HeaderRoundTrip(q.header);
        assert inbox[..HEADER_SIZE] == EncodeHeader(q.header);
      }
    }
  }

  /** A file that is too big for the peer's window, or that is not there, faults; nothing else does. */
  lemma MapKeptExactly(t: Turn, file: File, at: int)
    requires IsVerified(t.s.State())
    ensures
      var r := SendWeatherMap(t, file, at);
      if file.Contents? && t.ch.window >= HEADER_SIZE + |file.data| then r.keep else !r.keep && r.t.box != t.box
  {
    if file.Contents? && t.ch.window >= HEADER_SIZE + |file.data| {
      MapGoesOut(t, file, at);
    }
    hide EncodeHeader, MakeHeader, Checksum, Sync, Transition;
  }

  lemma DispatchExactly(t: Turn, p: Packet, file: File, at: int)
    requires IsVerified(t.s.State()) && p.WellFormed() && Intact(p)
    ensures
      var r := Dispatch(t, p, file, at);
      && (r.keep <==> Acceptable(p, file, t.ch.window))
      && (!r.keep && r.t.box == t.box <==> p.header.kind == DISCONNECT)
  {
    MapKeptExactly(t, file, at);
    hide SendWeatherMap, Sync, Checksum, DurationCast;
  }

  lemma DamagedIsFaulted(t: Turn, links: map<Handle, Link>, file: File, at: int)
    requires t.s.State() != HANDSHAKE_PENDING && forall p :: Heads(p, t.ch.inbox) ==> !Intact(p)
    ensures var r := Process(t, links, file, at); !r.keep && r.t.box != t.box
  {
    var head := HeadOf(t.ch.inbox);
    hide DecodeHeader, EncodeHeader, Dispatch, Checksum, Sync, Transition, EncodePacket;
  }

  /**
   A verified session lives on exactly when an intact packet of an acceptable kind and size heads its
   stream and can be answered; it leaves in peace exactly on an intact DISCONNECT, of any size; and
   in every other case it is faulted.
   */
  lemma VerifiedFate(t: Turn, links: map<Handle, Link>, file: File, at: int)
    requires IsVerified(t.s.State())
    ensures
      var r := Process(t, links, file, at);
      && (r.keep <==> exists p :: Heads(p, t.ch.inbox) && Acceptable(p, file, t.ch.window))
      && (!r.keep && r.t.box == t.box <==> exists p :: Heads(p, t.ch.inbox) && Intact(p) && p.header.kind == DISCONNECT)
  {
    var r := Process(t, links, file, at);
    if p :| Heads(p, t.ch.inbox) && Intact(p) {
      var rest := t.ch.inbox[|EncodePacket(p)|..];
      hide Process, Dispatch, Checksum, EncodePacket;
      assert t.ch.inbox == EncodePacket(p) + rest;
      ProcessIsDispatch(t, links, p, rest, file, at);
      DispatchExactly(Taken(t, p, rest, at), p, file, at);
      forall q | Heads(q, t.ch.inbox) ensures q == p {
        OnePacketHeads(p, q, t.ch.inbox);
      }
      hide Heads, Intact;
    } else {
      DamagedIsFaulted(t, links, file, at);
      hide Process, Heads, Intact;
    }
  }

  /** The packet that answers the request of a header: its own field and number under another type. */
  ghost predicate AnswersRequest(p: Packet, kind: Byte, header: Header) {
    && p.header.kind == kind && p.payload == [] && p.header.size == 0 && p.header.checksum == 0
    && p.header.sequence == header.sequence && p.header.aircraft == IdField(ExtractId(header.aircraft))
  }

  /**
   A pending session is admitted exactly when a well-formed request for a valid, free identifier
   heads its stream and the ACK can be sent; it is faulted exactly when no header comes, or when the
   request was good and the ACK could not be sent; in every other case it is turned away, with a
   HANDSHAKE_FAIL as far as there is room. Valid identifiers are those from AC-000 to AC-999.
   */
  lemma PendingFate(t: Turn, links: map<Handle, Link>, file: File, at: int)
    requires t.s.State() == HANDSHAKE_PENDING
    ensures
      var r := Process(t, links, file, at);
      && (r.keep <==> exists p :: Heads(p, t.ch.inbox) && Admissible(p, links, t.s.socket, t.ch.window))
      && (!r.keep && r.t.box != t.box <==>
            |t.ch.inbox| < HEADER_SIZE ||
            (t.ch.window < HEADER_SIZE &&
             exists p :: Heads(p, t.ch.inbox) && Admissible(p, links, t.s.socket, HEADER_SIZE)))
    ensures
      var r := Process(t, links, file, at);
      t.ch.window >= 29 && |t.ch.inbox| >= 29 ==>
        exists p :: AnswersRequest(p, if r.keep then 2 else 3, DecodeHeader(t.ch.inbox[..29]))
          && r.t.s.sent == t.s.sent + [p] && r.t.ch.outbox == t.ch.outbox + EncodePacket(p)
  {
    var head := HeadOf(t.ch.inbox);
    forall p | Heads(p, t.ch.inbox) ensures head == Some(p) {
      OnePacketHeads(p, head.value, t.ch.inbox);
    }
    if |t.ch.inbox| >= HEADER_SIZE {
      var header := DecodeHeader(t.ch.inbox[..HEADER_SIZE]);
      PendingFateOf(t, links, header, file, at);
      if header.size == 0 {
        assert head.value == Packet(header, []);
      }
    }
    hide EncodeHeader, DecodeHeader, EncodePacket, MakeHeader, Handshake, ValidAircraftId;
    hide IdInUse, ExtractId, Sync, Transition, Heads, Admissible, AnswersRequest;
    assert |t.ch.inbox| >= HEADER_SIZE ==>
      forall p :: Heads(p, t.ch.inbox) ==> p.header == DecodeHeader(t.ch.inbox[..HEADER_SIZE]);
    AdmissibleMeans(t, links);
  }

  lemma AdmissibleMeans(t: Turn, links: map<Handle, Link>)
    ensures forall p, window: nat :: Admissible(p, links, t.s.socket, window) ==>
      p.payload == [] && window >= HEADER_SIZE
    ensures forall p, window: nat :: Admissible(p, links, t.s.socket, HEADER_SIZE) && window >= HEADER_SIZE ==>
      Admissible(p, links, t.s.socket, window)
  {
    hide IdInUse, NamesAircraft;
  }

  lemma PendingFateOf(t: Turn, links: map<Handle, Link>, header: Header, file: File, at: int)
    requires t.s.State() == HANDSHAKE_PENDING && |t.ch.inbox| >= HEADER_SIZE
    requires header == DecodeHeader(t.ch.inbox[..HEADER_SIZE])
    ensures
      var r := Process(t, links, file, at);
      var good := header.size == 0 && Admissible(Packet(header, []), links, t.s.socket, HEADER_SIZE);
      && (r.keep <==> good && t.ch.window >= HEADER_SIZE)
      && (r.t.box != t.box <==> good && t.ch.window < HEADER_SIZE)
      && (t.ch.window >= HEADER_SIZE ==>
            var kind := if r.keep then HANDSHAKE_ACK else HANDSHAKE_FAIL;
            var p := CommandPacket(kind, ExtractId(header.aircraft), header.sequence);
            && AnswersRequest(p, if r.keep then 2 else 3, header)
            && r.t.s.sent == t.s.sent + [p] && r.t.ch.outbox == t.ch.outbox + EncodePacket(p))
  {
    ValidFieldsAre(header.aircraft);
    var p := CommandPacket(HANDSHAKE_ACK, ExtractId(header.aircraft), header.sequence);
    var q := CommandPacket(HANDSHAKE_FAIL, ExtractId(header.aircraft), header.sequence);
    assert EncodePacket(p)[..|EncodePacket(p)|] == EncodePacket(p);
    assert EncodePacket(q)[..|EncodePacket(q)|] == EncodePacket(q);
    hide EncodeHeader, DecodeHeader, IdField, ValidAircraftId, NamesAircraft, IdInUse, ExtractId, Sync, Transition;
  }

  // ---------------------------------------------------------------- what is blamed

  /** One line was added, with this cause and this sequence number. */
  ghost predicate Blames(before: seq<FaultLine>, after: seq<FaultLine>, cause: Cause, state: State, sequence: Word) {
    after == before + [FaultLine(cause, state, sequence)]
  }

  /**
   The cause that goes with each failure of a verified session, by the bytes that led to it, the file and
   the room; the packet blamed is the last whose header was read.
   */
  lemma VerifiedBlame(t: Turn, links: map<Handle, Link>, file: File, at: int)
    requires IsVerified(t.s.State())
    ensures
      var box := Process(t, links, file, at).t.box;
      |t.ch.inbox| < 29 ==> Blames(t.box, box, ReceiveFailure, t.s.State(), t.s.lastClientSequence)
    ensures
      var box := Process(t, links, file, at).t.box;
      |t.ch.inbox| >= 29 ==>
        var header := DecodeHeader(t.ch.inbox[..29]);
        var state, n := t.s.State(), header.sequence;
        if |t.ch.inbox| < 29 + header.size then Blames(t.box, box, PayloadReceiveFailure, state, n)
        else if Checksum(t.ch.inbox[29..29 + header.size]) != header.checksum then
          Blames(t.box, box, ChecksumMismatch, state, n)
        else if header.kind == 4 then header.size == 20 || Blames(t.box, box, TelemetrySizeMismatch, state, n)
        else if header.kind == 5 then
          if header.size != 0 then Blames(t.box, box, LargeFileRequestPayloadUnexpected, state, n)
          else MapBlame(t.box, box, file, t.ch.window, n)
        else header.kind == 6 || Blames(t.box, box, UnexpectedPacketType, state, n)
  {
    if |t.ch.inbox| >= 29 {
      var header := DecodeHeader(t.ch.inbox[..29]);
      var ch1 := Read(t.ch, 29);
      var t2 := t.(s := t.s.PacketReceived(header.sequence, at), ch := Read(ch1, header.size));
      if CanRead(ch1, header.size) {
        var p := Packet(header, ch1.inbox[..header.size]);
        assert p.payload == t.ch.inbox[29..29 + header.size];
        DispatchBlame(t2.(s := t2.s.(received := t.s.received + [p])), p, file, at);
      }
    }
    hide DecodeHeader, EncodeHeader, Dispatch, Checksum, Sync, Transition, MapBlame;
  }

  ghost predicate MapBlame(before: seq<FaultLine>, after: seq<FaultLine>, file: File, window: nat, sequence: Word) {
    match file
    case Missing => Blames(before, after, WeatherMapMissing, LARGE_FILE_TRANSFER, sequence)
    case Unreadable => Blames(before, after, WeatherMapReadFailure, LARGE_FILE_TRANSFER, sequence)
    case Contents(data) =>
      if window < 29 then Blames(before, after, FileHeaderSendFailure, LARGE_FILE_TRANSFER, sequence)
      else if window < 29 + |data| then Blames(before, after, FileChunkSendFailure, LARGE_FILE_TRANSFER, sequence)
      else after == before
  }

  lemma SendingBlame(t: Turn, file: File, at: int)
    requires IsVerified(t.s.State())
    ensures MapBlame(t.box, SendWeatherMap(t, file, at).t.box, file, t.ch.window, t.s.lastClientSequence)
  {
    hide EncodeHeader, MakeHeader, Checksum, Sync;
  }

  lemma DispatchBlame(t: Turn, p: Packet, file: File, at: int)
    requires IsVerified(t.s.State()) && p.WellFormed()
    ensures
      var box := Dispatch(t, p, file, at).t.box;
      var state, n := t.s.State(), t.s.lastClientSequence;
      if p.header.kind == 4 then p.header.size == 20 || Blames(t.box, box, TelemetrySizeMismatch, state, n)
      else if p.header.kind == 5 then
        if p.header.size != 0 then Blames(t.box, box, LargeFileRequestPayloadUnexpected, state, n)
        else MapBlame(t.box, box, file, t.ch.window, n)
      else p.header.kind == 6 || Blames(t.box, box, UnexpectedPacketType, state, n)
  {
    SendingBlame(t, file, at);
    hide SendWeatherMap, Sync, Transition, MapBlame, DurationCast;
  }

  /** A pending session is blamed for bringing no header, or for not taking its ACK. */
  lemma PendingBlame(t: Turn, links: map<Handle, Link>, file: File, at: int)
    requires t.s.State() == HANDSHAKE_PENDING
    ensures
      var box := Process(t, links, file, at).t.box;
      if |t.ch.inbox| < 29 then Blames(t.box, box, HandshakeReceiveFailure, HANDSHAKE_PENDING, t.s.lastClientSequence)
      else
        || box == t.box
        || Blames(t.box, box, HandshakeAckSendFailure, HANDSHAKE_PENDING, DecodeHeader(t.ch.inbox[..29]).sequence)
  {
    hide DecodeHeader, EncodeHeader, MakeHeader, ExtractId, ValidAircraftId, IdInUse, Sync, Transition;
  }

  /** The operator's disconnect, when it cannot be sent, is blamed as such. */
  lemma DismissalBlame(t: Turn, at: int)
    requires IsVerified(t.s.State()) && t.ch.window < 29
    ensures Blames(t.box, Dismiss(t, at).t.box, DisconnectSendFailure, CONNECTED, t.s.lastClientSequence)
  {
    hide EncodeHeader, MakeHeader, Sync;
  }

  // ---------------------------------------------------------------- telemetry

  /** Telemetry that is taken is kept as it came, and timed from the telemetry before it. */
  lemma TelemetryIsTaken(t: Turn, links: map<Handle, Link>, p: Packet, file: File, at: int)
    requires IsVerified(t.s.State()) && Heads(p, t.ch.inbox) && Intact(p) && p.header.kind == 4 && |p.payload| == 20
    requires 0 <= t.s.lastTelemetry <= at
    ensures
      var s := Process(t, links, file, at).t.s;
      && s.State() == State.TELEMETRY && s.telemetryValid && s.telemetry == p.payload
      && s.lastTelemetry == s.lastPacket == at && s.lastClientSequence == p.header.sequence
      && s.interval == if t.s.lastTelemetry == 0 then t.s.interval else (at - t.s.lastTelemetry) / 1_000_000
  {
    var rest := t.ch.inbox[|EncodePacket(p)|..];
    assert t.ch.inbox == EncodePacket(p) + rest;
    ProcessIsDispatch(t, links, p, rest, file, at);
    hide Process, EncodePacket, Sync, Checksum;
  }
}
