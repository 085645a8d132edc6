/** What every reachable server state satisfies, and why each step keeps it. */
module TableInvariants {
  import opened Basics
  import opened Packets
  import opened SocketUtils
  import opened StateMachines
  import opened ClientSessions
  import opened Dashboards
  import opened SessionTable

  // ---------------------------------------------------------------- histories

  /** Every transition asked for was allowed and taken. */
  ghost predicate MachineOk(m: Machine) {
    && m.refusals == 0
    && |m.path| >= 2 && m.path[..2] == [DISCONNECTED, HANDSHAKE_PENDING]
    && m.path[|m.path| - 1] == m.current
    && forall i :: 0 <= i < |m.path| - 1 ==> IsAllowed(m.path[i], m.path[i + 1])
  }

  /** FAULT, if it occurs, is left at once for DISCONNECTED, and that is the end. */
  ghost predicate FaultIsLast(path: seq<State>) {
    forall i :: 0 <= i < |path| && path[i] == FAULT ==> i == |path| - 2 && path[|path| - 1] == DISCONNECTED
  }

  ghost predicate IsFile(p: Packet, id: Text, sequence: Word) {
    |p.payload| <= MAX_FILE_SIZE && p == FilePacket(id, sequence, p.payload)
  }

  /** An ACK, then weather maps numbered 1, 2, 3, ... modulo 2^32. */
  ghost predicate ServerStream(sent: seq<Packet>, id: Text) {
    && sent != [] && sent[0] == CommandPacket(HANDSHAKE_ACK, id, sent[0].header.sequence)
    && forall i :: 1 <= i < |sent| ==> IsFile(sent[i], id, Wrap(i))
  }

  /** As above, possibly closed by a DISCONNECT that carries the next number. */
  ghost predicate FinishedStream(sent: seq<Packet>, id: Text) {
    ServerStream(sent, id) ||
    (|sent| >= 2 && ServerStream(sent[..|sent| - 1], id) &&
     sent[|sent| - 1] == CommandPacket(DISCONNECT, id, Wrap(|sent| - 1)))
  }

  function LastTelemetry(received: seq<Packet>): Option<seq<Byte>> {
    if received == [] then None
    else
      var p := received[|received| - 1];
      if p.header.kind == Packets.TELEMETRY then Some(p.payload) else LastTelemetry(received[..|received| - 1])
  }

  /** The telemetry kept is the last that came. */
  ghost predicate TelemetryOk(s: Session) {
    match LastTelemetry(s.received)
    case None => !s.telemetryValid
    case Some(data) => s.telemetryValid && s.telemetry == data
  }

  ghost predicate TimersOk(s: Session) {
    s.State() == State.TELEMETRY ==> s.telemetryValid && s.lastPacket == s.lastTelemetry
  }

  /** What the server has read is a sequence of whole packets, and the read position is right after them. */
  ghost predicate OnBoundary(s: Session, ch: Channel) {
    AllWellFormed(s.received) && ch.delivered == EncodeAll(s.received) + ch.inbox
  }

  ghost predicate Pending(s: Session) {
    && s.State() == HANDSHAKE_PENDING && |s.machine.path| == 2
    && s.id == [] && s.sent == [] && s.received == [] && s.nextSequence == 1
  }

  ghost predicate Verified(s: Session) {
    && IsVerified(s.State()) && ValidAircraftId(s.id) && s.id != []
    && ServerStream(s.sent, s.id) && s.nextSequence == Wrap(|s.sent|)
    && s.received != [] && s.received[0].header.kind == HANDSHAKE_REQUEST
    && ExtractId(s.received[0].header.aircraft) == s.id
    && s.sent[0].header.sequence == s.received[0].header.sequence
    && s.lastClientSequence == s.received[|s.received| - 1].header.sequence
  }

  ghost predicate CoreOk(s: Session, ch: Channel) {
    && MachineOk(s.machine) && FAULT !in s.machine.path
    && (Pending(s) || Verified(s))
    && OnBoundary(s, ch)
    && ch.outbox == EncodeAll(s.sent)
  }

  /** A session in the table. */
  ghost predicate LinkOk(l: Link) {
    CoreOk(l.s, l.ch) && TelemetryOk(l.s) && TimersOk(l.s)
  }

  /** The packet that a session may be sent after `sent`. */
  ghost predicate DueNext(sent: seq<Packet>, id: Text, p: Packet) {
    if sent != [] then FinishedStream(sent + [p], id)
    else if id != [] then p == CommandPacket(HANDSHAKE_ACK, id, p.header.sequence)
    else p.header.kind == HANDSHAKE_FAIL && p.payload == []
  }

  /** On the wire are the whole packets, and nothing more or a proper beginning of the one that was due next. */
  ghost predicate CutOff(s: Session, ch: Channel) {
    ch.outbox == EncodeAll(s.sent) ||
    exists p :: DueNext(s.sent, s.id, p) && EncodeAll(s.sent) <= ch.outbox < EncodeAll(s.sent + [p])
  }

  /** What was sent, whole, to a session that is leaving. */
  ghost predicate LastWords(s: Session, ch: Channel) {
    && CutOff(s, ch)
    && (s.id == [] || ValidAircraftId(s.id))
    && (s.sent == []
        || (s.id == [] && |s.sent| == 1 && s.sent[0].header.kind == HANDSHAKE_FAIL)
        || (s.id != [] && FinishedStream(s.sent, s.id)))
  }

  /** A session that has left: turned away while pending, or disconnected, through FAULT or not. */
  ghost predicate EndOk(l: Link) {
    && MachineOk(l.s.machine) && FaultIsLast(l.s.machine.path)
    && (l.s.State() == DISCONNECTED || (l.s.State() == HANDSHAKE_PENDING && l.s.id == [] && |l.s.machine.path| == 2))
    && (l.s.id != [] || FAULT in l.s.machine.path || l.s.State() == HANDSHAKE_PENDING)
    && LastWords(l.s, l.ch)
  }

  // ---------------------------------------------------------------- one turn

  ghost predicate WasFaulted(s: Session) {
    FAULT in s.machine.path
  }

  /** The black-box line of a faulted session: where it was, and the last packet it had sent. */
  ghost predicate LineFits(line: FaultLine, s: Session) {
    && |s.machine.path| >= 3 && line.state == s.machine.path[|s.machine.path| - 3]
    && line.sequence == s.lastClientSequence
    && line.cause != IllegalTelemetryState && line.cause != IllegalFileTransferTransition
  }

  ghost predicate BoxGrows(before: seq<FaultLine>, after: seq<FaultLine>, s: Session) {
    if WasFaulted(s) then |after| == |before| + 1 && after[..|before|] == before && LineFits(after[|before|], s)
    else after == before
  }

  /** All that a turn may do. The many dashboard updates on its way amount to one of the final session. */
  ghost predicate Effect(t: Turn, links: map<Handle, Link>, r: Served) {
    && r.t.s.socket == t.s.socket
    && (r.t.s.id == t.s.id || (t.s.id == [] && !IdInUse(links, t.s.socket, r.t.s.id)))
    && r.t.board == Sync(t.board, r.t.s)
    && (if r.keep then LinkOk(Link(r.t.s, r.t.ch)) && r.t.box == t.box
        else EndOk(Link(r.t.s, r.t.ch)) && BoxGrows(t.box, r.t.box, r.t.s))
  }

  lemma TransitionOk(m: Machine, next: State)
    requires MachineOk(m) && IsAllowed(m.current, next)
    ensures MachineOk(Transition(m, next))
  {
    var path := m.path + [next];
    forall i | 0 <= i < |path| - 1 ensures IsAllowed(path[i], path[i + 1]) {
      if i == |m.path| - 1 {
        assert path[i] == m.current;
      }
    }
    assert path[..2] == m.path[..2];
  }

  lemma SyncTwice(b: Board, s: Session, s': Session)
    requires s.id == s'.id
    ensures Sync(Sync(b, s), s') == Sync(b, s')
  {
    if s.id != [] {
      assert Sync(Sync(b, s), s').aircraft == Sync(b, s').aircraft;
    }
  }

  /** Faulting is legal from every state a handler can be in, and is recorded once. */
  lemma FaultEffect(t: Turn, cause: Cause)
    requires MachineOk(t.s.machine) && FAULT !in t.s.machine.path && t.s.State() != DISCONNECTED
    requires LastWords(t.s, t.ch)
    requires cause != IllegalTelemetryState && cause != IllegalFileTransferTransition
    ensures var f := Fault(t, cause);
      && EndOk(Link(f.s, f.ch)) && BoxGrows(t.box, f.box, f.s)
      && f.s.State() == DISCONNECTED && WasFaulted(f.s)
      && f.board == Sync(t.board, f.s) && f.s.id == t.s.id && f.s.socket == t.s.socket
  {
    hide EncodeAll, FinishedStream, ValidAircraftId;
    var p := t.s.machine.path;
    assert t.s.State() != FAULT by {
      assert p[|p| - 1] in p;
    }
    TransitionOk(t.s.machine, FAULT);
    TransitionOk(Transition(t.s.machine, FAULT), DISCONNECTED);
    var f := Fault(t, cause);
    assert f.s.machine.path == p + [FAULT, DISCONNECTED];
    assert f.s.machine.path[|p|] == FAULT;
    assert FaultIsLast(f.s.machine.path) by {
      forall i | 0 <= i < |p| ensures f.s.machine.path[i] != FAULT {
        assert f.s.machine.path[i] == p[i] && p[i] in p;
      }
    }
    SyncTwice(t.board, t.s.Moved(FAULT), f.s);
    assert f.box[..|t.box|] == t.box;
  }

  lemma CoreLastWords(s: Session, ch: Channel)
    requires CoreOk(s, ch)
    ensures LastWords(s, ch)
  {
  }

  lemma SendPacketOk(t: Turn, p: Packet)
    requires t.ch.outbox == EncodeAll(t.s.sent)
    ensures var r := SendPacket(t, p);
      && (DueNext(t.s.sent, t.s.id, p) ==> CutOff(r.s, r.ch))
      && (CanWrite(t.ch, EncodePacket(p)) ==> r.ch.outbox == EncodeAll(r.s.sent) && r.s.sent == t.s.sent + [p])
  {
    EncodeAllPush(t.s.sent, p);
    var bytes := EncodePacket(p);
    hide EncodeAll, EncodePacket, DueNext;
    assert bytes[..|bytes|] == bytes;
    var r := SendPacket(t, p);
    if !CanWrite(t.ch, bytes) {
      assert bytes[..t.ch.window] < bytes;
      assert EncodeAll(r.s.sent) <= r.ch.outbox < EncodeAll(t.s.sent + [p]);
    }
  }

  lemma NextFile(sent: seq<Packet>, id: Text, data: FileBytes)
    requires ServerStream(sent, id)
    ensures ServerStream(sent + [FilePacket(id, Wrap(|sent|), data)], id)
  {
  }

  lemma NextNumber(n: nat)
    ensures Wrap(Wrap(n) + 1) == Wrap(n + 1)
  {
  }

  lemma PauseOk(s: Session)
    requires MachineOk(s.machine) && FAULT !in s.machine.path && IsVerified(s.State())
    ensures var m := Pause(s).machine; MachineOk(m) && FAULT !in m.path && m.current == CONNECTED
  {
    TransitionOk(s.machine, CONNECTED);
  }

  /** Faulting part-way through a turn, after at most one dashboard update. */
  lemma FaultedEffect(t: Turn, links: map<Handle, Link>, now: Turn, shown: Session, cause: Cause)
    requires MachineOk(now.s.machine) && FAULT !in now.s.machine.path && now.s.State() != DISCONNECTED
    requires LastWords(now.s, now.ch)
    requires now.s.socket == t.s.socket && now.s.id == t.s.id == shown.id && now.box == t.box
    requires now.board == t.board || now.board == Sync(t.board, shown)
    requires cause != IllegalTelemetryState && cause != IllegalFileTransferTransition
    ensures Effect(t, links, Faulted(now, cause))
  {
    FaultEffect(now, cause);
    SyncTwice(t.board, shown, Fault(now, cause).s);
  }

  ghost predicate Controllable(t: Turn) {
    CoreOk(t.s, t.ch) && Verified(t.s)
  }

  lemma SendWeatherMapEffect(t: Turn, links: map<Handle, Link>, file: File, at: int)
    requires Controllable(t) && TelemetryOk(t.s)
    ensures Effect(t, links, SendWeatherMap(t, file, at))
  {
    hide Effect, Fault, SendPacket, FilePacket, EncodePacket, EncodeHeader, EncodeAll, Wrap;
    PauseOk(t.s);
    var s1 := Pause(t.s);
    TransitionOk(s1.machine, LARGE_FILE_TRANSFER);
    var s2 := s1.Moved(LARGE_FILE_TRANSFER);
    var t2 := Shown(t.(s := s2));
    CoreLastWords(t.s, t.ch);
    match file
    case Missing =>
      FaultedEffect(t, links, t2, s2, WeatherMapMissing);
    case Unreadable =>
      FaultedEffect(t, links, t2, s2, WeatherMapReadFailure);
    case Contents(data) =>
      TransferFails(t, links, s2, data);
      if CanWrite(t.ch, EncodePacket(FilePacket(s2.id, s2.nextSequence, data))) {
        TransferSucceeds(t, links, s2, data, at);
      }
  }

  /** The session while its weather map goes out. */
  ghost predicate Sending(s: Session, s2: Session) {
    && MachineOk(s2.machine) && FAULT !in s2.machine.path && s2.State() == LARGE_FILE_TRANSFER
    && s2.(machine := s.machine) == s
  }

  function Transferred(t: Turn, s2: Session, data: FileBytes): Turn {
    var t1 := Shown(t.(s := s2)).(s := s2.(nextSequence := Wrap(s2.nextSequence + 1)));
    SendPacket(t1, FilePacket(s2.id, s2.nextSequence, data))
  }

  lemma TransferFails(t: Turn, links: map<Handle, Link>, s2: Session, data: FileBytes)
    requires Controllable(t) && Sending(t.s, s2)
    ensures Effect(t, links, Faulted(Transferred(t, s2, data), FileHeaderSendFailure))
    ensures Effect(t, links, Faulted(Transferred(t, s2, data), FileChunkSendFailure))
  {
    hide EncodeHeader, MakeHeader, Checksum, EncodeAll, Wrap;
    var t2 := Shown(t.(s := s2.(nextSequence := Wrap(s2.nextSequence + 1))));
    SendPacketOk(t2, FilePacket(s2.id, s2.nextSequence, data));
    NextFile(t.s.sent, t.s.id, data);
    FaultedEffect(t, links, Transferred(t, s2, data), s2, FileHeaderSendFailure);
    FaultedEffect(t, links, Transferred(t, s2, data), s2, FileChunkSendFailure);
  }

  lemma TransferSucceeds(t: Turn, links: map<Handle, Link>, s2: Session, data: FileBytes, at: int)
    requires Controllable(t) && TelemetryOk(t.s) && Sending(t.s, s2)
    requires CanWrite(t.ch, EncodePacket(FilePacket(s2.id, s2.nextSequence, data)))
    ensures var t3 := Transferred(t, s2, data);
      Effect(t, links, Served(Shown(t3.(s := t3.s.Touched(at).Moved(CONNECTED))), true))
  {
    hide EncodeHeader, MakeHeader, Checksum, EncodeAll, Wrap;
    var p := FilePacket(s2.id, s2.nextSequence, data);
    SendPacketOk(Shown(t.(s := s2.(nextSequence := Wrap(s2.nextSequence + 1)))), p);
    NextFile(t.s.sent, t.s.id, data);
    NextNumber(|t.s.sent|);
    TransitionOk(s2.machine, CONNECTED);
    var s4 := Transferred(t, s2, data).s.Touched(at).Moved(CONNECTED);
    SyncTwice(t.board, s2, s4);
    assert s4.sent == t.s.sent + [p] && s4.sent[0] == t.s.sent[0];
    assert Verified(s4);
  }

  lemma CloseStream(sent: seq<Packet>, id: Text)
    requires ServerStream(sent, id)
    ensures FinishedStream(sent + [CommandPacket(DISCONNECT, id, Wrap(|sent|))], id)
  {
    assert (sent + [CommandPacket(DISCONNECT, id, Wrap(|sent|))])[..|sent|] == sent;
  }

  lemma DismissEffect(t: Turn, links: map<Handle, Link>, at: int)
    requires Controllable(t)
    ensures Effect(t, links, Dismiss(t, at))
  {
    hide Effect, Fault, Sync, EncodePacket, MakeHeader, EncodeAll, Wrap, ValidAircraftId, FinishedStream;
    PauseOk(t.s);
    var s1 := Pause(t.s);
    var p := CommandPacket(DISCONNECT, s1.id, s1.nextSequence);
    var t1 := t.(s := s1.(nextSequence := Wrap(s1.nextSequence + 1)));
    var t2 := SendPacket(t1, p);
    SendPacketOk(t1, p);
    CoreLastWords(t.s, t.ch);
    CloseStream(t.s.sent, t.s.id);
    assert LastWords(t2.s, t2.ch);
    if CanWrite(t.ch, EncodePacket(p)) {
      LeaveEffect(t, links, t2, at);
    } else {
      FaultedEffect(t, links, t2, t.s, DisconnectSendFailure);
    }
  }

  /** Leaving from CONNECTED, without a fault. */
  lemma LeaveEffect(t: Turn, links: map<Handle, Link>, now: Turn, at: int)
    requires MachineOk(now.s.machine) && FAULT !in now.s.machine.path && now.s.State() == CONNECTED
    requires LastWords(now.s, now.ch) && now.s.id != []
    requires now.s.socket == t.s.socket && now.s.id == t.s.id && now.board == t.board && now.box == t.box
    ensures Effect(t, links, Served(Shown(now.(s := now.s.Touched(at).Moved(DISCONNECTED))), false))
    ensures Effect(t, links, Served(Shown(now.(s := now.s.Moved(DISCONNECTED))), false))
  {
    hide EncodeAll, FinishedStream, ValidAircraftId;
    TransitionOk(now.s.machine, DISCONNECTED);
    assert FAULT !in Transition(now.s.machine, DISCONNECTED).path;
  }

  /** A turn may be looked at from any point before it changed anything but its own session and channel. */
  lemma SameStart(t: Turn, t1: Turn, links: map<Handle, Link>, r: Served)
    requires Effect(t1, links, r)
    requires t1.s.socket == t.s.socket && t1.s.id == t.s.id && t1.board == t.board && t1.box == t.box
    ensures Effect(t, links, r)
  {
  }

  /** A pending session right after its first header was read. */
  ghost predicate Opening(t: Turn, header: Header) {
    && MachineOk(t.s.machine) && FAULT !in t.s.machine.path
    && Pending(t.s.(received := [])) && t.s.received == [Packet(header, [])] && !t.s.telemetryValid
    && t.ch.outbox == [] && t.ch.delivered == EncodeHeader(header) + t.ch.inbox
  }

  lemma RejectEffect(t: Turn, links: map<Handle, Link>, header: Header, id: Text)
    requires Opening(t, header)
    ensures Effect(t, links, Served(SendPacket(t, CommandPacket(HANDSHAKE_FAIL, id, header.sequence)), false))
  {
    var p := CommandPacket(HANDSHAKE_FAIL, id, header.sequence);
    assert p.header.kind == HANDSHAKE_FAIL && p.payload == [] && EncodeAll([]) == [];
    SendPacketOk(t, p);
    hide EncodeHeader, EncodePacket, CommandPacket, EncodeAll, Sync, FinishedStream, ValidAircraftId, CutOff;
  }

  /** The session once the request has been taken and the ACK written. */
  function Admitted(t: Turn, header: Header, id: Text, at: int): Turn {
    var t1 := t.(s := t.s.(id := id).PacketReceived(header.sequence, at));
    SendPacket(t1, CommandPacket(HANDSHAKE_ACK, id, header.sequence))
  }

  lemma AdmittedIsVerified(s: Session, header: Header, at: int)
    requires Pending(s.(received := [])) && s.received == [Packet(header, [])]
    requires header.kind == HANDSHAKE_REQUEST && ValidAircraftId(ExtractId(header.aircraft))
    ensures
      var id := ExtractId(header.aircraft);
      Verified(s.(id := id, sent := [CommandPacket(HANDSHAKE_ACK, id, header.sequence)])
        .PacketReceived(header.sequence, at).Touched(at).Moved(CONNECTED))
  {
    assert ExtractId(header.aircraft) != [];
    hide MakeHeader, ExtractId, ValidAircraftId;
    assert Wrap(1) == 1;
  }

  lemma FirstPacket(s: Session, ch: Channel, header: Header)
    requires s.received == [Packet(header, [])] && header.size == 0
    requires ch.delivered == EncodeHeader(header) + ch.inbox
    ensures OnBoundary(s, ch) && (LastTelemetry(s.received) == None <==> header.kind != Packets.TELEMETRY)
  {
    hide EncodeHeader;
    assert s.received == [] + [Packet(header, [])] && s.received[..0] == [];
    EncodeAllPush([], Packet(header, []));
    assert EncodeAll([]) == [] && LastTelemetry([]) == None;
  }

  lemma AdmitEffect(t: Turn, links: map<Handle, Link>, header: Header, at: int)
    requires Opening(t, header)
    requires var id := ExtractId(header.aircraft); ValidRequest(header, id, IdInUse(links, t.s.socket, id))
    requires CanWrite(t.ch, EncodePacket(CommandPacket(HANDSHAKE_ACK, ExtractId(header.aircraft), header.sequence)))
    ensures var t2 := Admitted(t, header, ExtractId(header.aircraft), at);
      Effect(t, links, Served(Shown(t2.(s := t2.s.Touched(at).Moved(CONNECTED))), true))
  {
    hide EncodeHeader, MakeHeader, ExtractId, ValidAircraftId, EncodePacket, Sync;
    var id := ExtractId(header.aircraft);
    assert EncodeAll([]) == [];
    var t1 := t.(s := t.s.(id := id).PacketReceived(header.sequence, at));
    SendPacketOk(t1, CommandPacket(HANDSHAKE_ACK, id, header.sequence));
    TransitionOk(t.s.machine, CONNECTED);
    AdmittedIsVerified(t.s, header, at);
    var t2 := Admitted(t, header, id, at);
    var s3 := t2.s.Touched(at).Moved(CONNECTED);
    FirstPacket(s3, t2.ch, header);
    hide EncodeAll, OnBoundary, Verified, MachineOk, LastTelemetry, IdInUse;
    assert s3.sent == [CommandPacket(HANDSHAKE_ACK, id, header.sequence)];
  }

  lemma AckFailsEffect(t: Turn, links: map<Handle, Link>, header: Header, at: int)
    requires Opening(t, header)
    requires var id := ExtractId(header.aircraft); ValidRequest(header, id, IdInUse(links, t.s.socket, id))
    requires !CanWrite(t.ch, EncodePacket(CommandPacket(HANDSHAKE_ACK, ExtractId(header.aircraft), header.sequence)))
    ensures Effect(t, links, Faulted(Admitted(t, header, ExtractId(header.aircraft), at), HandshakeAckSendFailure))
  {
    assert EncodeAll([]) == [];
    hide EncodeHeader, IdField, EncodeAll;
    var id := ExtractId(header.aircraft);
    SendPacketOk(t.(s := t.s.(id := id).PacketReceived(header.sequence, at)),
      CommandPacket(HANDSHAKE_ACK, id, header.sequence));
    FaultEffect(Admitted(t, header, id, at), HandshakeAckSendFailure);
  }

  lemma HandshakeEffect(t: Turn, links: map<Handle, Link>, header: Header, at: int)
    requires Opening(t, header)
    ensures Effect(t, links, Handshake(t, links, header, at))
  {
    hide Effect, SendPacket, Fault, Sync, EncodePacket;
    var id := ExtractId(header.aircraft);
    if !ValidRequest(header, id, IdInUse(links, t.s.socket, id)) {
      RejectEffect(t, links, header, id);
    } else if CanWrite(t.ch, EncodePacket(CommandPacket(HANDSHAKE_ACK, id, header.sequence))) {
      AdmitEffect(t, links, header, at);
    } else {
      AckFailsEffect(t, links, header, at);
    }
  }

  /** A verified session right after packet `p` was read whole. */
  ghost predicate Holding(t: Turn, before: seq<Packet>, p: Packet) {
    && CoreOk(t.s, t.ch) && Verified(t.s)
    && t.s.received == before + [p] && p.WellFormed()
    && TelemetryOk(t.s.(received := before))
  }

  lemma TelemetryEffect(t: Turn, links: map<Handle, Link>, before: seq<Packet>, p: Packet, at: int)
    requires Holding(t, before, p) && p.header.kind == Packets.TELEMETRY
    ensures var s1 := if t.s.State() == CONNECTED then t.s.Moved(State.TELEMETRY) else t.s;
      && s1.State() == State.TELEMETRY
      && Effect(t, links, Served(Shown(t.(s := s1.TelemetryUpdated(p.payload, at))), true))
  {
    hide EncodeAll, ServerStream, ValidAircraftId, Wrap;
    if t.s.State() == CONNECTED {
      TransitionOk(t.s.machine, State.TELEMETRY);
    }
  }

  lemma DispatchEffect(t: Turn, links: map<Handle, Link>, before: seq<Packet>, p: Packet, file: File, at: int)
    requires Holding(t, before, p)
    ensures Effect(t, links, Dispatch(t, p, file, at))
  {
    hide Effect, Fault, Sync, EncodeAll, Checksum, SendWeatherMap, ServerStream, ValidAircraftId, Wrap;
    CoreLastWords(t.s, t.ch);
    FaultedEffect(t, links, t, t.s, TelemetrySizeMismatch);
    FaultedEffect(t, links, t, t.s, LargeFileRequestPayloadUnexpected);
    FaultedEffect(t, links, t, t.s, UnexpectedPacketType);
    if p.header.kind == Packets.TELEMETRY {
      TelemetryEffect(t, links, before, p, at);
    } else if p.header.kind == LARGE_FILE {
      assert t.s.received[..|before|] == before;
      SendWeatherMapEffect(t, links, file, at);
    } else if p.header.kind == DISCONNECT {
      PauseOk(t.s);
      LeaveEffect(t, links, t.(s := Pause(t.s)), at);
    }
  }

  lemma PacketRead(s: Session, ch: Channel, p: Packet)
    requires AllWellFormed(s.received) && p.WellFormed() && p.payload <= ch.inbox
    requires ch.delivered == EncodeAll(s.received) + EncodeHeader(p.header) + ch.inbox
    ensures OnBoundary(s.(received := s.received + [p]), ch.(inbox := ch.inbox[|p.payload|..]))
  {
    var rest := ch.inbox[|p.payload|..];
    EncodeAllPush(s.received, p);
    assert ch.inbox == p.payload + rest;
    Regroup(EncodeAll(s.received), EncodeHeader(p.header), p.payload, rest);
    hide EncodeAll, EncodeHeader;
  }

  lemma Regroup(a: seq<Byte>, b: seq<Byte>, c: seq<Byte>, d: seq<Byte>)
    ensures a + b + (c + d) == a + (b + c) + d
  {
  }

  lemma ReceivePacketEffect(t: Turn, links: map<Handle, Link>, header: Header, file: File, at: int)
    requires MachineOk(t.s.machine) && FAULT !in t.s.machine.path && Verified(t.s) && TelemetryOk(t.s)
    requires AllWellFormed(t.s.received)
    requires t.ch.delivered == EncodeAll(t.s.received) + EncodeHeader(header) + t.ch.inbox
    requires t.ch.outbox == EncodeAll(t.s.sent)
    ensures Effect(t, links, ReceivePacket(t, header, file, at))
  {
    hide Effect, Fault, Sync, EncodeAll, EncodeHeader, Dispatch, Checksum, ValidAircraftId, Wrap;
    var t1 := t.(s := t.s.PacketReceived(header.sequence, at), ch := Read(t.ch, header.size));
    assert LastWords(t1.s, t1.ch);
    if !CanRead(t.ch, header.size) {
      FaultedEffect(t, links, t1, t.s, PayloadReceiveFailure);
    } else {
      var p := Packet(header, t.ch.inbox[..header.size]);
      var t2 := t1.(s := t1.s.(received := t1.s.received + [p]));
      FaultedEffect(t, links, t2, t.s, ChecksumMismatch);
      PacketRead(t.s, t.ch, p);
      assert t2.s.received[0] == t.s.received[0];
      assert t2.s.(received := t.s.received).received == t.s.received;
      DispatchEffect(t2, links, t.s.received, p, file, at);
      SameStart(t, t2, links, Dispatch(t2, p, file, at));
    }
  }

  /** The packet in hand for the first 29 bytes of the inbox. */
  ghost predicate HeaderRead(ch: Channel, header: Header) {
    CanRead(ch, HEADER_SIZE) && ch.inbox == EncodeHeader(header) + Read(ch, HEADER_SIZE).inbox
  }

  lemma ReadHeader(ch: Channel) returns (header: Header)
    requires CanRead(ch, HEADER_SIZE)
    ensures header == DecodeHeader(ch.inbox[..HEADER_SIZE]) && HeaderRead(ch, header)
  {
    var bytes := ch.inbox[..HEADER_SIZE];
    header := DecodeHeader(bytes);
    HeaderBytesRoundTrip(bytes);
  }

  lemma PendingEffect(t: Turn, links: map<Handle, Link>, header: Header, at: int)
    requires LinkOk(Link(t.s, t.ch)) && Pending(t.s) && HeaderRead(t.ch, header)
    ensures var t2 := t.(s := t.s.(received := t.s.received + [Packet(header, [])]), ch := Read(t.ch, HEADER_SIZE));
      Effect(t, links, Handshake(t2, links, header, at))
  {
    assert EncodeAll([]) == [] && LastTelemetry([]) == None;
    hide Effect, EncodeHeader, EncodeAll, Handshake, Wrap;
    var t2 := t.(s := t.s.(received := t.s.received + [Packet(header, [])]), ch := Read(t.ch, HEADER_SIZE));
    assert t2.s.received == [Packet(header, [])];
    assert t2.ch.delivered == EncodeHeader(header) + t2.ch.inbox;
    HandshakeEffect(t2, links, header, at);
    SameStart(t, t2, links, Handshake(t2, links, header, at));
  }

  lemma VerifiedEffect(t: Turn, links: map<Handle, Link>, header: Header, file: File, at: int)
    requires LinkOk(Link(t.s, t.ch)) && Verified(t.s) && HeaderRead(t.ch, header)
    ensures Effect(t, links, ReceivePacket(t.(ch := Read(t.ch, HEADER_SIZE)), header, file, at))
  {
    hide Effect, EncodeHeader, EncodeAll, ReceivePacket, Wrap, ValidAircraftId;
    var t1 := t.(ch := Read(t.ch, HEADER_SIZE));
    assert t1.ch.delivered == EncodeAll(t1.s.received) + EncodeHeader(header) + t1.ch.inbox;
    ReceivePacketEffect(t1, links, header, file, at);
    SameStart(t, t1, links, ReceivePacket(t1, header, file, at));
  }

  lemma ProcessEffect(t: Turn, links: map<Handle, Link>, file: File, at: int)
    requires LinkOk(Link(t.s, t.ch))
    ensures Effect(t, links, Process(t, links, file, at))
  {
    hide Effect, Fault, Sync, EncodeAll, DecodeHeader, Handshake, ReceivePacket, HeaderRead;
    hide FinishedStream, ValidAircraftId, Wrap;
    CoreLastWords(t.s, t.ch);
    if !CanRead(t.ch, HEADER_SIZE) {
      var t1 := t.(ch := Read(t.ch, HEADER_SIZE));
      FaultedEffect(t, links, t1, t.s, HandshakeReceiveFailure);
      FaultedEffect(t, links, t1, t.s, ReceiveFailure);
    } else {
      var header := ReadHeader(t.ch);
      if Pending(t.s) {
        PendingEffect(t, links, header, at);
      } else {
        VerifiedEffect(t, links, header, file, at);
      }
    }
  }
}
