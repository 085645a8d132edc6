/**
 server/ground_server.cpp: the server thread, step by step on its session map, sockets, dashboard
 and logger. Every method computes the function of the same step in `SessionTable`.
 */
module GroundServers {
  import opened Basics
  import opened Packets
  import opened SocketUtils
  import opened StateMachines
  import opened ClientSessions
  import opened Dashboards
  import opened SessionTable

  class Logger {
    var blackBox: seq<FaultLine>

    constructor ()
      ensures blackBox == []
    {
      blackBox := [];
    }

    method LogFault(cause: Cause, state: State, sequence: Word)
      modifies this
      ensures blackBox == old(blackBox) + [FaultLine(cause, state, sequence)]
    {
      blackBox := blackBox + [FaultLine(cause, state, sequence)];
    }
  }

  /** How far a weather map got. */
  datatype Delivery = Sent | HeaderLost | ChunkLost

  class GroundServer {
    var sessions: map<Handle, ClientSession>
    const sockets: Sockets
    const dashboard: DashboardState
    const logger: Logger
    ghost var ended: seq<Link>
    ghost var accepted: nat

    constructor ()
      ensures Valid() && World() == START
      ensures fresh(sockets) && fresh(dashboard) && fresh(logger) && Objects() == {}
    {
      sessions := map[];
      sockets := new Sockets();
      dashboard := new DashboardState();
      logger := new Logger();
      ended, accepted := [], 0;
    }

    // -------------------------------------------------------------- abstraction

    ghost function Objects(): set<object>
      reads this
    {
      (set h | h in sessions :: sessions[h] as object) + (set h | h in sessions :: sessions[h].machine as object)
    }

    /** Each session has its own objects and its own open socket, and no other socket is open. */
    ghost predicate Valid()
      reads this, sockets, Objects()
    {
      && sessions.Keys == sockets.channels.Keys
      && (forall h :: h in sessions ==> sessions[h].socket == h && sessions[h].machine.owner == h)
    }

    ghost function Links(): map<Handle, Link>
      reads this, sockets, Objects()
      requires sessions.Keys == sockets.channels.Keys
    {
      map h | h in sessions :: Link(sessions[h].View(), sockets.channels[h])
    }

    ghost function World(): World
      reads this, sockets, dashboard, logger, Objects()
      requires sessions.Keys == sockets.channels.Keys
    {
      SessionTable.World(Links(), dashboard.View(), logger.blackBox, ended, accepted)
    }

    /** The turn of one session, as its handlers find it. */
    ghost function Now(session: ClientSession): Turn
      reads session, session.machine, sockets, dashboard, logger
      requires session.socket in sockets.channels
    {
      Turn(session.View(), sockets.channels[session.socket], dashboard.View(), logger.blackBox)
    }

    // -------------------------------------------------------------- one session

    method UpdateDashboardAircraft(session: ClientSession)
      requires session.socket in sockets.channels
      modifies dashboard
      ensures Now(session) == Shown(old(Now(session)))
    {
      dashboard.SyncAircraft(session);
    }

    method ChangeState(session: ClientSession, next: State) returns (ok: bool)
      requires session.socket in sockets.channels
      modifies session.machine
      ensures ok <==> IsAllowed(old(Now(session)).s.State(), next)
      ensures Now(session) == old(Now(session)).(s := old(Now(session)).s.Moved(next))
    {
      hide IsAllowed, Transition;
      ok := session.machine.Move(next);
    }

    method Blame(session: ClientSession, cause: Cause, state: State)
      requires session.socket in sockets.channels
      modifies logger
      ensures
        var t := old(Now(session));
        Now(session) == t.(box := t.box + [FaultLine(cause, state, t.s.lastClientSequence)])
    {
      logger.LogFault(cause, state, session.lastClientSequence);
    }

    method HandleFault(session: ClientSession, cause: Cause)
      requires session.socket in sockets.channels
      modifies session.machine, dashboard, logger
      ensures Now(session) == Fault(old(Now(session)), cause)
    {
      ghost var t := Now(session);
      var currentState := session.machine.current;
      assert currentState == t.s.State();
      hide Shown, Session.Moved, Now;
      if currentState != FAULT {
        var _ := ChangeState(session, FAULT);
      }
      Blame(session, cause, currentState);
      UpdateDashboardAircraft(session);
      var _ := ChangeState(session, DISCONNECTED);
      UpdateDashboardAircraft(session);
    }

    /** Header, then payload if there is one. */
    method SendPacket(session: ClientSession, p: Packet) returns (ok: bool)
      requires session.socket in sockets.channels && |p.payload| == p.header.size
      modifies session`sent, sockets
      ensures ok <==> CanWrite(old(sockets.channels[session.socket]), EncodePacket(p))
      ensures session.socket in sockets.channels
      ensures Now(session) == SessionTable.SendPacket(old(Now(session)), p)
      ensures sockets.channels == old(sockets.channels)[session.socket := sockets.channels[session.socket]]
    {
      ghost var was := sockets.channels[session.socket];
      WriteAppend(was, EncodeHeader(p.header), p.payload);
      ok := sockets.SendAll(session.socket, EncodeHeader(p.header));
      if !ok {
        assert sockets.channels[session.socket].outbox + p.payload[..0] == sockets.channels[session.socket].outbox;
        return;
      }
      if p.header.size > 0 {
        ok := sockets.SendAll(session.socket, p.payload);
      } else {
        assert p.payload == [] && EncodePacket(p) == EncodeHeader(p.header);
      }
      if ok {
        session.sent := session.sent + [p];
      }
    }

    /** The 4096-byte chunk loop; `offset` is a `uint32_t`. */
    method SendChunks(h: Handle, data: array<Byte>, size: Word) returns (ok: bool)
      requires h in sockets.channels && size <= data.Length && size <= MAX_FILE_SIZE
      modifies sockets
      ensures ok <==> CanWrite(old(sockets.channels[h]), data[..size])
      ensures sockets.channels == old(sockets.channels)[h := Write(old(sockets.channels[h]), data[..size])]
    {
      ghost var was := sockets.channels[h];
      assert data[..0] == [];
      WriteNothing(was);
      hide Write, CanWrite;
      var offset: Word := 0;
      ghost var done := 0;
      while offset < size
        invariant done == if offset <= size then offset else size
        invariant offset % CHUNK_SIZE == 0
        invariant CanWrite(was, data[..done])
        invariant sockets.channels == old(sockets.channels)[h := Write(was, data[..done])]
        decreases size - done
      {
        var chunkSize := if size - offset < CHUNK_SIZE then size - offset else CHUNK_SIZE;
        var chunk := data[offset..offset + chunkSize];
        WriteAppend(was, data[..offset], chunk);
        assert data[..offset] + chunk == data[..offset + chunkSize];
        ok := sockets.SendAll(h, chunk);
        if !ok {
          WriteStopped(was, data[..offset + chunkSize], data[offset + chunkSize..size]);
          assert data[..offset + chunkSize] + data[offset + chunkSize..size] == data[..size];
          return;
        }
        done := offset + chunkSize;
        offset := NextOffset(offset, size);
      }
      return true;
    }

    /** `offset += kChunkSize`, which wraps for a size above the limit. */
    method NextOffset(offset: Word, size: Word) returns (next: Word)
      requires offset < size <= MAX_FILE_SIZE && offset % CHUNK_SIZE == 0
      ensures next == offset + CHUNK_SIZE && next % CHUNK_SIZE == 0
    {
      next := Wrap(offset + CHUNK_SIZE);
    }

    method SendFile(session: ClientSession, header: Header, payload: array<Byte>) returns (r: Delivery)
      requires session.socket in sockets.channels && header.size == payload.Length <= MAX_FILE_SIZE
      modifies session`sent, sockets
      ensures session.socket in sockets.channels
      ensures sockets.channels == old(sockets.channels)[session.socket := sockets.channels[session.socket]]
      ensures Now(session) == SessionTable.SendPacket(old(Now(session)), Packet(header, payload[..]))
      ensures
        var ch := old(sockets.channels[session.socket]);
        r == if !CanWrite(ch, EncodeHeader(header)) then HeaderLost
             else if !CanWrite(ch, EncodePacket(Packet(header, payload[..]))) then ChunkLost else Sent
    {
      WriteAppend(sockets.channels[session.socket], EncodeHeader(header), payload[..]);
      var ok := sockets.SendAll(session.socket, EncodeHeader(header));
      if !ok {
        assert sockets.channels[session.socket].outbox + payload[..][..0] == sockets.channels[session.socket].outbox;
        return HeaderLost;
      }
      assert payload[..header.size] == payload[..];
      ok := SendChunks(session.socket, payload, header.size);
      if !ok {
        return ChunkLost;
      }
      session.sent := session.sent + [Packet(header, payload[..])];
      return Sent;
    }

    method SendWeatherMap(session: ClientSession, file: File, at: int) returns (ok: bool)
      requires session.socket in sockets.channels
      modifies session, session.machine, sockets, dashboard, logger
      ensures session.socket == old(session.socket) && session.socket in sockets.channels
      ensures sockets.channels == old(sockets.channels)[session.socket := sockets.channels[session.socket]]
      ensures Served(Now(session), ok) == SessionTable.SendWeatherMap(old(Now(session)), file, at)
    {
      hide IsAllowed, Shown, Fault, SessionTable.Transfer;
      if session.machine.current == State.TELEMETRY {
        var _ := session.machine.Move(CONNECTED);
      }
      ok := session.machine.Move(LARGE_FILE_TRANSFER);
      if !ok {
        HandleFault(session, IllegalFileTransferTransition);
        return;
      }
      UpdateDashboardAircraft(session);
      match file
      case Missing =>
        HandleFault(session, WeatherMapMissing);
        ok := false;
      case Unreadable =>
        HandleFault(session, WeatherMapReadFailure);
        ok := false;
      case Contents(data) =>
        ok := Transfer(session, data, at);
    }

    /** The map in memory and the header that announces it, with the next server sequence number. */
    method LoadMap(session: ClientSession, data: FileBytes) returns (header: Header, payload: array<Byte>)
      modifies session
      ensures fresh(payload) && header.size == payload.Length == |data|
      ensures Packet(header, payload[..]) == FilePacket(session.id, old(session.nextSequence), data)
      ensures session.View() == old(session.View()).(nextSequence := Wrap(old(session.nextSequence) + 1))
    {
      var size := |data|;
      payload := new Byte[size](i requires 0 <= i < size => data[i]);
      assert payload[..size] == payload[..] == data;
      var checksum := ComputeChecksum(payload, size);
      header := BuildHeader(LARGE_FILE, session.id, session.nextSequence, size, checksum);
      var _ := session.ConsumeServerSequence();
    }

    /** The second half of `sendWeatherMap`, once the file is in memory. */
    method Transfer(session: ClientSession, data: FileBytes, at: int) returns (ok: bool)
      requires session.socket in sockets.channels
      modifies session, session.machine, sockets, dashboard, logger
      ensures session.socket == old(session.socket) && session.socket in sockets.channels
      ensures sockets.channels == old(sockets.channels)[session.socket := sockets.channels[session.socket]]
      ensures Served(Now(session), ok) == SessionTable.Transfer(old(Now(session)), data, at)
    {
      hide Fault, IsAllowed, Shown, FilePacket, EncodeHeader, MakeHeader, Checksum;
      var header, payload := LoadMap(session, data);
      var delivery := SendFile(session, header, payload);
      if delivery.HeaderLost? {
        HandleFault(session, FileHeaderSendFailure);
        return false;
      }
      if delivery.ChunkLost? {
        HandleFault(session, FileChunkSendFailure);
        return false;
      }
      session.Touch(at);
      var _ := session.machine.Move(CONNECTED);
      UpdateDashboardAircraft(session);
      return true;
    }

    method AircraftIdInUse(self: Handle, id: Text) returns (b: bool)
      requires Valid()
      ensures b <==> IdInUse(Links(), self, id)
    {
      assert Links().Keys == sessions.Keys;
      InUseByKeys(Links(), self, id);
      hide *;
      b := AnyHasId(SortedKeys(sessions.Keys), self, id);
    }

    method AnyHasId(keys: seq<Handle>, self: Handle, id: Text) returns (b: bool)
      requires Valid() && forall i :: 0 <= i < |keys| ==> keys[i] in sessions
      ensures b <==> exists j :: 0 <= j < |keys| && HasId(Links(), keys[j], self, id)
    {
      ghost var links := Links();
      hide *;
      for i := 0 to |keys|
        invariant forall j :: 0 <= j < i ==> !HasId(links, keys[j], self, id)
      {
        var session := sessions[keys[i]];
        SessionAt(keys[i]);
        HasIdMeans(links, keys[i], self, id);
        if keys[i] != self && session.id == id && session.machine.current != DISCONNECTED {
          return true;
        }
      }
      return false;
    }

    lemma SessionAt(h: Handle)
      requires Valid() && h in sessions
      ensures Links()[h].s.id == sessions[h].id && Links()[h].s.State() == sessions[h].machine.current
    {
    }

    method ProcessHandshake(session: ClientSession, header: Header, at: int) returns (keep: bool)
      requires Valid() && session.socket in sessions && sessions[session.socket] == session
      modifies session, session.machine, sockets, dashboard, logger
      ensures session.socket == old(session.socket) && session.socket in sockets.channels
      ensures sockets.channels == old(sockets.channels)[session.socket := sockets.channels[session.socket]]
      ensures Served(Now(session), keep) == Handshake(old(Now(session)), old(Links()), header, at)
    {
      hide Fault, IsAllowed, Shown, EncodeHeader, IdField, ExtractId, ValidAircraftId;
      var id := ExtractId(header.aircraft);
      var inUse := AircraftIdInUse(session.socket, id);
      if !ValidRequest(header, id, inUse) {
        var _ := SendPacket(session, CommandPacket(HANDSHAKE_FAIL, id, header.sequence));
        return false;
      }
      session.SetAircraftId(id);
      session.MarkPacketReceived(header.sequence, at);
      var ok := SendPacket(session, CommandPacket(HANDSHAKE_ACK, id, header.sequence));
      if !ok {
        HandleFault(session, HandshakeAckSendFailure);
        return false;
      }
      session.Touch(at);
      var _ := session.machine.Move(CONNECTED);
      UpdateDashboardAircraft(session);
      return true;
    }

    /** The `switch` of `processReadableSession`. */
    method DispatchPacket(session: ClientSession, p: Packet, file: File, at: int) returns (keep: bool)
      requires session.socket in sockets.channels
      modifies session, session.machine, sockets, dashboard, logger
      ensures session.socket == old(session.socket) && session.socket in sockets.channels
      ensures sockets.channels == old(sockets.channels)[session.socket := sockets.channels[session.socket]]
      ensures Served(Now(session), keep) == Dispatch(old(Now(session)), p, file, at)
    {
      hide Fault, IsAllowed, Shown, SessionTable.SendWeatherMap;
      if p.header.kind == Packets.TELEMETRY {
        if p.header.size != TELEMETRY_SIZE {
          HandleFault(session, TelemetrySizeMismatch);
          return false;
        }
        if session.machine.current == CONNECTED {
          var _ := session.machine.Move(State.TELEMETRY);
        }
        if session.machine.current != State.TELEMETRY {
          HandleFault(session, IllegalTelemetryState);
          return false;
        }
        session.UpdateTelemetry(p.payload, at);
        UpdateDashboardAircraft(session);
        return true;
      } else if p.header.kind == LARGE_FILE {
        if p.header.size != 0 {
          HandleFault(session, LargeFileRequestPayloadUnexpected);
          return false;
        }
        keep := SendWeatherMap(session, file, at);
      } else if p.header.kind == DISCONNECT {
        if session.machine.current == State.TELEMETRY {
          var _ := session.machine.Move(CONNECTED);
        }
        var _ := session.machine.Move(DISCONNECTED);
        UpdateDashboardAircraft(session);
        return false;
      } else {
        HandleFault(session, UnexpectedPacketType);
        return false;
      }
    }

    method ReceivePayload(session: ClientSession, header: Header, file: File, at: int) returns (keep: bool)
      requires session.socket in sockets.channels
      modifies session, session.machine, sockets, dashboard, logger
      ensures session.socket == old(session.socket) && session.socket in sockets.channels
      ensures sockets.channels == old(sockets.channels)[session.socket := sockets.channels[session.socket]]
      ensures Served(Now(session), keep) == ReceivePacket(old(Now(session)), header, file, at)
    {
      hide Fault, IsAllowed, Shown, Dispatch, Checksum;
      session.MarkPacketReceived(header.sequence, at);
      var payload := new Byte[header.size];
      ghost var inbox := sockets.channels[session.socket].inbox;
      var ok := sockets.RecvAll(session.socket, payload, header.size);
      if !ok {
        HandleFault(session, PayloadReceiveFailure);
        return false;
      }
      assert payload[..header.size] == payload[..] == inbox[..header.size];
      var p := Packet(header, payload[..]);
      session.received := session.received + [p];
      var checksum := ComputeChecksum(payload, header.size);
      if checksum != header.checksum {
        HandleFault(session, ChecksumMismatch);
        return false;
      }
      keep := DispatchPacket(session, p, file, at);
    }

    method ProcessReadableSession(session: ClientSession, file: File, at: int) returns (keep: bool)
      requires Valid() && session.socket in sessions && sessions[session.socket] == session
      modifies session, session.machine, sockets, dashboard, logger
      ensures session.socket == old(session.socket) && session.socket in sockets.channels
      ensures sockets.channels == old(sockets.channels)[session.socket := sockets.channels[session.socket]]
      ensures Served(Now(session), keep) == Process(old(Now(session)), old(Links()), file, at)
    {
      hide Fault, IsAllowed, Shown, Handshake, ReceivePacket, DecodeHeader;
      ghost var t, links := Now(session), Links();
      var ok, header := ReceiveHeader(session);
      if !ok {
        var pending := session.machine.current == HANDSHAKE_PENDING;
        HandleFault(session, if pending then HandshakeReceiveFailure else ReceiveFailure);
        return false;
      }
      if session.machine.current == HANDSHAKE_PENDING {
        keep := BeginHandshake(session, header, at, links);
      } else {
        keep := ReceivePayload(session, header, file, at);
      }
    }

    /** The header joins the history; `links` is the table as it was before the header was read. */
    method BeginHandshake(session: ClientSession, header: Header, at: int, ghost links: map<Handle, Link>)
      returns (keep: bool)
      requires Valid() && session.socket in sessions && sessions[session.socket] == session
      requires links.Keys == Links().Keys
      requires forall g :: g in links && g != session.socket ==> links[g].s == Links()[g].s
      modifies session, session.machine, sockets, dashboard, logger
      ensures session.socket == old(session.socket) && session.socket in sockets.channels
      ensures sockets.channels == old(sockets.channels)[session.socket := sockets.channels[session.socket]]
      ensures
        var t := old(Now(session));
        Served(Now(session), keep)
          == Handshake(t.(s := t.s.(received := t.s.received + [Packet(header, [])])), links, header, at)
    {
      hide Handshake;
      ghost var t := Now(session);
      session.received := session.received + [Packet(header, [])];
      ghost var t1 := t.(s := t.s.(received := t.s.received + [Packet(header, [])]));
      assert Now(session) == t1;
      SameUse(links, Links(), session.socket, header, t1, at);
      keep := ProcessHandshake(session, header, at);
    }

    method ReceiveHeader(session: ClientSession) returns (ok: bool, header: Header)
      requires session.socket in sockets.channels
      modifies sockets
      ensures session.socket in sockets.channels
      ensures sockets.channels == old(sockets.channels)[session.socket := sockets.channels[session.socket]]
      ensures Now(session) == old(Now(session)).(ch := Read(old(Now(session)).ch, HEADER_SIZE))
      ensures ok <==> CanRead(old(Now(session)).ch, HEADER_SIZE)
      ensures ok ==> header == DecodeHeader(old(Now(session)).ch.inbox[..HEADER_SIZE])
    {
      hide DecodeHeader;
      var buffer := new Byte[HEADER_SIZE];
      ok := sockets.RecvAll(session.socket, buffer, HEADER_SIZE);
      assert buffer[..HEADER_SIZE] == buffer[..];
      header := DecodeHeader(buffer[..]);
    }

    method RemoveSession(h: Handle)
      requires Valid()
      modifies this`sessions, this`ended, sockets, if h in sessions then {sessions[h]} else {}
      ensures Valid() && sessions == old(sessions) - {h}
      ensures h !in old(sessions) ==> World() == old(World())
      ensures h in old(sessions) ==>
        World() == old(World()).(links := old(Links()) - {h}, ended := old(ended) + [old(Links()[h])])
    {
      hide ClientSession.View;
      if h !in sessions {
        assert sessions - {h} == sessions;
        return;
      }
      ghost var link := Links()[h];
      sessions[h].Close();
      sockets.Close(h);
      sessions := sessions - {h};
      ended := ended + [link];
      forall g | g in sessions ensures sessions[g] != old(sessions[h]) {
        assert old(sessions[g].socket) == g;
      }
      OneGone(h);
    }

    /** The session at `h` and its socket are gone, and no other was touched. */
    twostate lemma OneGone(h: Handle)
      requires old(Valid()) && h in old(sessions) && sessions == old(sessions) - {h}
      requires sockets.channels == old(sockets.channels) - {h}
      requires forall g :: g in sessions ==> unchanged(sessions[g]) && unchanged(sessions[g].machine)
      ensures Valid() && Links() == old(Links()) - {h}
    {
      forall g | g in sessions ensures Links()[g] == old(Links())[g] {
        assert sessions[g] == old(sessions[g]);
      }
    }

    /** Only the session at `h` and its machine were touched, and only its socket used. */
    twostate lemma OneTurn(h: Handle)
      requires old(Valid()) && h in sessions && sessions == old(sessions) && h in sockets.channels
      requires sockets.channels == old(sockets.channels)[h := sockets.channels[h]] && sessions[h].socket == h
      requires forall g :: g in sessions && sessions[g] != sessions[h] ==> unchanged(sessions[g])
      requires forall g ::
        g in sessions && sessions[g].machine != sessions[h].machine ==> unchanged(sessions[g].machine)
      ensures Valid() && Links() == old(Links())[h := Link(sessions[h].View(), sockets.channels[h])]
    {
      hide ClientSession.View;
      forall g | g in sessions && g != h ensures sessions[g].socket == g && Links()[g] == old(Links())[g] {
        assert old(sessions[g].socket) == g && old(sessions[g].machine.owner) == g;
      }
    }

    /** The outcome `r` of the turn of the session at `h` is in place; it stays, or it is removed. */
    method Conclude(h: Handle, keep: bool, ghost was: World, ghost r: Served)
      requires Valid() && h in sessions && h in was.links && keep == r.keep
      requires World() == was.(links := was.links[h := Link(r.t.s, r.t.ch)], board := r.t.board, box := r.t.box)
      modifies this`sessions, this`ended, sockets, sessions[h]
      ensures Valid() && sessions == (if keep then old(sessions) else old(sessions) - {h})
      ensures World() == Settle(was, h, r)
    {
      ghost var now := World();
      if !keep {
        RemoveSession(h);
      }
      SettledWorld(was, now, World(), h, r);
      hide *;
    }

    /** A turn of the session at `h`, and its removal if the handler asked for it. */
    method ServeSession(h: Handle, file: File, at: int)
      requires Valid()
      modifies this`sessions, this`ended, sockets, dashboard, logger, Objects()
      ensures Valid() && (sessions == old(sessions) || sessions == old(sessions) - {h})
      ensures World() == Serve(old(World()), h, file, at)
    {
      hide ClientSession.View;
      if h !in sessions {
        return;
      }
      hide Process, Settle;
      ghost var was := World();
      var session := sessions[h];
      var keep := ProcessReadableSession(session, file, at);
      OneTurn(h);
      Conclude(h, keep, was, Served(Now(session), keep));
    }

    // -------------------------------------------------------------- the loop

    method FindSessionByAircraftId(id: Text) returns (r: Option<Handle>)
      requires Valid()
      ensures r == FindById(Links(), id)
      ensures r.Some? ==> r.value in sessions
    {
      assert Links().Keys == sessions.Keys;
      assert FindById(Links(), id) == FindIn(SortedKeys(Links().Keys), Links(), id);
      hide *;
      r := FindAmong(SortedKeys(sessions.Keys), id);
    }

    method FindAmong(keys: seq<Handle>, id: Text) returns (r: Option<Handle>)
      requires Valid() && forall i :: 0 <= i < |keys| ==> keys[i] in sessions && keys[i] in Links()
      ensures r == FindIn(keys, Links(), id)
    {
      ghost var links := Links();
      assert keys[0..] == keys;
      for i := 0 to |keys|
        invariant FindIn(keys, Links(), id) == FindIn(keys[i..], links, id)
      {
        assert keys[i..][0] == keys[i] && keys[i..][1..] == keys[i + 1..];
        SessionAt(keys[i]);
        if sessions[keys[i]].id == id {
          assert FindIn(keys[i..], links, id) == Some(keys[i]);
          return Some(keys[i]);
        }
      }
      return None;
    }

    /** `sendWeatherMap` for the session at `h`, which is removed if it fails. */
    method SendMapTo(h: Handle, file: File, at: int) returns (ok: bool)
      requires Valid() && h in sessions
      modifies this`sessions, this`ended, sockets, dashboard, logger, Objects()
      ensures Valid() && (sessions == old(sessions) || sessions == old(sessions) - {h})
      ensures
        var r := SessionTable.SendWeatherMap(TurnOf(old(World()), h), file, at);
        ok == r.keep && World() == Settle(old(World()), h, r)
    {
      hide SessionTable.SendWeatherMap, Settle;
      ghost var was := World();
      var session := sessions[h];
      ok := SendWeatherMap(session, file, at);
      OneTurn(h);
      Conclude(h, ok, was, Served(Now(session), ok));
    }

    /** The first stage of the loop body; `onward` is false where the source says `continue`. */
    method HandleWeatherRequest(file: File, at: int) returns (onward: bool)
      requires Valid()
      modifies this`sessions, this`ended, sockets, dashboard, logger, Objects()
      ensures Valid() && Objects() <= old(Objects())
      ensures Passed(World(), onward) == TakeWeather(old(World()), file, at)
    {
      hide SessionTable.SendWeatherMap, Settle, FindById;
      var id := dashboard.ConsumeWeatherRequest();
      if id == [] {
        return true;
      }
      var found := FindSessionByAircraftId(id);
      if found.None? {
        return true;
      }
      if !IsVerified(sessions[found.value].machine.current) {
        return false;
      }
      onward := SendMapTo(found.value, file, at);
    }

    /** The operator's disconnect command to a verified session. */
    method DismissSession(session: ClientSession, at: int)
      requires session.socket in sockets.channels
      modifies session, session.machine, sockets, dashboard, logger
      ensures session.socket == old(session.socket) && session.socket in sockets.channels
      ensures sockets.channels == old(sockets.channels)[session.socket := sockets.channels[session.socket]]
      ensures Served(Now(session), false) == Dismiss(old(Now(session)), at)
    {
      hide Fault, IsAllowed, Shown, IdField, EncodeHeader, Transition, Wrap, Write;
      if session.machine.current == State.TELEMETRY {
        var _ := session.machine.Move(CONNECTED);
      }
      var sequence := session.ConsumeServerSequence();
      var ok := SendPacket(session, CommandPacket(DISCONNECT, session.id, sequence));
      if ok {
        session.Touch(at);
        var _ := session.machine.Move(DISCONNECTED);
        UpdateDashboardAircraft(session);
      } else {
        HandleFault(session, DisconnectSendFailure);
      }
    }

    method DismissFrom(h: Handle, at: int)
      requires Valid() && h in sessions
      modifies this`sessions, this`ended, sockets, dashboard, logger, Objects()
      ensures Valid() && sessions == old(sessions) - {h}
      ensures World() == Settle(old(World()), h, Dismiss(TurnOf(old(World()), h), at))
    {
      hide Dismiss, Settle;
      ghost var was := World();
      var session := sessions[h];
      DismissSession(session, at);
      OneTurn(h);
      Conclude(h, false, was, Served(Now(session), false));
    }

    method HandleDisconnectRequest(at: int) returns (onward: bool)
      requires Valid()
      modifies this`sessions, this`ended, sockets, dashboard, logger, Objects()
      ensures Valid() && Objects() <= old(Objects())
      ensures Passed(World(), onward) == TakeDisconnect(old(World()), at)
    {
      hide Dismiss, Settle, FindById;
      var id := dashboard.ConsumeDisconnectRequest();
      if id == [] {
        return true;
      }
      var found := FindSessionByAircraftId(id);
      if found.None? {
        return true;
      }
      if !IsVerified(sessions[found.value].machine.current) {
        return false;
      }
      DismissFrom(found.value, at);
      return false;
    }

    method ExpireSession(h: Handle)
      requires Valid()
      modifies this`sessions, this`ended, sockets, dashboard, logger, Objects()
      ensures Valid() && sessions == old(sessions) - {h}
      ensures World() == Expire(old(World()), h)
    {
      if h !in sessions {
        assert sessions - {h} == sessions;
        return;
      }
      hide Fault, Settle;
      ghost var was := World();
      var session := sessions[h];
      HandleFault(session, SocketTimeout);
      OneTurn(h);
      Conclude(h, false, was, Served(Now(session), false));
    }

    /** Refresh the dashboard from every session and note those that have timed out. */
    method CollectTimedOut(keys: seq<Handle>, now: int) returns (late: seq<Handle>)
      requires Valid() && forall i :: 0 <= i < |keys| ==> keys[i] in sessions
      modifies dashboard
      ensures late == TimedOutKeys(Links(), keys, now)
      ensures dashboard.View() == RefreshAll(old(dashboard.View()), Links(), keys)
      ensures Links() == old(Links())
    {
      ghost var links := Links();
      assert keys[..0] == [] && TimedOutKeys(links, [], now) == [];
      assert RefreshAll(dashboard.View(), links, []) == dashboard.View();
      hide TimedOut, TimedOutKeys, RefreshAll, Sync;
      late := [];
      for i := 0 to |keys|
        invariant late == TimedOutKeys(links, keys[..i], now)
        invariant dashboard.View() == RefreshAll(old(dashboard.View()), links, keys[..i])
      {
        RefreshStep(old(dashboard.View()), links, keys, i);
        TimedOutStep(links, keys, now, i);
        var session := sessions[keys[i]];
        assert session.View() == links[keys[i]].s;
        dashboard.SyncAircraft(session);
        var timedOut := session.IsTimedOut(now);
        if timedOut {
          late := late + [keys[i]];
        }
      }
      assert keys[..|keys|] == keys;
      assert Links() == links;
    }

    method ExpireSessions(late: seq<Handle>)
      requires Valid()
      modifies this`sessions, this`ended, sockets, dashboard, logger, Objects()
      ensures Valid() && Objects() <= old(Objects())
      ensures World() == ExpireAll(old(World()), late)
    {
      hide ClientSession.View;
      ghost var w := World();
      assert late[..0] == [] && ExpireAll(w, []) == w;
      hide Expire, ExpireAll;
      for i := 0 to |late|
        invariant Valid() && Objects() <= old(Objects())
        invariant World() == ExpireAll(w, late[..i])
      {
        ExpireSession(late[i]);
        ExpireStep(w, late, i);
      }
      assert late[..|late|] == late;
    }

    method SweepTimeouts(now: int)
      requires Valid()
      modifies this`sessions, this`ended, sockets, dashboard, logger, Objects()
      ensures Valid() && Objects() <= old(Objects())
      ensures World() == Sweep(old(World()), now)
    {
      hide ClientSession.View, ExpireAll, TimedOutKeys, RefreshAll, SortedKeys;
      assert Links().Keys == sessions.Keys;
      var late := CollectTimedOut(SortedKeys(sessions.Keys), now);
      ExpireSessions(late);
    }

    method OpenSession(h: Handle, at: int) returns (session: ClientSession)
      ensures fresh(session) && fresh(session.machine) && session.machine.owner == session.socket == h
      ensures session.View() == NewSession(h, at).Moved(HANDSHAKE_PENDING)
    {
      session := new ClientSession(h, at);
      session.Touch(at);
      var _ := session.machine.Move(HANDSHAKE_PENDING);
    }

    /** `sessions.emplace` of a session whose socket was just opened. */
    method Enrol(session: ClientSession)
      requires Valid() && session.socket !in sessions && session.machine.owner == session.socket
      modifies this`sessions, this`accepted, sockets
      ensures Valid() && sessions == old(sessions)[session.socket := session]
      ensures World() == old(World()).(
        links := old(Links())[session.socket := Link(session.View(), FRESH_CHANNEL)], accepted := old(accepted) + 1)
    {
      sockets.Open(session.socket);
      sessions := sessions[session.socket := session];
      accepted := accepted + 1;
      OneCame(session);
    }

    /** A session came with its socket, and no other was touched. */
    twostate lemma OneCame(session: ClientSession)
      requires old(Valid()) && session.socket !in old(sessions) && session.machine.owner == session.socket
      requires sessions == old(sessions)[session.socket := session]
      requires sockets.channels == old(sockets.channels)[session.socket := FRESH_CHANNEL]
      requires forall g :: g in old(sessions) ==> unchanged(sessions[g]) && unchanged(sessions[g].machine)
      ensures Valid() && Links() == old(Links())[session.socket := Link(session.View(), FRESH_CHANNEL)]
    {
      hide ClientSession.View;
      forall g | g in old(sessions) ensures Links()[g] == old(Links())[g] {
        assert sessions[g] == old(sessions[g]);
      }
    }

    method AcceptConnection(offered: Option<Handle>, at: int)
      requires Valid()
      modifies this`sessions, this`accepted, sockets
      ensures Valid() && fresh(Objects() - old(Objects()))
      ensures World() == Accept(old(World()), offered, at)
    {
      hide ClientSession.View;
      if offered.None? || offered.value == INVALID_SOCK || offered.value in sessions {
        return;
      }
      hide Transition, NewSession;
      var session := OpenSession(offered.value, at);
      assert Valid() && World() == old(World());
      Enrol(session);
    }

    method ServeReady(keys: seq<Handle>, visits: map<Handle, Visit>)
      requires Valid() && forall i :: 0 <= i < |keys| ==> keys[i] in visits
      modifies this`sessions, this`ended, sockets, dashboard, logger, Objects()
      ensures Valid() && Objects() <= old(Objects())
      ensures World() == ServeAll(old(World()), keys, visits).w
    {
      hide ClientSession.View;
      ghost var w := World();
      assert keys[..0] == [] && keys[..|keys|] == keys && ServeAll(w, [], visits) == Passed(w, true);
      hide Serve, ServeAll, ServeNext;
      for i := 0 to |keys|
        invariant Valid() && Objects() <= old(Objects())
        invariant ServeAll(w, keys[..i], visits) == Passed(World(), true)
      {
        var visit := visits[keys[i]];
        ghost var before := World();
        var present := keys[i] in sessions;
        ServeSession(keys[i], visit.file, visit.at);
        var going := !(present && keys[i] !in sessions && visit.stop);
        NextServed(before, keys[i], visit, World());
        ServeStep(w, keys, visits, i);
        assert ServeAll(w, keys[..i + 1], visits) == Passed(World(), going);
        if !going {
          ServeStops(w, keys, visits, i + 1);
          return;
        }
      }
    }

    /** After `select`: the listening socket first, then every polled socket that is ready. */
    method ServeSockets(r: Round)
      requires Valid()
      modifies this, sockets, dashboard, logger, Objects()
      ensures Valid() && fresh(Objects() - old(Objects()))
      ensures World() == SessionTable.ServeSockets(old(World()), r)
    {
      hide Accept, ServeAll, SortedKeys;
      assert Links().Keys == sessions.Keys;
      var readySessions := SortedKeys(r.visits.Keys * sessions.Keys);
      AcceptConnection(r.offered, r.acceptTime);
      ServeReady(readySessions, r.visits);
    }

    /** The kernel's side of the connections, while the server is not looking. */
    method NetworkActs(peers: map<Handle, Peer>)
      requires Valid()
      modifies sockets
      ensures Valid() && World() == Deliver(old(World()), peers)
    {
      hide ClientSession.View;
      sockets.channels := map h | h in sockets.channels ::
        if h in peers then Delivered(sockets.channels[h], peers[h]) else sockets.channels[h];
      assert Links() == Deliver(old(World()), peers).links;
    }

    /** The operator's side of the dashboard, while the server does not hold its lock. */
    method OperatorActs(o: Operator)
      requires Valid()
      modifies dashboard
      ensures Valid() && World() == Operate(old(World()), o)
    {
      hide ClientSession.View;
      dashboard.selected := Chosen(o.selected, dashboard.selected);
      dashboard.weatherRequest := Chosen(o.weather, dashboard.weatherRequest);
      dashboard.disconnectRequest := Chosen(o.disconnect, dashboard.disconnectRequest);
    }

    /** One pass through `while (running)`. */
    method Iterate(r: Round)
      requires Valid()
      modifies this, sockets, dashboard, logger, Objects()
      ensures Valid() && fresh(Objects() - old(Objects()))
      ensures World() == SessionTable.Iterate(old(World()), r)
    {
      hide ClientSession.View, Deliver, Operate, TakeWeather, TakeDisconnect, Sweep, SessionTable.ServeSockets;
      NetworkActs(r.peers);
      OperatorActs(r.first);
      var onward := HandleWeatherRequest(r.mapFile, r.mapTime);
      assert Objects() <= old(Objects());
      if !onward {
        return;
      }
      OperatorActs(r.second);
      onward := HandleDisconnectRequest(r.dismissTime);
      assert Objects() <= old(Objects());
      if !onward {
        return;
      }
      SweepTimeouts(r.now);
      assert Objects() <= old(Objects());
      if r.stopped {
        return;
      }
      ServeSockets(r);
    }

    /** Every session's socket is closed; the sessions stay in the map, which is about to go with the thread. */
    method CloseAll()
      requires Valid()
      modifies sockets, Objects()
      ensures sockets.channels == map[]
      ensures forall h :: h in sessions ==> sessions[h].socket == INVALID_SOCK
    {
      hide ClientSession.View;
      var keys := SortedKeys(sessions.Keys);
      hide SortedKeys;
      for i := 0 to |keys|
        invariant sockets.channels.Keys <= sessions.Keys
        invariant forall j :: 0 <= j < i ==> keys[j] !in sockets.channels && sessions[keys[j]].socket == INVALID_SOCK
      {
        CloseOne(sessions[keys[i]], keys[i]);
      }
      forall h | h in sessions ensures h !in sockets.channels && sessions[h].socket == INVALID_SOCK {
        assert h in keys;
        var j :| 0 <= j < |keys| && keys[j] == h;
      }
    }

    method CloseOne(session: ClientSession, h: Handle)
      modifies session`socket, sockets
      ensures session.socket == INVALID_SOCK && sockets.channels == old(sockets.channels) - {h}
    {
      session.Close();
      sockets.Close(h);
    }
  }

  /** The loop of `serverThreadMain`, from an empty table. */
  method RunLoop(rounds: seq<Round>) returns (server: GroundServer)
    ensures fresh(server) && fresh(server.sockets) && fresh(server.Objects())
    ensures server.Valid() && server.World() == Run(rounds)
  {
    hide SessionTable.Iterate;
    server := new GroundServer();
    for i := 0 to |rounds|
      invariant fresh(server) && fresh(server.sockets) && fresh(server.dashboard) && fresh(server.logger)
      invariant server.Valid() && fresh(server.Objects()) && server.World() == Run(rounds[..i])
    {
      server.Iterate(rounds[i]);
      assert rounds[..i + 1][..i] == rounds[..i];
    }
    assert rounds[..|rounds|] == rounds;
  }

  /** `serverThreadMain`: the loop, and after it the end of every connection; `last` is where it stopped. */
  method ServerThread(rounds: seq<Round>) returns (server: GroundServer, ghost last: World)
    ensures fresh(server) && last == Run(rounds)
    ensures server.sessions.Keys == last.links.Keys && server.sockets.channels == map[]
    ensures forall h :: h in server.sessions ==> server.sessions[h].socket == INVALID_SOCK
    ensures server.dashboard.View() == last.board && server.logger.blackBox == last.box
  {
    hide Run;
    server := RunLoop(rounds);
    last := server.World();
    assert server.sessions.Keys == last.links.Keys;
    server.CloseAll();
  }

  lemma NextServed(w: World, h: Handle, v: Visit, w': World)
    requires w' == Serve(w, h, v.file, v.at)
    ensures ServeNext(w, h, v) == Passed(w', !(v.stop && h in w.links && h !in w'.links))
  {
    hide Serve;
  }

  lemma SettledWorld(was: World, now: World, w': World, h: Handle, r: Served)
    requires h in was.links
    requires now == was.(links := was.links[h := Link(r.t.s, r.t.ch)], board := r.t.board, box := r.t.box)
    requires w' == if r.keep then now else now.(links := now.links - {h}, ended := now.ended + [now.links[h]])
    ensures w' == Settle(was, h, r)
  {
    assert was.links[h := Link(r.t.s, r.t.ch)] - {h} == was.links - {h};
  }

  ghost predicate HasId(links: map<Handle, Link>, h: Handle, self: Handle, id: Text)
    requires h in links
  {
    h != self && links[h].s.id == id && links[h].s.State() != DISCONNECTED
  }

  lemma HasIdMeans(links: map<Handle, Link>, h: Handle, self: Handle, id: Text)
    requires h in links
    ensures HasId(links, h, self, id) <==> h != self && links[h].s.id == id && links[h].s.State() != DISCONNECTED
    ensures HasId(links, h, self, id) ==> IdInUse(links, self, id)
  {
  }

  lemma InUseByKeys(links: map<Handle, Link>, self: Handle, id: Text)
    ensures
      var keys := SortedKeys(links.Keys);
      IdInUse(links, self, id) <==> exists j :: 0 <= j < |keys| && HasId(links, keys[j], self, id)
  {
    var keys := SortedKeys(links.Keys);
    if h :| h in links && HasId(links, h, self, id) {
      assert h in keys;
      var j :| 0 <= j < |keys| && keys[j] == h;
    }
  }

  lemma SameUse(links: map<Handle, Link>, links': map<Handle, Link>, h: Handle, header: Header, t: Turn, at: int)
    requires links.Keys == links'.Keys && forall g :: g in links && g != h ==> links'[g].s == links[g].s
    requires t.s.socket == h
    ensures Handshake(t, links, header, at) == Handshake(t, links', header, at)
  {
    hide MakeHeader, EncodeHeader, Fault, Sync, ExtractId;
  }

  /** The chunk loop's `offset` after `n` turns. */
  function ChunkOffset(n: nat): Word {
    Wrap(n * CHUNK_SIZE)
  }

  /** `offset` comes round to 0 before it passes a size above 2^32 - 4096: the loop ends exactly for the rest. */
  lemma ChunkLoopEnds(size: Word)
    ensures (exists n: nat :: ChunkOffset(n) >= size) <==> size <= 0x1_0000_0000 - 4096
  {
    forall n: nat | ChunkOffset(n) >= size ensures size <= MAX_FILE_SIZE {
      OffsetBound(n);
    }
    if size <= MAX_FILE_SIZE {
      var n := (size + CHUNK_SIZE - 1) / CHUNK_SIZE;
      assert n * CHUNK_SIZE < WORD;
      assert ChunkOffset(n) >= size;
    }
  }

  /** A size for which it goes round for ever. The one file the server sends has 54 + 3 * 1024 * 1024 bytes. */
  lemma EndlessLoop(n: nat)
    ensures ChunkOffset(n) < WORD - 1 && ChunkOffset(n + WORD / CHUNK_SIZE) == ChunkOffset(n)
  {
    OffsetBound(n);
    SameRemainder(n * CHUNK_SIZE);
  }

  lemma SameRemainder(m: nat)
    ensures Wrap(m + WORD) == Wrap(m)
  {
  }

  lemma OffsetBound(n: nat)
    ensures ChunkOffset(n) <= MAX_FILE_SIZE
  {
    var turns := n * CHUNK_SIZE / WORD;
    assert ChunkOffset(n) == (n - turns * (WORD / CHUNK_SIZE)) * CHUNK_SIZE;
  }
}
