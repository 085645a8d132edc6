/**
 What server/ground_server.cpp does, as functions on values: one session's turn, and the steps of
 the server thread's loop. The class in ground_server.dfy is proved to compute these functions.
 */
module SessionTable {
  import opened Basics
  import opened Packets
  import opened SocketUtils
  import opened StateMachines
  import opened ClientSessions
  import opened Dashboards

  datatype Cause =
    | HandshakeReceiveFailure | ReceiveFailure | PayloadReceiveFailure | ChecksumMismatch
    | TelemetrySizeMismatch | IllegalTelemetryState | LargeFileRequestPayloadUnexpected | UnexpectedPacketType
    | IllegalFileTransferTransition | WeatherMapMissing | WeatherMapReadFailure
    | FileHeaderSendFailure | FileChunkSendFailure
    | HandshakeAckSendFailure | DisconnectSendFailure | SocketTimeout

  /** One line of the black box. */
  datatype FaultLine = FaultLine(cause: Cause, state: State, sequence: Word)

  const CHUNK_SIZE := 4096

  /** The longest file whose chunk loop ends; the generated map has 54 + 3 * 1024 * 1024 bytes. */
  const MAX_FILE_SIZE := WORD - CHUNK_SIZE

  type FileBytes = b: seq<Byte> | |b| <= MAX_FILE_SIZE

  /** What comes back from disk after the weather map was written. */
  datatype File = Missing | Unreadable | Contents(data: FileBytes)

  // ---------------------------------------------------------------- one session's turn

  /** All that handling one session reads and writes. */
  datatype Turn = Turn(s: Session, ch: Channel, board: Board, box: seq<FaultLine>)

  /** The result of a handler: `keep` is its return value; when false the session is removed. */
  datatype Served = Served(t: Turn, keep: bool)

  /** `^AC-[0-9]{3}$` */
  predicate ValidAircraftId(id: Text) {
    |id| == 6 && id[..3] == [65, 67, 45] && forall i :: 3 <= i < 6 ==> 48 <= id[i] <= 57
  }

  /** An open connection: the session and its socket. */
  datatype Link = Link(s: Session, ch: Channel)

  predicate IdInUse(links: map<Handle, Link>, self: Handle, id: Text) {
    exists h :: h in links && h != self && links[h].s.id == id && links[h].s.State() != DISCONNECTED
  }

  predicate ValidRequest(header: Header, id: Text, inUse: bool) {
    header.kind == HANDSHAKE_REQUEST && header.size == 0 && ValidAircraftId(id) && !inUse
  }

  function Shown(t: Turn): Turn {
    t.(board := Sync(t.board, t.s))
  }

  function Fault(t: Turn, cause: Cause): Turn {
    var t1 := t.(s := if t.s.State() != FAULT then t.s.Moved(FAULT) else t.s,
                 box := t.box + [FaultLine(cause, t.s.State(), t.s.lastClientSequence)]);
    var t2 := Shown(t1);
    Shown(t2.(s := t2.s.Moved(DISCONNECTED)))
  }

  function Faulted(t: Turn, cause: Cause): Served {
    Served(Fault(t, cause), false)
  }

  /** Write a packet; it joins the history only if all of it went out. */
  function SendPacket(t: Turn, p: Packet): Turn {
    var bytes := EncodePacket(p);
    t.(ch := Write(t.ch, bytes), s := t.s.(sent := if CanWrite(t.ch, bytes) then t.s.sent + [p] else t.s.sent))
  }

  function FilePacket(id: Text, sequence: Word, data: FileBytes): Packet {
    Packet(MakeHeader(LARGE_FILE, id, sequence, |data|, Checksum(data)), data)
  }

  /** TELEMETRY must be left by way of CONNECTED. */
  function Pause(s: Session): Session {
    if s.State() == State.TELEMETRY then s.Moved(CONNECTED) else s
  }

  /** The file goes out as one packet, in chunks that the peer cannot tell apart. */
  function Transfer(t: Turn, data: FileBytes, at: int): Served {
    var p := FilePacket(t.s.id, t.s.nextSequence, data);
    var t1 := SendPacket(t.(s := t.s.(nextSequence := Wrap(t.s.nextSequence + 1))), p);
    if !CanWrite(t.ch, EncodeHeader(p.header)) then Faulted(t1, FileHeaderSendFailure)
    else if !CanWrite(t.ch, EncodePacket(p)) then Faulted(t1, FileChunkSendFailure)
    else Served(Shown(t1.(s := t1.s.Touched(at).Moved(CONNECTED))), true)
  }

  function SendWeatherMap(t: Turn, file: File, at: int): Served {
    var s1 := Pause(t.s);
    var t1 := t.(s := s1.Moved(LARGE_FILE_TRANSFER));
    if !IsAllowed(s1.State(), LARGE_FILE_TRANSFER) then Faulted(t1, IllegalFileTransferTransition)
    else
      match file
      case Missing => Faulted(Shown(t1), WeatherMapMissing)
      case Unreadable => Faulted(Shown(t1), WeatherMapReadFailure)
      case Contents(data) => Transfer(Shown(t1), data, at)
  }

  function Handshake(t: Turn, links: map<Handle, Link>, header: Header, at: int): Served {
    var id := ExtractId(header.aircraft);
    if !ValidRequest(header, id, IdInUse(links, t.s.socket, id)) then
      Served(SendPacket(t, CommandPacket(HANDSHAKE_FAIL, id, header.sequence)), false)
    else
      var ack := CommandPacket(HANDSHAKE_ACK, id, header.sequence);
      var t1 := SendPacket(t.(s := t.s.(id := id).PacketReceived(header.sequence, at)), ack);
      if !CanWrite(t.ch, EncodePacket(ack)) then Faulted(t1, HandshakeAckSendFailure)
      else Served(Shown(t1.(s := t1.s.Touched(at).Moved(CONNECTED))), true)
  }

  function Dispatch(t: Turn, p: Packet, file: File, at: int): Served {
    if p.header.kind == Packets.TELEMETRY then
      if p.header.size != TELEMETRY_SIZE then Faulted(t, TelemetrySizeMismatch)
      else
        var s1 := if t.s.State() == CONNECTED then t.s.Moved(State.TELEMETRY) else t.s;
        if s1.State() != State.TELEMETRY then Faulted(t.(s := s1), IllegalTelemetryState)
        else Served(Shown(t.(s := s1.TelemetryUpdated(p.payload, at))), true)
    else if p.header.kind == LARGE_FILE then
      if p.header.size != 0 then Faulted(t, LargeFileRequestPayloadUnexpected)
      else SendWeatherMap(t, file, at)
    else if p.header.kind == DISCONNECT then
      Served(Shown(t.(s := Pause(t.s).Moved(DISCONNECTED))), false)
    else Faulted(t, UnexpectedPacketType)
  }

  function ReceivePacket(t: Turn, header: Header, file: File, at: int): Served {
    var t1 := t.(s := t.s.PacketReceived(header.sequence, at), ch := Read(t.ch, header.size));
    if !CanRead(t.ch, header.size) then Faulted(t1, PayloadReceiveFailure)
    else
      var p := Packet(header, t.ch.inbox[..header.size]);
      var t2 := t1.(s := t1.s.(received := t1.s.received + [p]));
      if Checksum(p.payload) != header.checksum then Faulted(t2, ChecksumMismatch)
      else Dispatch(t2, p, file, at)
  }

  /** `processReadableSession`. */
  function Process(t: Turn, links: map<Handle, Link>, file: File, at: int): Served {
    var t1 := t.(ch := Read(t.ch, HEADER_SIZE));
    var pending := t.s.State() == HANDSHAKE_PENDING;
    if !CanRead(t.ch, HEADER_SIZE) then
      Faulted(t1, if pending then HandshakeReceiveFailure else ReceiveFailure)
    else
      var header := DecodeHeader(t.ch.inbox[..HEADER_SIZE]);
      if pending then
        Handshake(t1.(s := t1.s.(received := t1.s.received + [Packet(header, [])])), links, header, at)
      else ReceivePacket(t1, header, file, at)
  }

  /** An operator's disconnect request, once it is known to name a verified session. */
  function Dismiss(t: Turn, at: int): Served {
    var s1 := Pause(t.s);
    var p := CommandPacket(DISCONNECT, s1.id, s1.nextSequence);
    var t1 := SendPacket(t.(s := s1.(nextSequence := Wrap(s1.nextSequence + 1))), p);
    if !CanWrite(t.ch, EncodePacket(p)) then Faulted(t1, DisconnectSendFailure)
    else Served(Shown(t1.(s := t1.s.Touched(at).Moved(DISCONNECTED))), false)
  }

  // ---------------------------------------------------------------- the server thread

  /**
   The whole server. `ended` and `accepted` are history: every session removed so far, in order and
   as it was when its socket was closed, and the number of connections taken.
   */
  datatype World = World(
    links: map<Handle, Link>,
    board: Board,
    box: seq<FaultLine>,
    ended: seq<Link>,
    accepted: nat)

  const START := World(map[], EMPTY_BOARD, [], [], 0)

  function TurnOf(w: World, h: Handle): Turn
    requires h in w.links
  {
    Turn(w.links[h].s, w.links[h].ch, w.board, w.box)
  }

  /** Store the result of a turn; `removeSession` if the handler said so. */
  function Settle(w: World, h: Handle, r: Served): World {
    var link := Link(r.t.s, r.t.ch);
    if r.keep then w.(links := w.links[h := link], board := r.t.board, box := r.t.box)
    else w.(links := w.links - {h}, board := r.t.board, box := r.t.box, ended := w.ended + [link])
  }

  /** The first key, in order, whose session carries the identifier. */
  function FindIn(keys: seq<Handle>, links: map<Handle, Link>, id: Text): (r: Option<Handle>)
    requires forall i :: 0 <= i < |keys| ==> keys[i] in links
    ensures r.Some? ==> r.value in links && links[r.value].s.id == id
    ensures r.None? ==> forall i :: 0 <= i < |keys| ==> links[keys[i]].s.id != id
  {
    if keys == [] then None
    else if links[keys[0]].s.id == id then Some(keys[0])
    else FindIn(keys[1..], links, id)
  }

  /** `findSessionByAircraftId`. */
  function FindById(links: map<Handle, Link>, id: Text): (r: Option<Handle>)
    ensures r.Some? ==> r.value in links && links[r.value].s.id == id
    ensures r.None? ==> forall h :: h in links ==> links[h].s.id != id
  {
    var keys := SortedKeys(links.Keys);
    assert forall h :: h in links ==> h in keys;
    FindIn(keys, links, id)
  }

  /** What the network does for one connection between two rounds of the loop. */
  datatype Peer = Peer(arrived: seq<Byte>, window: nat)

  /** What the operator does on the dashboard. */
  datatype Operator = Operator(selected: Option<Text>, weather: Option<Text>, disconnect: Option<Text>)

  function Delivered(ch: Channel, p: Peer): Channel {
    Channel(ch.delivered + p.arrived, ch.inbox + p.arrived, ch.outbox, p.window)
  }

  function Deliver(w: World, peers: map<Handle, Peer>): World {
    w.(links := map h | h in w.links ::
      if h in peers then w.links[h].(ch := Delivered(w.links[h].ch, peers[h])) else w.links[h])
  }

  function Chosen(chosen: Option<Text>, otherwise: Text): Text {
    if chosen.Some? then chosen.value else otherwise
  }

  function Operate(w: World, o: Operator): World {
    w.(board := w.board.(selected := Chosen(o.selected, w.board.selected),
                         weatherRequest := Chosen(o.weather, w.board.weatherRequest),
                         disconnectRequest := Chosen(o.disconnect, w.board.disconnectRequest)))
  }

  /** A stage of the loop body: `onward` is false when it ends in `continue`. */
  datatype Passed = Passed(w: World, onward: bool)

  function TakeWeather(w: World, file: File, at: int): Passed {
    var id := w.board.weatherRequest;
    var w1 := w.(board := w.board.(weatherRequest := []));
    if id == [] then Passed(w1, true)
    else
      match FindById(w1.links, id)
      case None => Passed(w1, true)
      case Some(h) =>
        if !IsVerified(w1.links[h].s.State()) then Passed(w1, false)
        else
          var r := SendWeatherMap(TurnOf(w1, h), file, at);
          Passed(Settle(w1, h, r), r.keep)
  }

  function TakeDisconnect(w: World, at: int): Passed {
    var id := w.board.disconnectRequest;
    var w1 := w.(board := w.board.(disconnectRequest := []));
    if id == [] then Passed(w1, true)
    else
      match FindById(w1.links, id)
      case None => Passed(w1, true)
      case Some(h) =>
        if !IsVerified(w1.links[h].s.State()) then Passed(w1, false)
        else Passed(Settle(w1, h, Dismiss(TurnOf(w1, h), at)), false)
  }

  function RefreshAll(b: Board, links: map<Handle, Link>, keys: seq<Handle>): Board {
    if keys == [] then b
    else
      var b1 := RefreshAll(b, links, keys[..|keys| - 1]);
      var h := keys[|keys| - 1];
      if h in links then Sync(b1, links[h].s) else b1
  }

  function TimedOutKeys(links: map<Handle, Link>, keys: seq<Handle>, now: int): (late: seq<Handle>)
    ensures forall h :: h in late <==> h in keys && h in links && TimedOut(links[h].s, now)
    ensures forall i :: 0 <= i < |late| ==> late[i] in links && TimedOut(links[late[i]].s, now)
  {
    if keys == [] then []
    else
      var before := TimedOutKeys(links, keys[..|keys| - 1], now);
      var h := keys[|keys| - 1];
      assert keys == keys[..|keys| - 1] + [h];
      if h in links && TimedOut(links[h].s, now) then before + [h] else before
  }

  function Expire(w: World, h: Handle): World {
    if h !in w.links then w
    else Settle(w, h, Faulted(TurnOf(w, h), SocketTimeout))
  }

  function ExpireAll(w: World, keys: seq<Handle>): World {
    if keys == [] then w else Expire(ExpireAll(w, keys[..|keys| - 1]), keys[|keys| - 1])
  }

  /** The timeout sweep: collect, then fault and remove. */
  function Sweep(w: World, now: int): World {
    var keys := SortedKeys(w.links.Keys);
    ExpireAll(w.(board := RefreshAll(w.board, w.links, keys)), TimedOutKeys(w.links, keys, now))
  }

  /** A descriptor that is already open, or none, stands for a failed `accept`. */
  function Accept(w: World, offered: Option<Handle>, at: int): World {
    if offered.None? || offered.value == INVALID_SOCK || offered.value in w.links then w
    else
      var h := offered.value;
      w.(links := w.links[h := Link(NewSession(h, at).Moved(HANDSHAKE_PENDING), FRESH_CHANNEL)],
         accepted := w.accepted + 1)
  }

  function Serve(w: World, h: Handle, file: File, at: int): World {
    if h !in w.links then w
    else Settle(w, h, Process(TurnOf(w, h), w.links, file, at))
  }

  /** What one serving of a batch meets; `stop` is whether `running` is found cleared if it removes the session. */
  datatype Visit = Visit(file: File, at: int, stop: bool)

  function ServeNext(w: World, h: Handle, v: Visit): Passed {
    var w' := Serve(w, h, v.file, v.at);
    Passed(w', !(v.stop && h in w.links && h !in w'.links))
  }

  function ServeAll(w: World, keys: seq<Handle>, visits: map<Handle, Visit>): Passed
    requires forall i :: 0 <= i < |keys| ==> keys[i] in visits
  {
    if keys == [] then Passed(w, true)
    else
      var before := ServeAll(w, keys[..|keys| - 1], visits);
      var h := keys[|keys| - 1];
      if before.onward then ServeNext(before.w, h, visits[h]) else before
  }

  /**
   Everything outside the server that one pass through the loop meets: the network, the operator
   (who may act before either request is consumed), the disk, each reading of the clock and of
   `running`, `accept` and `select`: the sockets that are ready are those with a visit.
   */
  datatype Round = Round(
    peers: map<Handle, Peer>,
    first: Operator,
    mapFile: File,
    mapTime: int,
    second: Operator,
    dismissTime: int,
    now: int,
    stopped: bool,
    offered: Option<Handle>,
    acceptTime: int,
    visits: map<Handle, Visit>)

  /** After `select`. Only sockets that were polled can be ready. */
  function ServeSockets(w: World, r: Round): World {
    ServeAll(Accept(w, r.offered, r.acceptTime), SortedKeys(r.visits.Keys * w.links.Keys), r.visits).w
  }

  /** One pass through `while (running)`. */
  function Iterate(w: World, r: Round): World {
    var a := TakeWeather(Operate(Deliver(w, r.peers), r.first), r.mapFile, r.mapTime);
    if !a.onward then a.w
    else
      var b := TakeDisconnect(Operate(a.w, r.second), r.dismissTime);
      if !b.onward then b.w
      else
        var c := Sweep(b.w, r.now);
        if r.stopped then c else ServeSockets(c, r)
  }

  function Run(rounds: seq<Round>): World {
    if rounds == [] then START else Iterate(Run(rounds[..|rounds| - 1]), rounds[|rounds| - 1])
  }

  // ---------------------------------------------------------------- the loops, one turn at a time

  lemma RefreshStep(b: Board, links: map<Handle, Link>, keys: seq<Handle>, i: nat)
    requires i < |keys| && keys[i] in links
    ensures RefreshAll(b, links, keys[..i + 1]) == Sync(RefreshAll(b, links, keys[..i]), links[keys[i]].s)
  {
    assert keys[..i + 1][..i] == keys[..i];
  }

  lemma TimedOutStep(links: map<Handle, Link>, keys: seq<Handle>, now: int, i: nat)
    requires i < |keys| && keys[i] in links
    ensures
      var late := TimedOutKeys(links, keys[..i], now);
      TimedOutKeys(links, keys[..i + 1], now) == if TimedOut(links[keys[i]].s, now) then late + [keys[i]] else late
  {
    hide TimedOut;
    assert keys[..i + 1][..i] == keys[..i];
  }

  lemma ExpireStep(w: World, keys: seq<Handle>, i: nat)
    requires i < |keys|
    ensures ExpireAll(w, keys[..i + 1]) == Expire(ExpireAll(w, keys[..i]), keys[i])
  {
    hide Expire;
    assert keys[..i + 1][..i] == keys[..i];
  }

  lemma ServeStep(w: World, keys: seq<Handle>, visits: map<Handle, Visit>, i: nat)
    requires i < |keys| && forall j :: 0 <= j < |keys| ==> keys[j] in visits
    ensures
      var before := ServeAll(w, keys[..i], visits);
      ServeAll(w, keys[..i + 1], visits)
        == if before.onward then ServeNext(before.w, keys[i], visits[keys[i]]) else before
  {
    hide ServeNext;
    assert keys[..i + 1][..i] == keys[..i];
  }

  /** Once the batch was broken off nothing more is served. */
  lemma {:induction false} ServeStops(w: World, keys: seq<Handle>, visits: map<Handle, Visit>, i: nat)
    requires i <= |keys| && forall j :: 0 <= j < |keys| ==> keys[j] in visits
    requires !ServeAll(w, keys[..i], visits).onward
    ensures ServeAll(w, keys, visits) == ServeAll(w, keys[..i], visits)
    decreases |keys|
  {
    hide ServeNext;
    if i < |keys| {
      assert keys[..|keys| - 1][..i] == keys[..i];
      ServeStops(w, keys[..|keys| - 1], visits, i);
    } else {
      assert keys[..i] == keys;
    }
  }
}
