/**
 client/aircraft_client.cpp, first half: the packets an aircraft builds and its handshake with
 retries, set against what the server in `SessionTable` answers at the other end.
 */
module Connecting {
  import opened Basics
  import opened Packets
  import opened StateMachines
  import opened ClientSessions
  import opened Dashboards
  import opened SessionTable
  import opened TableInvariants
  import opened TableRuns
  import opened ServerSteps
  import opened TableTheorems
  import opened ClientUtils

  const MAX_AUTO_ID_ATTEMPTS := 8

  // ---------------------------------------------------------------- packets

  function HandshakeRequest(id: Text): Packet {
    CommandPacket(HANDSHAKE_REQUEST, id, 1)
  }

  function MapRequest(id: Text, sequence: Word): Packet {
    CommandPacket(LARGE_FILE, id, sequence)
  }

  function Goodbye(id: Text, sequence: Word): Packet {
    CommandPacket(DISCONNECT, id, sequence)
  }

  function TelemetryPacket(id: Text, sequence: Word, data: seq<Byte>): Packet
    requires |data| == TELEMETRY_SIZE
  {
    Packet(MakeHeader(Packets.TELEMETRY, id, sequence, TELEMETRY_SIZE, Checksum(data)), data)
  }

  /** The first byte of each packet a client builds, and what follows its header. */
  lemma WireKinds(id: Text, sequence: Word, data: seq<Byte>)
    requires |data| == TELEMETRY_SIZE
    ensures
      && EncodePacket(HandshakeRequest(id))[0] == 1 && HandshakeRequest(id).header.sequence == 1
      && EncodePacket(TelemetryPacket(id, sequence, data))[0] == 4
      && EncodePacket(MapRequest(id, sequence))[0] == 5 && EncodePacket(Goodbye(id, sequence))[0] == 6
    ensures
      && |EncodePacket(HandshakeRequest(id))| == |EncodePacket(MapRequest(id, sequence))| == 29
      && |EncodePacket(Goodbye(id, sequence))| == 29 && EncodePacket(TelemetryPacket(id, sequence, data))[29..] == data
    ensures
      var t := TelemetryPacket(id, sequence, data).header;
      var m, g := MapRequest(id, sequence).header, Goodbye(id, sequence).header;
      && t.size == 20 && t.checksum == Checksum(data)
      && m.size == 0 && g.size == 0 && m.checksum == 0 && g.checksum == 0
      && t.sequence == m.sequence == g.sequence == sequence && t.aircraft == m.aircraft == g.aircraft == IdField(id)
  {
    hide IdField, LittleEndian, Checksum;
  }

  // ---------------------------------------------------------------- the server's answer to a handshake

  /** All that the server sent on the connection at `h`, which is open or was the last to be closed. */
  function Reply(w: World, h: Handle): seq<Byte> {
    if h in w.links then w.links[h].ch.outbox
    else if w.ended != [] then w.ended[|w.ended| - 1].ch.outbox else []
  }

  /** What a pending session does with a request that arrived whole, whatever came after it. */
  lemma RequestIsServed(t: Turn, links: map<Handle, Link>, id: Text, taken: bool, rest: seq<Byte>, file: File, at: int)
    requires t.s.State() == HANDSHAKE_PENDING && ValidAircraftId(id)
    requires t.ch.inbox == EncodePacket(HandshakeRequest(id)) + rest && t.ch.window >= HEADER_SIZE
    requires IdInUse(links, t.s.socket, id) == taken
    ensures
      var r := Process(t, links, file, at);
      && r.keep == !taken && r.t.box == t.box
      && r.t.ch.inbox == rest && r.t.ch.delivered == t.ch.delivered
      && r.t.ch.outbox
        == t.ch.outbox + EncodePacket(CommandPacket(if taken then HANDSHAKE_FAIL else HANDSHAKE_ACK, id, 1))
      && r.t.s.received == t.s.received + [HandshakeRequest(id)]
      && (r.keep ==> r.t.s.id == id && r.t.s.State() == CONNECTED)
  {
    var request := HandshakeRequest(id);
    assert request.payload == [];
    hide *;
    ProcessIsHandshake(t, links, request, rest, file, at);
    BegunKeeps(t, request, rest);
    HandshakeDecides(Begun(t, request, rest), links, id, taken, at);
  }

  /** The turn of a pending session once its first header was read. */
  function Begun(t: Turn, request: Packet, rest: seq<Byte>): Turn {
    t.(s := t.s.(received := t.s.received + [request]), ch := t.ch.(inbox := rest))
  }

  lemma BegunKeeps(t: Turn, request: Packet, rest: seq<Byte>)
    ensures
      var b := Begun(t, request, rest);
      && b.s.State() == t.s.State() && b.s.socket == t.s.socket && b.box == t.box
      && b.ch == t.ch.(inbox := rest) && b.s.received == t.s.received + [request]
  {
  }

  lemma ProcessIsHandshake(t: Turn, links: map<Handle, Link>, request: Packet, rest: seq<Byte>, file: File, at: int)
    requires t.s.State() == HANDSHAKE_PENDING && request.payload == []
    requires t.ch.inbox == EncodePacket(request) + rest
    ensures Process(t, links, file, at) == Handshake(Begun(t, request, rest), links, request.header, at)
  {
    HeaderRoundTrip(request.header);
    hide EncodeHeader, DecodeHeader, Handshake, Fault;
    assert EncodePacket(request) == EncodeHeader(request.header);
    assert t.ch.inbox[..HEADER_SIZE] == EncodeHeader(request.header) && t.ch.inbox[HEADER_SIZE..] == rest;
  }

  lemma HandshakeDecides(t: Turn, links: map<Handle, Link>, id: Text, taken: bool, at: int)
    requires t.s.State() == HANDSHAKE_PENDING && ValidAircraftId(id) && t.ch.window >= HEADER_SIZE
    requires IdInUse(links, t.s.socket, id) == taken
    ensures
      var r := Handshake(t, links, HandshakeRequest(id).header, at);
      && r.keep == !taken && r.t.box == t.box
      && r.t.ch.inbox == t.ch.inbox && r.t.ch.delivered == t.ch.delivered
      && r.t.ch.outbox
        == t.ch.outbox + EncodePacket(CommandPacket(if taken then HANDSHAKE_FAIL else HANDSHAKE_ACK, id, 1))
      && r.t.s.received == t.s.received
      && (r.keep ==> r.t.s.id == id && r.t.s.State() == CONNECTED)
  {
    IdRoundTrip(id);
    assert |id| == 6 && 0 !in id;
    hide EncodeHeader, IdField, ExtractId, ValidAircraftId, IdInUse, Sync, Fault;
    var bytes := EncodePacket(CommandPacket(if taken then HANDSHAKE_FAIL else HANDSHAKE_ACK, id, 1));
    assert bytes[..|bytes|] == bytes;
  }

  /** A pending session whose client has asked for `id`. */
  ghost predicate Claiming(l: Link, id: Text) {
    && l.s.State() == HANDSHAKE_PENDING && l.ch.window >= HEADER_SIZE
    && EncodePacket(HandshakeRequest(id)) <= l.ch.inbox
  }

  lemma ClaimIsServed(w: World, h: Handle, id: Text, taken: bool, file: File, at: int)
    requires h in w.links && w.links[h].s.socket == h && ValidAircraftId(id)
    requires Claiming(w.links[h], id) && IdInUse(w.links, h, id) == taken
    ensures
      var w' := Serve(w, h, file, at);
      && w'.box == w.box && (h in w'.links <==> !taken)
      && Reply(w', h)
        == w.links[h].ch.outbox + EncodePacket(CommandPacket(if taken then HANDSHAKE_FAIL else HANDSHAKE_ACK, id, 1))
      && (!taken ==> w'.links[h].s.id == id && w'.links[h].s.State() == CONNECTED)
      && (forall g :: g in w.links && g != h ==> g in w'.links && w'.links[g] == w.links[g])
  {
    var t, request := TurnOf(w, h), EncodePacket(HandshakeRequest(id));
    hide EncodePacket, ValidAircraftId;
    var rest := t.ch.inbox[|request|..];
    assert t.ch.inbox == request + rest;
    RequestIsServed(t, w.links, id, taken, rest, file, at);
    hide Process, IdInUse, CommandPacket, HandshakeRequest, EncodeHeader;
  }

  /** A session whose handshake is still to come has no identifier and has been sent nothing. */
  lemma PendingIsBlank(w: World, h: Handle)
    requires Inv(w) && h in w.links && w.links[h].s.State() == HANDSHAKE_PENDING
    ensures w.links[h].s.socket == h && w.links[h].s.id == [] && w.links[h].ch.outbox == []
  {
    assert LinkOk(w.links[h]);
    assert EncodeAll([]) == [];
    hide BoardOk, BoxOk, EndOk, UniqueIds, OnBoundary, ServerStream, MachineOk, ValidAircraftId, TelemetryOk, TimersOk;
  }

  lemma InUseIsOwned(w: World, h: Handle, id: Text)
    requires Inv(w) && h in w.links && w.links[h].s.id == [] && id != []
    ensures IdInUse(w.links, h, id) <==> Owned(w.links, id)
  {
    if Owned(w.links, id) {
      var g :| g in w.links && w.links[g].s.id == id;
      LiveIsNotDisconnected(w, g);
      hide Inv;
      assert g != h;
    }
    hide Inv;
  }

  lemma LiveIsNotDisconnected(w: World, g: Handle)
    requires Inv(w) && g in w.links
    ensures w.links[g].s.State() != DISCONNECTED
  {
    assert LinkOk(w.links[g]);
    hide BoardOk, BoxOk, EndOk, UniqueIds, OnBoundary, ServerStream, MachineOk, ValidAircraftId, TelemetryOk, TimersOk;
  }

  /**
   The server, when it comes to serve a valid request, admits it exactly when no live session has the
   identifier at that moment. Either way it answers with one packet and nothing else, nobody else's
   connection changes, and nothing is faulted.
   */
  lemma HandshakeIsAnswered(w: World, h: Handle, id: Text, file: File, at: int)
    requires Inv(w) && h in w.links && Claiming(w.links[h], id) && ValidAircraftId(id)
    ensures
      var w' := Serve(w, h, file, at);
      && Inv(w') && w'.box == w.box
      && (forall g :: g in w.links && g != h ==> g in w'.links && w'.links[g] == w.links[g])
      && Reply(w', h)
        == EncodePacket(CommandPacket(if Owned(w.links, id) then HANDSHAKE_FAIL else HANDSHAKE_ACK, id, 1))
      && (h in w'.links <==> !Owned(w.links, id))
      && (h in w'.links ==> w'.links[h].s.id == id && w'.links[h].s.State() == CONNECTED)
  {
    assert w.links[h].s.State() == HANDSHAKE_PENDING && id != [];
    var answer := EncodePacket(CommandPacket(if Owned(w.links, id) then HANDSHAKE_FAIL else HANDSHAKE_ACK, id, 1));
    assert [] + answer == answer;
    hide *;
    PendingIsBlank(w, h);
    InUseIsOwned(w, h, id);
    ServeInv(w, h, file, at);
    ClaimIsServed(w, h, id, Owned(w.links, id), file, at);
  }

  /** Other sockets of the batch. */
  ghost predicate OthersServed(steps: seq<Step>, g: Handle, h: Handle) {
    forall i :: 0 <= i < |steps| ==> steps[i].Serving? && steps[i].h != g && steps[i].h != h
  }

  lemma {:induction false} OthersServedKeep(w: World, steps: seq<Step>, g: Handle, h: Handle)
    requires Inv(w) && g in w.links && h in w.links && OthersServed(steps, g, h)
    ensures
      var w' := Execute(w, steps);
      Inv(w') && g in w'.links && w'.links[g] == w.links[g] && h in w'.links && w'.links[h] == w.links[h]
    decreases |steps|
  {
    if steps != [] {
      var init, last := steps[..|steps| - 1], steps[|steps| - 1];
      var before := Execute(w, init);
      assert OthersServed(init, g, h);
      assert Execute(w, steps) == Serve(before, last.h, last.file, last.at) by {
        hide Serve, Inv;
      }
      hide Execute, Inv, Serve;
      OthersServedKeep(w, init, g, h);
      ServeInv(before, last.h, last.file, last.at);
      OthersUntouched(before, last.h, last.file, last.at, g);
      OthersUntouched(before, last.h, last.file, last.at, h);
    }
    hide Inv, Next;
  }

  /**
   Two pending sessions may claim one identifier in the same batch of ready sockets. The one that
   is served first gets it, and the other is turned away when its turn comes, whoever else is served in
   between, as if it had come later. Neither is faulted.
   */
  lemma FirstClaimWins(
      w: World, g: Handle, h: Handle, id: Text, file: File, at: int, between: seq<Step>, file': File, at': int)
    requires Inv(w) && g in w.links && h in w.links && g != h && ValidAircraftId(id)
    requires !Owned(w.links, id) && Claiming(w.links[g], id) && Claiming(w.links[h], id)
    requires OthersServed(between, g, h)
    ensures
      var w1 := Serve(w, g, file, at);
      var w2 := Execute(w1, between);
      var w3 := Serve(w2, h, file', at');
      && w1.box == w.box && w3.box == w2.box && g in w3.links && h !in w3.links
      && w3.links[g].s.id == id && w3.links[g].s.State() == CONNECTED
      && Reply(w1, g) == EncodePacket(CommandPacket(HANDSHAKE_ACK, id, 1))
      && Reply(w3, h) == EncodePacket(CommandPacket(HANDSHAKE_FAIL, id, 1))
  {
    hide *;
    HandshakeIsAnswered(w, g, id, file, at);
    var w1 := Serve(w, g, file, at);
    OthersServedKeep(w1, between, g, h);
    var w2 := Execute(w1, between);
    OwnedBy(w2.links, g, id);
    HandshakeIsAnswered(w2, h, id, file', at');
  }

  lemma OwnedBy(links: map<Handle, Link>, g: Handle, id: Text)
    requires g in links && links[g].s.id == id
    ensures Owned(links, id)
  {
  }

  // ---------------------------------------------------------------- the retry loop

  /**
   What one attempt meets: its descriptor, and on the connection, if one was made, the bytes that come
   back before it ends and the room for what is sent.
   */
  datatype Attempt = Attempt(socket: Handle, route: Option<Peer>)

  /** How an attempt turns out: it breaks down, with the next sequence number as it leaves it, or brings an answer. */
  datatype Turnout = Dead(nextSequence: Word) | Answered(kind: Byte)

  function TurnoutOf(a: Attempt): Turnout {
    if a.socket == INVALID_SOCK || a.route.None? then Dead(1)
    else if a.route.value.window < HEADER_SIZE || |a.route.value.arrived| < HEADER_SIZE then Dead(2)
    else Turnout.Answered(DecodeHeader(a.route.value.arrived[..HEADER_SIZE]).kind)
  }

  /** What `connectSession` returns and leaves in the client. */
  datatype Connection = Connection(ok: bool, id: Text, state: State, socket: Handle, nextSequence: Word)

  /** The identifier of attempt number `attempt`. */
  function Tried(id: Text, base: Word, attempt: nat): Text
    requires attempt < MAX_AUTO_ID_ATTEMPTS
  {
    if attempt == 0 then id else AutoId(base, attempt)
  }

  /** The outcome of `connectSession`, from attempt number `attempt` on. */
  function Connect(id: Text, explicitId: bool, base: Word, attempts: seq<Attempt>, attempt: nat): Connection
    requires |attempts| == MAX_AUTO_ID_ATTEMPTS && attempt < MAX_AUTO_ID_ATTEMPTS
    decreases MAX_AUTO_ID_ATTEMPTS - attempt
  {
    var now := Tried(id, base, attempt);
    match TurnoutOf(attempts[attempt])
    case Dead(next) => Connection(false, now, FAULT, INVALID_SOCK, next)
    case Answered(kind) =>
      if kind == HANDSHAKE_ACK then Connection(true, now, CONNECTED, attempts[attempt].socket, 2)
      else if kind == HANDSHAKE_FAIL && !explicitId && attempt + 1 < MAX_AUTO_ID_ATTEMPTS
      then Connect(id, explicitId, base, attempts, attempt + 1)
      else Connection(false, now, State.DISCONNECTED, INVALID_SOCK, 2)
  }

  lemma ConnectStep(id: Text, explicitId: bool, base: Word, attempts: seq<Attempt>, attempt: nat)
    requires |attempts| == MAX_AUTO_ID_ATTEMPTS && attempt < MAX_AUTO_ID_ATTEMPTS
    ensures
      var c, now := Connect(id, explicitId, base, attempts, attempt), Tried(id, base, attempt);
      match TurnoutOf(attempts[attempt])
      case Dead(next) => c == Connection(false, now, FAULT, INVALID_SOCK, next)
      case Answered(kind) =>
        if kind == HANDSHAKE_ACK then c == Connection(true, now, CONNECTED, attempts[attempt].socket, 2)
        else if kind == HANDSHAKE_FAIL && !explicitId && attempt + 1 < MAX_AUTO_ID_ATTEMPTS
        then c == Connect(id, explicitId, base, attempts, attempt + 1)
        else c == Connection(false, now, State.DISCONNECTED, INVALID_SOCK, 2)
  {
    hide Tried, TurnoutOf;
  }

  /** What one attempt makes of the client, by what it meets; only a FAIL for an automatic identifier is tried again. */
  lemma AttemptDecides(id: Text, explicitId: bool, base: Word, attempts: seq<Attempt>, i: nat)
    requires |attempts| == 8 && i < 8
    ensures
      var a, c, now := attempts[i], Connect(id, explicitId, base, attempts, i), if i == 0 then id else AutoId(base, i);
      if a.socket == -1 || a.route.None? then c == Connection(false, now, FAULT, -1, 1)
      else if a.route.value.window < 29 || |a.route.value.arrived| < 29 then c == Connection(false, now, FAULT, -1, 2)
      else if a.route.value.arrived[0] == 2 then c == Connection(true, now, CONNECTED, a.socket, 2)
      else if a.route.value.arrived[0] == 3 && !explicitId && i < 7 then
        c == Connect(id, explicitId, base, attempts, i + 1)
      else c == Connection(false, now, State.DISCONNECTED, -1, 2)
  {
    hide AutoId, FromLittleEndian;
  }

  // ---------------------------------------------------------------- against the server

  /**
   The moment at which the server serves a client's handshake: the state `w` the server is in by then,
   whatever came between accepting the connection and this, and the descriptor it has for it. The
   client's own descriptor is `local`, and its connection has room for `room` bytes.
   */
  datatype Meeting = Meeting(local: Handle, room: nat, w: World, h: Handle, file: File, at: int)

  ghost predicate Meets(m: Meeting, id: Text) {
    && m.local != INVALID_SOCK && m.room >= HEADER_SIZE
    && Inv(m.w) && m.h in m.w.links && Claiming(m.w.links[m.h], id)
  }

  function After(m: Meeting): World {
    Serve(m.w, m.h, m.file, m.at)
  }

  function AnswerTo(m: Meeting): Attempt {
    Attempt(m.local, Some(Peer(Reply(After(m), m.h), m.room)))
  }

  function AnswersTo(meetings: seq<Meeting>): (attempts: seq<Attempt>)
    ensures |attempts| == |meetings|
    ensures forall i :: 0 <= i < |meetings| ==> attempts[i] == AnswerTo(meetings[i])
  {
    seq(|meetings|, i requires 0 <= i < |meetings| => AnswerTo(meetings[i]))
  }

  /** The client has its ACK, and the server has the client, under one and the same identifier. */
  ghost predicate Joined(m: Meeting, c: Connection) {
    var w' := After(m);
    && c.ok && c.state == CONNECTED && c.socket == m.local
    && m.h in w'.links && w'.links[m.h].s.id == c.id && w'.links[m.h].s.State() == CONNECTED
  }

  /** The 29 bytes that come back. */
  ghost predicate Answers(a: Attempt, kind: Byte) {
    && a.socket != INVALID_SOCK && a.route.Some?
    && a.route.value.window >= HEADER_SIZE && |a.route.value.arrived| == HEADER_SIZE
    && DecodeHeader(a.route.value.arrived).kind == kind
  }

  lemma AnswerDecides(m: Meeting, id: Text)
    requires Meets(m, id) && ValidAircraftId(id)
    ensures Answers(AnswerTo(m), if Owned(m.w.links, id) then HANDSHAKE_FAIL else HANDSHAKE_ACK)
    ensures !Owned(m.w.links, id) ==> Joined(m, Connection(true, id, CONNECTED, m.local, 2))
  {
    HandshakeIsAnswered(m.w, m.h, id, m.file, m.at);
    hide Inv, Owned, Serve, Reply, Claiming, ValidAircraftId;
    var answer := CommandPacket(if Owned(m.w.links, id) then HANDSHAKE_FAIL else HANDSHAKE_ACK, id, 1);
    HeaderRoundTrip(answer.header);
    hide IdField, EncodeHeader, DecodeHeader;
    assert EncodePacket(answer) == EncodeHeader(answer.header);
  }

  /** An explicit identifier is tried once, and works exactly when no live session has it at that moment. */
  lemma ExplicitConnect(id: Text, base: Word, meetings: seq<Meeting>)
    requires |meetings| == MAX_AUTO_ID_ATTEMPTS && Meets(meetings[0], id) && ValidAircraftId(id)
    ensures
      var c := Connect(id, true, base, AnswersTo(meetings), 0);
      c.ok == !Owned(meetings[0].w.links, id) && c.id == id && (c.ok ==> Joined(meetings[0], c))
  {
    AnswerDecides(meetings[0], id);
    assert Tried(id, base, 0) == id && AnswerTo(meetings[0]).socket == meetings[0].local;
    hide *;
    Answered(id, true, base, AnswersTo(meetings), 0, !Owned(meetings[0].w.links, id));
  }

  lemma TriedIsValid(id: Text, base: Word, attempt: nat)
    requires ValidAircraftId(id) && attempt < MAX_AUTO_ID_ATTEMPTS
    ensures ValidAircraftId(Tried(id, base, attempt))
  {
    hide ValidAircraftId, Candidate;
    AutoIdsAreValid(Candidate(base, attempt));
  }

  lemma {:induction false} ConnectKeepsValid(
      id: Text, explicitId: bool, base: Word, attempts: seq<Attempt>, attempt: nat)
    requires |attempts| == MAX_AUTO_ID_ATTEMPTS && attempt < MAX_AUTO_ID_ATTEMPTS
    ensures ValidAircraftId(id) ==> ValidAircraftId(Connect(id, explicitId, base, attempts, attempt).id)
    decreases MAX_AUTO_ID_ATTEMPTS - attempt
  {
    if ValidAircraftId(id) {
      hide *;
      TriedIsValid(id, base, attempt);
      ConnectStep(id, explicitId, base, attempts, attempt);
      if attempt + 1 < MAX_AUTO_ID_ATTEMPTS {
        ConnectKeepsValid(id, explicitId, base, attempts, attempt + 1);
      }
    }
    hide *;
  }

  /** No live session has the identifier of attempt `i` when the server comes to it. */
  ghost predicate FreeAt(meetings: seq<Meeting>, id: Text, base: Word, i: nat)
    requires |meetings| == MAX_AUTO_ID_ATTEMPTS && i < MAX_AUTO_ID_ATTEMPTS
  {
    !Owned(meetings[i].w.links, Tried(id, base, i))
  }

  /** Every attempt before number `i` failed, so that number `i` is made. */
  ghost predicate Made(meetings: seq<Meeting>, id: Text, base: Word, i: nat)
    requires |meetings| == MAX_AUTO_ID_ATTEMPTS && i <= MAX_AUTO_ID_ATTEMPTS
  {
    forall k: nat :: k < i ==> !FreeAt(meetings, id, base, k)
  }

  /** Each attempt that is made reaches the server. */
  ghost predicate AllMeet(meetings: seq<Meeting>, id: Text, base: Word) {
    && |meetings| == MAX_AUTO_ID_ATTEMPTS
    && forall i: nat :: i < MAX_AUTO_ID_ATTEMPTS && Made(meetings, id, base, i) ==>
         Meets(meetings[i], Tried(id, base, i))
  }

  lemma Answered(id: Text, explicitId: bool, base: Word, attempts: seq<Attempt>, i: nat, free: bool)
    requires |attempts| == MAX_AUTO_ID_ATTEMPTS && i < MAX_AUTO_ID_ATTEMPTS
    requires Answers(attempts[i], if free then HANDSHAKE_ACK else HANDSHAKE_FAIL)
    ensures
      var c := Connect(id, explicitId, base, attempts, i);
      if free then c == Connection(true, Tried(id, base, i), CONNECTED, attempts[i].socket, 2)
      else if !explicitId && i + 1 < MAX_AUTO_ID_ATTEMPTS then c == Connect(id, explicitId, base, attempts, i + 1)
      else c == Connection(false, Tried(id, base, i), State.DISCONNECTED, INVALID_SOCK, 2)
  {
    assert attempts[i].route.value.arrived[..HEADER_SIZE] == attempts[i].route.value.arrived;
    hide Tried, DecodeHeader;
  }

  lemma OneAttempt(id: Text, base: Word, meetings: seq<Meeting>, i: nat)
    requires |meetings| == MAX_AUTO_ID_ATTEMPTS && i < MAX_AUTO_ID_ATTEMPTS && ValidAircraftId(id)
    requires Meets(meetings[i], Tried(id, base, i))
    ensures
      var answers := AnswersTo(meetings);
      var c := Connect(id, false, base, answers, i);
      if FreeAt(meetings, id, base, i) then c.id == Tried(id, base, i) && Joined(meetings[i], c)
      else if i + 1 < MAX_AUTO_ID_ATTEMPTS then c == Connect(id, false, base, answers, i + 1)
      else c == Connection(false, Tried(id, base, i), State.DISCONNECTED, INVALID_SOCK, 2)
  {
    TriedIsValid(id, base, i);
    AnswerDecides(meetings[i], Tried(id, base, i));
    assert AnswerTo(meetings[i]).socket == meetings[i].local;
    assert FreeAt(meetings, id, base, i) <==> !Owned(meetings[i].w.links, Tried(id, base, i));
    hide *;
    Answered(id, false, base, AnswersTo(meetings), i, FreeAt(meetings, id, base, i));
  }

  lemma {:induction false} StillTrying(id: Text, base: Word, meetings: seq<Meeting>, j: nat)
    requires AllMeet(meetings, id, base) && ValidAircraftId(id) && j < MAX_AUTO_ID_ATTEMPTS
    requires Made(meetings, id, base, j)
    ensures
      var answers := AnswersTo(meetings);
      Connect(id, false, base, answers, 0) == Connect(id, false, base, answers, j)
    decreases j
  {
    hide *;
    if j > 0 {
      MadeBefore(id, base, meetings, j);
      StillTrying(id, base, meetings, j - 1);
      OneAttempt(id, base, meetings, j - 1);
    }
  }

  lemma MadeBefore(id: Text, base: Word, meetings: seq<Meeting>, j: nat)
    requires AllMeet(meetings, id, base) && 0 < j < MAX_AUTO_ID_ATTEMPTS && Made(meetings, id, base, j)
    ensures |meetings| == MAX_AUTO_ID_ATTEMPTS && Made(meetings, id, base, j - 1) && !FreeAt(meetings, id, base, j - 1)
    ensures Meets(meetings[j - 1], Tried(id, base, j - 1))
  {
    assert Made(meetings, id, base, j - 1);
    hide FreeAt, Meets, Tried;
  }

  /** The client joins at attempt `j`, the first whose identifier is free. */
  lemma JoinsAt(id: Text, base: Word, meetings: seq<Meeting>, j: nat)
    requires AllMeet(meetings, id, base) && ValidAircraftId(id) && j < MAX_AUTO_ID_ATTEMPTS
    requires Made(meetings, id, base, j) && FreeAt(meetings, id, base, j)
    ensures
      var c := Connect(id, false, base, AnswersTo(meetings), 0);
      c.id == Tried(id, base, j) && Joined(meetings[j], c)
  {
    assert Meets(meetings[j], Tried(id, base, j));
    hide *;
    StillTrying(id, base, meetings, j);
    OneAttempt(id, base, meetings, j);
  }

  /**
   With an automatic identifier the client ends up admitted exactly when, at one of its eight
   attempts, the identifier tried is free when the server serves it; it joins at the first such attempt.
   */
  lemma AutoConnect(id: Text, base: Word, meetings: seq<Meeting>)
    requires AllMeet(meetings, id, base) && ValidAircraftId(id)
    ensures
      var c := Connect(id, false, base, AnswersTo(meetings), 0);
      && (c.ok <==> !Made(meetings, id, base, MAX_AUTO_ID_ATTEMPTS))
      && forall j: nat :: j < MAX_AUTO_ID_ATTEMPTS && Made(meetings, id, base, j) && FreeAt(meetings, id, base, j) ==>
           c.id == Tried(id, base, j) && Joined(meetings[j], c)
  {
    var c := Connect(id, false, base, AnswersTo(meetings), 0);
    forall j: nat | j < MAX_AUTO_ID_ATTEMPTS && Made(meetings, id, base, j) && FreeAt(meetings, id, base, j)
      ensures c.id == Tried(id, base, j) && Joined(meetings[j], c)
    {
      JoinsAt(id, base, meetings, j);
      hide *;
    }
    if Made(meetings, id, base, MAX_AUTO_ID_ATTEMPTS) {
      NeverJoins(id, base, meetings);
    } else {
      var j := FirstFree(meetings, id, base);
      JoinsAt(id, base, meetings, j);
      assert c.ok;
    }
    hide *;
  }

  lemma NeverJoins(id: Text, base: Word, meetings: seq<Meeting>)
    requires AllMeet(meetings, id, base) && ValidAircraftId(id) && Made(meetings, id, base, MAX_AUTO_ID_ATTEMPTS)
    ensures
      var c := Connect(id, false, base, AnswersTo(meetings), 0);
      !c.ok && c.state == State.DISCONNECTED && c.socket == INVALID_SOCK && c.id == AutoId(base, 7)
  {
    var last := MAX_AUTO_ID_ATTEMPTS - 1;
    assert Made(meetings, id, base, last) && !FreeAt(meetings, id, base, last);
    assert Meets(meetings[last], Tried(id, base, last)) && Tried(id, base, last) == AutoId(base, 7);
    hide *;
    StillTrying(id, base, meetings, last);
    OneAttempt(id, base, meetings, last);
  }

  lemma FirstFree(meetings: seq<Meeting>, id: Text, base: Word) returns (j: nat)
    requires |meetings| == MAX_AUTO_ID_ATTEMPTS && !Made(meetings, id, base, MAX_AUTO_ID_ATTEMPTS)
    ensures j < MAX_AUTO_ID_ATTEMPTS && FreeAt(meetings, id, base, j) && Made(meetings, id, base, j)
  {
    hide FreeAt;
    j := 0;
    while !FreeAt(meetings, id, base, j)
      invariant j < MAX_AUTO_ID_ATTEMPTS && Made(meetings, id, base, j)
      decreases MAX_AUTO_ID_ATTEMPTS - j
    {
      j := j + 1;
      assert Made(meetings, id, base, j);
      assert j < MAX_AUTO_ID_ATTEMPTS;
    }
  }

  /** At every attempt that is made, all the identifiers of live sessions are among `held`. */
  ghost predicate OnlyHeld(meetings: seq<Meeting>, id: Text, base: Word, held: set<Text>)
    requires |meetings| == MAX_AUTO_ID_ATTEMPTS
  {
    forall i: nat, x :: i < MAX_AUTO_ID_ATTEMPTS && Made(meetings, id, base, i) ==>
      x != [] && Owned(meetings[i].w.links, x) ==> x in held
  }

  /**
   The promise of the retry: an aircraft with an automatic identifier, connecting for the first time
   while at most seven identifiers are held, is always admitted within its eight attempts, whatever
   else happens at the server before, between and during them; and both sides agree on its identifier.
   */
  lemma FirstConnectSucceeds(base: Word, held: set<Text>, meetings: seq<Meeting>) returns (j: nat)
    requires base < 999 && |held| <= 7
    requires AllMeet(meetings, AutoId(base, 0), base) && OnlyHeld(meetings, AutoId(base, 0), base, held)
    ensures j < 8
    ensures Joined(meetings[j], Connect(AutoId(base, 0), false, base, AnswersTo(meetings), 0))
  {
    var k := SomeCandidateIsFree(base, MAX_AUTO_ID_ATTEMPTS, held);
    AutoIdsAreValid(Candidate(base, 0));
    assert ValidAircraftId(AutoId(base, 0)) && Tried(AutoId(base, 0), base, k) == AutoId(base, k);
    hide *;
    j := ConnectSucceeds(AutoId(base, 0), base, held, meetings, k);
  }

  /**
   A client that connects again starts from the identifier it had last, which may be one of its own
   candidates; so it can count on seven others only, and the promise holds up to six held identifiers.
   */
  lemma ReconnectSucceeds(last: Text, base: Word, held: set<Text>, meetings: seq<Meeting>) returns (j: nat)
    requires ValidAircraftId(last) && base < 999 && |held| <= 6
    requires AllMeet(meetings, last, base) && OnlyHeld(meetings, last, base, held)
    ensures j < MAX_AUTO_ID_ATTEMPTS
    ensures Joined(meetings[j], Connect(last, false, base, AnswersTo(meetings), 0))
  {
    var k := SomeCandidateIsFree(base, MAX_AUTO_ID_ATTEMPTS, held + {AutoId(base, 0)});
    assert Tried(last, base, k) == AutoId(base, k);
    hide *;
    j := ConnectSucceeds(last, base, held, meetings, k);
  }

  lemma UnheldIsFree(id: Text, base: Word, held: set<Text>, meetings: seq<Meeting>, k: nat)
    requires |meetings| == MAX_AUTO_ID_ATTEMPTS && OnlyHeld(meetings, id, base, held)
    requires k < MAX_AUTO_ID_ATTEMPTS && Tried(id, base, k) != [] && Tried(id, base, k) !in held
    ensures Made(meetings, id, base, k) ==> FreeAt(meetings, id, base, k)
  {
    hide Made, Tried, Owned;
  }

  lemma MadeToTheEnd(id: Text, base: Word, meetings: seq<Meeting>, k: nat)
    requires |meetings| == MAX_AUTO_ID_ATTEMPTS && k < MAX_AUTO_ID_ATTEMPTS
    requires Made(meetings, id, base, k) ==> FreeAt(meetings, id, base, k)
    ensures !Made(meetings, id, base, MAX_AUTO_ID_ATTEMPTS)
  {
    hide FreeAt;
  }

  lemma ConnectSucceeds(id: Text, base: Word, held: set<Text>, meetings: seq<Meeting>, k: nat) returns (j: nat)
    requires ValidAircraftId(id) && AllMeet(meetings, id, base) && OnlyHeld(meetings, id, base, held)
    requires k < MAX_AUTO_ID_ATTEMPTS && Tried(id, base, k) !in held
    ensures j < MAX_AUTO_ID_ATTEMPTS
    ensures Joined(meetings[j], Connect(id, false, base, AnswersTo(meetings), 0))
  {
    TriedIsValid(id, base, k);
    assert Tried(id, base, k) != [];
    UnheldIsFree(id, base, held, meetings, k);
    MadeToTheEnd(id, base, meetings, k);
    hide *;
    j := FirstFree(meetings, id, base);
    JoinsAt(id, base, meetings, j);
  }
}
