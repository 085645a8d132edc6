/**
 client/aircraft_client.cpp, second half: the client itself, with its socket, its numbered packets
 and the loop that receives a weather map. One thread at a time; every packet goes out under the lock.
 */
module AircraftClients {
  import opened Basics
  import opened Packets
  import opened SocketUtils
  import opened StateMachines
  import opened ClientSessions
  import opened SessionTable
  import opened TableInvariants
  import opened TableRuns
  import opened ServerSteps
  import opened ClientUtils
  import opened Connecting
  import opened ConformingClients

  // ---------------------------------------------------------------- receiving a weather map

  /** What is left of a reception: the map if it came whole and unharmed. */
  function Arrival(ch: Channel, header: Header): Option<seq<Byte>> {
    if CanRead(ch, header.size) && Checksum(ch.inbox[..header.size]) == header.checksum
    then Some(ch.inbox[..header.size]) else None
  }

  /** Something is saved exactly if all announced bytes come and sum up to the header's checksum. */
  lemma ArrivesExactly(ch: Channel, header: Header)
    ensures Arrival(ch, header).Some? <==>
      header.size <= |ch.inbox| && Tally(ch.inbox[..header.size], 255) % 0x1_0000_0000 == header.checksum
    ensures Arrival(ch, header).Some? ==> Arrival(ch, header).value == ch.inbox[..header.size]
  {
    if header.size <= |ch.inbox| {
      ChecksumCounts(ch.inbox[..header.size], 0);
    }
    hide Checksum, Tally;
  }

  /** A weather map of which one byte was changed on the way is not saved, nor is one that was cut short. */
  lemma DamagedMapIsRefused(id: Text, sequence: Word, data: FileBytes, i: nat, b: Byte, ch: Channel, after: seq<Byte>)
    requires i < |data| && b != data[i]
    ensures ch.inbox == data[i := b] + after ==> Arrival(ch, FilePacket(id, sequence, data).header) == None
    ensures ch.inbox < data ==> Arrival(ch, FilePacket(id, sequence, data).header) == None
  {
    ChecksumDetectsByte(data, i, b);
    hide Checksum, IdField;
    if ch.inbox == data[i := b] + after {
      assert ch.inbox[..|data|] == data[i := b];
    }
  }

  /**
   From the server's disk to the client's: the bytes the server writes for a weather map, however
   they were cut up on the way, give the client the file, and leave it at the next packet.
   */
  lemma WeatherMapArrives(id: Text, sequence: Word, data: FileBytes, ch: Channel, after: seq<Byte>)
    requires ch.inbox == EncodePacket(FilePacket(id, sequence, data)) + after
    ensures CanRead(ch, HEADER_SIZE)
    ensures
      var header := DecodeHeader(ch.inbox[..HEADER_SIZE]);
      var ch1 := Read(ch, HEADER_SIZE);
      && header == FilePacket(id, sequence, data).header && header.kind == LARGE_FILE
      && Arrival(ch1, header) == Some(data)
      && Read(ch1, header.size).inbox == after
  {
    var p := FilePacket(id, sequence, data);
    HeaderRoundTrip(p.header);
    hide EncodeHeader, DecodeHeader, Checksum;
    assert ch.inbox[..HEADER_SIZE] == EncodeHeader(p.header);
    assert ch.inbox[HEADER_SIZE..] == data + after;
    assert (data + after)[..|data|] == data && (data + after)[|data|..] == after;
  }

  /** A session the server has or had: what its peer was sent begins with its history of whole packets. */
  ghost predicate OnRecord(w: World, l: Link) {
    l in w.ended || exists h :: h in w.links && w.links[h] == l
  }

  lemma MapOnRecord(w: World, l: Link, i: nat)
    requires Inv(w) && OnRecord(w, l) && i < |l.s.sent| && l.s.sent[i].header.kind == LARGE_FILE
    ensures IsFile(l.s.sent[i], l.s.id, Wrap(i)) && EncodeAll(l.s.sent) <= l.ch.outbox
  {
    RecordIsOk(w, l);
    hide *;
    if LinkOk(l) {
      LiveRecord(l);
    } else {
      EndedRecord(l);
    }
    FileInStream(l.s.sent, l.s.id, i);
  }

  lemma RecordIsOk(w: World, l: Link)
    requires Inv(w) && OnRecord(w, l)
    ensures LinkOk(l) || EndOk(l)
  {
    assert LinksOk(w.links) && EndsOk(w.ended);
    hide Inv, LinkOk, EndOk;
  }

  /** What the histories of live and ended sessions have in common. */
  ghost predicate SentInOrder(sent: seq<Packet>, id: Text) {
    sent == [] || FinishedStream(sent, id) || (|sent| == 1 && sent[0].header.kind == HANDSHAKE_FAIL)
  }

  lemma LiveRecord(l: Link)
    requires LinkOk(l)
    ensures SentInOrder(l.s.sent, l.s.id) && EncodeAll(l.s.sent) <= l.ch.outbox
  {
    hide OnBoundary, MachineOk, ServerStream, ValidAircraftId, TelemetryOk, TimersOk, EncodeAll, Wrap;
  }

  lemma EndedRecord(l: Link)
    requires EndOk(l)
    ensures SentInOrder(l.s.sent, l.s.id) && EncodeAll(l.s.sent) <= l.ch.outbox
  {
    hide MachineOk, FaultIsLast, FinishedStream, ValidAircraftId, EncodeAll;
  }

  lemma FileInStream(sent: seq<Packet>, id: Text, i: nat)
    requires SentInOrder(sent, id) && i < |sent| && sent[i].header.kind == LARGE_FILE
    ensures IsFile(sent[i], id, Wrap(i))
  {
    hide IdField, Wrap, Checksum, IsFile;
    if !ServerStream(sent, id) {
      assert i < |sent| - 1 ==> sent[..|sent| - 1][i] == sent[i];
    }
  }

  lemma {:induction false} EncodeAllSplit(ps: seq<Packet>, i: nat)
    requires i <= |ps|
    ensures EncodeAll(ps) == EncodeAll(ps[..i]) + EncodeAll(ps[i..])
    decreases |ps| - i
  {
    if i == |ps| {
      assert ps[..i] == ps && EncodeAll(ps[i..]) == [];
    } else {
      hide *;
      EncodeAllSplit(ps, i + 1);
      EncodeAllPush(ps[..i], ps[i]);
      assert ps[..i] + [ps[i]] == ps[..i + 1];
      EncodeAllFront(ps[i..]);
      assert ps[i..][0] == ps[i] && ps[i..][1..] == ps[i + 1..];
      Reassociate(EncodeAll(ps[..i]), EncodePacket(ps[i]), EncodeAll(ps[i + 1..]));
    }
    hide *;
  }

  /** What follows the first `i` packets begins with packet `i`. */
  lemma NextInStream(ps: seq<Packet>, i: nat, rest: seq<Byte>) returns (after: seq<Byte>)
    requires i < |ps| && EncodeAll(ps) <= EncodeAll(ps[..i]) + rest
    ensures rest == EncodePacket(ps[i]) + after
  {
    EncodeAllSplit(ps, i);
    EncodeAllFront(ps[i..]);
    var read, p, more := EncodeAll(ps[..i]), EncodePacket(ps[i]), EncodeAll(ps[i..][1..]);
    hide EncodeAll, EncodePacket;
    assert read + (p + more) <= read + rest;
    assert (read + rest)[|read|..] == rest && (read + (p + more))[|read|..] == p + more;
    assert p + more <= rest;
    after := rest[|p|..];
    assert rest[..|p|] == (p + more)[..|p|] == p;
  }

  /**
   At any moment of any run, for a session that is live or has left: once its client has read the first
   `i` packets the server sent it, and the next is a weather map, that map arrives as it was on the
   server's disk, under number `i` modulo 2^32.
   */
  lemma EveryMapArrives(steps: seq<Step>, l: Link, ch: Channel, i: nat)
    requires OnRecord(Execute(START, steps), l) && i < |l.s.sent| && l.s.sent[i].header.kind == LARGE_FILE
    requires l.ch.outbox == EncodeAll(l.s.sent[..i]) + ch.inbox
    ensures CanRead(ch, HEADER_SIZE)
    ensures
      var header := DecodeHeader(ch.inbox[..HEADER_SIZE]);
      && header.sequence == Wrap(i) && header.kind == LARGE_FILE
      && Arrival(Read(ch, HEADER_SIZE), header) == Some(l.s.sent[i].payload)
  {
    var p := l.s.sent[i];
    Reachable(steps);
    MapOnRecord(Execute(START, steps), l, i);
    assert |p.payload| <= MAX_FILE_SIZE && p == FilePacket(l.s.id, Wrap(i), p.payload) && p.header.sequence == Wrap(i);
    hide *;
    var after := NextInStream(l.s.sent, i, ch.inbox);
    WeatherMapArrives(l.s.id, Wrap(i), p.payload, ch, after);
  }

  lemma ChunkRead(ch: Channel, a: nat, b: nat)
    requires a + b <= |ch.inbox|
    ensures Read(Read(ch, a), b) == Read(ch, a + b)
    ensures ch.inbox[..a + b] == ch.inbox[..a] + Read(ch, a).inbox[..b]
  {
  }

  /** The handshake requests of the first `attempts` attempts, each numbered 1. */
  function Asked(id: Text, base: Word, attempts: nat): seq<Packet>
    requires attempts <= MAX_AUTO_ID_ATTEMPTS
  {
    if attempts == 0 then [] else Asked(id, base, attempts - 1) + [HandshakeRequest(Tried(id, base, attempts - 1))]
  }

  /** How many handshakes are built from attempt number `attempt` on. */
  function Handshakes(explicitId: bool, attempts: seq<Attempt>, attempt: nat): nat
    requires |attempts| == MAX_AUTO_ID_ATTEMPTS && attempt < MAX_AUTO_ID_ATTEMPTS
    decreases MAX_AUTO_ID_ATTEMPTS - attempt
  {
    var turnout := TurnoutOf(attempts[attempt]);
    if turnout == Dead(1) then 0
    else if turnout == Turnout.Answered(HANDSHAKE_FAIL) && !explicitId && attempt + 1 < MAX_AUTO_ID_ATTEMPTS
    then 1 + Handshakes(explicitId, attempts, attempt + 1)
    else 1
  }

  lemma HandshakesStep(explicitId: bool, attempts: seq<Attempt>, attempt: nat)
    requires |attempts| == MAX_AUTO_ID_ATTEMPTS && attempt < MAX_AUTO_ID_ATTEMPTS
    ensures
      var turnout := TurnoutOf(attempts[attempt]);
      Handshakes(explicitId, attempts, attempt)
        == if turnout == Dead(1) then 0
           else if turnout == Turnout.Answered(HANDSHAKE_FAIL) && !explicitId && attempt + 1 < MAX_AUTO_ID_ATTEMPTS
           then 1 + Handshakes(explicitId, attempts, attempt + 1)
           else 1
  {
    hide TurnoutOf;
  }

  lemma {:induction false} ConnectedCountsTwo(
      first: Text, explicitId: bool, base: Word, attempts: seq<Attempt>, attempt: nat)
    requires |attempts| == MAX_AUTO_ID_ATTEMPTS && attempt < MAX_AUTO_ID_ATTEMPTS
    ensures
      var c := Connect(first, explicitId, base, attempts, attempt);
      c.ok ==> c.nextSequence == 2
    decreases MAX_AUTO_ID_ATTEMPTS - attempt
  {
    hide *;
    ConnectStep(first, explicitId, base, attempts, attempt);
    if attempt + 1 < MAX_AUTO_ID_ATTEMPTS {
      ConnectedCountsTwo(first, explicitId, base, attempts, attempt + 1);
    }
  }

  /** The client comes to attempt number `attempt` with `id`, having asked in vain under each identifier before. */
  ghost predicate Trying(
      first: Text, explicitId: bool, base: Word, attempts: seq<Attempt>, asked: seq<Packet>, attempt: nat, id: Text)
  {
    && |attempts| == MAX_AUTO_ID_ATTEMPTS && attempt < (if explicitId then 1 else MAX_AUTO_ID_ATTEMPTS)
    && id == Tried(first, base, attempt) && |asked| == attempt && asked == Asked(first, base, attempt)
    && Connect(first, explicitId, base, attempts, 0) == Connect(first, explicitId, base, attempts, attempt)
    && Handshakes(explicitId, attempts, 0) == attempt + Handshakes(explicitId, attempts, attempt)
  }

  /** The client is through, with all the handshakes it should have built, the last under the identifier it has. */
  ghost predicate Settled(
      first: Text, explicitId: bool, base: Word, attempts: seq<Attempt>, asked: seq<Packet>, c: Connection)
  {
    && |attempts| == MAX_AUTO_ID_ATTEMPTS && c == Connect(first, explicitId, base, attempts, 0)
    && |asked| == Handshakes(explicitId, attempts, 0) <= (if explicitId then 1 else MAX_AUTO_ID_ATTEMPTS)
    && asked == Asked(first, base, |asked|)
    && (c.ok ==> asked != [] && asked[|asked| - 1] == HandshakeRequest(c.id))
  }

  lemma StartsTrying(first: Text, explicitId: bool, base: Word, attempts: seq<Attempt>)
    requires |attempts| == MAX_AUTO_ID_ATTEMPTS
    ensures Trying(first, explicitId, base, attempts, [], 0, first)
  {
    AskedMore(first, base, 0);
    hide Connect, Handshakes, Tried, Asked;
  }

  /** What becomes of an attempt, by the way it turns out. */
  lemma TryingOn(
      first: Text, explicitId: bool, base: Word, attempts: seq<Attempt>, before: seq<Packet>, attempt: nat, id: Text)
    requires Trying(first, explicitId, base, attempts, before, attempt, id)
    requires |attempts| == MAX_AUTO_ID_ATTEMPTS && attempt < MAX_AUTO_ID_ATTEMPTS
    ensures
      var asked := before + [HandshakeRequest(id)];
      match TurnoutOf(attempts[attempt])
      case Dead(next) =>
        Settled(first, explicitId, base, attempts, if next == 1 then before else asked,
          Connection(false, id, FAULT, INVALID_SOCK, next))
      case Answered(kind) =>
        if kind == HANDSHAKE_ACK then
          Settled(first, explicitId, base, attempts, asked,
            Connection(true, id, CONNECTED, attempts[attempt].socket, 2))
        else if kind == HANDSHAKE_FAIL && !explicitId && attempt + 1 < MAX_AUTO_ID_ATTEMPTS then
          Trying(first, explicitId, base, attempts, asked, attempt + 1, AutoId(base, attempt + 1))
        else
          Settled(first, explicitId, base, attempts, asked,
            Connection(false, id, State.DISCONNECTED, INVALID_SOCK, 2))
  {
    AskedMore(first, base, attempt);
    ConnectStep(first, explicitId, base, attempts, attempt);
    HandshakesStep(explicitId, attempts, attempt);
    hide Connect, Handshakes, Tried, Asked, TurnoutOf, HandshakeRequest, AutoId;
  }

  lemma WireGrows(ch: Channel, wrote: seq<Packet>, p: Packet)
    requires ch.outbox == EncodeAll(wrote)
    ensures EncodeAll(wrote) <= Write(ch, EncodePacket(p)).outbox
    ensures CanWrite(ch, EncodePacket(p)) ==> Write(ch, EncodePacket(p)).outbox == EncodeAll(wrote + [p])
  {
    EncodeAllPush(wrote, p);
    var bytes := EncodePacket(p);
    hide EncodeAll, EncodePacket;
    assert bytes[..|bytes|] == bytes;
  }

  ghost predicate IsSpoken(p: Packet, id: Text) {
    IsTelemetry(p, id) || IsMapRequest(p, id) || IsGoodbye(p, id)
  }

  /** These bytes are the whole packets of a conforming stream, and at most the beginning of one packet more of it. */
  ghost predicate OnWire(outbox: seq<Byte>, wrote: seq<Packet>, id: Text) {
    exists p :: Conforming(wrote + [p], id) && EncodeAll(wrote) <= outbox <= EncodeAll(wrote + [p])
  }

  /** A connection on which only a conforming stream was sent; a packet was cut off only where nothing more goes out. */
  ghost predicate Sound(ch: Channel, wrote: seq<Packet>, id: Text) {
    Conforming(wrote, id) && (ch.outbox == EncodeAll(wrote) || (ch.window == 0 && OnWire(ch.outbox, wrote, id)))
  }

  /** The packets are numbered 1, 2, 3, ... modulo 2^32. */
  ghost predicate InSequence(wrote: seq<Packet>) {
    forall i :: 0 <= i < |wrote| ==> wrote[i].header.sequence == Wrap(i + 1)
  }

  /** So they are, and the next number follows on them, for as long as anything more goes out. */
  ghost predicate CountsOn(ch: Channel, wrote: seq<Packet>, next: Word) {
    InSequence(wrote) && (ch.window > 0 ==> next == Wrap(|wrote| + 1))
  }

  lemma SendCountsOn(ch: Channel, wrote: seq<Packet>, p: Packet)
    requires CountsOn(ch, wrote, p.header.sequence)
    ensures
      CountsOn(Write(ch, EncodePacket(p)), if CanWrite(ch, EncodePacket(p)) then wrote + [p] else wrote,
        Wrap(p.header.sequence + 1))
  {
    PacketHasHeader(p);
    NextNumber(|wrote| + 1);
    hide EncodePacket, Wrap;
  }

  lemma FirstCount(ch: Channel, id: Text)
    ensures CountsOn(ch, [HandshakeRequest(id)], 2)
  {
    hide IdField;
  }

  lemma ConformingGrows(ps: seq<Packet>, id: Text, p: Packet)
    requires Conforming(ps, id) && IsSpoken(p, id)
    ensures Conforming(ps + [p], id)
  {
    hide ValidAircraftId, IsTelemetry, IsMapRequest, IsGoodbye, HandshakeRequest;
  }

  lemma FirstWords(ch: Channel, id: Text)
    requires ValidAircraftId(id) && ch.outbox == EncodeAll([HandshakeRequest(id)])
    ensures Sound(ch, [HandshakeRequest(id)], id)
  {
    hide ValidAircraftId, IdField, EncodeAll;
  }

  lemma SoundIsOnWire(ch: Channel, wrote: seq<Packet>, id: Text)
    requires Sound(ch, wrote, id)
    ensures Conforming(wrote, id) && OnWire(ch.outbox, wrote, id)
  {
    if ch.outbox == EncodeAll(wrote) {
      PacketKinds(id, 0);
      ConformingGrows(wrote, id, MapRequest(id, 0));
      EncodeAllPush(wrote, MapRequest(id, 0));
    }
    hide Conforming, EncodeAll, EncodePacket, MapRequest;
  }

  /** Whatever is sent next, and however much of it goes out. */
  lemma SendKeepsSound(ch: Channel, wrote: seq<Packet>, id: Text, p: Packet)
    requires Sound(ch, wrote, id) && IsSpoken(p, id)
    ensures Sound(Write(ch, EncodePacket(p)), if CanWrite(ch, EncodePacket(p)) then wrote + [p] else wrote, id)
  {
    ConformingGrows(wrote, id, p);
    PacketHasHeader(p);
    EncodeAllPush(wrote, p);
    var bytes := EncodePacket(p);
    hide Conforming, EncodeAll, EncodePacket, IsSpoken;
    assert bytes[..|bytes|] == bytes;
    if ch.outbox == EncodeAll(wrote) {
      assert CanWrite(ch, bytes) || bytes[..ch.window] <= bytes;
    } else {
      assert ch.outbox + bytes[..0] == ch.outbox;
    }
  }

  /** What the server gets to see of such a wire is the beginning of a conforming client's stream. */
  lemma WireIsConforming(outbox: seq<Byte>, wrote: seq<Packet>, id: Text) returns (ps: seq<Packet>)
    requires OnWire(outbox, wrote, id)
    ensures Conforming(ps, id) && outbox <= EncodeAll(ps)
  {
    hide Conforming, EncodeAll;
    var p :| Conforming(wrote + [p], id) && EncodeAll(wrote) <= outbox <= EncodeAll(wrote + [p]);
    ps := wrote + [p];
  }

  lemma PacketKinds(id: Text, sequence: Word)
    ensures IsSpoken(MapRequest(id, sequence), id) && MapRequest(id, sequence).WellFormed()
    ensures IsSpoken(Goodbye(id, sequence), id) && Goodbye(id, sequence).WellFormed()
  {
    hide IdField;
  }

  lemma TelemetryKind(id: Text, sequence: Word, data: seq<Byte>)
    requires |data| == TELEMETRY_SIZE
    ensures
      var p := TelemetryPacket(id, sequence, data);
      IsSpoken(p, id) && p.WellFormed()
  {
    hide IdField, Checksum;
  }

  lemma HandshakeFits(ch: Channel, id: Text)
    ensures CanWrite(ch, EncodePacket(HandshakeRequest(id))) <==> ch.window >= HEADER_SIZE
    ensures Write(ch, EncodePacket(HandshakeRequest(id))).inbox == ch.inbox
    ensures HandshakeRequest(id).WellFormed()
  {
    hide EncodeHeader, IdField;
  }

  lemma AskedMore(id: Text, base: Word, attempt: nat)
    requires attempt < MAX_AUTO_ID_ATTEMPTS
    ensures Asked(id, base, attempt + 1) == Asked(id, base, attempt) + [HandshakeRequest(Tried(id, base, attempt))]
    ensures attempt + 1 < MAX_AUTO_ID_ATTEMPTS ==> Tried(id, base, attempt + 1) == AutoId(base, attempt + 1)
    ensures Tried(id, base, 0) == id && Asked(id, base, 0) == []
  {
    hide HandshakeRequest;
  }

  /** What the client does on an open session: a turn of the telemetry loop, or a request from the console. */
  datatype Action = Sample(data: seq<Byte>) | AskForMap

  class AircraftClient {
    var id: Text
    const explicitId: bool
    var nextSequence: Word
    var running: bool
    var transferring: bool
    var state: State
    var socket: Handle
    const sockets: Sockets
    /** Every packet that went out whole on the present connection. */
    ghost var wrote: seq<Packet>

    constructor (id: Text, explicitId: bool)
      ensures this.id == id && this.explicitId == explicitId && nextSequence == 1 && !running && !transferring
      ensures state == State.DISCONNECTED && socket == INVALID_SOCK && fresh(sockets) && wrote == []
    {
      this.id, this.explicitId := id, explicitId;
      nextSequence, running, transferring := 1, false, false;
      state, socket := State.DISCONNECTED, INVALID_SOCK;
      sockets := new Sockets();
      wrote := [];
    }

    ghost function Wire(): Channel
      reads this, sockets
      requires socket in sockets.channels
    {
      sockets.channels[socket]
    }

    /** Everything on the wire is whole packets. */
    ghost predicate Recorded()
      reads this, sockets
    {
      socket in sockets.channels && Wire().outbox == EncodeAll(wrote)
    }

    /** The client has kept to the protocol. */
    ghost predicate Speaking()
      reads this, sockets
    {
      socket in sockets.channels && Sound(Wire(), wrote, id)
    }

    /** The packets that went out are numbered without gap or repeat. */
    ghost predicate Counting()
      reads this, sockets
    {
      socket in sockets.channels && CountsOn(Wire(), wrote, nextSequence)
    }

    // -------------------------------------------------------------- connecting

    /** `connectSession`; `asked` are the handshakes it built. */
    method ConnectSession(base: Word, attempts: seq<Attempt>) returns (ok: bool, ghost asked: seq<Packet>)
      requires |attempts| == MAX_AUTO_ID_ATTEMPTS
      requires forall i :: 0 <= i < |attempts| ==> attempts[i].socket !in sockets.channels
      modifies this, sockets
      ensures Connection(ok, id, state, socket, nextSequence) == Connect(old(id), explicitId, base, attempts, 0)
      ensures running == (ok || old(running)) && transferring == old(transferring)
      ensures |asked| == Handshakes(explicitId, attempts, 0) && asked == Asked(old(id), base, |asked|)
      ensures explicitId ==> |asked| <= 1
      ensures ok ==> asked != [] && asked[|asked| - 1] == HandshakeRequest(id)
      ensures if ok then Recorded() && wrote == [HandshakeRequest(id)] else sockets.channels == old(sockets.channels)
      ensures ok && ValidAircraftId(old(id)) ==> Speaking()
      ensures ok ==> Counting()
    {
      ConnectKeepsValid(id, explicitId, base, attempts, 0);
      ghost var first := id;
      hide Connect, Handshakes, Asked, HandshakeRequest, ValidAircraftId, Sound, EncodeAll;
      ok, asked := Retry(base, attempts);
      if ok && ValidAircraftId(first) {
        BeginsSpeaking();
      }
      if ok {
        ConnectedCountsTwo(first, explicitId, base, attempts, 0);
        FirstCount(Wire(), id);
      }
    }

    lemma BeginsSpeaking()
      requires Recorded() && wrote == [HandshakeRequest(id)] && ValidAircraftId(id)
      ensures Speaking()
    {
      hide ValidAircraftId, HandshakeRequest, EncodeAll;
      FirstWords(Wire(), id);
    }

    /** Its loop. */
    method Retry(base: Word, attempts: seq<Attempt>) returns (ok: bool, ghost asked: seq<Packet>)
      requires |attempts| == MAX_AUTO_ID_ATTEMPTS
      requires forall i :: 0 <= i < |attempts| ==> attempts[i].socket !in sockets.channels
      modifies this, sockets
      ensures Settled(old(id), explicitId, base, attempts, asked, Connection(ok, id, state, socket, nextSequence))
      ensures running == (ok || old(running)) && transferring == old(transferring)
      ensures if ok then Recorded() && wrote == [HandshakeRequest(id)] else sockets.channels == old(sockets.channels)
    {
      ghost var first := id;
      StartsTrying(first, explicitId, base, attempts);
      hide *;
      ok, asked := false, [];
      var attempt, again := 0, true;
      while again
        invariant 0 <= attempt <= MAX_AUTO_ID_ATTEMPTS && (again ==> !ok && attempt < MAX_AUTO_ID_ATTEMPTS)
        invariant transferring == old(transferring) && running == (ok || old(running))
        invariant again ==> Trying(first, explicitId, base, attempts, asked, attempt, id)
        invariant !again ==>
          Settled(first, explicitId, base, attempts, asked, Connection(ok, id, state, socket, nextSequence))
        invariant
          if ok then Recorded() && wrote == [HandshakeRequest(id)] else sockets.channels == old(sockets.channels)
        decreases again, MAX_AUTO_ID_ATTEMPTS - attempt
      {
        ok, again, asked := MakeAttempt(first, base, attempts, attempt, asked);
        attempt := attempt + 1;
      }
    }

    /** One turn of the retry loop; `again` is its `continue`. */
    method MakeAttempt(ghost first: Text, base: Word, attempts: seq<Attempt>, attempt: nat, ghost before: seq<Packet>)
      returns (ok: bool, again: bool, ghost asked: seq<Packet>)
      requires Trying(first, explicitId, base, attempts, before, attempt, id)
      requires |attempts| == MAX_AUTO_ID_ATTEMPTS && attempt < MAX_AUTO_ID_ATTEMPTS
      requires attempts[attempt].socket !in sockets.channels
      modifies this`id, this`nextSequence, this`state, this`socket, this`running, this`wrote, sockets
      ensures running == (ok || old(running))
      ensures again ==> !ok && attempt + 1 < MAX_AUTO_ID_ATTEMPTS
      ensures again ==> Trying(first, explicitId, base, attempts, asked, attempt + 1, id)
      ensures !again ==>
        Settled(first, explicitId, base, attempts, asked, Connection(ok, id, state, socket, nextSequence))
      ensures if ok then Recorded() && wrote == [HandshakeRequest(id)] else sockets.channels == old(sockets.channels)
    {
      assert attempt + 1 < WORD;
      TryingOn(first, explicitId, base, attempts, before, attempt, id);
      hide *;
      ghost var built;
      var turnout;
      turnout, built := TryOnce(attempts[attempt]);
      asked := if built then before + [HandshakeRequest(id)] else before;
      ok, again := false, false;
      if turnout.Answered? {
        ok, again := Conclude(turnout.kind, base, attempt);
      }
    }

    /** What follows the answer: the session, the next identifier, or giving up. */
    method Conclude(kind: Byte, base: Word, attempt: nat) returns (ok: bool, again: bool)
      requires attempt < MAX_AUTO_ID_ATTEMPTS
      modifies this`id, this`state, this`socket, this`running, sockets
      ensures ok == (kind == HANDSHAKE_ACK)
      ensures again == (kind == HANDSHAKE_FAIL && !explicitId && attempt + 1 < MAX_AUTO_ID_ATTEMPTS)
      ensures running == (ok || old(running)) && id == if again then AutoId(base, attempt + 1) else old(id)
      ensures ok ==> state == CONNECTED && socket == old(socket) && sockets.channels == old(sockets.channels)
      ensures ok && old(Recorded()) ==> Recorded()
      ensures !ok && old(socket) != INVALID_SOCK ==> sockets.channels == old(sockets.channels) - {old(socket)}
      ensures !ok && old(socket) == INVALID_SOCK ==> sockets.channels == old(sockets.channels)
      ensures !ok ==> socket == INVALID_SOCK
      ensures !ok && !again ==> state == State.DISCONNECTED
    {
      hide AutoId, EncodeAll;
      if kind == HANDSHAKE_ACK {
        state := CONNECTED;
        running := true;
        return true, false;
      }
      CloseSocketIfOpen();
      var maxAttempts := if explicitId then 1 else MAX_AUTO_ID_ATTEMPTS;
      if kind == HANDSHAKE_FAIL && !explicitId && attempt + 1 < maxAttempts {
        id := AutoId(base, attempt + 1);
        return false, true;
      }
      state := State.DISCONNECTED;
      return false, false;
    }

    /** One attempt, as far as the answer to its handshake; `built` tells whether it came to build one. */
    method TryOnce(a: Attempt) returns (turnout: Turnout, ghost built: bool)
      requires a.socket !in sockets.channels
      modifies this`nextSequence, this`state, this`socket, this`wrote, sockets
      ensures turnout == TurnoutOf(a) && built == (turnout != Dead(1))
      ensures turnout.Dead? ==>
        && state == FAULT && socket == INVALID_SOCK && nextSequence == turnout.nextSequence
        && sockets.channels == old(sockets.channels)
      ensures turnout.Answered? ==>
        && built && nextSequence == 2 && socket == a.socket != INVALID_SOCK
        && Recorded() && wrote == [HandshakeRequest(id)]
        && sockets.channels - {socket} == old(sockets.channels)
    {
      hide HandshakeRequest, EncodeAll;
      nextSequence := 1;
      socket := a.socket;
      if socket == INVALID_SOCK {
        state := FAULT;
        return Dead(1), false;
      }
      state := HANDSHAKE_PENDING;
      if a.route.None? {
        state := FAULT;
        socket := INVALID_SOCK;
        return Dead(1), false;
      }
      var response := ShakeHands(a.route.value);
      assert sockets.channels - {socket} == old(sockets.channels);
      if response.None? {
        state := FAULT;
        CloseSocketIfOpen();
        return Dead(2), true;
      }
      return Turnout.Answered(response.value.kind), true;
    }

    /** On a new connection to `peer`: the request, and the 29 bytes of the answer. */
    method ShakeHands(peer: Peer) returns (response: Option<Header>)
      requires socket != INVALID_SOCK && socket !in sockets.channels && nextSequence == 1
      modifies this`nextSequence, this`wrote, sockets
      ensures nextSequence == 2 && socket in sockets.channels
      ensures sockets.channels == old(sockets.channels)[socket := Wire()]
      ensures response == if peer.window < HEADER_SIZE || |peer.arrived| < HEADER_SIZE then None
                          else Some(DecodeHeader(peer.arrived[..HEADER_SIZE]))
      ensures response.Some? ==> Recorded() && wrote == [HandshakeRequest(id)]
    {
      OpenConnection(peer);
      var handshake := CommandPacket(HANDSHAKE_REQUEST, id, nextSequence);
      HandshakeFits(Wire(), id);
      assert handshake == HandshakeRequest(id);
      hide EncodePacket, EncodeAll, CommandPacket, HandshakeRequest, CanWrite, Write, DecodeHeader, Read;
      nextSequence := Wrap(nextSequence + 1);
      var ok := SendPacketLocked(handshake);
      if !ok {
        return None;
      }
      response := ReceiveHeader();
    }

    /** The kernel's part of `connect`. */
    method OpenConnection(peer: Peer)
      requires socket !in sockets.channels
      modifies this`wrote, sockets
      ensures sockets.channels == old(sockets.channels)[socket := Channel(peer.arrived, peer.arrived, [], peer.window)]
      ensures wrote == [] && Recorded()
    {
      sockets.Open(socket);
      sockets.channels := sockets.channels[socket := Delivered(FRESH_CHANNEL, peer)];
      wrote := [];
      assert EncodeAll([]) == [] && [] + peer.arrived == peer.arrived;
    }

    method ReceiveHeader() returns (response: Option<Header>)
      requires socket in sockets.channels
      modifies sockets
      ensures sockets.channels == old(sockets.channels)[socket := Read(old(Wire()), HEADER_SIZE)]
      ensures response
        == if CanRead(old(Wire()), HEADER_SIZE) then Some(DecodeHeader(old(Wire()).inbox[..HEADER_SIZE])) else None
      ensures Wire().outbox == old(Wire()).outbox
    {
      hide DecodeHeader;
      var buffer := new Byte[HEADER_SIZE];
      var ok := sockets.RecvAll(socket, buffer, HEADER_SIZE);
      if !ok {
        return None;
      }
      assert buffer[..HEADER_SIZE] == buffer[..];
      return Some(DecodeHeader(buffer[..]));
    }

    method CloseSocketIfOpen()
      modifies this`socket, sockets
      ensures socket == INVALID_SOCK
      ensures sockets.channels
        == if old(socket) == INVALID_SOCK then old(sockets.channels) else old(sockets.channels) - {old(socket)}
    {
      if socket != INVALID_SOCK {
        sockets.Close(socket);
        socket := INVALID_SOCK;
      }
    }

    // -------------------------------------------------------------- sending

    /** Nothing of another packet can come between the header and the payload. */
    method SendPacketLocked(p: Packet) returns (ok: bool)
      requires socket in sockets.channels && p.WellFormed()
      modifies this`wrote, sockets
      ensures sockets.channels == old(sockets.channels)[socket := Write(old(Wire()), EncodePacket(p))]
      ensures ok <==> CanWrite(old(Wire()), EncodePacket(p))
      ensures wrote == if ok then old(wrote) + [p] else old(wrote)
      ensures old(Recorded()) && ok ==> Recorded()
      ensures old(Recorded()) ==> EncodeAll(wrote) <= Wire().outbox
    {
      ghost var was := Wire();
      WriteAppend(was, EncodeHeader(p.header), p.payload);
      if Recorded() {
        WireGrows(was, wrote, p);
      }
      assert EncodePacket(p) == EncodeHeader(p.header) + p.payload;
      hide EncodePacket, EncodeHeader, EncodeAll, Write, CanWrite;
      ok := sockets.SendAll(socket, EncodeHeader(p.header));
      if !ok {
        WriteStopped(was, EncodeHeader(p.header), p.payload);
        return false;
      }
      if p.header.size > 0 {
        ok := sockets.SendAll(socket, p.payload);
      } else {
        assert EncodePacket(p) == EncodeHeader(p.header);
      }
      if ok {
        wrote := wrote + [p];
      }
    }

    /** A packet of the protocol keeps the client to it, however much of the packet goes out. */
    method Say(p: Packet) returns (ok: bool)
      requires socket in sockets.channels && p.WellFormed() && IsSpoken(p, id)
      modifies this`wrote, sockets
      ensures sockets.channels == old(sockets.channels)[socket := Write(old(Wire()), EncodePacket(p))]
      ensures ok <==> CanWrite(old(Wire()), EncodePacket(p))
      ensures wrote == if ok then old(wrote) + [p] else old(wrote)
      ensures old(Recorded()) ==> EncodeAll(wrote) <= Wire().outbox && (ok ==> Recorded())
      ensures old(Speaking()) ==> Speaking()
      ensures old(CountsOn(Wire(), wrote, p.header.sequence)) ==> CountsOn(Wire(), wrote, Wrap(p.header.sequence + 1))
    {
      hide EncodeAll, EncodePacket, Write, CanWrite, Sound, IsSpoken, CountsOn;
      ghost var was, before := Wire(), wrote;
      ok := SendPacketLocked(p);
      if CountsOn(was, before, p.header.sequence) {
        SendCountsOn(was, before, p);
      }
      if old(Speaking()) {
        SendKeepsSound(was, before, id, p);
      }
    }

    /** The packet under the next number, which is thereby used up. */
    method Issue(p: Packet) returns (ok: bool)
      requires socket in sockets.channels && p.WellFormed() && IsSpoken(p, id) && p.header.sequence == nextSequence
      modifies this`nextSequence, this`wrote, sockets
      ensures sockets.channels == old(sockets.channels)[socket := Write(old(Wire()), EncodePacket(p))]
      ensures ok <==> CanWrite(old(Wire()), EncodePacket(p))
      ensures wrote == (if ok then old(wrote) + [p] else old(wrote)) && nextSequence == Wrap(old(nextSequence) + 1)
      ensures old(Recorded()) ==> EncodeAll(wrote) <= Wire().outbox && (ok ==> Recorded())
      ensures old(Speaking()) ==> Speaking()
      ensures old(Counting()) ==> Counting()
    {
      hide EncodeAll, EncodePacket, Write, CanWrite, Sound, IsSpoken, CountsOn, Wrap;
      nextSequence := Wrap(nextSequence + 1);
      ok := Say(p);
    }

    method RequestWeatherMap() returns (ok: bool)
      requires socket in sockets.channels
      modifies this`nextSequence, this`state, this`running, this`wrote, sockets
      ensures
        var p := MapRequest(id, old(nextSequence));
        && sockets.channels == old(sockets.channels)[socket := Write(old(Wire()), EncodePacket(p))]
        && (ok <==> CanWrite(old(Wire()), EncodePacket(p)))
        && wrote == (if ok then old(wrote) + [p] else old(wrote))
      ensures nextSequence == Wrap(old(nextSequence) + 1)
      ensures state == (if ok then old(state) else FAULT) && running == (ok && old(running))
      ensures old(Speaking()) ==> Speaking()
      ensures old(Counting()) ==> Counting()
      ensures old(Recorded()) ==> EncodeAll(wrote) <= Wire().outbox && (ok ==> Recorded())
    {
      var request := CommandPacket(LARGE_FILE, id, nextSequence);
      assert request == MapRequest(id, nextSequence);
      assert request.header.sequence == nextSequence;
      hide EncodePacket, EncodeAll, CommandPacket, MapRequest, Write, CanWrite, Sound, IsSpoken, CountsOn;
      PacketKinds(id, nextSequence);
      ok := Issue(request);
      if !ok {
        state := FAULT;
        running := false;
      }
    }

    /** One turn of `telemetryLoop`; `sample` are the 20 bytes that the flight simulation gave. */
    method SendTelemetry(sample: array<Byte>) returns (ok: bool)
      requires socket in sockets.channels && sample.Length == TELEMETRY_SIZE
      modifies this`nextSequence, this`state, this`running, this`wrote, sockets
      ensures
        var p := TelemetryPacket(id, old(nextSequence), sample[..]);
        && sockets.channels == old(sockets.channels)[socket := Write(old(Wire()), EncodePacket(p))]
        && (ok <==> CanWrite(old(Wire()), EncodePacket(p)))
        && wrote == (if ok then old(wrote) + [p] else old(wrote))
      ensures nextSequence == Wrap(old(nextSequence) + 1)
      ensures state == (if ok then State.TELEMETRY else FAULT) && running == (ok && old(running))
      ensures old(Speaking()) ==> Speaking()
      ensures old(Counting()) ==> Counting()
      ensures old(Recorded()) ==> EncodeAll(wrote) <= Wire().outbox && (ok ==> Recorded())
    {
      var checksum := ComputeChecksum(sample, TELEMETRY_SIZE);
      assert sample[..TELEMETRY_SIZE] == sample[..];
      var header := MakeHeader(Packets.TELEMETRY, id, nextSequence, TELEMETRY_SIZE, checksum);
      assert Packet(header, sample[..]) == TelemetryPacket(id, nextSequence, sample[..]);
      assert header.sequence == nextSequence;
      hide EncodePacket, EncodeAll, TelemetryPacket, MakeHeader, Write, CanWrite, Checksum, Sound, IsSpoken, CountsOn;
      TelemetryKind(id, nextSequence, sample[..]);
      ok := Issue(Packet(header, sample[..]));
      if ok {
        state := State.TELEMETRY;
      } else {
        state := FAULT;
        running := false;
      }
    }

    /** The first call says goodbye, and keeps the socket for what is still to come; the second closes it. */
    method DisconnectSession()
      requires socket != INVALID_SOCK ==> socket in sockets.channels
      modifies this, sockets
      ensures id == old(id) && running == (old(socket) == INVALID_SOCK && old(running))
      ensures transferring == (old(socket) == INVALID_SOCK && old(transferring))
      ensures if old(socket) == INVALID_SOCK || !old(running) then
          && socket == INVALID_SOCK && state == old(state) && nextSequence == old(nextSequence)
          && sockets.channels
            == (if old(socket) == INVALID_SOCK then old(sockets.channels) else old(sockets.channels) - {old(socket)})
        else
          && socket == old(socket) && state == State.DISCONNECTED && nextSequence == Wrap(old(nextSequence) + 1)
          && sockets.channels
            == old(sockets.channels)[socket := Write(old(Wire()), EncodePacket(Goodbye(id, old(nextSequence))))]
          && (old(Speaking()) ==> Speaking()) && (old(Counting()) ==> Counting())
          && (old(Recorded()) ==> EncodeAll(wrote) <= Wire().outbox)
    {
      if socket == INVALID_SOCK {
        return;
      }
      var wasRunning := running;
      running := false;
      if wasRunning {
        var goodbye := CommandPacket(DISCONNECT, id, nextSequence);
        assert goodbye == Goodbye(id, nextSequence);
        assert goodbye.header.sequence == nextSequence;
        hide EncodePacket, EncodeAll, CommandPacket, Goodbye, Write, CanWrite, Sound, IsSpoken, CountsOn;
        PacketKinds(id, nextSequence);
        var _ := Issue(goodbye);
        state := State.DISCONNECTED;
        transferring := false;
        return;
      }
      sockets.Close(socket);
      socket := INVALID_SOCK;
      transferring := false;
    }

    /**
     A session as the client's threads make it: turns of the telemetry loop and map requests in any
     order, until one cannot be sent or the user leaves; and perhaps one more sample after the goodbye,
     from a telemetry thread that had looked at `running` just before. What is on the wire is a conforming
     client's stream, numbered without a gap when one thread speaks at a time, followed by at most the
     beginning of one packet more of it.
     */
    method Converse(actions: seq<Action>, late: Option<seq<Byte>>)
      requires running && Speaking() && socket != INVALID_SOCK
      requires forall i :: 0 <= i < |actions| && actions[i].Sample? ==> |actions[i].data| == TELEMETRY_SIZE
      requires late.Some? ==> |late.value| == TELEMETRY_SIZE
      modifies this, sockets
      ensures id == old(id) && socket == old(socket) && socket in sockets.channels && !running
      ensures Conforming(wrote, id) && OnWire(Wire().outbox, wrote, id)
      ensures old(Counting()) ==> InSequence(wrote)
    {
      ghost var counting := Counting();
      hide EncodeAll, EncodePacket, Conforming, TelemetryPacket, Write, CanWrite, Sound, OnWire, InSequence;
      var i := 0;
      while i < |actions| && running
        invariant 0 <= i <= |actions| && id == old(id) && socket == old(socket) && Speaking()
        invariant counting ==> Counting()
        decreases |actions| - i
      {
        var ok;
        match actions[i] {
          case AskForMap =>
            ok := RequestWeatherMap();
          case Sample(data) =>
            ok := SendSample(data);
        }
        i := i + 1;
      }
      if running {
        DisconnectSession();
        if late.Some? {
          var _ := SendSample(late.value);
        }
      }
      SoundIsOnWire(Wire(), wrote, id);
    }

    method SendSample(data: seq<Byte>) returns (ok: bool)
      requires socket in sockets.channels && |data| == TELEMETRY_SIZE
      modifies this`nextSequence, this`state, this`running, this`wrote, sockets
      ensures socket in sockets.channels && (old(Speaking()) ==> Speaking()) && running == (ok && old(running))
      ensures old(Counting()) ==> Counting()
    {
      hide EncodeAll, EncodePacket, TelemetryPacket, Write, CanWrite, Sound, CountsOn;
      var sample := new Byte[TELEMETRY_SIZE](k requires 0 <= k < TELEMETRY_SIZE => data[k]);
      ok := SendTelemetry(sample);
    }

    // -------------------------------------------------------------- receiving

    /**
     `receiveLargeFile`, after the header was read; `saved` is what it writes to disk. Another thread may
     clear `running` at any moment; `stopped` tells that it was found cleared, after `taken` bytes.
     */
    method ReceiveLargeFile(header: Header, memory: bool)
      returns (saved: Option<seq<Byte>>, stopped: bool, ghost taken: nat)
      requires socket in sockets.channels
      modifies this`state, this`running, this`transferring, sockets
      ensures !stopped ==> saved == if memory then Arrival(old(Wire()), header) else None
      ensures !stopped ==>
        (saved.Some? <==>
          && memory && header.size <= |old(Wire()).inbox|
          && Checksum(old(Wire()).inbox[..header.size]) == header.checksum)
      ensures saved.Some? ==>
        header.size <= |old(Wire()).inbox| && saved.value == old(Wire()).inbox[..header.size]
      ensures !stopped ==> state == (if saved.Some? then CONNECTED else FAULT) && running == saved.Some?
      ensures !stopped ==> sockets.channels == old(sockets.channels)[
        socket := if memory then Read(old(Wire()), header.size) else old(Wire())]
      ensures stopped ==> memory && saved.None? && !running && state == LARGE_FILE_TRANSFER
      ensures stopped ==>
        taken <= header.size && sockets.channels == old(sockets.channels)[socket := Read(old(Wire()), taken)]
      ensures transferring == !memory
    {
      hide Checksum;
      transferring := true;
      state := LARGE_FILE_TRANSFER;
      stopped := false;
      if !memory {
        state := FAULT;
        running := false;
        assert sockets.channels == sockets.channels[socket := Wire()];
        return None, false, 0;
      }
      ghost var was := Wire();
      var payload := new Byte[header.size];
      var received: Word := 0;
      Interrupted();
      while received < header.size && running
        invariant 0 <= received <= header.size && received <= |was.inbox|
        invariant transferring && state == LARGE_FILE_TRANSFER
        invariant sockets.channels == old(sockets.channels)[socket := Read(was, received)]
        invariant payload[..received] == was.inbox[..received]
      {
        var chunkSize := if header.size - received < CHUNK_SIZE then header.size - received else CHUNK_SIZE;
        ghost var before := payload[..received];
        var bytes := sockets.Recv(socket, payload, received, chunkSize);
        Interrupted();
        if bytes <= 0 {
          transferring := false;
          if !running {
            return None, true, received;
          }
          state := FAULT;
          running := false;
          return None, false, received;
        }
        assert payload[..received] == before;
        ChunkRead(was, received, bytes);
        assert payload[..received + bytes] == payload[..received] + payload[received..received + bytes];
        received := received + bytes;
        Interrupted();
      }
      transferring := false;
      if !running {
        return None, true, received;
      }
      assert payload[..header.size] == payload[..];
      var checksum := ComputeChecksum(payload, header.size);
      if checksum != header.checksum {
        state := FAULT;
        running := false;
        return None, false, received;
      }
      state := CONNECTED;
      return Some(payload[..]), false, received;
    }

    /** What other threads may do between two steps of this one: end the session. */
    method Interrupted()
      modifies this`running
      ensures running ==> old(running)
    {
      if * {
        running := false;
      }
    }
  }
}
