/**
 A client that keeps to the protocol, against the server's loop under any interleaving: it is never
 faulted, and every packet it writes is read, whole and in order, with the expected effect.
 */
module ConformingClients {
  import opened Basics
  import opened Packets
  import opened StateMachines
  import opened ClientSessions
  import opened Dashboards
  import opened SessionTable
  import opened TableInvariants
  import opened TableRuns
  import opened TableTheorems
  import opened Connecting

  // ---------------------------------------------------------------- what a client may write

  ghost predicate IsTelemetry(p: Packet, id: Text) {
    |p.payload| == TELEMETRY_SIZE && p == TelemetryPacket(id, p.header.sequence, p.payload)
  }

  ghost predicate IsMapRequest(p: Packet, id: Text) {
    p == MapRequest(id, p.header.sequence)
  }

  ghost predicate IsGoodbye(p: Packet, id: Text) {
    p == Goodbye(id, p.header.sequence)
  }

  /**
   One handshake, then telemetry, map requests and goodbyes in any order. The sequence numbers after
   the first are free: two threads draw them and a third order may reach the wire. A goodbye need not be
   the last: the telemetry thread may have a packet under way when another thread says it.
   */
  ghost predicate Conforming(ps: seq<Packet>, id: Text) {
    && ValidAircraftId(id) && ps != [] && ps[0] == HandshakeRequest(id)
    && forall i :: 1 <= i < |ps| ==> IsTelemetry(ps[i], id) || IsMapRequest(ps[i], id) || IsGoodbye(ps[i], id)
  }

  /** How many packets there are to hear: up to the first goodbye and with it, or all. */
  function Audible(ps: seq<Packet>): (n: nat)
    ensures n <= |ps|
    ensures forall i :: 0 <= i < n - 1 ==> ps[i].header.kind != DISCONNECT
    ensures n < |ps| ==> n > 0 && ps[n - 1].header.kind == DISCONNECT
  {
    if ps == [] then 0
    else if ps[0].header.kind == DISCONNECT then 1
    else 1 + Audible(ps[1..])
  }

  ghost predicate NoGoodbye(ps: seq<Packet>) {
    forall i :: 0 <= i < |ps| ==> ps[i].header.kind != DISCONNECT
  }

  /** Before the first goodbye, every packet is to be heard; it is the last. */
  lemma HeardSoFar(ps: seq<Packet>, n: nat)
    requires n <= |ps| && NoGoodbye(ps[..n])
    ensures n <= Audible(ps)
    ensures n == Audible(ps) ==> n == |ps|
    ensures n < |ps| && ps[n].header.kind == DISCONNECT ==> Audible(ps) == n + 1
  {
    assert forall i :: 0 <= i < n ==> ps[..n][i] == ps[i];
  }

  lemma ConformingIsWellFormed(ps: seq<Packet>, id: Text)
    requires Conforming(ps, id)
    ensures AllWellFormed(ps)
  {
    hide IdField, ValidAircraftId, Checksum;
    forall i | 0 <= i < |ps| ensures ps[i].WellFormed() {
      assert i == 0 || IsTelemetry(ps[i], id) || IsMapRequest(ps[i], id) || IsGoodbye(ps[i], id);
    }
  }

  // ---------------------------------------------------------------- one packet

  /**
   The session at `h` is in the table, all that arrived for it so far is the beginning of the client's
   stream, and it has not read a goodbye.
   */
  ghost predicate Healthy(w: World, h: Handle, ps: seq<Packet>) {
    && Inv(w) && h in w.links && w.links[h].ch.delivered <= EncodeAll(ps)
    && NoGoodbye(w.links[h].s.received)
  }

  /** The packet the server will read next. */
  ghost predicate IsNext(l: Link, ps: seq<Packet>, p: Packet) {
    |l.s.received| < |ps| && ps[|l.s.received|] == p
  }

  /** It will arrive whole: a `recv` that waits for the rest of it gets the rest. */
  ghost predicate NextArrives(l: Link, ps: seq<Packet>) {
    |l.s.received| < |ps| && |EncodePacket(ps[|l.s.received|])| <= |l.ch.inbox|
  }

  /** What the packet asks of the world: a free identifier, a readable map, room to send. */
  ghost predicate Answerable(w: World, h: Handle, p: Packet, file: File)
    requires h in w.links
  {
    && (p.header.kind == HANDSHAKE_REQUEST ==>
          !Owned(w.links, ExtractId(p.header.aircraft)) && w.links[h].ch.window >= HEADER_SIZE)
    && (p.header.kind == LARGE_FILE ==>
          file.Contents? && w.links[h].ch.window >= HEADER_SIZE + |file.data|)
  }

  function ExpectedState(p: Packet): State {
    if p.header.kind == Packets.TELEMETRY then State.TELEMETRY
    else if p.header.kind == DISCONNECT then State.DISCONNECTED else CONNECTED
  }

  /** The packet was read, whole, from the stream of `l`, and the session is where it should be. */
  ghost predicate Consumed(l: Link, l': Link, p: Packet) {
    && l.ch.inbox == EncodePacket(p) + l'.ch.inbox && l'.ch.delivered == l.ch.delivered
    && l'.s.received == l.s.received + [p]
    && l'.s.State() == ExpectedState(p)
  }

  lemma HeadOfInbox(l: Link, ps: seq<Packet>) returns (rest: seq<Byte>)
    requires OnBoundary(l.s, l.ch) && AllWellFormed(ps) && l.ch.delivered <= EncodeAll(ps) && NextArrives(l, ps)
    ensures l.ch.inbox == EncodePacket(ps[|l.s.received|]) + rest
    ensures l.s.received == ps[..|l.s.received|]
  {
    ReadIsPrefix(l.s, l.ch, ps);
    var n := |l.s.received|;
    EncodeAllFront(ps[n..]);
    var p := EncodePacket(ps[n]);
    hide EncodeAll, EncodePacket, OnBoundary, AllWellFormed;
    rest := l.ch.inbox[|p|..];
    assert l.ch.inbox[..|p|] == EncodeAll(ps[n..])[..|p|] == p;
  }

  /** The turn once packet `p` was taken off its stream. */
  function Taken(t: Turn, p: Packet, rest: seq<Byte>, at: int): Turn {
    t.(s := t.s.PacketReceived(p.header.sequence, at).(received := t.s.received + [p]), ch := t.ch.(inbox := rest))
  }

  /** A verified session that finds a sound packet at the head of its stream acts on exactly that packet. */
  lemma ProcessIsDispatch(t: Turn, links: map<Handle, Link>, p: Packet, rest: seq<Byte>, file: File, at: int)
    requires t.s.State() != HANDSHAKE_PENDING && p.WellFormed() && Checksum(p.payload) == p.header.checksum
    requires t.ch.inbox == EncodePacket(p) + rest
    ensures Process(t, links, file, at) == Dispatch(Taken(t, p, rest, at), p, file, at)
  {
    HeaderRoundTrip(p.header);
    hide EncodeHeader, DecodeHeader, Checksum, Dispatch, Fault;
    assert t.ch.inbox[..HEADER_SIZE] == EncodeHeader(p.header);
    assert t.ch.inbox[HEADER_SIZE..] == p.payload + rest;
    assert (p.payload + rest)[..|p.payload|] == p.payload && (p.payload + rest)[|p.payload|..] == rest;
  }

  /** The session goes on, or leaves unharmed; nothing is added to the black box. */
  ghost predicate Unharmed(t: Turn, r: Served) {
    && r.t.box == t.box && r.t.ch.inbox == t.ch.inbox
    && r.t.ch.delivered == t.ch.delivered && r.t.s.received == t.s.received
  }

  lemma MapGoesOut(t: Turn, file: File, at: int)
    requires IsVerified(t.s.State()) && file.Contents? && t.ch.window >= HEADER_SIZE + |file.data|
    ensures
      var r := SendWeatherMap(t, file, at);
      r.keep && Unharmed(t, r) && r.t.s.State() == CONNECTED && r.t.s.id == t.s.id
  {
    hide EncodeHeader, MakeHeader, Checksum, Sync, Fault;
  }

  lemma DispatchConforming(t: Turn, p: Packet, id: Text, file: File, at: int)
    requires IsVerified(t.s.State())
    requires IsTelemetry(p, id) || IsMapRequest(p, id) || IsGoodbye(p, id)
    requires p.header.kind == LARGE_FILE ==> file.Contents? && t.ch.window >= HEADER_SIZE + |file.data|
    ensures
      var r := Dispatch(t, p, file, at);
      Unharmed(t, r) && r.keep == (p.header.kind != DISCONNECT) && r.t.s.State() == ExpectedState(p)
  {
    if p.header.kind == LARGE_FILE {
      MapGoesOut(t, file, at);
    }
    hide IdField, Checksum, Sync, SendWeatherMap, Fault;
  }

  lemma TurnConforming(w: World, h: Handle, p: Packet, id: Text, rest: seq<Byte>, file: File, at: int)
    requires h in w.links && IsVerified(w.links[h].s.State()) && p.WellFormed()
    requires IsTelemetry(p, id) || IsMapRequest(p, id) || IsGoodbye(p, id)
    requires Answerable(w, h, p, file) && w.links[h].ch.inbox == EncodePacket(p) + rest
    ensures
      var r := Process(TurnOf(w, h), w.links, file, at);
      && r.keep == (p.header.kind != DISCONNECT) && r.t.box == w.box
      && Consumed(w.links[h], Link(r.t.s, r.t.ch), p)
  {
    assert Checksum(p.payload) == p.header.checksum by {
      hide IdField;
      assert Checksum([]) == 0;
    }
    var t := TurnOf(w, h);
    ProcessIsDispatch(t, w.links, p, rest, file, at);
    hide Dispatch, Process, Checksum, EncodePacket, MakeHeader, Owned;
    DispatchConforming(Taken(t, p, rest, at), p, id, file, at);
  }

  /** The handshake is taken from a pending session, any other packet from a verified one. */
  lemma PositionDecides(l: Link, ps: seq<Packet>, id: Text)
    requires LinkOk(l) && Conforming(ps, id) && |l.s.received| < |ps|
    ensures if l.s.received == [] then l.s.State() == HANDSHAKE_PENDING else IsVerified(l.s.State())
  {
    hide OnBoundary, MachineOk, ServerStream, ValidAircraftId, TelemetryOk, TimersOk, Conforming;
  }

  lemma ServedAsExpected(w: World, h: Handle, ps: seq<Packet>, id: Text, file: File, at: int) returns (p: Packet)
    requires Healthy(w, h, ps) && Conforming(ps, id) && NextArrives(w.links[h], ps)
    requires Answerable(w, h, ps[|w.links[h].s.received|], file)
    ensures IsNext(w.links[h], ps, p) && w.links[h].s.received == ps[..|w.links[h].s.received|]
    ensures
      var r := Process(TurnOf(w, h), w.links, file, at);
      && r.keep == (p.header.kind != DISCONNECT) && r.t.box == w.box
      && Consumed(w.links[h], Link(r.t.s, r.t.ch), p)
  {
    var l := w.links[h];
    assert LinkOk(l) && OnBoundary(l.s, l.ch);
    ConformingIsWellFormed(ps, id);
    var rest := HeadOfInbox(l, ps);
    PositionDecides(l, ps, id);
    p := ps[|l.s.received|];
    assert p.WellFormed() && IsNext(l, ps, p) && Answerable(w, h, p, file) && ValidAircraftId(id);
    assert if l.s.received == [] then p == HandshakeRequest(id)
      else IsTelemetry(p, id) || IsMapRequest(p, id) || IsGoodbye(p, id);
    hide *;
    if l.s.received == [] {
      HandshakeConsumed(w, h, id, rest, file, at);
    } else {
      TurnConforming(w, h, p, id, rest, file, at);
    }
  }

  lemma HandshakeConsumed(w: World, h: Handle, id: Text, rest: seq<Byte>, file: File, at: int)
    requires h in w.links && w.links[h].s.State() == HANDSHAKE_PENDING && ValidAircraftId(id)
    requires Answerable(w, h, HandshakeRequest(id), file)
    requires w.links[h].ch.inbox == EncodePacket(HandshakeRequest(id)) + rest
    ensures
      var r := Process(TurnOf(w, h), w.links, file, at);
      && r.keep && r.t.box == w.box && Consumed(w.links[h], Link(r.t.s, r.t.ch), HandshakeRequest(id))
  {
    var t := TurnOf(w, h);
    IdRoundTrip(id);
    assert |id| == 6 && 0 !in id;
    hide ValidAircraftId, EncodePacket, IdField, ExtractId, Process, IdInUse, Owned;
    FreeIsNotInUse(w.links, t.s.socket, id);
    RequestIsServed(t, w.links, id, false, rest, file, at);
  }

  lemma FreeIsNotInUse(links: map<Handle, Link>, h: Handle, id: Text)
    requires !Owned(links, id)
    ensures !IdInUse(links, h, id)
  {
  }

  /** The session at `h` left cleanly, having read all that its client wrote up to its goodbye. */
  ghost predicate LeftCleanly(s: Session, h: Handle, ps: seq<Packet>) {
    && s.socket == h && s.State() == State.DISCONNECTED && !WasFaulted(s)
    && s.received == ps[..Audible(ps)] && s.received != []
    && s.received[|s.received| - 1].header.kind == DISCONNECT
  }

  /**
   The server reads the client's next packet: it adds nothing to the black box, leaves the session in
   the state that belongs to the packet with its position right after it, or, on a goodbye, lets it go.
   */
  lemma PacketIsServed(w: World, h: Handle, ps: seq<Packet>, id: Text, file: File, at: int) returns (p: Packet)
    requires Healthy(w, h, ps) && Conforming(ps, id) && NextArrives(w.links[h], ps)
    requires Answerable(w, h, ps[|w.links[h].s.received|], file)
    ensures IsNext(w.links[h], ps, p)
    ensures
      var w' := Serve(w, h, file, at);
      && w'.box == w.box
      && if p.header.kind == DISCONNECT then
           h !in w'.links && |w'.ended| == |w.ended| + 1 && LeftCleanly(w'.ended[|w.ended|].s, h, ps)
         else
           Healthy(w', h, ps) && Consumed(w.links[h], w'.links[h], p)
  {
    p := ServedAsExpected(w, h, ps, id, file, at);
    var r := Process(TurnOf(w, h), w.links, file, at);
    if r.keep {
      StaysHealthy(w, h, ps, p, file, at);
    } else {
      LeavesCleanly(w, h, ps, id, p, file, at);
      Goes(w, h, r);
      assert Serve(w, h, file, at) == Settle(w, h, r);
    }
    hide *;
  }

  lemma Goes(w: World, h: Handle, r: Served)
    requires h in w.links && !r.keep
    ensures
      var w' := Settle(w, h, r);
      h !in w'.links && w'.box == r.t.box && |w'.ended| == |w.ended| + 1 && w'.ended[|w.ended|].s == r.t.s
  {
  }

  lemma StaysHealthy(w: World, h: Handle, ps: seq<Packet>, p: Packet, file: File, at: int)
    requires Healthy(w, h, ps) && IsNext(w.links[h], ps, p) && p.header.kind != DISCONNECT
    requires
      var r := Process(TurnOf(w, h), w.links, file, at);
      r.keep && r.t.box == w.box && Consumed(w.links[h], Link(r.t.s, r.t.ch), p)
    ensures
      var w' := Serve(w, h, file, at);
      w'.box == w.box && Healthy(w', h, ps) && Consumed(w.links[h], w'.links[h], p)
  {
    var r := Process(TurnOf(w, h), w.links, file, at);
    assert Inv(w) && h in w.links && Serve(w, h, file, at) == Settle(w, h, r);
    hide *;
    ServeInv(w, h, file, at);
    Stays(w, h, r);
    HealthyStill(w, Serve(w, h, file, at), h, ps, p);
  }

  lemma Stays(w: World, h: Handle, r: Served)
    requires h in w.links && r.keep
    ensures var w' := Settle(w, h, r); h in w'.links && w'.links[h] == Link(r.t.s, r.t.ch) && w'.box == r.t.box
  {
  }

  lemma HealthyStill(w: World, w': World, h: Handle, ps: seq<Packet>, p: Packet)
    requires Healthy(w, h, ps) && IsNext(w.links[h], ps, p) && p.header.kind != DISCONNECT
    requires Inv(w') && h in w'.links && Consumed(w.links[h], w'.links[h], p)
    ensures Healthy(w', h, ps)
  {
    hide Inv, EncodeAll, EncodePacket, ExpectedState;
  }

  lemma LeavesCleanly(w: World, h: Handle, ps: seq<Packet>, id: Text, p: Packet, file: File, at: int)
    requires Healthy(w, h, ps) && Conforming(ps, id)
    requires IsNext(w.links[h], ps, p) && w.links[h].s.received == ps[..|w.links[h].s.received|]
    requires
      var r := Process(TurnOf(w, h), w.links, file, at);
      !r.keep && p.header.kind == DISCONNECT && r.t.box == w.box && Consumed(w.links[h], Link(r.t.s, r.t.ch), p)
    ensures LeftCleanly(Process(TurnOf(w, h), w.links, file, at).t.s, h, ps)
  {
    var l, t, r := w.links[h], TurnOf(w, h), Process(TurnOf(w, h), w.links, file, at);
    assert LinkOk(l) && l.s.socket == h && NoGoodbye(l.s.received);
    ProcessEffect(t, w.links, file, at);
    QuietIsUnfaulted(t, w.links, r);
    hide *;
    ReadItAll(l, Link(r.t.s, r.t.ch), h, ps, p);
  }

  lemma ReadItAll(l: Link, l': Link, h: Handle, ps: seq<Packet>, p: Packet)
    requires IsNext(l, ps, p) && l.s.received == ps[..|l.s.received|] && NoGoodbye(l.s.received)
    requires Consumed(l, l', p) && p.header.kind == DISCONNECT && l'.s.socket == h && !WasFaulted(l'.s)
    ensures LeftCleanly(l'.s, h, ps)
  {
    hide WasFaulted, EncodePacket, NoGoodbye;
    HeardSoFar(ps, |l.s.received|);
    assert ps[..|l.s.received|] + [p] == ps[..|l.s.received| + 1];
  }

  /** A turn that leaves the black box alone faulted nobody. */
  lemma QuietIsUnfaulted(t: Turn, links: map<Handle, Link>, r: Served)
    requires Effect(t, links, r) && !r.keep && r.t.box == t.box
    ensures !WasFaulted(r.t.s) && r.t.s.socket == t.s.socket
  {
    hide EndOk, LinkOk, Sync, WasFaulted, IdInUse;
  }
}
