/** What the invariant of the session table means for the operator, the black box and the peers. */
module TableTheorems {
  import opened Basics
  import opened Packets
  import opened SocketUtils
  import opened StateMachines
  import opened ClientSessions
  import opened Dashboards
  import opened SessionTable
  import opened TableInvariants
  import opened TableRuns
  import opened ServerSteps

  // ---------------------------------------------------------------- every run

  /**
   At every step, so at the head of the loop, every session is pending, connected or sending telemetry; it has an
   identifier exactly when it is verified; its key is its socket; and no two share an identifier.
   */
  lemma TableAlwaysSound(steps: seq<Step>, g: Handle, h: Handle)
    requires g in Execute(START, steps).links && h in Execute(START, steps).links
    ensures
      var links := Execute(START, steps).links;
      && links[h].s.State() in {HANDSHAKE_PENDING, CONNECTED, State.TELEMETRY}
      && (links[h].s.id != [] <==> IsVerified(links[h].s.State()))
      && (links[h].s.id != [] ==> ValidAircraftId(links[h].s.id))
      && links[h].s.socket == h
      && (g != h && links[h].s.id != [] ==> links[g].s.id != links[h].s.id)
  {
    Reachable(steps);
    hide BoardOk, BoxOk, EndOk, Execute;
    assert LinkOk(Execute(START, steps).links[h]);
  }

  /** The dashboard is a faithful cache of the table, and remembers the last sight of everyone who left. */
  lemma DashboardAlwaysAgrees(steps: seq<Step>)
    ensures
      var w := Execute(START, steps);
      && (forall h :: h in w.links && w.links[h].s.id != [] ==>
            var s := w.links[h].s;
            && s.id in w.board.aircraft
            && w.board.aircraft[s.id] == Entry(s.id, s.State(), true, s.telemetryValid, s.telemetry))
      && (forall id :: id in w.board.aircraft && !Owned(w.links, id) ==> IsLastSight(w.ended, w.board.aircraft[id], id))
      && (forall id :: id in w.board.aircraft ==> w.board.aircraft[id].aircraftId == id)
      && (forall i :: 0 <= i < |w.ended| && w.ended[i].s.id != [] ==> w.ended[i].s.id in w.board.aircraft)
  {
    Reachable(steps);
    hide *;
    BoardShowsLive(Execute(START, steps));
    BoardShowsGone(Execute(START, steps));
  }

  lemma BoardShowsLive(w: World)
    requires Inv(w)
    ensures forall h :: h in w.links && w.links[h].s.id != [] ==>
      var s := w.links[h].s;
      && s.id in w.board.aircraft
      && w.board.aircraft[s.id] == Entry(s.id, s.State(), true, s.telemetryValid, s.telemetry)
  {
    forall h | h in w.links && w.links[h].s.id != [] ensures IsVerified(w.links[h].s.State()) {
      assert LinkOk(w.links[h]);
    }
    hide LinkOk, EndsOk, BoxOk, UniqueIds, IsVerified;
  }

  lemma BoardShowsGone(w: World)
    requires Inv(w)
    ensures forall id :: id in w.board.aircraft && !Owned(w.links, id) ==>
      IsLastSight(w.ended, w.board.aircraft[id], id)
    ensures forall id :: id in w.board.aircraft ==> w.board.aircraft[id].aircraftId == id
    ensures forall i :: 0 <= i < |w.ended| && w.ended[i].s.id != [] ==> w.ended[i].s.id in w.board.aircraft
  {
    assert BoardOk(w) && EndsOk(w.ended);
    hide Inv, EndsOk, IsLastSight;
    forall id | id in w.board.aircraft && !Owned(w.links, id)
      ensures IsLastSight(w.ended, w.board.aircraft[id], id) && w.board.aircraft[id].aircraftId == id
    {
      SightOf(w.ended, w.board.aircraft[id], id);
      LastOfIsEnded(w.ended, id);
    }
  }

  /** The entry shows the last session the aircraft had, with the telemetry it had then, as gone. */
  ghost predicate IsLastSight(ended: seq<Link>, e: Entry, id: Text) {
    && e.state == DISCONNECTED && !e.connected
    && exists i :: 0 <= i < |ended| && ended[i].s.id == id && (forall j :: i < j < |ended| ==> ended[j].s.id != id)
         && e.telemetryValid == ended[i].s.telemetryValid && e.telemetry == ended[i].s.telemetry
  }

  lemma SightOf(ended: seq<Link>, e: Entry, id: Text)
    requires EndsOk(ended) && id != [] && LastOf(ended, id).Some? && e == EntryFor(LastOf(ended, id).value)
    ensures IsLastSight(ended, e, id)
  {
    var i := LastIndex(ended, id);
    assert EndOk(ended[i]);
    hide EndsOk, LastWords, MachineOk, FaultIsLast, LastOf;
  }

  lemma {:induction false} LastIndex(ended: seq<Link>, id: Text) returns (i: nat)
    requires LastOf(ended, id).Some?
    ensures i < |ended| && ended[i].s == LastOf(ended, id).value && ended[i].s.id == id
    ensures forall j :: i < j < |ended| ==> ended[j].s.id != id
  {
    i := |ended| - 1;
    if ended[i].s.id != id {
      i := LastIndex(ended[..i], id);
    }
  }

  lemma {:induction false} LastOfIsEnded(ended: seq<Link>, id: Text)
    requires LastOf(ended, id).Some?
    ensures exists i :: 0 <= i < |ended| && ended[i].s == LastOf(ended, id).value && ended[i].s.id == id
  {
    if ended[|ended| - 1].s.id != id {
      LastOfIsEnded(ended[..|ended| - 1], id);
    }
  }

  /**
   No transition the server asks for is ever refused, of any session, past or present; FAULT is
   always followed at once by DISCONNECTED and nothing more; and the two causes that only an illegal
   transition could give never reach the black box.
   */
  lemma TransitionsAlwaysLegal(steps: seq<Step>, l: Link)
    requires
      || l in Execute(START, steps).ended
      || exists h :: h in Execute(START, steps).links && l == Execute(START, steps).links[h]
    ensures NeverRefused(l.s.machine)
    ensures forall i :: 0 <= i < |Execute(START, steps).box| ==>
      && Execute(START, steps).box[i].cause != IllegalTelemetryState
      && Execute(START, steps).box[i].cause != IllegalFileTransferTransition
  {
    Reachable(steps);
    BoxCauses(Execute(START, steps).box, Execute(START, steps).ended);
    hide BoxOk, BoardOk, UniqueIds, Execute, CoreOk, EndOk;
    assert LinkOk(l) || EndOk(l);
    PathIsLegal(l);
  }

  ghost predicate NeverRefused(m: Machine) {
    && m.refusals == 0
    && (forall i :: 0 <= i < |m.path| - 1 ==> m.path[i] == m.path[i + 1] || (m.path[i], m.path[i + 1]) in EDGES)
    && (forall i :: 0 <= i < |m.path| && m.path[i] == FAULT ==> m.path[i..] == [FAULT, DISCONNECTED])
  }

  lemma PathIsLegal(l: Link)
    requires LinkOk(l) || EndOk(l)
    ensures NeverRefused(l.s.machine)
  {
    forall i | 0 <= i < |l.s.machine.path| - 1 {
      AllowedAreEdges(l.s.machine.path[i], l.s.machine.path[i + 1]);
    }
    hide LastWords, OnBoundary, EncodeAll, Verified, Pending, IsAllowed;
  }

  lemma {:induction false} BoxCauses(box: seq<FaultLine>, ended: seq<Link>)
    requires BoxOk(box, ended)
    ensures forall i :: 0 <= i < |box| ==>
      box[i].cause != IllegalTelemetryState && box[i].cause != IllegalFileTransferTransition
  {
    if ended != [] {
      var faulted := WasFaulted(ended[|ended| - 1].s);
      BoxCauses(if faulted then box[..|box| - 1] else box, ended[..|ended| - 1]);
    }
  }

  // ---------------------------------------------------------------- accounting

  /** The ways out of the table. */
  datatype Exit = Rejected | Disconnected | ByFault

  ghost function ExitOf(l: Link): Exit {
    if WasFaulted(l.s) then ByFault else if l.s.State() == HANDSHAKE_PENDING then Rejected else Disconnected
  }

  ghost function Count(ended: seq<Link>, e: Exit): nat {
    if ended == [] then 0 else Count(ended[..|ended| - 1], e) + (if ExitOf(ended[|ended| - 1]) == e then 1 else 0)
  }

  lemma {:induction false} ExitsPartition(ended: seq<Link>)
    ensures |ended| == Count(ended, Rejected) + Count(ended, Disconnected) + Count(ended, ByFault)
  {
    if ended != [] {
      ExitsPartition(ended[..|ended| - 1]);
    }
  }

  lemma {:induction false} BoxCounts(box: seq<FaultLine>, ended: seq<Link>)
    requires BoxOk(box, ended)
    ensures |box| == Count(ended, ByFault)
  {
    if ended != [] {
      var faulted := WasFaulted(ended[|ended| - 1].s);
      BoxCounts(if faulted then box[..|box| - 1] else box, ended[..|ended| - 1]);
    }
  }

  ghost predicate LeftProperly(s: Session, e: Exit) {
    match e
    case Rejected => s.id == [] && (s.sent == [] || (|s.sent| == 1 && s.sent[0].header.kind == HANDSHAKE_FAIL))
    case Disconnected => s.State() == DISCONNECTED && ValidAircraftId(s.id)
    case ByFault => s.State() == DISCONNECTED
  }

  /**
   Every connection ever taken is in the table or has left it in exactly one way, and the black box
   holds one line for each that faulted. Those turned away had no identity and were sent at most a
   HANDSHAKE_FAIL; those that disconnected had been verified.
   */
  lemma SessionsAreConserved(steps: seq<Step>)
    ensures
      var w := Execute(START, steps);
      && w.accepted == |w.links| + Count(w.ended, Rejected) + Count(w.ended, Disconnected) + Count(w.ended, ByFault)
      && |w.box| == Count(w.ended, ByFault)
      && forall i :: 0 <= i < |w.ended| ==> LeftProperly(w.ended[i].s, ExitOf(w.ended[i]))
  {
    Reachable(steps);
    var w := Execute(START, steps);
    hide Execute, BoardOk, UniqueIds, LinkOk;
    ExitsPartition(w.ended);
    BoxCounts(w.box, w.ended);
    hide BoxOk, Count, LastWords;
    forall i | 0 <= i < |w.ended| ensures LeftProperly(w.ended[i].s, ExitOf(w.ended[i])) {
      assert EndOk(w.ended[i]);
      EndLeftProperly(w.ended[i]);
    }
  }

  lemma EndLeftProperly(l: Link)
    requires EndOk(l)
    ensures LeftProperly(l.s, ExitOf(l))
  {
    hide EncodeAll;
  }

  // ---------------------------------------------------------------- the wire

  /**
   What a peer has been sent: nothing while pending; then one ACK, echoing its own sequence number,
   and weather maps that carry its identifier, the right checksum, and the numbers 1, 2, 3, ...
   modulo 2^32. The bytes on the wire are exactly those packets.
   */
  lemma CommandsFollowVerification(steps: seq<Step>, h: Handle)
    requires h in Execute(START, steps).links
    ensures
      var l := Execute(START, steps).links[h];
      && l.ch.outbox == EncodeAll(l.s.sent)
      && (l.s.State() == HANDSHAKE_PENDING <==> l.s.sent == [])
      && (l.s.sent != [] ==>
            && l.s.received != []
            && l.s.sent[0] == CommandPacket(HANDSHAKE_ACK, l.s.id, l.s.received[0].header.sequence)
            && l.s.id == ExtractId(l.s.received[0].header.aircraft))
      && (forall i :: 1 <= i < |l.s.sent| ==>
            var p := l.s.sent[i];
            && p.header.kind == LARGE_FILE && p.header.sequence == Wrap(i) && p.header.aircraft == IdField(l.s.id)
            && p.header.size == |p.payload| && p.header.checksum == Checksum(p.payload))
  {
    Reachable(steps);
    hide BoxOk, BoardOk, EndOk, UniqueIds, Execute, EncodeAll, Wrap, Checksum, IdField, ValidAircraftId;
    var s := Execute(START, steps).links[h].s;
    assert LinkOk(Execute(START, steps).links[h]);
    forall i | 1 <= i < |s.sent| ensures IsFile(s.sent[i], s.id, Wrap(i)) {
    }
  }

  /** Packet `i` of what was sent to the aircraft `id`: a weather map or, if `last`, a DISCONNECT, under its number. */
  ghost predicate Numbered(p: Packet, id: Text, i: nat, last: bool) {
    && p.header.sequence == Wrap(i) && p.header.aircraft == IdField(id)
    && p.header.size == |p.payload| && p.header.checksum == Checksum(p.payload)
    && (p.header.kind == LARGE_FILE || (last && p.header.kind == DISCONNECT && p.payload == []))
  }

  /**
   What a peer had been sent whole when its session ended: nothing, or one HANDSHAKE_FAIL and no name
   given, or one ACK first and then only weather maps, numbered 1, 2, 3, ... modulo 2^32, of which the
   last packet may be a DISCONNECT with the next number instead. On the wire there is nothing more, or a
   proper beginning of the packet that was due next.
   */
  lemma LastWordsFollowVerification(steps: seq<Step>, l: Link)
    requires l in Execute(START, steps).ended
    ensures EncodeAll(l.s.sent) <= l.ch.outbox && CutOff(l.s, l.ch)
    ensures
      || l.s.sent == []
      || (l.s.id == [] && |l.s.sent| == 1 && l.s.sent[0].header.kind == HANDSHAKE_FAIL)
      || (ValidAircraftId(l.s.id) && l.s.sent[0] == CommandPacket(HANDSHAKE_ACK, l.s.id, l.s.sent[0].header.sequence)
          && forall i :: 1 <= i < |l.s.sent| ==> Numbered(l.s.sent[i], l.s.id, i, i == |l.s.sent| - 1))
  {
    Reachable(steps);
    assert EndOk(l);
    hide Inv, Execute, MachineOk, FaultIsLast, ValidAircraftId, EncodeAll, FinishedStream, DueNext, Numbered;
    if l.s.sent != [] && l.s.id != [] {
      FinishedIsNumbered(l.s.sent, l.s.id);
    }
  }

  lemma FinishedIsNumbered(sent: seq<Packet>, id: Text)
    requires FinishedStream(sent, id)
    ensures sent != [] && sent[0] == CommandPacket(HANDSHAKE_ACK, id, sent[0].header.sequence)
    ensures forall i :: 1 <= i < |sent| ==> Numbered(sent[i], id, i, i == |sent| - 1)
  {
    assert Checksum([]) == 0;
    hide IdField, Wrap, Checksum;
    if !ServerStream(sent, id) {
      assert sent[..|sent| - 1][0] == sent[0];
    }
    forall i | 1 <= i < |sent| ensures Numbered(sent[i], id, i, i == |sent| - 1) {
      if !ServerStream(sent, id) && i < |sent| - 1 {
        assert sent[..|sent| - 1][i] == sent[i] && IsFile(sent[i], id, Wrap(i));
      } else if ServerStream(sent, id) {
        assert IsFile(sent[i], id, Wrap(i));
      }
    }
  }

  /**
   Framing is never lost: if all that ever arrived on a live connection is (the beginning of) some
   sequence of whole packets, what the server has read is the first of those packets, in order, and
   what it will read next begins with the one after.
   */
  lemma FramingIsKept(steps: seq<Step>, h: Handle, written: seq<Packet>)
    requires h in Execute(START, steps).links && AllWellFormed(written)
    requires Execute(START, steps).links[h].ch.delivered <= EncodeAll(written)
    ensures
      var l := Execute(START, steps).links[h];
      && |l.s.received| <= |written| && l.s.received == written[..|l.s.received|]
      && l.ch.inbox <= EncodeAll(written[|l.s.received|..])
  {
    Reachable(steps);
    assert LinkOk(Execute(START, steps).links[h]);
    ReadIsPrefix(Execute(START, steps).links[h].s, Execute(START, steps).links[h].ch, written);
  }

  lemma SplitPrefix(read: seq<Byte>, inbox: seq<Byte>, all: seq<Byte>) returns (rest: seq<Byte>)
    requires read + inbox <= all
    ensures all == read + rest && inbox <= rest
  {
    rest := all[|read|..];
    assert all[..|read|] == (read + inbox)[..|read|] == read;
    assert rest[..|inbox|] == (read + inbox)[|read|..] == inbox;
  }

  lemma ReadIsPrefix(s: Session, ch: Channel, written: seq<Packet>)
    requires OnBoundary(s, ch) && AllWellFormed(written) && ch.delivered <= EncodeAll(written)
    ensures |s.received| <= |written| && s.received == written[..|s.received|]
    ensures ch.inbox <= EncodeAll(written[|s.received|..])
  {
    hide EncodeAll, AllWellFormed;
    var rest := SplitPrefix(EncodeAll(s.received), ch.inbox, EncodeAll(written));
    BoundariesAgree(s.received, rest, written);
  }

  // ---------------------------------------------------------------- single steps

  /** Serving one socket is invisible to every other connection. */
  lemma OthersUntouched(w: World, h: Handle, file: File, at: int, g: Handle)
    requires g != h
    ensures g in Serve(w, h, file, at).links <==> g in w.links
    ensures g in w.links ==> Serve(w, h, file, at).links[g] == w.links[g]
  {
  }

  /** `w'` is `w` after the sessions at `late` timed out, in that order, and nothing else happened to the table. */
  ghost predicate Expired(w: World, w': World, late: seq<Handle>) {
    && w'.links == w.links - (set h | h in late)
    && |w'.ended| == |w.ended| + |late| && w'.ended[..|w.ended|] == w.ended
    && |w'.box| == |w.box| + |late| && w'.box[..|w.box|] == w.box
    && (forall i :: 0 <= i < |late| ==> late[i] in w.links && FellSilent(
          w.links[late[i]], w'.ended[|w.ended| + i], w'.box[|w.box| + i]))
  }

  ghost predicate FellSilent(was: Link, ended: Link, line: FaultLine) {
    && ended.ch == was.ch && ended.s == was.s.Moved(FAULT).Moved(DISCONNECTED)
    && line == FaultLine(SocketTimeout, was.s.State(), was.s.lastClientSequence)
  }

  /** Collect-then-remove: exactly the sessions timed out at `now` go, in ascending order, one fault line each. */
  lemma SweepIsExact(w: World, now: int) returns (late: seq<Handle>)
    ensures Ascending(late)
    ensures forall h :: h in late <==> h in w.links && TimedOut(w.links[h].s, now)
    ensures Expired(w, Sweep(w, now), late)
  {
    hide RefreshAll, ExpireAll, FellSilent;
    var keys := SortedKeys(w.links.Keys);
    late := TimedOutKeys(w.links, keys, now);
    assert forall h :: h in late <==> h in w.links && TimedOut(w.links[h].s, now);
    LateKeysDistinct(w.links, keys, now);
    assert forall i :: 0 <= i < |late| ==> w.links[late[i]].s.State() != FAULT;
    hide TimedOut, TimedOutKeys, SortedKeys, Ascending;
    ExpireAllExact(w.(board := RefreshAll(w.board, w.links, keys)), late);
    BoardIsAside(w, RefreshAll(w.board, w.links, keys), Sweep(w, now), late);
  }

  lemma BoardIsAside(w: World, board: Board, w': World, late: seq<Handle>)
    requires Expired(w.(board := board), w', late)
    ensures Expired(w, w', late)
  {
  }

  ghost predicate Ascending(keys: seq<Handle>) {
    forall i, j :: 0 <= i < j < |keys| ==> keys[i] < keys[j]
  }

  lemma {:induction false} LateKeysDistinct(links: map<Handle, Link>, keys: seq<Handle>, now: int)
    requires Ascending(keys)
    ensures Ascending(TimedOutKeys(links, keys, now))
  {
    if keys != [] {
      hide TimedOut;
      LateKeysDistinct(links, keys[..|keys| - 1], now);
      var before := TimedOutKeys(links, keys[..|keys| - 1], now);
      forall i | 0 <= i < |before| ensures before[i] < keys[|keys| - 1] {
        assert before[i] in before;
        var j :| 0 <= j < |keys| - 1 && keys[j] == before[i];
      }
      var late := TimedOutKeys(links, keys, now);
      assert late == before || late == before + [keys[|keys| - 1]];
    }
  }

  lemma ExpireIsExact(w: World, h: Handle)
    requires h in w.links && w.links[h].s.State() != FAULT
    ensures
      var w' := Expire(w, h);
      && w'.links == w.links - {h}
      && |w'.ended| == |w.ended| + 1 && w'.ended[..|w.ended|] == w.ended
      && |w'.box| == |w.box| + 1 && w'.box[..|w.box|] == w.box
      && FellSilent(w.links[h], w'.ended[|w.ended|], w'.box[|w.box|])
  {
  }

  lemma ExpiredOneMore(w: World, w1: World, before: seq<Handle>, h: Handle, w2: World)
    requires Expired(w, w1, before) && h in w.links
    requires w2.links == w1.links - {h}
    requires |w2.ended| == |w1.ended| + 1 && w2.ended[..|w1.ended|] == w1.ended
    requires |w2.box| == |w1.box| + 1 && w2.box[..|w1.box|] == w1.box
    requires FellSilent(w.links[h], w2.ended[|w1.ended|], w2.box[|w1.box|])
    ensures Expired(w, w2, before + [h])
  {
    hide FellSilent;
    var late, n, m := before + [h], |w.ended|, |w.box|;
    assert (set k | k in late) == (set k | k in before) + {h};
    forall i | 0 <= i < |late| ensures FellSilent(w.links[late[i]], w2.ended[n + i], w2.box[m + i]) {
      if i < |before| {
        assert late[i] == before[i] && w2.ended[n + i] == w1.ended[n + i] && w2.box[m + i] == w1.box[m + i];
      }
    }
  }

  lemma {:induction false} ExpireAllExact(w: World, keys: seq<Handle>)
    requires Ascending(keys)
    requires forall i :: 0 <= i < |keys| ==> keys[i] in w.links && w.links[keys[i]].s.State() != FAULT
    ensures Expired(w, ExpireAll(w, keys), keys)
  {
    if keys == [] {
      assert w.links - {} == w.links;
    } else {
      var before, h := keys[..|keys| - 1], keys[|keys| - 1];
      ExpireAllExact(w, before);
      var w1 := ExpireAll(w, before);
      assert keys == before + [h] && h !in before;
      hide FellSilent, Expire;
      ExpireIsExact(w1, h);
      ExpiredOneMore(w, w1, before, h, Expire(w1, h));
    }
  }

  /** The refresh selects an aircraft if nobody is selected and anybody is there. */
  lemma {:induction false} RefreshSelects(b: Board, links: map<Handle, Link>, keys: seq<Handle>)
    ensures b.selected != [] ==> RefreshAll(b, links, keys).selected == b.selected
    ensures (exists i :: 0 <= i < |keys| && keys[i] in links && links[keys[i]].s.id != []) ==>
      RefreshAll(b, links, keys).selected != []
  {
    if keys != [] {
      var init, h := keys[..|keys| - 1], keys[|keys| - 1];
      RefreshSelects(b, links, init);
      if exists i :: 0 <= i < |init| && init[i] in links && links[init[i]].s.id != [] {
        assert RefreshAll(b, links, init).selected != [];
      } else {
        assert forall i :: 0 <= i < |keys| - 1 ==> keys[i] == init[i];
      }
    }
    hide EntryFor;
  }

  lemma {:induction false} ExpiringKeepsSelection(w: World, keys: seq<Handle>)
    ensures w.board.selected != [] ==> ExpireAll(w, keys).board.selected == w.board.selected
  {
    if keys != [] {
      ExpiringKeepsSelection(w, keys[..|keys| - 1]);
    }
    hide EntryFor, Transition;
  }

  /** After a sweep somebody is selected if there was anybody to select; and a selection is not moved. */
  lemma SweepSelects(w: World, now: int)
    ensures w.board.selected != [] ==> Sweep(w, now).board.selected == w.board.selected
    ensures (exists h :: h in w.links && w.links[h].s.id != []) ==> Sweep(w, now).board.selected != []
  {
    var keys := SortedKeys(w.links.Keys);
    RefreshSelects(w.board, w.links, keys);
    ExpiringKeepsSelection(w.(board := RefreshAll(w.board, w.links, keys)), TimedOutKeys(w.links, keys, now));
    if h :| h in w.links && w.links[h].s.id != [] {
      assert h in keys;
      var i :| 0 <= i < |keys| && keys[i] == h;
    }
    hide SortedKeys, RefreshAll, ExpireAll, TimedOutKeys;
  }

  /** What the operator asks for is what the server will look for, and the operator touches nothing else. */
  lemma OperatorIsHeard(w: World, o: Operator)
    ensures
      var b := Operate(w, o).board;
      && Operate(w, o) == w.(board := b) && b.aircraft == w.board.aircraft
      && b.weatherRequest == (if o.weather == None then w.board.weatherRequest else o.weather.value)
      && b.disconnectRequest == (if o.disconnect == None then w.board.disconnectRequest else o.disconnect.value)
      && b.selected == (if o.selected == None then w.board.selected else o.selected.value)
  {
  }

  /** An operator's request is consumed by being looked at: looking again does nothing. */
  lemma RequestsActOnce(w: World, file: File, file': File, at: int, at': int)
    ensures TakeWeather(TakeWeather(w, file, at).w, file', at') == Passed(TakeWeather(w, file, at).w, true)
    ensures TakeDisconnect(TakeDisconnect(w, at).w, at') == Passed(TakeDisconnect(w, at).w, true)
  {
    SettledRequests(w, file, at);
    hide FindById, SendWeatherMap, Dismiss, Settle;
    var a, b := TakeWeather(w, file, at).w, TakeDisconnect(w, at).w;
    assert a.(board := a.board.(weatherRequest := [])) == a && b.(board := b.board.(disconnectRequest := [])) == b;
  }

  lemma SettledRequests(w: World, file: File, at: int)
    ensures TakeWeather(w, file, at).w.board.weatherRequest == []
    ensures TakeDisconnect(w, at).w.board.disconnectRequest == []
  {
    hide FindById, SendWeatherMap, Dismiss;
    var sender, leaver := FindById(w.links, w.board.weatherRequest), FindById(w.links, w.board.disconnectRequest);
    if sender.Some? {
      MapKeepsRequests(TurnOf(w.(board := w.board.(weatherRequest := [])), sender.value), file, at);
    }
    if leaver.Some? {
      DismissKeepsRequests(TurnOf(w.(board := w.board.(disconnectRequest := [])), leaver.value), at);
    }
  }

  lemma MapKeepsRequests(t: Turn, file: File, at: int)
    ensures SendWeatherMap(t, file, at).t.board.weatherRequest == t.board.weatherRequest
  {
    hide EncodePacket, EncodeHeader, FilePacket, EntryFor, Transition;
  }

  lemma DismissKeepsRequests(t: Turn, at: int)
    ensures Dismiss(t, at).t.board.disconnectRequest == t.board.disconnectRequest
  {
    hide EncodePacket, EncodeHeader, CommandPacket, EntryFor, Transition;
  }

  /** The session at `h` alone was sent one more weather map, or was faulted and removed. */
  ghost predicate Addressed(w: World, r: Passed, h: Handle, file: File) {
    && h in w.links
    && (forall g :: g in w.links && g != h ==> g in r.w.links && r.w.links[g] == w.links[g])
    && if r.onward then
         && file.Contents? && h in r.w.links && r.w.ended == w.ended && r.w.box == w.box
         && r.w.links[h].s.State() == CONNECTED
         && r.w.links[h].s.sent
           == w.links[h].s.sent + [FilePacket(w.links[h].s.id, Wrap(|w.links[h].s.sent|), file.data)]
       else
         && h !in r.w.links && |r.w.ended| == |w.ended| + 1 && WasFaulted(r.w.ended[|w.ended|].s)
  }

  /**
   A weather request reaches the one live session that has the identifier: it gets one map with the
   next number, or it is faulted. If nobody has the identifier nothing happens but the consumption.
   */
  lemma WeatherRequestIsAddressed(w: World, file: File, at: int)
    requires Inv(w)
    ensures
      var id := w.board.weatherRequest;
      if id == [] || !Owned(w.links, id) then
        TakeWeather(w, file, at) == Passed(w.(board := w.board.(weatherRequest := [])), true)
      else exists h :: h in w.links && w.links[h].s.id == id && Addressed(w, TakeWeather(w, file, at), h, file)
  {
    var id := w.board.weatherRequest;
    if id != [] && Owned(w.links, id) {
      OwnerIsFound(w.links, id);
      var h := FindById(w.links, id).value;
      WeatherReaches(w, h, file, at);
      hide Inv, FindById, TakeWeather, Addressed;
    }
  }

  lemma WeatherReaches(w: World, h: Handle, file: File, at: int)
    requires Inv(w) && w.board.weatherRequest != [] && FindById(w.links, w.board.weatherRequest) == Some(h)
    ensures h in w.links && w.links[h].s.id == w.board.weatherRequest && Addressed(w, TakeWeather(w, file, at), h, file)
  {
    OwnerIsVerified(w, w.board.weatherRequest);
    var w1 := w.(board := w.board.(weatherRequest := []));
    var r := SendWeatherMap(TurnOf(w1, h), file, at);
    assert IsVerified(w1.links[h].s.State());
    SendOutcome(TurnOf(w1, h), file, at);
    SettleAddressed(w, w1, h, r, file);
    hide Inv, FindById, SendWeatherMap, Settle, Controllable, TelemetryOk, Addressed, FilePacket, WasFaulted, Wrap;
  }

  /** What `SendWeatherMap` may return for the session `s`. */
  ghost predicate MapSent(s: Session, box: seq<FaultLine>, r: Served, file: File) {
    if r.keep then
      && file.Contents? && r.t.box == box && r.t.s.State() == CONNECTED
      && r.t.s.sent == s.sent + [FilePacket(s.id, Wrap(|s.sent|), file.data)]
    else WasFaulted(r.t.s)
  }

  lemma SettleAddressed(w: World, w1: World, h: Handle, r: Served, file: File)
    requires w1 == w.(board := w1.board) && h in w.links && MapSent(w.links[h].s, w.box, r, file)
    ensures Addressed(w, Passed(Settle(w1, h, r), r.keep), h, file)
  {
    hide FilePacket, WasFaulted, Wrap;
  }

  lemma OwnerIsFound(links: map<Handle, Link>, id: Text)
    requires Owned(links, id)
    ensures FindById(links, id).Some?
  {
    var h :| h in links && links[h].s.id == id;
    assert h in SortedKeys(links.Keys);
  }

  lemma SendOutcome(t: Turn, file: File, at: int)
    requires Controllable(t)
    ensures MapSent(t.s, t.box, SendWeatherMap(t, file, at), file)
  {
    assert Verified(t.s) && IsVerified(t.s.State()) && t.s.nextSequence == Wrap(|t.s.sent|);
    var t2 := Shown(t.(s := Pause(t.s).Moved(LARGE_FILE_TRANSFER)));
    FaultMarks(t2, WeatherMapMissing);
    FaultMarks(t2, WeatherMapReadFailure);
    if file.Contents? {
      TransferOutcome(t2, file.data, at);
    }
    hide Controllable, Verified, FilePacket, Wrap, Sync, Fault, WasFaulted, Transfer;
  }

  lemma TransferOutcome(t: Turn, data: FileBytes, at: int)
    requires t.s.State() == LARGE_FILE_TRANSFER
    ensures
      var r := Transfer(t, data, at);
      if r.keep then
        && r.t.box == t.box && r.t.s.State() == CONNECTED
        && r.t.s.sent == t.s.sent + [FilePacket(t.s.id, t.s.nextSequence, data)]
      else WasFaulted(r.t.s)
  {
    forall now: Turn, cause | now.s.State() == LARGE_FILE_TRANSFER ensures WasFaulted(Fault(now, cause).s) {
      FaultMarks(now, cause);
    }
    hide EncodePacket, EncodeHeader, FilePacket, Sync, Fault, WasFaulted;
  }

  lemma FaultMarks(t: Turn, cause: Cause)
    requires IsAllowed(t.s.State(), FAULT) && t.s.State() != FAULT
    ensures WasFaulted(Fault(t, cause).s)
  {
    hide Sync;
    var path := Fault(t, cause).s.machine.path;
    assert path[|path| - 2] == FAULT;
  }

  /** The session at `h` alone left: told so with a DISCONNECT that carries its next number, or faulted. */
  ghost predicate Dismissed(w: World, w': World, h: Handle) {
    && h in w.links && w'.links == w.links - {h}
    && |w'.ended| == |w.ended| + 1 && w'.ended[..|w.ended|] == w.ended
    && Farewell(w.links[h].s, w.box, w'.ended[|w.ended|].s, w'.box)
  }

  ghost predicate Farewell(was: Session, box: seq<FaultLine>, s: Session, box': seq<FaultLine>) {
    if WasFaulted(s) then |box'| == |box| + 1 && s.sent == was.sent
    else
      && box' == box && s.State() == State.DISCONNECTED
      && s.sent == was.sent + [CommandPacket(DISCONNECT, was.id, Wrap(|was.sent|))]
  }

  /**
   A disconnect request reaches the one live session that has the identifier, which leaves; any other
   changes nothing.
   */
  lemma DisconnectRequestIsAddressed(w: World, at: int)
    requires Inv(w)
    ensures
      var id := w.board.disconnectRequest;
      if id == [] || !Owned(w.links, id) then
        TakeDisconnect(w, at) == Passed(w.(board := w.board.(disconnectRequest := [])), true)
      else exists h :: h in w.links && w.links[h].s.id == id && Dismissed(w, TakeDisconnect(w, at).w, h)
  {
    var id := w.board.disconnectRequest;
    if id != [] && Owned(w.links, id) {
      OwnerIsFound(w.links, id);
      var h := FindById(w.links, id).value;
      DisconnectReaches(w, h, at);
      hide Inv, FindById, TakeDisconnect, Dismissed;
    }
  }

  lemma DisconnectReaches(w: World, h: Handle, at: int)
    requires Inv(w) && w.board.disconnectRequest != [] && FindById(w.links, w.board.disconnectRequest) == Some(h)
    ensures h in w.links && w.links[h].s.id == w.board.disconnectRequest && Dismissed(w, TakeDisconnect(w, at).w, h)
  {
    OwnerIsVerified(w, w.board.disconnectRequest);
    var w1 := w.(board := w.board.(disconnectRequest := []));
    var r := Dismiss(TurnOf(w1, h), at);
    assert IsVerified(w1.links[h].s.State());
    assert TakeDisconnect(w, at).w == Settle(w1, h, r);
    assert w1.links == w.links && w1.ended == w.ended && w1.box == w.box && TurnOf(w1, h).s == w.links[h].s;
    hide *;
    DismissOutcome(TurnOf(w1, h), at);
    SettleDismissed(w, w1, h, r);
  }

  lemma SettleDismissed(w: World, w1: World, h: Handle, r: Served)
    requires w1 == w.(board := w1.board) && h in w.links && !r.keep && Farewell(w.links[h].s, w.box, r.t.s, r.t.box)
    ensures Dismissed(w, Settle(w1, h, r), h)
  {
    hide Farewell;
  }

  lemma DismissOutcome(t: Turn, at: int)
    requires Controllable(t)
    ensures var r := Dismiss(t, at); !r.keep && Farewell(t.s, t.box, r.t.s, r.t.box)
  {
    hide EncodePacket, MakeHeader, EncodeAll, Wrap, ValidAircraftId, Sync, OnBoundary;
    var r := Dismiss(t, at);
    if !CanWrite(t.ch, EncodePacket(CommandPacket(DISCONNECT, t.s.id, t.s.nextSequence))) {
      var path := r.t.s.machine.path;
      assert path[|path| - 2] == FAULT;
    }
  }
}
