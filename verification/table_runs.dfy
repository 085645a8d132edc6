/** What every run of the server keeps: the table, the dashboard and the black box agree at every step. */
module TableRuns {
  import opened Basics
  import opened Packets
  import opened SocketUtils
  import opened StateMachines
  import opened ClientSessions
  import opened Dashboards
  import opened SessionTable
  import opened TableInvariants

  ghost predicate UniqueIds(links: map<Handle, Link>) {
    forall g, h :: g in links && h in links && g != h && links[g].s.id != [] ==> links[g].s.id != links[h].s.id
  }

  ghost predicate Owned(links: map<Handle, Link>, id: Text) {
    exists h :: h in links && links[h].s.id == id
  }

  /** The last session with this identifier to leave. */
  function LastOf(ended: seq<Link>, id: Text): Option<Session> {
    if ended == [] then None
    else if ended[|ended| - 1].s.id == id then Some(ended[|ended| - 1].s)
    else LastOf(ended[..|ended| - 1], id)
  }

  /**
   The dashboard is exactly this function of the table and its history: an aircraft with a live
   session shows that session, any other shows the last session it had, and none is ever dropped.
   */
  ghost predicate BoardOk(w: World) {
    && [] !in w.board.aircraft
    && (forall h :: h in w.links && w.links[h].s.id != [] ==>
          w.links[h].s.id in w.board.aircraft && w.board.aircraft[w.links[h].s.id] == EntryFor(w.links[h].s))
    && (forall id :: id in w.board.aircraft && !Owned(w.links, id) ==>
          LastOf(w.ended, id).Some? && w.board.aircraft[id] == EntryFor(LastOf(w.ended, id).value))
    && (forall i :: 0 <= i < |w.ended| && w.ended[i].s.id != [] ==> w.ended[i].s.id in w.board.aircraft)
  }

  /** The black box has one line for each faulted session, in the order they left, and no other. */
  ghost predicate BoxOk(box: seq<FaultLine>, ended: seq<Link>) {
    if ended == [] then box == []
    else
      var s, rest := ended[|ended| - 1].s, ended[..|ended| - 1];
      if WasFaulted(s) then box != [] && LineFits(box[|box| - 1], s) && BoxOk(box[..|box| - 1], rest)
      else BoxOk(box, rest)
  }

  /** Each session is in order, under its own open socket. */
  ghost predicate LinksOk(links: map<Handle, Link>) {
    forall h :: h in links ==> links[h].s.socket == h != INVALID_SOCK && LinkOk(links[h])
  }

  ghost predicate EndsOk(ended: seq<Link>) {
    forall i :: 0 <= i < |ended| ==> EndOk(ended[i])
  }

  ghost predicate Inv(w: World) {
    && LinksOk(w.links)
    && EndsOk(w.ended)
    && UniqueIds(w.links)
    && BoardOk(w)
    && BoxOk(w.box, w.ended)
    && w.accepted == |w.links| + |w.ended|
  }

  // ---------------------------------------------------------------- one turn, seen from the table

  lemma SettleUnique(w: World, h: Handle, r: Served)
    requires Inv(w) && h in w.links && Effect(TurnOf(w, h), w.links, r)
    ensures UniqueIds(Settle(w, h, r).links)
    ensures r.t.s.id != [] ==> forall g :: g in w.links && g != h ==> w.links[g].s.id != r.t.s.id
  {
    hide EndOk, BoardOk, BoxOk, Sync, BoxGrows;
    forall g | g in w.links && g != h && r.t.s.id != [] ensures w.links[g].s.id != r.t.s.id {
      assert LinkOk(w.links[g]);
    }
  }

  /** A claim by `s` for the entry of its aircraft, which nobody but the session at `h` holds. */
  ghost predicate Claims(w: World, h: Handle, s: Session) {
    && h in w.links && (s.id == w.links[h].s.id || w.links[h].s.id == [])
    && (s.id != [] ==> forall g :: g in w.links && g != h ==> w.links[g].s.id != s.id)
  }

  lemma KeepBoard(w: World, h: Handle, l: Link)
    requires BoardOk(w) && Claims(w, h, l.s)
    ensures BoardOk(w.(links := w.links[h := l], board := Sync(w.board, l.s)))
  {
    hide EntryFor;
    var w' := w.(links := w.links[h := l], board := Sync(w.board, l.s));
    assert w'.links[h].s.id == l.s.id;
    forall id | id != [] && id != l.s.id && Owned(w.links, id) ensures Owned(w'.links, id) {
      var g :| g in w.links && w.links[g].s.id == id;
      assert w'.links[g] == w.links[g];
    }
  }

  lemma CloseBoard(w: World, h: Handle, l: Link)
    requires BoardOk(w) && Claims(w, h, l.s)
    ensures BoardOk(w.(links := w.links - {h}, board := Sync(w.board, l.s), ended := w.ended + [l]))
  {
    var w' := w.(links := w.links - {h}, board := Sync(w.board, l.s), ended := w.ended + [l]);
    OwnersStay(w, h, l.s);
    LastOfMore(w.ended, l);
    hide EntryFor, Owned, LastOf;
  }

  lemma OwnersStay(w: World, h: Handle, s: Session)
    requires Claims(w, h, s)
    ensures forall id :: id != [] && id != s.id && Owned(w.links, id) ==> Owned(w.links - {h}, id)
  {
    forall id | id != [] && id != s.id && Owned(w.links, id) ensures Owned(w.links - {h}, id) {
      var g :| g in w.links && w.links[g].s.id == id;
      assert (w.links - {h})[g] == w.links[g];
    }
  }

  lemma LastOfMore(ended: seq<Link>, l: Link)
    ensures forall id :: LastOf(ended + [l], id) == if l.s.id == id then Some(l.s) else LastOf(ended, id)
  {
    assert (ended + [l])[..|ended|] == ended;
  }

  lemma SettleBoard(w: World, h: Handle, r: Served)
    requires Inv(w) && h in w.links && Effect(TurnOf(w, h), w.links, r)
    ensures BoardOk(Settle(w, h, r))
  {
    SettleUnique(w, h, r);
    hide EndOk, BoxOk, BoxGrows, LinkOk, EntryFor, UniqueIds, Sync;
    var l := Link(r.t.s, r.t.ch);
    KeepBoard(w, h, l);
    CloseBoard(w, h, l);
    if r.keep {
      BoardOkSame(w.(links := w.links[h := l], board := Sync(w.board, l.s)), Settle(w, h, r));
    } else {
      BoardOkSame(w.(links := w.links - {h}, board := Sync(w.board, l.s), ended := w.ended + [l]), Settle(w, h, r));
    }
  }

  lemma BoardOkSame(w: World, w': World)
    requires BoardOk(w) && w'.links == w.links && w'.board.aircraft == w.board.aircraft && w'.ended == w.ended
    ensures BoardOk(w')
  {
  }

  lemma SettleBox(w: World, h: Handle, r: Served)
    requires Inv(w) && h in w.links && Effect(TurnOf(w, h), w.links, r)
    ensures BoxOk(Settle(w, h, r).box, Settle(w, h, r).ended)
  {
    hide EndOk, LinkOk, BoardOk, UniqueIds, Sync, LineFits, WasFaulted;
    if !r.keep {
      var w' := Settle(w, h, r);
      assert w'.ended[..|w.ended|] == w.ended;
    }
  }

  lemma SettleLinks(w: World, h: Handle, r: Served)
    requires LinksOk(w.links) && h in w.links && r.t.s.socket == h && (r.keep ==> LinkOk(Link(r.t.s, r.t.ch)))
    ensures LinksOk(Settle(w, h, r).links)
  {
    hide LinkOk;
  }

  lemma SettleEnds(w: World, h: Handle, r: Served)
    requires EndsOk(w.ended) && (!r.keep ==> EndOk(Link(r.t.s, r.t.ch)))
    ensures EndsOk(Settle(w, h, r).ended)
  {
    hide EndOk;
  }

  lemma SettleCount(w: World, h: Handle, r: Served)
    requires h in w.links
    ensures var w' := Settle(w, h, r); w'.accepted == w.accepted && |w'.links| + |w'.ended| == |w.links| + |w.ended|
  {
    if r.keep {
      assert Settle(w, h, r).links.Keys == w.links.Keys;
    } else {
      assert Settle(w, h, r).links.Keys == w.links.Keys - {h};
    }
  }

  lemma EffectSaves(t: Turn, links: map<Handle, Link>, r: Served)
    requires Effect(t, links, r)
    ensures r.t.s.socket == t.s.socket
    ensures if r.keep then LinkOk(Link(r.t.s, r.t.ch)) else EndOk(Link(r.t.s, r.t.ch))
  {
    hide LinkOk, EndOk, Sync, BoxGrows, IdInUse;
  }

  lemma TableOf(w: World, h: Handle)
    requires Inv(w) && h in w.links
    ensures LinksOk(w.links) && EndsOk(w.ended) && TurnOf(w, h).s.socket == h && w.accepted == |w.links| + |w.ended|
  {
    hide LinkOk, EndsOk, UniqueIds, BoardOk, BoxOk;
  }

  lemma InvOf(w: World)
    requires LinksOk(w.links) && EndsOk(w.ended) && UniqueIds(w.links) && BoardOk(w) && BoxOk(w.box, w.ended)
    requires w.accepted == |w.links| + |w.ended|
    ensures Inv(w)
  {
    hide LinksOk, EndsOk, UniqueIds, BoardOk, BoxOk;
  }

  lemma SettleInv(w: World, h: Handle, r: Served)
    requires Inv(w) && h in w.links && Effect(TurnOf(w, h), w.links, r)
    ensures Inv(Settle(w, h, r))
  {
    hide *;
    TableOf(w, h);
    EffectSaves(TurnOf(w, h), w.links, r);
    SettleUnique(w, h, r);
    SettleBoard(w, h, r);
    SettleBox(w, h, r);
    SettleLinks(w, h, r);
    SettleEnds(w, h, r);
    SettleCount(w, h, r);
    InvOf(Settle(w, h, r));
  }

  // ---------------------------------------------------------------- the steps

  /** What the table shows of its sessions is unaffected by their channels. */
  lemma SameSessions(w: World, w': World)
    requires BoardOk(w) && UniqueIds(w.links)
    requires w'.links.Keys == w.links.Keys && forall h :: h in w.links ==> w'.links[h].s == w.links[h].s
    requires w'.board == w.board && w'.ended == w.ended
    ensures BoardOk(w') && UniqueIds(w'.links)
  {
    hide EntryFor;
    forall id | Owned(w.links, id) ensures Owned(w'.links, id) {
      var h :| h in w.links && w.links[h].s.id == id;
      assert w'.links[h].s.id == id;
    }
  }

  lemma DeliveredOk(l: Link, p: Peer)
    requires LinkOk(l)
    ensures LinkOk(l.(ch := Delivered(l.ch, p)))
  {
    hide EncodeAll;
    assert l.ch.delivered + p.arrived == EncodeAll(l.s.received) + (l.ch.inbox + p.arrived);
  }

  lemma DeliverInv(w: World, peers: map<Handle, Peer>)
    requires Inv(w)
    ensures Inv(Deliver(w, peers))
  {
    hide EndOk, BoxOk, LinkOk, BoardOk, UniqueIds, Delivered;
    var w' := Deliver(w, peers);
    assert w'.links.Keys == w.links.Keys;
    SameSessions(w, w');
    forall h | h in w'.links ensures LinkOk(w'.links[h]) {
      if h in peers {
        DeliveredOk(w.links[h], peers[h]);
      }
    }
  }

  /** A nonempty identifier is only ever held by a verified session, so no operator request is ignored. */
  lemma OwnerIsVerified(w: World, id: Text)
    requires Inv(w) && id != [] && FindById(w.links, id).Some?
    ensures var h := FindById(w.links, id).value;
      h in w.links && w.links[h].s.id == id && Controllable(TurnOf(w, h)) && TelemetryOk(w.links[h].s)
  {
    hide EndOk, BoardOk, BoxOk, UniqueIds;
    assert LinkOk(w.links[FindById(w.links, id).value]);
  }

  lemma BoardFields(w: World, board: Board)
    requires Inv(w) && board.aircraft == w.board.aircraft
    ensures Inv(w.(board := board))
  {
    hide EndOk, LinkOk, BoxOk, UniqueIds, EntryFor;
  }

  lemma TakeWeatherInv(w: World, file: File, at: int)
    requires Inv(w)
    ensures Inv(TakeWeather(w, file, at).w)
  {
    hide Inv, FindById, SendWeatherMap, Settle, Effect, Controllable, TelemetryOk;
    BoardFields(w, w.board.(weatherRequest := []));
    var w1 := w.(board := w.board.(weatherRequest := []));
    var found := FindById(w1.links, w.board.weatherRequest);
    if w.board.weatherRequest != [] && found.Some? {
      OwnerIsVerified(w1, w.board.weatherRequest);
      SendWeatherMapEffect(TurnOf(w1, found.value), w1.links, file, at);
      SettleInv(w1, found.value, SendWeatherMap(TurnOf(w1, found.value), file, at));
    }
  }

  lemma TakeDisconnectInv(w: World, at: int)
    requires Inv(w)
    ensures Inv(TakeDisconnect(w, at).w)
  {
    hide Inv, FindById, Dismiss, Settle, Effect, Controllable;
    BoardFields(w, w.board.(disconnectRequest := []));
    var w1 := w.(board := w.board.(disconnectRequest := []));
    var found := FindById(w1.links, w.board.disconnectRequest);
    if w.board.disconnectRequest != [] && found.Some? {
      OwnerIsVerified(w1, w.board.disconnectRequest);
      DismissEffect(TurnOf(w1, found.value), w1.links, at);
      SettleInv(w1, found.value, Dismiss(TurnOf(w1, found.value), at));
    }
  }

  /** Refreshing the dashboard from the table finds nothing to change, except to select someone if nobody is. */
  lemma {:induction false} RefreshKeeps(w: World, keys: seq<Handle>)
    requires BoardOk(w)
    ensures var b := RefreshAll(w.board, w.links, keys);
      b == w.board.(selected := b.selected) && (w.board.selected != [] ==> b == w.board)
  {
    if keys != [] {
      RefreshKeeps(w, keys[..|keys| - 1]);
      var b1 := RefreshAll(w.board, w.links, keys[..|keys| - 1]);
      var h := keys[|keys| - 1];
      if h in w.links && w.links[h].s.id != [] {
        assert b1.aircraft[w.links[h].s.id := EntryFor(w.links[h].s)] == b1.aircraft;
      }
    }
  }

  lemma ExpireInv(w: World, h: Handle)
    requires Inv(w)
    ensures Inv(Expire(w, h))
  {
    if h in w.links {
      var t := TurnOf(w, h);
      CoreLastWords(t.s, t.ch);
      FaultedEffect(t, w.links, t, t.s, SocketTimeout);
      SettleInv(w, h, Faulted(t, SocketTimeout));
    }
  }

  lemma {:induction false} ExpireAllInv(w: World, keys: seq<Handle>)
    requires Inv(w)
    ensures Inv(ExpireAll(w, keys))
  {
    if keys != [] {
      ExpireAllInv(w, keys[..|keys| - 1]);
      ExpireInv(ExpireAll(w, keys[..|keys| - 1]), keys[|keys| - 1]);
    }
  }

  lemma SweepInv(w: World, now: int)
    requires Inv(w)
    ensures Inv(Sweep(w, now))
  {
    var keys := SortedKeys(w.links.Keys);
    RefreshKeeps(w, keys);
    ExpireAllInv(w.(board := RefreshAll(w.board, w.links, keys)), TimedOutKeys(w.links, keys, now));
  }

  lemma NewcomerOk(h: Handle, at: int)
    ensures LinkOk(Link(NewSession(h, at).Moved(HANDSHAKE_PENDING), FRESH_CHANNEL))
  {
    assert EncodeAll([]) == [] && LastTelemetry([]) == None;
    assert INITIAL.path + [HANDSHAKE_PENDING] == [DISCONNECTED, HANDSHAKE_PENDING];
  }

  lemma NewcomerBoard(w: World, h: Handle, l: Link)
    requires BoardOk(w) && UniqueIds(w.links) && h !in w.links && l.s.id == []
    ensures BoardOk(w.(links := w.links[h := l])) && UniqueIds(w.links[h := l])
  {
    hide EntryFor;
    var links := w.links[h := l];
    forall id | id != [] && Owned(w.links, id) ensures Owned(links, id) {
      var g :| g in w.links && w.links[g].s.id == id;
      assert links[g].s.id == id;
    }
  }

  lemma AcceptInv(w: World, offered: Option<Handle>, at: int)
    requires Inv(w)
    ensures Inv(Accept(w, offered, at))
  {
    if offered.Some? && offered.value != INVALID_SOCK && offered.value !in w.links {
      var h := offered.value;
      var l := Link(NewSession(h, at).Moved(HANDSHAKE_PENDING), FRESH_CHANNEL);
      assert Accept(w, offered, at) == w.(links := w.links[h := l], accepted := w.accepted + 1);
      assert l.s.socket == h && l.s.id == [];
      hide *;
      NewcomerOk(h, at);
      NewcomerInv(w, h, l);
    } else {
      assert Accept(w, offered, at) == w;
      hide *;
    }
  }

  lemma NewcomerInv(w: World, h: Handle, l: Link)
    requires Inv(w) && h !in w.links && h != INVALID_SOCK && LinkOk(l) && l.s.socket == h && l.s.id == []
    ensures Inv(w.(links := w.links[h := l], accepted := w.accepted + 1))
  {
    var w1 := w.(links := w.links[h := l]);
    var w' := w1.(accepted := w.accepted + 1);
    assert LinksOk(w.links) && EndsOk(w.ended) && UniqueIds(w.links) && BoardOk(w) && BoxOk(w.box, w.ended);
    assert w'.accepted == |w.links| + |w.ended| + 1;
    hide *;
    NewcomerBoard(w, h, l);
    BoardOkSame(w1, w');
    NewcomerLinks(w.links, h, l);
    InvOf(w');
  }

  lemma NewcomerLinks(links: map<Handle, Link>, h: Handle, l: Link)
    requires LinksOk(links) && h !in links && l.s.socket == h != INVALID_SOCK && LinkOk(l)
    ensures LinksOk(links[h := l]) && |links[h := l]| == |links| + 1
  {
    hide LinkOk;
    assert links[h := l].Keys == links.Keys + {h};
  }

  lemma ServeInv(w: World, h: Handle, file: File, at: int)
    requires Inv(w)
    ensures Inv(Serve(w, h, file, at))
  {
    if h in w.links {
      ProcessEffect(TurnOf(w, h), w.links, file, at);
      SettleInv(w, h, Process(TurnOf(w, h), w.links, file, at));
    }
  }

  lemma {:induction false} ServeAllInv(w: World, keys: seq<Handle>, visits: map<Handle, Visit>)
    requires Inv(w) && forall i :: 0 <= i < |keys| ==> keys[i] in visits
    ensures Inv(ServeAll(w, keys, visits).w)
    decreases |keys|
  {
    hide Inv, Serve;
    if keys != [] {
      var h := keys[|keys| - 1];
      ServeAllInv(w, keys[..|keys| - 1], visits);
      ServeInv(ServeAll(w, keys[..|keys| - 1], visits).w, h, visits[h].file, visits[h].at);
    }
  }

  lemma OperateInv(w: World, o: Operator)
    requires Inv(w)
    ensures Inv(Operate(w, o))
  {
    hide Inv;
    BoardFields(w, Operate(w, o).board);
  }

  lemma ServeSocketsInv(w: World, r: Round)
    requires Inv(w)
    ensures Inv(ServeSockets(w, r))
  {
    hide Inv, Accept, ServeAll;
    AcceptInv(w, r.offered, r.acceptTime);
    ServeAllInv(Accept(w, r.offered, r.acceptTime), SortedKeys(r.visits.Keys * w.links.Keys), r.visits);
  }

  lemma IterateInv(w: World, r: Round)
    requires Inv(w)
    ensures Inv(Iterate(w, r))
  {
    hide Inv, Operate, Deliver, TakeWeather, TakeDisconnect, Sweep, ServeSockets;
    DeliverInv(w, r.peers);
    OperateInv(Deliver(w, r.peers), r.first);
    var a := TakeWeather(Operate(Deliver(w, r.peers), r.first), r.mapFile, r.mapTime);
    TakeWeatherInv(Operate(Deliver(w, r.peers), r.first), r.mapFile, r.mapTime);
    OperateInv(a.w, r.second);
    TakeDisconnectInv(Operate(a.w, r.second), r.dismissTime);
    var b := TakeDisconnect(Operate(a.w, r.second), r.dismissTime);
    SweepInv(b.w, r.now);
    ServeSocketsInv(Sweep(b.w, r.now), r);
  }

  /** Every state the server can be in at the head of its loop. */
  lemma {:induction false} EveryRun(rounds: seq<Round>)
    ensures Inv(Run(rounds))
  {
    if rounds != [] {
      EveryRun(rounds[..|rounds| - 1]);
      IterateInv(Run(rounds[..|rounds| - 1]), rounds[|rounds| - 1]);
    }
  }
}
