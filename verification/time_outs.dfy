/** Silence: what becomes of a connection that says nothing, and of any session whose time is up. */
module TimeOuts {
  import opened Basics
  import opened Packets
  import opened SocketUtils
  import opened StateMachines
  import opened ClientSessions
  import opened Dashboards
  import opened SessionTable
  import opened TableInvariants
  import opened TableRuns
  import opened ServerSteps
  import opened TableTheorems
  import opened SessionLives
  import opened ConformingRuns

  /** A pending session that is not served stays as it is, whatever else happens. */
  lemma PendingIsLeftAlone(w: World, step: Step, h: Handle)
    requires Inv(w) && h in w.links && w.links[h].s.State() == HANDSHAKE_PENDING && ReadBy(step, h) == 0
    ensures h in Next(w, step).links ==> Next(w, step).links[h].s == w.links[h].s
    ensures h !in Next(w, step).links ==> step.Sweeping?
  {
    PendingHasNoName(w, h);
    assert !Named(w, h, w.board.weatherRequest) && !Named(w, h, w.board.disconnectRequest);
    assert step.Serving? ==> step.h != h;
    hide *;
    match step
    case Network(_) =>
      Timeless(w, step, h);
      KeysKept(w, step, h);
    case Act(_) =>
      Timeless(w, step, h);
      KeysKept(w, step, h);
    case Weather(file, at) =>
      RequestsAreSteps(w, file, at);
      MapToAnother(w, h, file, at);
      LeftAlone(w, Next(w, step), h);
    case Dismissal(at) =>
      RequestsAreSteps(w, Missing, at);
      DismissalOfAnother(w, at, h);
      LeftAlone(w, Next(w, step), h);
    case Sweeping(now) =>
      if h in Next(w, step).links {
        SweepContinues(w, now, h);
      }
    case Accepting(offered, at) =>
      KeysKept(w, step, h);
      AcceptContinues(w, offered, at, h);
    case Serving(g, file, at) =>
      NextIsServe(w, g, file, at);
      OthersUntouched(w, g, file, at, h);
  }

  lemma LeftAlone(w: World, w': World, h: Handle)
    requires h in w.links && Undisturbed(w, w', h)
    ensures h in w'.links && w'.links[h].s == w.links[h].s
  {
  }

  lemma KeysKept(w: World, step: Step, h: Handle)
    requires h in w.links && (step.Network? || step.Act? || step.Accepting?)
    ensures h in Next(w, step).links
  {
    hide Delivered, NewSession, Transition;
  }

  lemma {:induction false} SilentIsLeftAlone(w: World, steps: seq<Step>, h: Handle)
    requires Inv(w) && h in w.links && w.links[h].s.State() == HANDSHAKE_PENDING
    requires ReadIn(steps, h) == 0 && Lived(w, steps, h)
    ensures Inv(Execute(w, steps)) && h in Execute(w, steps).links && Execute(w, steps).links[h].s == w.links[h].s
    decreases |steps|
  {
    EveryStep(w, steps);
    if steps != [] {
      var init, last := steps[..|steps| - 1], steps[|steps| - 1];
      assert ReadIn(init, h) == 0 && ReadBy(last, h) == 0 && Lived(w, init, h) && h in Execute(w, steps).links;
      assert Execute(w, steps) == Next(Execute(w, init), last);
      hide *;
      SilentIsLeftAlone(w, init, h);
      PendingIsLeftAlone(Execute(w, init), last, h);
    }
    hide Inv, Next;
  }

  /**
   A connection that was accepted and is never served is swept away exactly when a sweep comes 5 s or
   more after it was accepted, with a line that blames the time-out; until then every sweep leaves it.
   */
  lemma SilentIsSwept(w: World, h: Handle, at: int, steps: seq<Step>, now: int)
    requires Inv(w) && h !in w.links && h != INVALID_SOCK
    requires
      var w0 := Accept(w, Some(h), at);
      ReadIn(steps, h) == 0 && Lived(w0, steps, h)
    ensures
      var before := Execute(Accept(w, Some(h), at), steps);
      var after := Next(before, Sweeping(now));
      && (h in after.links <==> now - at < 5_000_000_000)
      && (h !in after.links ==>
            exists i :: |before.box| <= i < |after.box| &&
              after.box[i] == FaultLine(SocketTimeout, HANDSHAKE_PENDING, 0))
  {
    var w0 := Accept(w, Some(h), at);
    Newcomer(w, h, at);
    hide *;
    SilentIsLeftAlone(w0, steps, h);
    var before := Execute(w0, steps);
    TimesOutExactly(before.links[h].s, now);
    SweepTakes(before, h, now);
  }

  lemma Newcomer(w: World, h: Handle, at: int)
    requires Inv(w) && h !in w.links && h != INVALID_SOCK
    ensures
      var w0 := Accept(w, Some(h), at);
      && Inv(w0) && h in w0.links && w0.links[h].s.State() == HANDSHAKE_PENDING
      && w0.links[h].s.lastPacket == at && w0.links[h].s.lastClientSequence == 0
  {
    AcceptInv(w, Some(h), at);
    hide Inv;
  }

  lemma SweepTakes(w: World, h: Handle, now: int)
    requires h in w.links
    ensures
      var w' := Next(w, Sweeping(now));
      && (h in w'.links <==> !TimedOut(w.links[h].s, now))
      && (h !in w'.links ==>
            var s := w.links[h].s;
            exists i :: |w.box| <= i < |w'.box| &&
              w'.box[i] == FaultLine(SocketTimeout, s.State(), s.lastClientSequence))
  {
    hide *;
    var late := SweepIsExact(w, now);
    NextIsSweep(w, now);
    LateAreGone(w, Sweep(w, now), late, h);
  }

  lemma LateAreGone(w: World, w': World, late: seq<Handle>, h: Handle)
    requires h in w.links && Expired(w, w', late)
    ensures h in w'.links <==> h !in late
    ensures
      var s := w.links[h].s;
      h in late ==>
        exists i :: |w.box| <= i < |w'.box| && w'.box[i] == FaultLine(SocketTimeout, s.State(), s.lastClientSequence)
  {
    if h in late {
      var i :| 0 <= i < |late| && late[i] == h;
      LineOf(w.links[h], w'.ended[|w.ended| + i], w'.box[|w.box| + i]);
    }
    hide FellSilent;
  }

  lemma LineOf(was: Link, ended: Link, line: FaultLine)
    requires FellSilent(was, ended, line)
    ensures line == FaultLine(SocketTimeout, was.s.State(), was.s.lastClientSequence)
  {
  }

  // ---------------------------------------------------------------- a whole pass

  lemma {:induction false} ServingAddsNobody(w: World, keys: seq<Handle>, visits: map<Handle, Visit>, h: Handle)
    requires h !in w.links && forall i :: 0 <= i < |keys| ==> keys[i] in visits
    ensures h !in ServeAll(w, keys, visits).w.links
    decreases |keys|
  {
    if keys != [] {
      ServingAddsNobody(w, keys[..|keys| - 1], visits, h);
    }
    hide Process;
  }

  lemma SocketsAddOnlyOffered(w: World, r: Round, h: Handle)
    requires h !in w.links && r.offered != Some(h)
    ensures h !in ServeSockets(w, r).links
  {
    var w1 := Accept(w, r.offered, r.acceptTime);
    assert h !in w1.links by {
      hide NewSession, Transition;
    }
    hide Accept, ServeAll, SortedKeys;
    ServingAddsNobody(w1, SortedKeys(r.visits.Keys * w.links.Keys), r.visits, h);
  }

  /** No request is pending, and the operator makes none. */
  ghost predicate NoRequest(w: World, r: Round) {
    && w.board.weatherRequest == [] && w.board.disconnectRequest == []
    && r.first.weather.None? && r.first.disconnect.None? && r.second.weather.None? && r.second.disconnect.None?
  }

  lemma QuietRequests(w: World, r: Round)
    requires NoRequest(w, r)
    ensures
      var a := TakeWeather(Operate(Deliver(w, r.peers), r.first), r.mapFile, r.mapTime);
      var b := TakeDisconnect(Operate(a.w, r.second), r.dismissTime);
      && a.onward && b.onward && b.w.links == Deliver(w, r.peers).links
  {
    hide Deliver, FindById, SendWeatherMap, Dismiss;
    assert Deliver(w, r.peers).board == w.board by {
      BoardUndelivered(w, r.peers);
    }
  }

  lemma BoardUndelivered(w: World, peers: map<Handle, Peer>)
    ensures Deliver(w, peers).board == w.board
  {
    hide Delivered;
  }

  lemma SessionDelivered(w: World, peers: map<Handle, Peer>, h: Handle)
    requires h in w.links
    ensures h in Deliver(w, peers).links && Deliver(w, peers).links[h].s == w.links[h].s
  {
    hide Delivered;
  }

  /**
   A pass that no request cuts short takes every session whose time is up at its sweep out of the table,
   whatever its batch goes on to serve and whoever it accepts.
   */
  lemma PassExpires(w: World, r: Round, h: Handle)
    requires NoRequest(w, r) && h in w.links && TimedOut(w.links[h].s, r.now) && r.offered != Some(h)
    ensures h !in Iterate(w, r).links
  {
    var a := TakeWeather(Operate(Deliver(w, r.peers), r.first), r.mapFile, r.mapTime);
    var b := TakeDisconnect(Operate(a.w, r.second), r.dismissTime);
    QuietRequests(w, r);
    SessionDelivered(w, r.peers, h);
    assert Iterate(w, r) == if r.stopped then Sweep(b.w, r.now) else ServeSockets(Sweep(b.w, r.now), r);
    hide *;
    var late := SweepIsExact(b.w, r.now);
    SweptAway(b.w, Sweep(b.w, r.now), late, h);
    if !r.stopped {
      SocketsAddOnlyOffered(Sweep(b.w, r.now), r, h);
    }
  }

  lemma SweptAway(w: World, w': World, late: seq<Handle>, h: Handle)
    requires h in late && Expired(w, w', late)
    ensures h !in w'.links
  {
    hide FellSilent;
  }
}
