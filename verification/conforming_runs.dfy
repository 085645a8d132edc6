/**
 A client that keeps to the protocol, over whole runs: under every interleaving of the server's steps,
 the network, the operator and all other clients it is never faulted, and each time it is served the
 server reads exactly its next packet.
 */
module ConformingRuns {
  import opened Basics
  import opened Packets
  import opened StateMachines
  import opened ClientSessions
  import opened Dashboards
  import opened SessionTable
  import opened TableInvariants
  import opened TableRuns
  import opened TableTheorems
  import opened Connecting
  import opened ServerSteps
  import opened SessionLives
  import opened ConformingClients

  // ---------------------------------------------------------------- one step

  /** The operator's request is for this aircraft. */
  ghost predicate Named(w: World, h: Handle, request: Text)
    requires h in w.links
  {
    request != [] && w.links[h].s.id == request
  }

  /**
   What this client is owed: its stream and nothing else on its connection, its timer kept from running
   out, a file and room for what is sent to it, and a `recv` that gets the rest of the packet it waits
   for. All else is free, as is everything on other connections.
   */
  ghost predicate Benign(w: World, step: Step, h: Handle, ps: seq<Packet>)
    requires h in w.links
  {
    var l := w.links[h];
    match step
    case Network(peers) => h in peers ==> l.ch.delivered + peers[h].arrived <= EncodeAll(ps)
    case Weather(file, _) =>
      Named(w, h, w.board.weatherRequest) ==> file.Contents? && l.ch.window >= HEADER_SIZE + |file.data|
    case Dismissal(_) => Named(w, h, w.board.disconnectRequest) ==> l.ch.window >= HEADER_SIZE
    case Sweeping(now) => !TimedOut(l.s, now)
    case Serving(g, file, _) => g == h ==> NextArrives(l, ps) && Answerable(w, h, ps[|l.s.received|], file)
    case _ => true
  }

  /** How many packets the step reads from this connection. */
  function ReadBy(step: Step, h: Handle): nat {
    if step.Serving? && step.h == h then 1 else 0
  }

  /** The state of the session after the step: a packet or a weather map changes it, nothing else does. */
  ghost function StateAfter(w: World, step: Step, h: Handle, ps: seq<Packet>): State
    requires h in w.links
  {
    var s := w.links[h].s;
    if step.Serving? && step.h == h && |s.received| < |ps| then ExpectedState(ps[|s.received|])
    else if step.Weather? && Named(w, h, w.board.weatherRequest) then CONNECTED
    else s.State()
  }

  /** The session lives on, has read one more packet if it was served and none if not, and is where it should be. */
  ghost predicate Follows(w: World, step: Step, w': World, h: Handle, ps: seq<Packet>)
    requires h in w.links
  {
    && Healthy(w', h, ps)
    && |w'.links[h].s.received| == |w.links[h].s.received| + ReadBy(step, h)
    && w'.links[h].s.State() == StateAfter(w, step, h, ps)
  }

  /** The operator sent the session away, after it had read the beginning of the stream. */
  ghost predicate SentAway(s: Session, h: Handle, ps: seq<Packet>) {
    && s.socket == h && s.State() == State.DISCONNECTED && !WasFaulted(s)
    && |s.received| <= |ps| && s.received == ps[..|s.received|]
    && s.sent != [] && s.sent[|s.sent| - 1].header.kind == DISCONNECT
  }

  /**
   Since `start`, the session at `h` left unharmed: sent away by the operator if it was dismissed, and
   otherwise after it had read all there was to hear.
   */
  ghost predicate Finished(start: World, w: World, h: Handle, ps: seq<Packet>, dismissed: bool) {
    exists i :: |start.ended| <= i < |w.ended| &&
      if dismissed then SentAway(w.ended[i].s, h, ps) else LeftCleanly(w.ended[i].s, h, ps)
  }

  /** The step is the operator's dismissal of this session. */
  ghost predicate Dismisses(w: World, step: Step, h: Handle)
    requires h in w.links
  {
    step.Dismissal? && Named(w, h, w.board.disconnectRequest)
  }

  /**
   What a step makes of the session: it goes on as it should, or it ends unharmed. A dismissal always
   ends it, and nothing else does but serving it.
   */
  ghost predicate GoesWell(w: World, step: Step, w': World, h: Handle, ps: seq<Packet>)
    requires h in w.links
  {
    if h in w'.links then Follows(w, step, w', h, ps) && !Dismisses(w, step, h)
    else (ReadBy(step, h) == 1 || Dismisses(w, step, h)) && Finished(w, w', h, ps, Dismisses(w, step, h))
  }

  lemma EndsWell(w: World, step: Step, w': World, h: Handle, ps: seq<Packet>)
    requires h in w.links && h !in w'.links && Dismisses(w, step, h) && Finished(w, w', h, ps, true)
    ensures GoesWell(w, step, w', h, ps)
  {
    hide Finished, Dismisses;
  }

  /** Neither the session nor its stream was touched. */
  ghost predicate Undisturbed(w: World, w': World, h: Handle)
    requires h in w.links
  {
    h in w'.links && w'.links[h].s == w.links[h].s && w'.links[h].ch.delivered == w.links[h].ch.delivered
  }

  lemma UndisturbedFollows(w: World, step: Step, w': World, h: Handle, ps: seq<Packet>)
    requires Healthy(w, h, ps) && Inv(w') && Undisturbed(w, w', h)
    requires ReadBy(step, h) == 0 && !(step.Weather? && Named(w, h, w.board.weatherRequest)) && !Dismisses(w, step, h)
    ensures GoesWell(w, step, w', h, ps)
  {
    hide Inv, EncodeAll, Dismisses, Finished;
  }

  lemma HealthyFacts(w: World, h: Handle, ps: seq<Packet>)
    requires Healthy(w, h, ps)
    ensures Inv(w) && h in w.links
  {
    hide Inv, EncodeAll;
  }

  lemma NotConcerned(w: World, step: Step, h: Handle)
    requires h in w.links && (!step.Serving? || step.h != h)
    ensures ReadBy(step, h) == 0
    ensures !step.Dismissal? || !Named(w, h, w.board.disconnectRequest) ==> !Dismisses(w, step, h)
  {
  }

  /** The named aircraft is the one the server finds. */
  lemma NamedIsFound(w: World, h: Handle, request: Text)
    requires Inv(w) && h in w.links && Named(w, h, request)
    ensures FindById(w.links, request) == Some(h)
  {
    assert UniqueIds(w.links) && request != [] && w.links[h].s.id == request by {
      hide LinkOk, BoardOk, BoxOk, EndOk, UniqueIds;
    }
    hide Inv, FindById, Named;
    OwnerIsFound(w.links, request);
  }

  // ---------------------------------------------------------------- the steps, case by case

  lemma NetworkStep(w: World, peers: map<Handle, Peer>, h: Handle, ps: seq<Packet>)
    requires Healthy(w, h, ps) && Benign(w, Network(peers), h, ps)
    ensures GoesWell(w, Network(peers), Next(w, Network(peers)), h, ps)
  {
    hide *;
    HealthyFacts(w, h, ps);
    NextInv(w, Network(peers));
    LinkDelivered(w, peers, h);
    MoreArrived(w, peers, Next(w, Network(peers)), h, ps);
  }

  lemma MoreArrived(w: World, peers: map<Handle, Peer>, w': World, h: Handle, ps: seq<Packet>)
    requires Healthy(w, h, ps) && Benign(w, Network(peers), h, ps)
    requires Inv(w') && h in w'.links && w'.links[h].s == w.links[h].s
    requires w'.links[h].ch.delivered == w.links[h].ch.delivered + if h in peers then peers[h].arrived else []
    ensures GoesWell(w, Network(peers), w', h, ps)
  {
    hide Inv, EncodeAll, Finished;
  }

  lemma LinkDelivered(w: World, peers: map<Handle, Peer>, h: Handle)
    requires h in w.links
    ensures
      var w' := Next(w, Network(peers));
      && h in w'.links && w'.links[h].s == w.links[h].s
      && w'.links[h].ch.delivered == w.links[h].ch.delivered + if h in peers then peers[h].arrived else []
  {
  }

  /** Steps that touch no open session. */
  lemma QuietStep(w: World, step: Step, h: Handle, ps: seq<Packet>)
    requires Healthy(w, h, ps) && (step.Act? || step.Accepting?)
    ensures GoesWell(w, step, Next(w, step), h, ps)
  {
    hide *;
    HealthyFacts(w, h, ps);
    NotConcerned(w, step, h);
    LinkKept(w, step, h);
    NextInv(w, step);
    UndisturbedFollows(w, step, Next(w, step), h, ps);
  }

  lemma LinkKept(w: World, step: Step, h: Handle)
    requires h in w.links && (step.Act? || step.Accepting?)
    ensures Undisturbed(w, Next(w, step), h)
  {
    hide NewSession, Transition;
  }

  lemma SweepStep(w: World, now: int, h: Handle, ps: seq<Packet>)
    requires Healthy(w, h, ps) && Benign(w, Sweeping(now), h, ps)
    ensures GoesWell(w, Sweeping(now), Next(w, Sweeping(now)), h, ps)
  {
    hide *;
    HealthyFacts(w, h, ps);
    NotConcerned(w, Sweeping(now), h);
    NextInv(w, Sweeping(now));
    SweepOfOthers(w, now, h, ps);
    UndisturbedFollows(w, Sweeping(now), Next(w, Sweeping(now)), h, ps);
  }

  lemma SweepOfOthers(w: World, now: int, h: Handle, ps: seq<Packet>)
    requires h in w.links && Benign(w, Sweeping(now), h, ps)
    ensures Undisturbed(w, Next(w, Sweeping(now)), h)
  {
    hide *;
    var late := SweepIsExact(w, now);
    SweepIsBenign(w, now, h, ps);
    NotLate(w, Sweep(w, now), late, h);
  }

  lemma SweepIsBenign(w: World, now: int, h: Handle, ps: seq<Packet>)
    requires h in w.links && Benign(w, Sweeping(now), h, ps)
    ensures !TimedOut(w.links[h].s, now) && Next(w, Sweeping(now)) == Sweep(w, now)
  {
    hide TimedOut, Sweep;
  }

  lemma NotLate(w: World, w': World, late: seq<Handle>, h: Handle)
    requires h in w.links && h !in late && Expired(w, w', late)
    ensures Undisturbed(w, w', h)
  {
    hide FellSilent;
  }

  lemma ServingStep(w: World, g: Handle, file: File, at: int, h: Handle, ps: seq<Packet>, id: Text)
    requires Healthy(w, h, ps) && Conforming(ps, id) && Benign(w, Serving(g, file, at), h, ps)
    ensures GoesWell(w, Serving(g, file, at), Next(w, Serving(g, file, at)), h, ps)
  {
    hide *;
    NextIsServe(w, g, file, at);
    if g == h {
      SelfServed(w, file, at, h, ps, id);
    } else {
      OtherServed(w, g, file, at, h, ps);
    }
  }

  lemma NextIsServe(w: World, g: Handle, file: File, at: int)
    ensures Next(w, Serving(g, file, at)) == Serve(w, g, file, at)
  {
    hide Serve;
  }

  lemma OtherServed(w: World, g: Handle, file: File, at: int, h: Handle, ps: seq<Packet>)
    requires Healthy(w, h, ps) && g != h
    ensures GoesWell(w, Serving(g, file, at), Serve(w, g, file, at), h, ps)
  {
    hide *;
    HealthyFacts(w, h, ps);
    NotConcerned(w, Serving(g, file, at), h);
    ServeInv(w, g, file, at);
    OtherUndisturbed(w, g, file, at, h);
    UndisturbedFollows(w, Serving(g, file, at), Serve(w, g, file, at), h, ps);
  }

  lemma OtherUndisturbed(w: World, g: Handle, file: File, at: int, h: Handle)
    requires h in w.links && g != h
    ensures Undisturbed(w, Serve(w, g, file, at), h)
  {
    OthersUntouched(w, g, file, at, h);
    hide Serve;
  }

  lemma SelfServed(w: World, file: File, at: int, h: Handle, ps: seq<Packet>, id: Text)
    requires Healthy(w, h, ps) && Conforming(ps, id) && Benign(w, Serving(h, file, at), h, ps)
    ensures GoesWell(w, Serving(h, file, at), Serve(w, h, file, at), h, ps)
  {
    hide *;
    ServingIsServable(w, file, at, h, ps);
    var p := PacketIsServed(w, h, ps, id, file, at);
    if p.header.kind == DISCONNECT {
      LastLeftCleanly(w, file, at, Serve(w, h, file, at), h, ps);
    } else {
      ConsumedFollows(w, file, at, Serve(w, h, file, at), h, ps, p);
    }
  }

  lemma ServingIsServable(w: World, file: File, at: int, h: Handle, ps: seq<Packet>)
    requires Healthy(w, h, ps) && Benign(w, Serving(h, file, at), h, ps)
    ensures h in w.links && |w.links[h].s.received| < |ps|
    ensures NextArrives(w.links[h], ps) && Answerable(w, h, ps[|w.links[h].s.received|], file)
  {
    hide Inv, EncodeAll, EncodePacket, Answerable;
  }

  lemma LastLeftCleanly(w: World, file: File, at: int, w': World, h: Handle, ps: seq<Packet>)
    requires h in w.links && h !in w'.links
    requires |w'.ended| == |w.ended| + 1 && LeftCleanly(w'.ended[|w.ended|].s, h, ps)
    ensures GoesWell(w, Serving(h, file, at), w', h, ps)
  {
    hide LeftCleanly, SentAway;
  }

  lemma ConsumedFollows(w: World, file: File, at: int, w': World, h: Handle, ps: seq<Packet>, p: Packet)
    requires h in w.links && IsNext(w.links[h], ps, p) && Healthy(w', h, ps) && Consumed(w.links[h], w'.links[h], p)
    ensures GoesWell(w, Serving(h, file, at), w', h, ps)
  {
    hide Inv, EncodePacket, EncodeAll, ExpectedState, Finished;
  }

  lemma WeatherStep(w: World, file: File, at: int, h: Handle, ps: seq<Packet>)
    requires Healthy(w, h, ps) && Benign(w, Weather(file, at), h, ps)
    ensures GoesWell(w, Weather(file, at), Next(w, Weather(file, at)), h, ps)
  {
    hide *;
    HealthyFacts(w, h, ps);
    NotConcerned(w, Weather(file, at), h);
    RequestsAreSteps(w, file, at);
    NextInv(w, Weather(file, at));
    var request := w.board.weatherRequest;
    if Named(w, h, request) {
      MapIsAffordable(w, file, at, h, ps);
      NamedIsFound(w, h, request);
      MapToThisOne(w, h, file, at);
      MapFollows(w, file, at, TakeWeather(w, file, at).w, h, ps);
    } else {
      MapToAnother(w, h, file, at);
      UndisturbedFollows(w, Weather(file, at), TakeWeather(w, file, at).w, h, ps);
    }
  }

  lemma RequestsAreSteps(w: World, file: File, at: int)
    ensures Next(w, Weather(file, at)) == TakeWeather(w, file, at).w
    ensures Next(w, Dismissal(at)) == TakeDisconnect(w, at).w
  {
    hide TakeWeather, TakeDisconnect;
  }

  lemma MapIsAffordable(w: World, file: File, at: int, h: Handle, ps: seq<Packet>)
    requires h in w.links && Benign(w, Weather(file, at), h, ps) && Named(w, h, w.board.weatherRequest)
    ensures file.Contents? && w.links[h].ch.window >= HEADER_SIZE + |file.data| && w.board.weatherRequest != []
  {
  }

  lemma FarewellIsAffordable(w: World, at: int, h: Handle, ps: seq<Packet>)
    requires h in w.links && Benign(w, Dismissal(at), h, ps) && Named(w, h, w.board.disconnectRequest)
    ensures w.links[h].ch.window >= HEADER_SIZE && w.board.disconnectRequest != [] && Dismisses(w, Dismissal(at), h)
  {
  }

  lemma MapFollows(w: World, file: File, at: int, w': World, h: Handle, ps: seq<Packet>)
    requires Healthy(w, h, ps) && Inv(w') && Named(w, h, w.board.weatherRequest)
    requires h in w'.links && w'.links[h].ch.delivered == w.links[h].ch.delivered
    requires w'.links[h].s.received == w.links[h].s.received && w'.links[h].s.State() == CONNECTED
    ensures GoesWell(w, Weather(file, at), w', h, ps)
  {
    hide Inv, EncodeAll, Finished;
  }

  lemma MapToThisOne(w: World, h: Handle, file: File, at: int)
    requires Inv(w) && w.board.weatherRequest != [] && FindById(w.links, w.board.weatherRequest) == Some(h)
    requires file.Contents? && h in w.links && w.links[h].ch.window >= HEADER_SIZE + |file.data|
    ensures
      var w' := TakeWeather(w, file, at).w;
      && h in w'.links && w'.links[h].ch.delivered == w.links[h].ch.delivered
      && w'.links[h].s.received == w.links[h].s.received && w'.links[h].s.State() == CONNECTED
  {
    OwnerIsVerified(w, w.board.weatherRequest);
    assert IsVerified(w.links[h].s.State());
    var w1 := w.(board := w.board.(weatherRequest := []));
    var t := TurnOf(w1, h);
    assert t.s == w.links[h].s && t.ch == w.links[h].ch;
    hide *;
    MapGoesOut(t, file, at);
    WeatherIsATurn(w, w1, h, file, at);
    MapSettled(w1, h, SendWeatherMap(t, file, at));
  }

  lemma WeatherIsATurn(w: World, w1: World, h: Handle, file: File, at: int)
    requires w.board.weatherRequest != [] && FindById(w.links, w.board.weatherRequest) == Some(h)
    requires h in w.links && IsVerified(w.links[h].s.State()) && w1 == w.(board := w.board.(weatherRequest := []))
    ensures TakeWeather(w, file, at).w == Settle(w1, h, SendWeatherMap(TurnOf(w1, h), file, at))
  {
    hide FindById, SendWeatherMap, Settle;
  }

  lemma MapSettled(w: World, h: Handle, r: Served)
    requires h in w.links && r.keep && Unharmed(TurnOf(w, h), r) && r.t.s.State() == CONNECTED
    ensures
      var w' := Settle(w, h, r);
      && h in w'.links && w'.links[h].ch.delivered == TurnOf(w, h).ch.delivered
      && w'.links[h].s.received == TurnOf(w, h).s.received && w'.links[h].s.State() == CONNECTED
  {
  }

  lemma MapToAnother(w: World, h: Handle, file: File, at: int)
    requires h in w.links && !Named(w, h, w.board.weatherRequest)
    ensures Undisturbed(w, TakeWeather(w, file, at).w, h)
  {
    hide FindById, SendWeatherMap;
  }

  lemma DismissalStep(w: World, at: int, h: Handle, ps: seq<Packet>, id: Text)
    requires Healthy(w, h, ps) && Conforming(ps, id) && Benign(w, Dismissal(at), h, ps)
    ensures GoesWell(w, Dismissal(at), Next(w, Dismissal(at)), h, ps)
  {
    hide *;
    HealthyFacts(w, h, ps);
    NotConcerned(w, Dismissal(at), h);
    RequestsAreSteps(w, Missing, at);
    NextInv(w, Dismissal(at));
    var request := w.board.disconnectRequest;
    if Named(w, h, request) {
      FarewellIsAffordable(w, at, h, ps);
      NamedIsFound(w, h, request);
      DismissedUnharmed(w, at, h, ps, id);
      EndsWell(w, Dismissal(at), TakeDisconnect(w, at).w, h, ps);
    } else {
      DismissalOfAnother(w, at, h);
      UndisturbedFollows(w, Dismissal(at), TakeDisconnect(w, at).w, h, ps);
    }
  }

  lemma DismissalOfAnother(w: World, at: int, h: Handle)
    requires h in w.links && !Named(w, h, w.board.disconnectRequest)
    ensures Undisturbed(w, TakeDisconnect(w, at).w, h)
  {
    hide FindById, Dismiss;
  }

  lemma DismissedUnharmed(w: World, at: int, h: Handle, ps: seq<Packet>, id: Text)
    requires Healthy(w, h, ps) && Conforming(ps, id) && w.links[h].ch.window >= HEADER_SIZE
    requires w.board.disconnectRequest != [] && FindById(w.links, w.board.disconnectRequest) == Some(h)
    ensures var w' := TakeDisconnect(w, at).w; h !in w'.links && Finished(w, w', h, ps, true)
  {
    hide *;
    HealthyFacts(w, h, ps);
    OwnerIsVerified(w, w.board.disconnectRequest);
    var w1 := w.(board := w.board.(disconnectRequest := []));
    var t, r := TurnOf(w1, h), Dismiss(TurnOf(w1, h), at);
    DismissalIsATurn(w, w1, h, at);
    SameControl(w, w1, h);
    DismissFits(t, at);
    ReadSoFar(w, h, ps, id);
    SentAwayNow(w.links[h].s, r.t.s, h, ps);
    LastEnded(w, w1, h, r, ps);
  }

  lemma DismissalIsATurn(w: World, w1: World, h: Handle, at: int)
    requires w.board.disconnectRequest != [] && FindById(w.links, w.board.disconnectRequest) == Some(h)
    requires h in w.links && Controllable(TurnOf(w, h)) && w1 == w.(board := w.board.(disconnectRequest := []))
    ensures TakeDisconnect(w, at).w == Settle(w1, h, Dismiss(TurnOf(w1, h), at))
  {
    assert IsVerified(w1.links[h].s.State());
    hide FindById, Dismiss, Settle, CoreOk;
  }

  lemma SameControl(w: World, w1: World, h: Handle)
    requires h in w.links && w1.links == w.links && Controllable(TurnOf(w, h))
    ensures Controllable(TurnOf(w1, h)) && TurnOf(w1, h).s == w.links[h].s && TurnOf(w1, h).ch == w.links[h].ch
  {
    hide CoreOk, Verified;
  }

  lemma ReadSoFar(w: World, h: Handle, ps: seq<Packet>, id: Text)
    requires Healthy(w, h, ps) && Conforming(ps, id)
    ensures
      var s := w.links[h].s;
      s.socket == h && |s.received| <= |ps| && s.received == ps[..|s.received|]
  {
    var l := w.links[h];
    assert l.s.socket == h && LinkOk(l) && OnBoundary(l.s, l.ch) && l.ch.delivered <= EncodeAll(ps);
    hide *;
    ConformingIsWellFormed(ps, id);
    ReadIsPrefix(l.s, l.ch, ps);
  }

  lemma SentAwayNow(s: Session, s': Session, h: Handle, ps: seq<Packet>)
    requires s.socket == h && |s.received| <= |ps| && s.received == ps[..|s.received|]
    requires s'.socket == s.socket && s'.received == s.received && !WasFaulted(s') && s'.State() == State.DISCONNECTED
    requires s'.sent != [] && s'.sent[|s'.sent| - 1].header.kind == DISCONNECT
    ensures SentAway(s', h, ps)
  {
    hide WasFaulted;
  }

  lemma DismissFits(t: Turn, at: int)
    requires Controllable(t) && t.ch.window >= HEADER_SIZE
    ensures
      var r := Dismiss(t, at);
      && !r.keep && r.t.box == t.box && r.t.s.socket == t.s.socket && r.t.s.received == t.s.received
      && !WasFaulted(r.t.s) && r.t.s.State() == State.DISCONNECTED
      && r.t.s.sent != [] && r.t.s.sent[|r.t.s.sent| - 1].header.kind == DISCONNECT
  {
    DismissOutcome(t, at);
    DismissKeeps(t, at);
    hide Dismiss, Controllable, WasFaulted, MakeHeader;
  }

  lemma DismissKeeps(t: Turn, at: int)
    requires t.ch.window >= HEADER_SIZE
    ensures var r := Dismiss(t, at); r.t.box == t.box && r.t.s.socket == t.s.socket && r.t.s.received == t.s.received
  {
    hide EncodeHeader, MakeHeader, Sync, Transition, Wrap;
  }

  lemma LastEnded(w: World, w1: World, h: Handle, r: Served, ps: seq<Packet>)
    requires h in w.links && w1 == w.(board := w1.board) && !r.keep && SentAway(r.t.s, h, ps)
    ensures h !in Settle(w1, h, r).links && Finished(w, Settle(w1, h, r), h, ps, true)
  {
    hide SentAway, LeftCleanly;
    assert Settle(w1, h, r).ended[|w.ended|].s == r.t.s;
  }

  /** A benign step leaves the session in good order, one packet further if it was served, or ends it unharmed. */
  lemma BenignStep(w: World, step: Step, h: Handle, ps: seq<Packet>, id: Text)
    requires Healthy(w, h, ps) && Conforming(ps, id) && Benign(w, step, h, ps)
    ensures GoesWell(w, step, Next(w, step), h, ps)
  {
    hide *;
    match step
    case Network(peers) => NetworkStep(w, peers, h, ps);
    case Act(_) => QuietStep(w, step, h, ps);
    case Weather(file, at) => WeatherStep(w, file, at, h, ps);
    case Dismissal(at) => DismissalStep(w, at, h, ps, id);
    case Sweeping(now) => SweepStep(w, now, h, ps);
    case Accepting(_, _) => QuietStep(w, step, h, ps);
    case Serving(g, file, at) => ServingStep(w, g, file, at, h, ps, id);
  }

  // ---------------------------------------------------------------- every interleaving

  /** The session at `h` has been in the table throughout. */
  ghost predicate Lived(w: World, steps: seq<Step>, h: Handle) {
    h in Execute(w, steps).links && (steps != [] ==> Lived(w, steps[..|steps| - 1], h))
  }

  /** Every step was benign for as long as the session lived. */
  ghost predicate AllBenign(w: World, steps: seq<Step>, h: Handle, ps: seq<Packet>) {
    steps != [] ==>
      var init := steps[..|steps| - 1];
      AllBenign(w, init, h, ps) && (Lived(w, init, h) ==> Benign(Execute(w, init), steps[|steps| - 1], h, ps))
  }

  /** How often the session at `h` was served. */
  function ReadIn(steps: seq<Step>, h: Handle): nat {
    if steps == [] then 0 else ReadIn(steps[..|steps| - 1], h) + ReadBy(steps[|steps| - 1], h)
  }

  /** The operator dismissed the session, while it lived. */
  ghost predicate DismissedIn(w: World, steps: seq<Step>, h: Handle) {
    steps != [] &&
    var init, before := steps[..|steps| - 1], Execute(w, steps[..|steps| - 1]);
    DismissedIn(w, init, h) || (Lived(w, init, h) && Dismisses(before, steps[|steps| - 1], h))
  }

  /** The state that belongs to the last packet read or weather map sent, whichever came later. */
  ghost function StateDue(w: World, steps: seq<Step>, h: Handle, ps: seq<Packet>): State
    requires h in w.links && Lived(w, steps, h)
  {
    if steps == [] then w.links[h].s.State()
    else
      var init, last := steps[..|steps| - 1], steps[|steps| - 1];
      var n := |w.links[h].s.received| + ReadIn(init, h);
      var before := Execute(w, init);
      if ReadBy(last, h) == 1 && n < |ps| then ExpectedState(ps[n])
      else if last.Weather? && Named(before, h, before.board.weatherRequest) then CONNECTED
      else StateDue(w, init, h, ps)
  }

  /** While it lives: healthy, one packet further for each time it was served, and in the state that is due. */
  ghost predicate OnCourse(w: World, steps: seq<Step>, h: Handle, ps: seq<Packet>)
    requires h in w.links && Lived(w, steps, h)
  {
    var w' := Execute(w, steps);
    && Healthy(w', h, ps)
    && |w'.links[h].s.received| == |w.links[h].s.received| + ReadIn(steps, h)
    && w'.links[h].s.State() == StateDue(w, steps, h, ps)
  }

  lemma FinishedForGood(start: World, w: World, w': World, h: Handle, ps: seq<Packet>, dismissed: bool)
    requires Finished(start, w, h, ps, dismissed) && Extends(w, w')
    ensures Finished(start, w', h, ps, dismissed)
  {
    hide LeftCleanly, SentAway;
    var i :| |start.ended| <= i < |w.ended| &&
      if dismissed then SentAway(w.ended[i].s, h, ps) else LeftCleanly(w.ended[i].s, h, ps);
    assert w'.ended[i] == w.ended[i];
  }

  lemma FinishedSince(start: World, w: World, w': World, h: Handle, ps: seq<Packet>, dismissed: bool)
    requires Extends(start, w) && Finished(w, w', h, ps, dismissed)
    ensures Finished(start, w', h, ps, dismissed)
  {
    hide LeftCleanly, SentAway;
  }

  lemma CourseHolds(w: World, steps: seq<Step>, h: Handle, ps: seq<Packet>)
    requires steps != [] && h in w.links && Lived(w, steps, h)
    requires OnCourse(w, steps[..|steps| - 1], h, ps)
    requires
      var before := Execute(w, steps[..|steps| - 1]);
      h in before.links && Follows(before, steps[|steps| - 1], Execute(w, steps), h, ps)
    ensures OnCourse(w, steps, h, ps)
  {
    hide Execute, Healthy, ExpectedState, Named;
  }

  /** A connection the server has just taken is healthy, whatever its client is going to write. */
  lemma AcceptedIsHealthy(w: World, h: Handle, at: int, ps: seq<Packet>)
    requires Inv(w) && h !in w.links && h != INVALID_SOCK
    ensures
      var w' := Accept(w, Some(h), at);
      Healthy(w', h, ps) && w'.links[h].s.received == [] && w'.links[h].s.State() == HANDSHAKE_PENDING
  {
    AcceptInv(w, Some(h), at);
    hide Inv, EncodeAll;
  }

  /**
   The main result: however the steps of the loop, the network, the operator and all other clients
   interleave, as long as a conforming client's session lives it has read exactly one packet of its
   stream for each time it was served and is in the state due to the last of them. If it no longer lives
   it left without a fault: sent away if the operator dismissed it, and otherwise with everything up to
   its goodbye read.
   */
  lemma {:induction false} ConformingIsNeverFaulted(w: World, steps: seq<Step>, h: Handle, ps: seq<Packet>, id: Text)
    requires Healthy(w, h, ps) && Conforming(ps, id) && AllBenign(w, steps, h, ps)
    ensures
      if Lived(w, steps, h) then OnCourse(w, steps, h, ps) && !DismissedIn(w, steps, h)
      else Finished(w, Execute(w, steps), h, ps, DismissedIn(w, steps, h))
    decreases |steps|
  {
    if steps != [] {
      var init, last := steps[..|steps| - 1], steps[|steps| - 1];
      var before := Execute(w, init);
      assert Execute(w, steps) == Next(before, last);
      assert AllBenign(w, init, h, ps) && (Lived(w, init, h) ==> Benign(before, last, h, ps));
      assert Lived(w, steps, h) <==> Lived(w, init, h) && h in Next(before, last).links;
      assert Lived(w, init, h) ==> h in before.links;
      assert DismissedIn(w, steps, h) <==>
        DismissedIn(w, init, h) || (Lived(w, init, h) && Dismisses(before, last, h));
      hide *;
      ConformingIsNeverFaulted(w, init, h, ps, id);
      ExecuteExtends(w, init);
      NextExtends(before, last);
      if Lived(w, init, h) {
        CourseIsHealthy(w, init, h, ps);
        BenignStep(before, last, h, ps, id);
        WentWell(before, last, Next(before, last), h, ps);
        if h in Next(before, last).links {
          CourseHolds(w, steps, h, ps);
        } else {
          FinishedSince(w, before, Next(before, last), h, ps, Dismisses(before, last, h));
        }
      } else {
        FinishedForGood(w, before, Next(before, last), h, ps, DismissedIn(w, init, h));
      }
    } else {
      hide Inv, EncodeAll, Conforming, Finished;
    }
  }

  lemma WentWell(w: World, step: Step, w': World, h: Handle, ps: seq<Packet>)
    requires h in w.links && GoesWell(w, step, w', h, ps)
    ensures
      if h in w'.links then Follows(w, step, w', h, ps) && !Dismisses(w, step, h)
      else Finished(w, w', h, ps, Dismisses(w, step, h))
  {
    hide Follows, Finished, Dismisses;
  }

  lemma CourseIsHealthy(w: World, steps: seq<Step>, h: Handle, ps: seq<Packet>)
    requires h in w.links && Lived(w, steps, h) && OnCourse(w, steps, h, ps)
    ensures Healthy(Execute(w, steps), h, ps)
  {
    hide Execute, Lived, Healthy;
  }

  /**
   A conforming client is not only spared, it is heard: once it was served as often as it has packets to
   be heard, every one of them has been read, in order, and if the last is a goodbye it is gone; unless
   the operator dismissed it.
   */
  lemma ConformingIsHeard(w: World, steps: seq<Step>, h: Handle, ps: seq<Packet>, id: Text)
    requires Healthy(w, h, ps) && Conforming(ps, id) && AllBenign(w, steps, h, ps)
    requires w.links[h].s.received == [] && ReadIn(steps, h) == Audible(ps)
    ensures
      var w' := Execute(w, steps);
      if Lived(w, steps, h) then w'.links[h].s.received == ps && NoGoodbye(ps) && !DismissedIn(w, steps, h)
      else Finished(w, w', h, ps, DismissedIn(w, steps, h))
  {
    var w' := Execute(w, steps);
    ConformingIsNeverFaulted(w, steps, h, ps, id);
    hide *;
    if Lived(w, steps, h) {
      CourseIsHealthy(w, steps, h, ps);
      ReadCount(w, steps, h, ps);
      HealthyMeans(w', h, ps, id);
      HeardSoFar(ps, |w'.links[h].s.received|);
      assert ps[..|ps|] == ps;
    }
  }

  lemma ReadCount(w: World, steps: seq<Step>, h: Handle, ps: seq<Packet>)
    requires h in w.links && Lived(w, steps, h) && OnCourse(w, steps, h, ps)
    ensures h in Execute(w, steps).links && NoGoodbye(Execute(w, steps).links[h].s.received)
    ensures |Execute(w, steps).links[h].s.received| == |w.links[h].s.received| + ReadIn(steps, h)
  {
    hide Execute, Inv, EncodeAll, StateDue, NoGoodbye;
  }

  /** What a healthy session means to its client: verified under its own name, unfaulted, framing intact. */
  lemma HealthyMeans(w: World, h: Handle, ps: seq<Packet>, id: Text)
    requires Healthy(w, h, ps) && Conforming(ps, id)
    ensures
      var l := w.links[h];
      && !WasFaulted(l.s) && |l.s.received| <= |ps| && l.s.received == ps[..|l.s.received|]
      && l.s.id == (if l.s.received == [] then [] else id)
      && (l.s.received != [] ==> l.s.sent != [] && l.s.sent[0] == CommandPacket(HANDSHAKE_ACK, id, 1))
  {
    var l := w.links[h];
    assert LinkOk(l) && OnBoundary(l.s, l.ch);
    ConformingIsWellFormed(ps, id);
    ReadIsPrefix(l.s, l.ch, ps);
    assert ps[0] == HandshakeRequest(id) && ValidAircraftId(id);
    assert l.s.received != [] ==> l.s.received[0] == ps[0];
    hide *;
    NameAndAck(l, id);
  }

  lemma NameAndAck(l: Link, id: Text)
    requires LinkOk(l) && ValidAircraftId(id)
    requires l.s.received != [] ==> l.s.received[0] == HandshakeRequest(id)
    ensures !WasFaulted(l.s)
    ensures l.s.id == (if l.s.received == [] then [] else id)
    ensures l.s.received != [] ==> l.s.sent != [] && l.s.sent[0] == CommandPacket(HANDSHAKE_ACK, id, 1)
  {
    IdRoundTrip(id);
    assert |id| == 6 && 0 !in id;
    hide OnBoundary, MachineOk, ValidAircraftId, TelemetryOk, TimersOk, EncodeAll, IdField, ExtractId;
  }

  // ---------------------------------------------------------------- from accepting to serving

  /** Until it is served for the first time, nothing but a time-out can befall a connection. */
  lemma {:induction false} StillWaiting(w: World, steps: seq<Step>, h: Handle, ps: seq<Packet>, id: Text)
    requires Healthy(w, h, ps) && Conforming(ps, id) && w.links[h].s.received == []
    requires AllBenign(w, steps, h, ps) && ReadIn(steps, h) == 0
    ensures
      var w' := Execute(w, steps);
      Lived(w, steps, h) && Healthy(w', h, ps) && w'.links[h].s.received == []
    decreases |steps|
  {
    if steps != [] {
      var init, last := steps[..|steps| - 1], steps[|steps| - 1];
      var before := Execute(w, init);
      assert Execute(w, steps) == Next(before, last) && ReadIn(init, h) == 0 && ReadBy(last, h) == 0;
      assert AllBenign(w, init, h, ps) && (Lived(w, init, h) ==> Benign(before, last, h, ps));
      assert Lived(w, steps, h) <==> Lived(w, init, h) && h in Next(before, last).links;
      hide *;
      StillWaiting(w, init, h, ps, id);
      WaitsOn(before, last, h, ps, id);
    } else {
      hide Inv, EncodeAll, Conforming;
    }
  }

  lemma WaitsOn(w: World, step: Step, h: Handle, ps: seq<Packet>, id: Text)
    requires Healthy(w, h, ps) && Conforming(ps, id) && w.links[h].s.received == []
    requires Benign(w, step, h, ps) && ReadBy(step, h) == 0
    ensures var w' := Next(w, step); Healthy(w', h, ps) && w'.links[h].s.received == []
  {
    HealthyMeans(w, h, ps, id);
    assert h in w.links && !Dismisses(w, step, h);
    BenignStep(w, step, h, ps, id);
    hide Inv, Next, Healthy, Conforming, Benign, Finished, StateAfter, Dismisses;
  }

  /**
   How a meeting of client and server comes about: the server accepts the connection, anything but the
   newcomer's time-out happens in between, the request comes in whole, and at some later pass the server
   turns to it.
   */
  lemma RequestWaits(w: World, h: Handle, at: int, steps: seq<Step>, id: Text)
    requires Inv(w) && h !in w.links && h != INVALID_SOCK && ValidAircraftId(id)
    requires AllBenign(Accept(w, Some(h), at), steps, h, [HandshakeRequest(id)]) && ReadIn(steps, h) == 0
    ensures
      var w' := Execute(Accept(w, Some(h), at), steps);
      && Inv(w') && h in w'.links
      && (NextArrives(w'.links[h], [HandshakeRequest(id)]) && w'.links[h].ch.window >= HEADER_SIZE ==>
            Claiming(w'.links[h], id))
  {
    var ps, start := [HandshakeRequest(id)], Accept(w, Some(h), at);
    assert Conforming(ps, id);
    AcceptedIsHealthy(w, h, at, ps);
    StillWaiting(start, steps, h, ps, id);
    var w' := Execute(start, steps);
    assert Inv(w');
    hide Execute, AllBenign, Lived, Accept;
    ClaimComesIn(w', h, ps, id);
    hide Inv, Conforming, NextArrives, Claiming;
  }

  lemma ClaimComesIn(w: World, h: Handle, ps: seq<Packet>, id: Text)
    requires Healthy(w, h, ps) && Conforming(ps, id) && w.links[h].s.received == [] && ps == [HandshakeRequest(id)]
    ensures NextArrives(w.links[h], ps) && w.links[h].ch.window >= HEADER_SIZE ==> Claiming(w.links[h], id)
  {
    var l := w.links[h];
    assert LinkOk(l) && OnBoundary(l.s, l.ch);
    ConformingIsWellFormed(ps, id);
    PositionDecides(l, ps, id);
    hide Inv, LinkOk, OnBoundary, Conforming, EncodeAll, EncodePacket, HandshakeRequest, AllWellFormed;
    if NextArrives(l, ps) {
      var rest := HeadOfInbox(l, ps);
      assert EncodePacket(ps[0]) <= l.ch.inbox;
    }
  }

  // ---------------------------------------------------------------- such runs exist

  /** The whole stream has arrived and the first `n` packets of it have been read. */
  ghost predicate ReadUpTo(w: World, h: Handle, ps: seq<Packet>, n: nat) {
    Healthy(w, h, ps) && w.links[h].ch.delivered == EncodeAll(ps) && |w.links[h].s.received| == n <= |ps|
  }

  /** The client drains what it was sent, so that there is room for `window` bytes. */
  function Draining(h: Handle, window: nat): Step {
    Network(map[h := Peer([], window)])
  }

  lemma DrainedChannel(w: World, h: Handle, window: nat)
    requires h in w.links
    ensures
      var w1 := Next(w, Draining(h, window));
      && w1.links.Keys == w.links.Keys && (forall g :: g in w.links ==> w1.links[g].s == w.links[g].s)
      && w1.links[h].ch == w.links[h].ch.(window := window)
  {
  }

  lemma Drained(w: World, h: Handle, ps: seq<Packet>, n: nat, window: nat)
    requires ReadUpTo(w, h, ps, n)
    ensures Benign(w, Draining(h, window), h, ps)
    ensures
      var w1 := Next(w, Draining(h, window));
      && ReadUpTo(w1, h, ps, n) && w1.links[h].ch.window == window
      && forall id :: Owned(w1.links, id) ==> Owned(w.links, id)
  {
    NextInv(w, Draining(h, window));
    DrainedChannel(w, h, window);
    assert w.links[h].ch.delivered + [] == w.links[h].ch.delivered;
    hide Inv, Next, EncodeAll;
  }

  lemma WholeStreamArrives(l: Link, ps: seq<Packet>)
    requires OnBoundary(l.s, l.ch) && AllWellFormed(ps) && l.ch.delivered == EncodeAll(ps) && |l.s.received| < |ps|
    ensures NextArrives(l, ps)
  {
    BoundariesAgree(l.s.received, l.ch.inbox, ps);
    EncodeAllFront(ps[|l.s.received|..]);
    hide EncodeAll, EncodePacket, AllWellFormed;
  }

  /** The packet asks for nothing that is missing. */
  lemma RoomForAnswer(w: World, h: Handle, ps: seq<Packet>, id: Text, n: nat, file: File)
    requires Conforming(ps, id) && n < |ps| && h in w.links && (n == 0 ==> !Owned(w.links, id))
    requires file.Contents? && w.links[h].ch.window >= HEADER_SIZE + |file.data|
    ensures Answerable(w, h, ps[n], file)
  {
    IdRoundTrip(id);
    assert |id| == 6 && 0 !in id;
    hide IdField, ExtractId, ValidAircraftId, Checksum, Owned;
  }

  lemma ServingIsBenign(w: World, h: Handle, ps: seq<Packet>, id: Text, n: nat, file: File, at: int)
    requires ReadUpTo(w, h, ps, n) && Conforming(ps, id) && n < |ps| && (n == 0 ==> !Owned(w.links, id))
    requires file.Contents? && w.links[h].ch.window >= HEADER_SIZE + |file.data|
    ensures Benign(w, Serving(h, file, at), h, ps)
  {
    assert LinkOk(w.links[h]) && OnBoundary(w.links[h].s, w.links[h].ch);
    hide Inv, LinkOk, OnBoundary, Conforming, EncodeAll, EncodePacket, Answerable, NextArrives, Owned, AllWellFormed;
    ConformingIsWellFormed(ps, id);
    WholeStreamArrives(w.links[h], ps);
    RoomForAnswer(w, h, ps, id, n, file);
  }

  lemma ServedUpTo(w: World, h: Handle, ps: seq<Packet>, id: Text, n: nat, file: File, at: int)
    requires ReadUpTo(w, h, ps, n) && Conforming(ps, id) && n + 1 < Audible(ps)
    requires Benign(w, Serving(h, file, at), h, ps)
    ensures ReadUpTo(Next(w, Serving(h, file, at)), h, ps, n + 1)
  {
    assert Healthy(w, h, ps) by {
      hide Healthy, EncodeAll;
    }
    hide *;
    ServingIsServable(w, file, at, h, ps);
    NextIsServe(w, h, file, at);
    var p := PacketIsServed(w, h, ps, id, file, at);
    PositionOf(w, h, ps, n);
    IsThePacket(w.links[h], ps, n, p);
    assert ps[n].header.kind != DISCONNECT;
    OneFurther(w, Serve(w, h, file, at), h, ps, n, p);
  }

  lemma PositionOf(w: World, h: Handle, ps: seq<Packet>, n: nat)
    requires ReadUpTo(w, h, ps, n)
    ensures Healthy(w, h, ps) && h in w.links && |w.links[h].s.received| == n
  {
    hide Inv, EncodeAll;
  }

  lemma IsThePacket(l: Link, ps: seq<Packet>, n: nat, p: Packet)
    requires IsNext(l, ps, p) && |l.s.received| == n
    ensures n < |ps| && p == ps[n]
  {
  }

  lemma OneFurther(w: World, w': World, h: Handle, ps: seq<Packet>, n: nat, p: Packet)
    requires ReadUpTo(w, h, ps, n) && n < |ps| && Healthy(w', h, ps) && Consumed(w.links[h], w'.links[h], p)
    ensures ReadUpTo(w', h, ps, n + 1)
  {
    hide Inv, EncodeAll, EncodePacket, ExpectedState;
  }

  lemma BenignMore(w: World, steps: seq<Step>, step: Step, h: Handle, ps: seq<Packet>) returns (more: seq<Step>)
    requires AllBenign(w, steps, h, ps) && Lived(w, steps, h)
    requires h in Execute(w, steps).links && Benign(Execute(w, steps), step, h, ps)
    ensures more == steps + [step] && AllBenign(w, more, h, ps)
    ensures ReadIn(more, h) == ReadIn(steps, h) + ReadBy(step, h)
    ensures Execute(w, more) == Next(Execute(w, steps), step)
    ensures h in Execute(w, more).links ==> Lived(w, more, h)
  {
    more := steps + [step];
    assert more[..|more| - 1] == steps;
    hide Next, Benign;
  }

  /** One more packet: the client makes room and the server serves it. */
  lemma SoloStep(
      w: World, steps: seq<Step>, h: Handle, ps: seq<Packet>, id: Text, n: nat, window: nat, file: File, at: int)
    returns (more: seq<Step>)
    requires AllBenign(w, steps, h, ps) && Lived(w, steps, h) && ReadIn(steps, h) == n < Audible(ps)
    requires ReadUpTo(Execute(w, steps), h, ps, n) && Conforming(ps, id)
    requires n == 0 ==> !Owned(Execute(w, steps).links, id)
    requires file.Contents? && window >= HEADER_SIZE + |file.data|
    ensures AllBenign(w, more, h, ps) && ReadIn(more, h) == n + 1
    ensures n + 1 < Audible(ps) ==> Lived(w, more, h) && ReadUpTo(Execute(w, more), h, ps, n + 1)
  {
    assert ReadBy(Draining(h, window), h) == 0 && ReadBy(Serving(h, file, at), h) == 1;
    hide *;
    PositionOf(Execute(w, steps), h, ps, n);
    Drained(Execute(w, steps), h, ps, n, window);
    var half := BenignMore(w, steps, Draining(h, window), h, ps);
    PositionOf(Execute(w, half), h, ps, n);
    ServingIsBenign(Execute(w, half), h, ps, id, n, file, at);
    more := BenignMore(w, half, Serving(h, file, at), h, ps);
    if n + 1 < Audible(ps) {
      ServedUpTo(Execute(w, half), h, ps, id, n, file, at);
      PositionOf(Execute(w, more), h, ps, n + 1);
    }
  }

  /**
   Nothing asked of the world above is too much: every conforming stream that has arrived has a benign
   run in which the server reads all there is to hear.
   */
  lemma {:induction false} SoloRun(
      w: World, h: Handle, ps: seq<Packet>, id: Text, window: nat, file: File, at: int, k: nat)
    returns (steps: seq<Step>)
    requires ReadUpTo(w, h, ps, 0) && Conforming(ps, id) && !Owned(w.links, id) && k <= Audible(ps)
    requires file.Contents? && window >= HEADER_SIZE + |file.data|
    ensures AllBenign(w, steps, h, ps) && ReadIn(steps, h) == k
    ensures k < Audible(ps) ==> Lived(w, steps, h) && ReadUpTo(Execute(w, steps), h, ps, k)
    ensures k == 0 ==> steps == []
    decreases k
  {
    assert AllBenign(w, [], h, ps) && ReadIn([], h) == 0 && Execute(w, []) == w && Lived(w, [], h);
    hide *;
    steps := [];
    if k > 0 {
      steps := SoloRun(w, h, ps, id, window, file, at, k - 1);
      steps := SoloStep(w, steps, h, ps, id, k - 1, window, file, at);
    }
  }
}
