/** What a session keeps from step to step, and what the clock does to it, under every interleaving. */
module SessionLives {
  import opened Basics
  import opened Packets
  import opened SocketUtils
  import opened StateMachines
  import opened ClientSessions
  import opened Dashboards
  import opened SessionTable
  import opened TableInvariants
  import opened TableRuns
  import opened ServerSteps
  import opened TableTheorems

  // ---------------------------------------------------------------- history only grows

  ghost predicate Extends(before: World, after: World) {
    |before.ended| <= |after.ended| && after.ended[..|before.ended|] == before.ended
  }

  lemma ExtendsTransitive(a: World, b: World, c: World)
    requires Extends(a, b) && Extends(b, c)
    ensures Extends(a, c)
  {
    assert c.ended[..|a.ended|] == c.ended[..|b.ended|][..|a.ended|];
  }

  lemma NextExtends(w: World, step: Step)
    ensures Extends(w, Next(w, step))
  {
    hide SendWeatherMap, Dismiss, Process, FindById, Delivered, NewSession, Sync, FellSilent, Sweep;
    if step.Sweeping? {
      var late := SweepIsExact(w, step.now);
    }
  }

  /** Who left, left for good: nothing in the archive ever changes. */
  lemma {:induction false} ExecuteExtends(w: World, steps: seq<Step>)
    ensures Extends(w, Execute(w, steps))
    decreases |steps|
  {
    hide Next;
    if steps != [] {
      var before := Execute(w, steps[..|steps| - 1]);
      ExecuteExtends(w, steps[..|steps| - 1]);
      NextExtends(before, steps[|steps| - 1]);
      ExtendsTransitive(w, before, Execute(w, steps));
    }
  }

  // ---------------------------------------------------------------- a session from step to step

  /** `later` is `s` after one more turn at time `at`: it forgot nothing and its packet clock was set. */
  ghost predicate Continues(s: Session, later: Session, at: int) {
    && later.socket == s.socket && (s.id != [] ==> later.id == s.id)
    && s.received <= later.received && s.sent <= later.sent
    && later.lastPacket == at
    && (later.lastTelemetry == s.lastTelemetry || later.lastTelemetry == at)
  }

  lemma MapContinues(t: Turn, file: File, at: int)
    ensures
      var r := SendWeatherMap(t, file, at);
      r.keep ==> Continues(t.s, r.t.s, at) && r.t.s.received == t.s.received
  {
    hide EncodePacket, EncodeHeader, FilePacket, Fault, Sync, Transition;
  }

  lemma DispatchContinues(t: Turn, p: Packet, file: File, at: int)
    requires t.s.lastPacket == at
    ensures var r := Dispatch(t, p, file, at); r.keep ==> Continues(t.s, r.t.s, at)
  {
    MapContinues(t, file, at);
    hide SendWeatherMap, Fault, Sync, Transition, DurationCast;
  }

  /** A session that has no identifier yet may get one; its own handshake is the only way. */
  lemma ProcessContinues(t: Turn, links: map<Handle, Link>, file: File, at: int)
    requires t.s.State() == HANDSHAKE_PENDING ==> t.s.id == []
    ensures var r := Process(t, links, file, at); r.keep ==> Continues(t.s, r.t.s, at)
  {
    hide Dispatch, Fault, Sync, Transition, EncodeHeader, DecodeHeader, MakeHeader, ExtractId;
    hide IdInUse, ValidAircraftId, Checksum;
    if t.s.State() != HANDSHAKE_PENDING && CanRead(t.ch, HEADER_SIZE) {
      var header := DecodeHeader(t.ch.inbox[..HEADER_SIZE]);
      var ch1 := Read(t.ch, HEADER_SIZE);
      if CanRead(ch1, header.size) {
        var p := Packet(header, ch1.inbox[..header.size]);
        var s2 := t.s.PacketReceived(header.sequence, at).(received := t.s.received + [p]);
        var t2 := t.(s := s2, ch := Read(ch1, header.size));
        DispatchContinues(t2, p, file, at);
      }
    }
  }

  /** The instant of a step, if it has one. */
  function Instant(step: Step, otherwise: int): int {
    match step
    case Network(_) => otherwise
    case Act(_) => otherwise
    case Weather(_, at) => at
    case Dismissal(at) => at
    case Sweeping(now) => now
    case Accepting(_, at) => at
    case Serving(_, _, at) => at
  }

  lemma SettleContinues(w: World, h: Handle, r: Served, g: Handle, at: int)
    requires h in w.links && g in w.links && g in Settle(w, h, r).links
    requires r.keep ==> Continues(w.links[h].s, r.t.s, at)
    ensures var s, later := w.links[g].s, Settle(w, h, r).links[g].s; later == s || Continues(s, later, at)
  {
    hide Continues;
  }

  /**
   No step rewrites a session's past: while it lives its identifier, once it has one, stays the same,
   and what was sent to it and read from it only grows.
   */
  lemma StepContinues(w: World, step: Step, g: Handle)
    requires Inv(w) && g in w.links && g in Next(w, step).links
    ensures
      var s, later := w.links[g].s, Next(w, step).links[g].s;
      later == s || Continues(s, later, Instant(step, 0))
  {
    hide Inv, Continues, Next;
    match step
    case Weather(file, at) => WeatherContinues(w, file, at, g);
    case Dismissal(at) => DismissalContinues(w, at, g);
    case Sweeping(now) => SweepContinues(w, now, g);
    case Serving(h, file, at) => ServingContinues(w, h, file, at, g);
    case Network(_) => Timeless(w, step, g);
    case Act(_) => Timeless(w, step, g);
    case Accepting(offered, at) => AcceptContinues(w, offered, at, g);
  }

  lemma WeatherContinues(w: World, file: File, at: int, g: Handle)
    requires g in w.links && g in Next(w, Weather(file, at)).links
    ensures var s, later := w.links[g].s, Next(w, Weather(file, at)).links[g].s; later == s || Continues(s, later, at)
  {
    var w1 := w.(board := w.board.(weatherRequest := []));
    var found := FindById(w1.links, w.board.weatherRequest);
    hide Continues, FindById, SendWeatherMap, Settle;
    if w.board.weatherRequest != [] && found.Some? && IsVerified(w.links[found.value].s.State()) {
      MapContinues(TurnOf(w1, found.value), file, at);
      SettleContinues(w1, found.value, SendWeatherMap(TurnOf(w1, found.value), file, at), g, at);
    }
  }

  lemma DismissalContinues(w: World, at: int, g: Handle)
    requires g in w.links && g in Next(w, Dismissal(at)).links
    ensures var s, later := w.links[g].s, Next(w, Dismissal(at)).links[g].s; later == s || Continues(s, later, at)
  {
    var w1 := w.(board := w.board.(disconnectRequest := []));
    var found := FindById(w1.links, w.board.disconnectRequest);
    hide Continues, FindById, Dismiss, Settle;
    if w.board.disconnectRequest != [] && found.Some? && IsVerified(w.links[found.value].s.State()) {
      DismissLeaves(TurnOf(w1, found.value), at);
      SettleContinues(w1, found.value, Dismiss(TurnOf(w1, found.value), at), g, at);
    }
  }

  lemma SweepContinues(w: World, now: int, g: Handle)
    requires g in w.links && g in Next(w, Sweeping(now)).links
    ensures Next(w, Sweeping(now)).links[g].s == w.links[g].s
  {
    var late := SweepIsExact(w, now);
    hide Sweep, FellSilent;
  }

  lemma AcceptContinues(w: World, offered: Option<Handle>, at: int, g: Handle)
    requires g in w.links && g in Next(w, Accepting(offered, at)).links
    ensures Next(w, Accepting(offered, at)).links[g].s == w.links[g].s
  {
    hide NewSession;
  }

  lemma ServingContinues(w: World, h: Handle, file: File, at: int, g: Handle)
    requires Inv(w) && g in w.links && g in Next(w, Serving(h, file, at)).links
    ensures
      var s, later := w.links[g].s, Next(w, Serving(h, file, at)).links[g].s;
      later == s || Continues(s, later, at)
  {
    if h in w.links {
      ServingIsATurn(w, h, file, at);
      PendingHasNoName(w, h);
      ProcessContinues(TurnOf(w, h), w.links, file, at);
      SettleContinues(w, h, Process(TurnOf(w, h), w.links, file, at), g, at);
    } else {
      ServingNobody(w, h, file, at);
    }
    hide *;
  }

  lemma ServingIsATurn(w: World, h: Handle, file: File, at: int)
    requires h in w.links
    ensures Next(w, Serving(h, file, at)) == Settle(w, h, Process(TurnOf(w, h), w.links, file, at))
    ensures TurnOf(w, h).s == w.links[h].s
  {
    hide Settle, Process;
  }

  lemma ServingNobody(w: World, h: Handle, file: File, at: int)
    requires h !in w.links
    ensures Next(w, Serving(h, file, at)) == w
  {
    hide Process;
  }

  lemma PendingHasNoName(w: World, h: Handle)
    requires Inv(w) && h in w.links
    ensures w.links[h].s.State() == HANDSHAKE_PENDING ==> w.links[h].s.id == []
  {
    assert LinkOk(w.links[h]);
    hide Inv, OnBoundary, MachineOk, ServerStream, ValidAircraftId, TelemetryOk, TimersOk;
  }

  // ---------------------------------------------------------------- the clock

  /** The clock at the end of the steps, if it stood at `from` before them. */
  function Clock(from: int, steps: seq<Step>): int {
    if steps == [] then from else Instant(steps[|steps| - 1], Clock(from, steps[..|steps| - 1]))
  }

  /** The clock is steady: it never runs backwards. */
  ghost predicate Steady(from: int, steps: seq<Step>) {
    steps != [] ==> Steady(from, steps[..|steps| - 1]) && Clock(from, steps[..|steps| - 1]) <= Clock(from, steps)
  }

  ghost predicate TimersInOrder(w: World, now: int) {
    forall h :: h in w.links ==> w.links[h].s.lastTelemetry <= w.links[h].s.lastPacket <= now
  }

  lemma TimersStep(w: World, step: Step, now: int, later: int)
    requires Inv(w) && TimersInOrder(w, now) && 0 <= now <= later == Instant(step, now)
    ensures TimersInOrder(Next(w, step), later)
  {
    var w' := Next(w, step);
    hide Inv, Next;
    forall h | h in w'.links ensures w'.links[h].s.lastTelemetry <= w'.links[h].s.lastPacket <= later {
      if h in w.links {
        StepContinues(w, step, h);
        if step.Network? || step.Act? {
          Timeless(w, step, h);
        }
      } else {
        NewcomerTimers(w, step, h);
      }
    }
  }

  /** Steps without an instant touch no session. */
  lemma Timeless(w: World, step: Step, h: Handle)
    requires step.Network? || step.Act?
    ensures h in Next(w, step).links ==> h in w.links && Next(w, step).links[h].s == w.links[h].s
  {
    hide Delivered;
  }

  lemma NewcomerTimers(w: World, step: Step, h: Handle)
    requires h !in w.links && h in Next(w, step).links
    ensures step.Accepting?
    ensures Next(w, step).links[h].s.lastTelemetry == 0 && Next(w, step).links[h].s.lastPacket == step.at
  {
    if step.Accepting? {
      hide Transition;
    } else {
      hide *;
      if step.Weather? || step.Dismissal? {
        RequestsAddNobody(w, step, h);
      } else {
        OtherStepsAddNobody(w, step, h);
      }
    }
  }

  lemma RequestsAddNobody(w: World, step: Step, h: Handle)
    requires h !in w.links && (step.Weather? || step.Dismissal?)
    ensures h !in Next(w, step).links
  {
    hide SendWeatherMap, Dismiss, FindById, IsVerified;
  }

  lemma OtherStepsAddNobody(w: World, step: Step, h: Handle)
    requires h !in w.links && (step.Network? || step.Act? || step.Sweeping? || step.Serving?)
    ensures h !in Next(w, step).links
  {
    if step.Sweeping? {
      var late := SweepIsExact(w, step.now);
    }
    hide Sweep, Process, FellSilent, Delivered;
  }

  /**
   Under a steady clock that starts above zero, whatever happens: no live session is ever both
   degraded and timed out, so the operator never sees a rate alert for a session that is due to be removed.
   */
  lemma NeverDegradedAndTimedOut(start: int, steps: seq<Step>, h: Handle, now: int)
    requires 0 < start && Steady(start, steps) && Clock(start, steps) <= now
    requires h in Execute(START, steps).links
    ensures !(RateDegraded(Execute(START, steps).links[h].s, now) && TimedOut(Execute(START, steps).links[h].s, now))
  {
    TimersAlwaysInOrder(start, steps);
    hide Execute;
    DegradedIsNotTimedOut(Execute(START, steps).links[h].s, now);
  }

  lemma {:induction false} TimersAlwaysInOrder(start: int, steps: seq<Step>)
    requires 0 < start && Steady(start, steps)
    ensures TimersInOrder(Execute(START, steps), Clock(start, steps)) && start <= Clock(start, steps)
    decreases |steps|
  {
    if steps != [] {
      hide Inv, Next, TimersInOrder, Instant;
      var init := steps[..|steps| - 1];
      TimersAlwaysInOrder(start, init);
      StartInv();
      EveryStep(START, init);
      TimersStep(Execute(START, init), steps[|steps| - 1], Clock(start, init), Clock(start, steps));
    }
  }
}
