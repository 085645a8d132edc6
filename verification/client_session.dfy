/** server/client_session.cpp: what the server keeps for one connection, and its timers. */
module ClientSessions {
  import opened Basics
  import opened Packets
  import opened StateMachines

  const INVALID_SOCK: Handle := -1
  const TELEMETRY_SIZE := 20

  // Instants and durations are nanoseconds of the steady clock.
  const MILLISECOND := 1_000_000
  const SECOND := 1_000_000_000
  const MIN_ALERT_AGE := 1500
  const TELEMETRY_TIMEOUT := 3
  const DEFAULT_TIMEOUT := 5

  /** `duration_cast` to a coarser unit: truncation toward zero. */
  function DurationCast(d: int, unit: int): int
    requires unit > 0
  {
    if d >= 0 then d / unit else -(-d / unit)
  }

  /**
   The value of a session. The last two fields are history: every packet handed over whole to the
   peer, and every packet read whole from it.
   */
  datatype Session = Session(
    socket: Handle,
    id: Text,
    machine: Machine,
    telemetry: seq<Byte>,
    telemetryValid: bool,
    nextSequence: Word,
    lastClientSequence: Word,
    lastPacket: int,
    lastTelemetry: int,
    interval: int,
    sent: seq<Packet>,
    received: seq<Packet>)
  {
    function State(): State {
      machine.current
    }

    function Moved(next: State): Session {
      this.(machine := Transition(machine, next))
    }

    function Touched(at: int): Session {
      this.(lastPacket := at)
    }

    function PacketReceived(sequence: Word, at: int): Session {
      this.(lastClientSequence := sequence, lastPacket := at)
    }

    function TelemetryUpdated(payload: seq<Byte>, at: int): Session {
      var gap := if lastTelemetry != 0 then DurationCast(at - lastTelemetry, MILLISECOND) else interval;
      this.(interval := gap, lastTelemetry := at, telemetry := payload, telemetryValid := true, lastPacket := at)
    }
  }

  function NewSession(socket: Handle, at: int): Session {
    Session(socket, [], INITIAL, seq(TELEMETRY_SIZE, _ => 0), false, 1, 0, at, 0, 0, [], [])
  }

  /** In milliseconds: how long after the last telemetry packet the operator is alerted. */
  function AlertAge(s: Session): int {
    var doubled := if s.interval > 0 then s.interval * 2 else 0;
    if doubled > MIN_ALERT_AGE then doubled else MIN_ALERT_AGE
  }

  predicate RateDegraded(s: Session, now: int) {
    s.State() == State.TELEMETRY && s.telemetryValid && s.lastTelemetry != 0 && now > s.lastTelemetry &&
    var age := DurationCast(now - s.lastTelemetry, MILLISECOND);
    age >= AlertAge(s) && age < TELEMETRY_TIMEOUT * 1000
  }

  predicate TimedOut(s: Session, now: int) {
    s.State() != DISCONNECTED && s.State() != FAULT &&
    var seconds := if s.State() == State.TELEMETRY then TELEMETRY_TIMEOUT else DEFAULT_TIMEOUT;
    DurationCast(now - s.lastPacket, SECOND) >= seconds
  }

  class ClientSession {
    var socket: Handle
    var id: Text
    const machine: StateMachine
    var telemetry: seq<Byte>
    var telemetryValid: bool
    var nextSequence: Word
    var lastClientSequence: Word
    var lastPacket: int
    var lastTelemetry: int
    var interval: int
    ghost var sent: seq<Packet>
    ghost var received: seq<Packet>

    constructor (socket: Handle, now: int)
      ensures View() == NewSession(socket, now)
      ensures fresh(machine) && machine.owner == socket
    {
      this.socket := socket;
      id := [];
      machine := new StateMachine(socket);
      telemetry, telemetryValid := seq(TELEMETRY_SIZE, _ => 0), false;
      nextSequence, lastClientSequence := 1, 0;
      lastPacket, lastTelemetry, interval := now, 0, 0;
      sent, received := [], [];
    }

    ghost function View(): Session
      reads this, machine
    {
      Session(socket, id, machine.View(), telemetry, telemetryValid, nextSequence, lastClientSequence,
        lastPacket, lastTelemetry, interval, sent, received)
    }

    method Close()
      modifies this`socket
      ensures socket == INVALID_SOCK
    {
      socket := INVALID_SOCK;
    }

    method SetAircraftId(value: Text)
      modifies this
      ensures View() == old(View()).(id := value)
    {
      id := value;
    }

    method Touch(at: int)
      modifies this
      ensures View() == old(View()).Touched(at)
    {
      lastPacket := at;
    }

    method MarkPacketReceived(sequence: Word, at: int)
      modifies this
      ensures View() == old(View()).PacketReceived(sequence, at)
    {
      lastClientSequence := sequence;
      Touch(at);
    }

    method UpdateTelemetry(payload: seq<Byte>, at: int)
      modifies this
      ensures View() == old(View()).TelemetryUpdated(payload, at)
    {
      if lastTelemetry != 0 {
        interval := DurationCast(at - lastTelemetry, MILLISECOND);
      }
      lastTelemetry := at;
      telemetry := payload;
      telemetryValid := true;
      Touch(at);
    }

    method ConsumeServerSequence() returns (n: Word)
      modifies this
      ensures n == old(nextSequence)
      ensures View() == old(View()).(nextSequence := Wrap(n + 1))
    {
      n := nextSequence;
      nextSequence := Wrap(nextSequence + 1);
    }

    method IsTimedOut(now: int) returns (b: bool)
      ensures b <==> TimedOut(View(), now)
    {
      if machine.current == DISCONNECTED || machine.current == FAULT {
        return false;
      }
      var timeoutSeconds := if machine.current == State.TELEMETRY then TELEMETRY_TIMEOUT else DEFAULT_TIMEOUT;
      return DurationCast(now - lastPacket, SECOND) >= timeoutSeconds;
    }
  }

  // ---------------------------------------------------------------- timers

  /** What happens to the timers: any packet, or a telemetry packet. */
  datatype Tick = Heard(at: int) | Sampled(payload: seq<Byte>, at: int)

  function ApplyTick(s: Session, t: Tick): Session {
    match t
    case Heard(at) => s.Touched(at)
    case Sampled(payload, at) => s.TelemetryUpdated(payload, at)
  }

  function ApplyTicks(s: Session, ts: seq<Tick>): Session {
    if ts == [] then s else ApplyTick(ApplyTicks(s, ts[..|ts| - 1]), ts[|ts| - 1])
  }

  /** The clock never runs backwards, and starts at `from`. */
  ghost predicate Monotone(from: int, ts: seq<Tick>) {
    (forall i :: 0 <= i < |ts| ==> from <= ts[i].at) &&
    forall i, j :: 0 <= i < j < |ts| ==> ts[i].at <= ts[j].at
  }

  /** Whatever arrives after a session is created, its telemetry clock never overtakes its packet clock. */
  lemma {:induction false} PacketClockLeads(socket: Handle, start: int, ts: seq<Tick>)
    requires 0 < start && Monotone(start, ts)
    ensures var s := ApplyTicks(NewSession(socket, start), ts);
      s.lastTelemetry <= s.lastPacket && start <= s.lastPacket &&
      s.lastPacket == (if ts == [] then start else ts[|ts| - 1].at) && 0 <= s.interval
  {
    if ts != [] {
      PacketClockLeads(socket, start, ts[..|ts| - 1]);
    }
  }

  /** A silent session times out after 3 s in TELEMETRY, after 5 s in any other state that is not over. */
  lemma TimesOutExactly(s: Session, now: int)
    ensures TimedOut(s, now) <==>
      && s.State() !in {State.DISCONNECTED, FAULT}
      && now - s.lastPacket >= if s.State() == State.TELEMETRY then 3_000_000_000 else 5_000_000_000
  {
  }

  /** A session is degraded from 1.5 s or twice its last interval, whichever is later, to 3 s after its telemetry. */
  lemma DegradesExactly(s: Session, now: int)
    ensures RateDegraded(s, now) <==>
      var age := now - s.lastTelemetry;
      && s.State() == State.TELEMETRY && s.telemetryValid && s.lastTelemetry != 0
      && 1_500_000_000 <= age < 3_000_000_000 && 2_000_000 * s.interval <= age
  {
  }

  ghost predicate AllHeard(ts: seq<Tick>) {
    forall i :: 0 <= i < |ts| ==> ts[i].Heard?
  }

  lemma {:induction false} HeardChangesLittle(s: Session, ts: seq<Tick>)
    requires AllHeard(ts)
    ensures ApplyTicks(s, ts) == s.(lastPacket := ApplyTicks(s, ts).lastPacket)
  {
    if ts != [] {
      HeardChangesLittle(s, ts[..|ts| - 1]);
    }
  }

  /** The interval is the time between the last two telemetry packets, whatever else was heard between them. */
  lemma IntervalIsGap(s: Session, p1: seq<Byte>, t1: int, between: seq<Tick>, p2: seq<Byte>, t2: int)
    requires 0 < t1 <= t2 && AllHeard(between)
    ensures
      var later := ApplyTick(ApplyTicks(ApplyTick(s, Sampled(p1, t1)), between), Sampled(p2, t2));
      && later.interval == (t2 - t1) / 1_000_000 && later.telemetryValid && later.telemetry == p2
      && later.lastTelemetry == later.lastPacket == t2
  {
    HeardChangesLittle(ApplyTick(s, Sampled(p1, t1)), between);
    hide ApplyTicks;
  }

  /** The alert and the time-out never hold together, however the two truncations fall. */
  lemma DegradedIsNotTimedOut(s: Session, now: int)
    requires s.lastTelemetry <= s.lastPacket <= now
    ensures !(RateDegraded(s, now) && TimedOut(s, now))
  {
    if RateDegraded(s, now) {
      assert now - s.lastTelemetry < TELEMETRY_TIMEOUT * SECOND;
    }
  }

  /**
   While telemetry is the last thing heard, a session passes through healthy, degraded and timed out
   in that order; the bounds are exact to the nanosecond.
   */
  lemma TelemetryPhases(s: Session, now: int)
    requires s.State() == State.TELEMETRY && s.telemetryValid && 0 < s.lastTelemetry == s.lastPacket < now
    ensures var age := now - s.lastTelemetry;
      && (TimedOut(s, now) <==> age >= TELEMETRY_TIMEOUT * SECOND)
      && (RateDegraded(s, now) <==> AlertAge(s) * MILLISECOND <= age < TELEMETRY_TIMEOUT * SECOND)
  {
  }

  /**
   The alert exists to warn before the time-out. If nothing more is heard from a session, there is an
   instant at which it is degraded exactly when it is in TELEMETRY, has had telemetry, and its last two
   telemetry packets were less than 1500 ms apart; otherwise the first sign is the time-out.
   */
  lemma AlertPrecedesTimeout(s: Session)
    ensures (exists now :: RateDegraded(s, now)) <==>
      s.State() == State.TELEMETRY && s.telemetryValid && s.lastTelemetry != 0 && s.interval < MIN_ALERT_AGE
    ensures s.lastTelemetry <= s.lastPacket ==>
      forall now, later :: RateDegraded(s, now) && TimedOut(s, later) ==> now < later
  {
    if s.State() == State.TELEMETRY && s.telemetryValid && s.lastTelemetry != 0 && s.interval < MIN_ALERT_AGE {
      assert RateDegraded(s, s.lastTelemetry + AlertAge(s) * MILLISECOND);
    }
    forall now | RateDegraded(s, now) ensures s.interval < MIN_ALERT_AGE {
    }
  }

  /**
   An input on which the warning fails: two telemetry packets 1.6 s apart. The second came in time, the
   session then times out 3 s later, and at no instant after it was the operator alerted.
   */
  lemma AlertMissed(payload: seq<Byte>, start: int)
    requires 0 < start
    ensures
      var gap := 1600 * MILLISECOND;
      var connected := NewSession(5, start).Moved(HANDSHAKE_PENDING).Moved(CONNECTED).Moved(State.TELEMETRY);
      var s1 := ApplyTicks(connected, [Sampled(payload, start)]);
      var s2 := ApplyTicks(connected, [Sampled(payload, start), Sampled(payload, start + gap)]);
      && !TimedOut(s1, start + gap) && TimedOut(s2, start + gap + TELEMETRY_TIMEOUT * SECOND)
      && forall now :: !RateDegraded(s2, now)
  {
    var ticks := [Sampled(payload, start), Sampled(payload, start + 1600 * MILLISECOND)];
    assert ticks[..1] == [ticks[0]] && ticks[..1][..0] == [];
  }

  /**
   Another: telemetry comes regularly, 1 s apart, then the server sends a weather map, which leaves the
   session in CONNECTED, and then nothing is heard. It times out 5 s later without an alert.
   */
  lemma AlertLostToMap(payload: seq<Byte>, start: int)
    requires 0 < start
    ensures
      var sent := start + 1500 * MILLISECOND;
      var connected := NewSession(5, start).Moved(HANDSHAKE_PENDING).Moved(CONNECTED).Moved(State.TELEMETRY);
      var s1 := ApplyTicks(connected, [Sampled(payload, start), Sampled(payload, start + SECOND)]);
      var s2 := s1.Moved(CONNECTED).Moved(LARGE_FILE_TRANSFER).Touched(sent).Moved(CONNECTED);
      && s2.interval == 1000 && !TimedOut(s1, sent) && TimedOut(s2, sent + DEFAULT_TIMEOUT * SECOND)
      && forall now :: !RateDegraded(s2, now)
  {
    var ticks := [Sampled(payload, start), Sampled(payload, start + SECOND)];
    assert ticks[..1] == [ticks[0]] && ticks[..1][..0] == [];
    var connected := NewSession(5, start).Moved(HANDSHAKE_PENDING).Moved(CONNECTED).Moved(State.TELEMETRY);
    assert connected.State() == State.TELEMETRY;
    var s0 := ApplyTicks(connected, ticks[..1]);
    assert ApplyTicks(connected, []) == connected;
    assert s0 == connected.TelemetryUpdated(payload, start);
    var s1 := ApplyTicks(connected, ticks);
    assert s1 == s0.TelemetryUpdated(payload, start + SECOND);
    assert s1.State() == State.TELEMETRY && s1.lastPacket == start + SECOND;
    var s2 := s1.Moved(CONNECTED).Moved(LARGE_FILE_TRANSFER).Touched(start + 1500 * MILLISECOND).Moved(CONNECTED);
    assert s2.State() == CONNECTED && s2.lastPacket == start + 1500 * MILLISECOND;
  }
}
