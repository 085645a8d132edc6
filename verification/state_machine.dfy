/** server/state_machine.cpp: the session states and the transitions allowed between them. */
module StateMachines {
  datatype State = DISCONNECTED | HANDSHAKE_PENDING | CONNECTED | TELEMETRY | LARGE_FILE_TRANSFER | FAULT

  predicate IsAllowed(from: State, to: State) {
    from == to ||
    match from
    case DISCONNECTED => to == HANDSHAKE_PENDING
    case HANDSHAKE_PENDING => to == CONNECTED || to == DISCONNECTED || to == FAULT
    case CONNECTED => to == TELEMETRY || to == LARGE_FILE_TRANSFER || to == DISCONNECTED || to == FAULT
    case TELEMETRY => to == CONNECTED || to == FAULT
    case LARGE_FILE_TRANSFER => to == CONNECTED || to == FAULT
    case FAULT => to == DISCONNECTED
  }

  /** The edges of the diagram. */
  const EDGES: set<(State, State)> := {
    (DISCONNECTED, HANDSHAKE_PENDING),
    (HANDSHAKE_PENDING, CONNECTED), (HANDSHAKE_PENDING, DISCONNECTED), (HANDSHAKE_PENDING, FAULT),
    (CONNECTED, TELEMETRY), (CONNECTED, LARGE_FILE_TRANSFER), (CONNECTED, DISCONNECTED), (CONNECTED, FAULT),
    (TELEMETRY, CONNECTED), (TELEMETRY, FAULT),
    (LARGE_FILE_TRANSFER, CONNECTED), (LARGE_FILE_TRANSFER, FAULT),
    (FAULT, DISCONNECTED)
  }

  lemma AllowedAreEdges(from: State, to: State)
    ensures IsAllowed(from, to) <==> from == to || (from, to) in EDGES
  {
  }

  /** server/server_utils.cpp: the states in which an aircraft has a verified identity. */
  predicate IsVerified(s: State) {
    s == CONNECTED || s == TELEMETRY
  }

  /**
   A state machine and its history: the states it has been in, and how many transitions it refused
   (each refusal is a line on standard error).
   */
  datatype Machine = Machine(current: State, path: seq<State>, refusals: nat)

  const INITIAL := Machine(DISCONNECTED, [DISCONNECTED], 0)

  function Transition(m: Machine, next: State): Machine {
    if IsAllowed(m.current, next) then Machine(next, m.path + [next], m.refusals)
    else m.(refusals := m.refusals + 1)
  }

  /** A transition along an edge is taken and remembered; any other changes nothing but the count of refusals. */
  lemma TransitionFollowsEdges(m: Machine, next: State)
    ensures
      var m' := Transition(m, next);
      if m.current == next || (m.current, next) in EDGES then
        m'.current == next && m'.path == m.path + [next] && m'.refusals == m.refusals
      else m'.current == m.current && m'.path == m.path && m'.refusals == m.refusals + 1
    ensures IsVerified(next) <==> next in {CONNECTED, TELEMETRY}
  {
    AllowedAreEdges(m.current, next);
    hide IsAllowed;
  }

  class StateMachine {
    var current: State
    ghost var path: seq<State>
    ghost var refusals: nat
    /** The connection whose session this machine belongs to. */
    ghost const owner: int

    constructor (ghost owner: int)
      ensures View() == INITIAL && this.owner == owner
    {
      this.owner := owner;
      current, path, refusals := DISCONNECTED, [DISCONNECTED], 0;
    }

    ghost function View(): Machine
      reads this
    {
      Machine(current, path, refusals)
    }

    method Move(next: State) returns (ok: bool)
      modifies this
      ensures ok <==> IsAllowed(old(current), next)
      ensures View() == Transition(old(View()), next)
    {
      if !IsAllowed(current, next) {
        refusals := refusals + 1;
        return false;
      }
      current, path := next, path + [next];
      return true;
    }
  }
}
