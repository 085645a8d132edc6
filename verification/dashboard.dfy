/** server/dashboard_state.cpp and server/server_dashboard_sync.cpp: the operator's picture of the fleet. */
module Dashboards {
  import opened Basics
  import opened StateMachines
  import opened ClientSessions

  datatype Entry = Entry(aircraftId: Text, state: State, connected: bool, telemetryValid: bool, telemetry: seq<Byte>)

  datatype Board = Board(
    aircraft: map<Text, Entry>,
    selected: Text,
    weatherRequest: Text,
    disconnectRequest: Text)

  const EMPTY_BOARD := Board(map[], [], [], [])

  function EntryFor(s: Session): Entry {
    Entry(s.id, s.State(), IsVerified(s.State()), s.telemetryValid, s.telemetry)
  }

  function Sync(b: Board, s: Session): Board {
    if s.id == [] then b
    else b.(aircraft := b.aircraft[s.id := EntryFor(s)], selected := if b.selected == [] then s.id else b.selected)
  }

  /** Bringing a named session onto the board selects it if nobody was selected, and moves no selection else. */
  lemma SelectionIsFilled(b: Board, s: Session)
    ensures Sync(b, s).selected == if b.selected == [] then s.id else b.selected
    ensures Sync(b, s).weatherRequest == b.weatherRequest && Sync(b, s).disconnectRequest == b.disconnectRequest
  {
  }

  class DashboardState {
    var aircraft: map<Text, Entry>
    var selected: Text
    var weatherRequest: Text
    var disconnectRequest: Text
    var recentLog: seq<Text>

    constructor ()
      ensures View() == EMPTY_BOARD && recentLog == []
    {
      recentLog := [];
      aircraft, selected, weatherRequest, disconnectRequest := map[], [], [], [];
    }

    ghost function View(): Board
      reads this
    {
      Board(aircraft, selected, weatherRequest, disconnectRequest)
    }

    method SyncAircraft(session: ClientSession)
      modifies this
      ensures View() == Sync(old(View()), session.View())
    {
      if session.id == [] {
        return;
      }
      var state := session.machine.current;
      var connected := state == CONNECTED || state == State.TELEMETRY;
      var entry := Entry(session.id, state, connected, session.telemetryValid, session.telemetry);
      aircraft := aircraft[session.id := entry];
      if selected == [] {
        selected := session.id;
      }
    }

    method ConsumeWeatherRequest() returns (id: Text)
      modifies this`weatherRequest
      ensures id == old(weatherRequest) && weatherRequest == []
    {
      id := weatherRequest;
      weatherRequest := [];
    }

    method ConsumeDisconnectRequest() returns (id: Text)
      modifies this`disconnectRequest
      ensures id == old(disconnectRequest) && disconnectRequest == []
    {
      id := disconnectRequest;
      disconnectRequest := [];
    }

    /** `selectedAircraft`: the entry that is selected, after a selection that names nobody was repaired. */
    method SelectedAircraft() returns (entry: Option<Entry>)
      modifies this`selected
      ensures selected == Repaired(aircraft, old(selected))
      ensures entry.Some? <==> aircraft != map[]
      ensures entry.Some? ==> selected in aircraft && entry.value == aircraft[selected]
    {
      var ids := SortedIds(aircraft.Keys);
      if selected == [] && ids != [] {
        selected := ids[0];
      }
      if selected in aircraft {
        return Some(aircraft[selected]);
      }
      assert ids == [] ==> aircraft.Keys == {};
      if ids != [] {
        selected := ids[0];
        return Some(aircraft[ids[0]]);
      }
      selected := [];
      return None;
    }

    /** `appendDashboardLogEntry`: newest first, at most twenty. */
    method AppendLogEntry(entry: Text)
      modifies this`recentLog
      ensures recentLog == Logged(old(recentLog), entry)
    {
      recentLog := [entry] + recentLog;
      if |recentLog| > LOG_LINES {
        recentLog := recentLog[..|recentLog| - 1];
      }
    }

    method SelectRelative(direction: int)
      modifies this`selected
      ensures selected == Neighbour(SortedIds(aircraft.Keys), old(selected), direction)
    {
      selected := MoveSelection(SortedIds(aircraft.Keys), selected, direction);
    }
  }

  const LOG_LINES := 20

  /** Pushed at the front; the oldest line goes when there are more than twenty. */
  function Logged(log: seq<Text>, entry: Text): seq<Text> {
    var longer := [entry] + log;
    if |longer| > LOG_LINES then longer[..|longer| - 1] else longer
  }

  function LogAfter(entries: seq<Text>): seq<Text> {
    if entries == [] then [] else Logged(LogAfter(entries[..|entries| - 1]), entries[|entries| - 1])
  }

  /** Whatever was logged, the operator sees the latest twenty lines and only those, newest first. */
  lemma {:induction false} LogShowsLatest(entries: seq<Text>)
    ensures |LogAfter(entries)| == if |entries| <= 20 then |entries| else 20
    ensures forall i :: 0 <= i < |LogAfter(entries)| ==> LogAfter(entries)[i] == entries[|entries| - 1 - i]
  {
    if entries != [] {
      LogShowsLatest(entries[..|entries| - 1]);
    }
  }

  /** The selection, or the first aircraft if it names none, or nobody if there is none. */
  function Repaired(aircraft: map<Text, Entry>, selected: Text): Text {
    var ids := SortedIds(aircraft.Keys);
    if selected in aircraft && selected != [] then selected else if ids != [] then ids[0] else []
  }

  /** A selection that names an aircraft is never moved, and a repaired one needs no more repair. */
  lemma RepairIsStable(aircraft: map<Text, Entry>, selected: Text)
    requires [] !in aircraft
    ensures selected in aircraft ==> Repaired(aircraft, selected) == selected
    ensures Repaired(aircraft, Repaired(aircraft, selected)) == Repaired(aircraft, selected)
    ensures Repaired(aircraft, selected) in aircraft <==> aircraft != map[]
    ensures selected !in aircraft ==> forall id :: id in aircraft && id != Repaired(aircraft, selected) ==>
      TextLess(Repaired(aircraft, selected), id)
  {
    var ids := SortedIds(aircraft.Keys);
    if ids != [] {
      assert ids[0] in ids;
      forall id | id in aircraft && id != ids[0] ensures TextLess(ids[0], id) {
        assert id in ids;
        var i :| 0 <= i < |ids| && ids[i] == id;
      }
    } else {
      assert aircraft.Keys == {};
    }
    hide SortedIds;
  }

  /** The iterator moves of `selectRelativeAircraft`, over the keys in map order. */
  method MoveSelection(ids: seq<Text>, selected: Text, direction: int) returns (next: Text)
    ensures next == Neighbour(ids, selected, direction)
  {
    if ids == [] {
      return [];
    }
    var i := 0;
    while i < |ids| && ids[i] != selected
      invariant 0 <= i <= |ids|
      invariant selected !in ids[..i]
      invariant selected in ids ==> i <= Position(ids, selected)
    {
      i := i + 1;
    }
    if i == |ids| {
      return ids[0];
    }
    if direction > 0 {
      i := i + 1;
      if i == |ids| {
        i := 0;
      }
    } else {
      if i == 0 {
        i := |ids|;
      }
      i := i - 1;
    }
    return ids[i];
  }

  // ---------------------------------------------------------------- cycling through the fleet

  ghost predicate Distinct(ids: seq<Text>) {
    forall i, j :: 0 <= i < j < |ids| ==> ids[i] != ids[j]
  }

  function Position(ids: seq<Text>, id: Text): (i: nat)
    requires id in ids
    ensures i < |ids| && ids[i] == id
    ensures id !in ids[..i]
  {
    if ids[0] == id then 0 else 1 + Position(ids[1..], id)
  }

  function Around(i: nat, n: nat, direction: int): (j: nat)
    requires i < n
    ensures j < n
  {
    if direction > 0 then (if i + 1 == n then 0 else i + 1) else (if i == 0 then n - 1 else i - 1)
  }

  /** The selection one step away around the circle of known aircraft; the first one if there was none. */
  function Neighbour(ids: seq<Text>, selected: Text, direction: int): Text {
    if ids == [] then []
    else if selected !in ids then ids[0]
    else ids[Around(Position(ids, selected), |ids|, direction)]
  }

  function Cycled(ids: seq<Text>, selected: Text, direction: int, steps: nat): Text {
    if steps == 0 then selected else Neighbour(ids, Cycled(ids, selected, direction, steps - 1), direction)
  }

  /** "Previous Flight" undoes "Next Flight", and the other way round. */
  lemma CyclingIsInvertible(ids: seq<Text>, selected: Text)
    requires Distinct(ids) && selected in ids
    ensures Neighbour(ids, Neighbour(ids, selected, 1), -1) == selected
    ensures Neighbour(ids, Neighbour(ids, selected, -1), 1) == selected
  {
    var i := Position(ids, selected);
    assert Position(ids, ids[Around(i, |ids|, 1)]) == Around(i, |ids|, 1);
    assert Position(ids, ids[Around(i, |ids|, -1)]) == Around(i, |ids|, -1);
  }

  lemma NextInLine(ids: seq<Text>, i: nat)
    requires Distinct(ids) && i < |ids|
    ensures Neighbour(ids, ids[i], 1) == ids[if i + 1 < |ids| then i + 1 else 0]
  {
    assert Position(ids, ids[i]) == i;
  }

  /** Any positive direction is "next", any other is "previous"; with nobody selected both give the first. */
  lemma DirectionsAreTwo(ids: seq<Text>, selected: Text, direction: int)
    requires ids != []
    ensures Neighbour(ids, selected, direction) == Neighbour(ids, selected, if direction > 0 then 1 else -1)
    ensures selected !in ids ==> Neighbour(ids, selected, direction) == ids[0]
  {
  }

  lemma {:induction false} CycledPosition(ids: seq<Text>, selected: Text, steps: nat)
    requires Distinct(ids) && selected in ids && steps <= |ids|
    ensures var k := Position(ids, selected) + steps;
      Cycled(ids, selected, 1, steps) == ids[if k < |ids| then k else k - |ids|]
  {
    if steps > 0 {
      CycledPosition(ids, selected, steps - 1);
      var k := Position(ids, selected) + steps - 1;
      var i := if k < |ids| then k else k - |ids|;
      assert Cycled(ids, selected, 1, steps) == Neighbour(ids, ids[i], 1);
      hide Cycled, Distinct, Neighbour, Position;
      NextInLine(ids, i);
    }
  }

  /** `n` presses of "Next Flight" show each of the `n` aircraft exactly once and end where they began. */
  lemma CyclingVisitsAll(ids: seq<Text>, selected: Text, id: Text)
    requires Distinct(ids) && selected in ids && id in ids
    ensures exists k :: 0 <= k < |ids| && Cycled(ids, selected, 1, k) == id
    ensures forall j, k :: 0 <= j < k < |ids| ==> Cycled(ids, selected, 1, j) != Cycled(ids, selected, 1, k)
    ensures Cycled(ids, selected, 1, |ids|) == selected
  {
    var n, i, p := |ids|, Position(ids, selected), Position(ids, id);
    var k := if p >= i then p - i else p - i + n;
    CycledPosition(ids, selected, k);
    assert Cycled(ids, selected, 1, k) == id;
    CycledPosition(ids, selected, n);
    forall j, k | 0 <= j < k < n ensures Cycled(ids, selected, 1, j) != Cycled(ids, selected, 1, k) {
      CycledPosition(ids, selected, j);
      CycledPosition(ids, selected, k);
    }
  }
}
