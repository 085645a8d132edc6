/** The server's loop cut into its single steps, which the world outside may interleave as it likes. */
module ServerSteps {
  import opened Basics
  import opened Packets
  import opened StateMachines
  import opened ClientSessions
  import opened Dashboards
  import opened SessionTable
  import opened TableInvariants
  import opened TableRuns

  datatype Step =
    | Network(peers: map<Handle, Peer>)
    | Act(operator: Operator)
    | Weather(file: File, at: int)
    | Dismissal(at: int)
    | Sweeping(now: int)
    | Accepting(offered: Option<Handle>, at: int)
    | Serving(h: Handle, file: File, at: int)

  function Next(w: World, step: Step): World {
    match step
    case Network(peers) => Deliver(w, peers)
    case Act(o) => Operate(w, o)
    case Weather(file, at) => TakeWeather(w, file, at).w
    case Dismissal(at) => TakeDisconnect(w, at).w
    case Sweeping(now) => Sweep(w, now)
    case Accepting(offered, at) => Accept(w, offered, at)
    case Serving(h, file, at) => Serve(w, h, file, at)
  }

  function Execute(w: World, steps: seq<Step>): World {
    if steps == [] then w else Next(Execute(w, steps[..|steps| - 1]), steps[|steps| - 1])
  }

  lemma {:induction false} ExecuteAppend(w: World, a: seq<Step>, b: seq<Step>)
    ensures Execute(w, a + b) == Execute(Execute(w, a), b)
    decreases |b|
  {
    hide Next;
    if b == [] {
      assert a + b == a;
    } else {
      var init := b[..|b| - 1];
      ExecuteAppend(w, a, init);
      assert (a + b)[..|a + b| - 1] == a + init;
    }
  }

  lemma OneMore(w: World, steps: seq<Step>, s: Step)
    ensures Execute(w, steps + [s]) == Next(Execute(w, steps), s)
  {
    hide Next;
    assert (steps + [s])[..|steps|] == steps;
  }

  // ---------------------------------------------------------------- the steps of one pass

  /** A session ended on the way from `before` to `after`. */
  ghost predicate Ended(before: World, after: World) {
    |after.ended| > |before.ended|
  }

  /** Serving number `i` of a batch removed its session, and `running` was then found cleared. */
  ghost predicate BrokenOff(w: World, visits: map<Handle, Visit>, batch: seq<Step>, i: nat)
    requires i < |batch| && batch[i].Serving? && batch[i].h in visits
  {
    && visits[batch[i].h].stop
    && batch[i].h in Execute(w, batch[..i]).links && batch[i].h !in Execute(w, batch[..i + 1]).links
  }

  ghost predicate IsVisit(step: Step, polled: set<Handle>, visits: map<Handle, Visit>) {
    && step.Serving? && step.h in polled && step.h in visits
    && step.file == visits[step.h].file && step.at == visits[step.h].at
  }

  /**
   A batch from `w` on: in ascending order, every socket that was polled and is ready once, and no
   other; or as far as the one at which the batch was broken off.
   */
  ghost predicate IsBatch(polled: set<Handle>, w: World, visits: map<Handle, Visit>, batch: seq<Step>) {
    && (forall i :: 0 <= i < |batch| ==> IsVisit(batch[i], polled, visits))
    && (forall i, j :: 0 <= i < j < |batch| ==> batch[i].h < batch[j].h)
    && (forall i :: 0 <= i < |batch| - 1 ==> !BrokenOff(w, visits, batch, i))
    && forall h :: h in polled && h in visits ==>
         || (exists i :: 0 <= i < |batch| && batch[i].h == h)
         || (batch != [] && batch[|batch| - 1].h < h && BrokenOff(w, visits, batch, |batch| - 1))
  }

  /**
   The steps of one pass: the weather request; unless that cost a session, the dismissal; unless that
   did, the sweep; unless the server was stopped by then, one accept and the batch.
   */
  ghost predicate IsPass(w: World, r: Round, steps: seq<Step>) {
    && |steps| >= 3 && steps[0] == Network(r.peers)
    && steps[1] == Act(r.first) && steps[2] == Weather(r.mapFile, r.mapTime)
    && if Ended(Execute(w, steps[..2]), Execute(w, steps[..3])) then |steps| == 3
       else
         && |steps| >= 5 && steps[3] == Act(r.second) && steps[4] == Dismissal(r.dismissTime)
         && if Ended(Execute(w, steps[..4]), Execute(w, steps[..5])) then |steps| == 5
            else
              && |steps| >= 6 && steps[5] == Sweeping(r.now)
              && if r.stopped then |steps| == 6
                 else
                   && |steps| >= 7 && steps[6] == Accepting(r.offered, r.acceptTime)
                   && IsBatch(Execute(w, steps[..6]).links.Keys, Execute(w, steps[..7]), r.visits, steps[7..])
  }

  function Servings(keys: seq<Handle>, visits: map<Handle, Visit>): (batch: seq<Step>)
    requires forall i :: 0 <= i < |keys| ==> keys[i] in visits
    ensures |batch| == |keys|
    ensures forall i :: 0 <= i < |keys| ==>
      batch[i] == Serving(keys[i], visits[keys[i]].file, visits[keys[i]].at)
  {
    if keys == [] then []
    else
      var h := keys[|keys| - 1];
      Servings(keys[..|keys| - 1], visits) + [Serving(h, visits[h].file, visits[h].at)]
  }

  lemma {:induction false} ServingsPrefix(keys: seq<Handle>, visits: map<Handle, Visit>, i: nat)
    requires i <= |keys| && forall j :: 0 <= j < |keys| ==> keys[j] in visits
    ensures Servings(keys, visits)[..i] == Servings(keys[..i], visits)
  {
  }

  /** As long as the batch is not broken off, the world is where its servings take it. */
  lemma {:induction false} ServedSoFar(w: World, keys: seq<Handle>, visits: map<Handle, Visit>, i: nat)
    requires i <= |keys| && forall j :: 0 <= j < |keys| ==> keys[j] in visits
    requires forall j :: 0 <= j < i ==> ServeAll(w, keys[..j], visits).onward
    ensures Execute(w, Servings(keys[..i], visits)) == ServeAll(w, keys[..i], visits).w
    decreases i
  {
    if i == 0 {
      assert keys[..0] == [] && Servings([], visits) == [];
    } else {
      hide *;
      ServedSoFar(w, keys, visits, i - 1);
      var before, h := ServeAll(w, keys[..i - 1], visits).w, keys[i - 1];
      ServeStep(w, keys, visits, i - 1);
      ServingsPush(keys, visits, i - 1);
      ServingIsNext(before, h, visits[h]);
      OneMore(w, Servings(keys[..i - 1], visits), Serving(h, visits[h].file, visits[h].at));
    }
    hide *;
  }

  lemma ServingsPush(keys: seq<Handle>, visits: map<Handle, Visit>, i: nat)
    requires i < |keys| && forall j :: 0 <= j < |keys| ==> keys[j] in visits
    ensures Servings(keys[..i + 1], visits)
      == Servings(keys[..i], visits) + [Serving(keys[i], visits[keys[i]].file, visits[keys[i]].at)]
  {
    assert keys[..i + 1][..i] == keys[..i];
  }

  lemma ServingIsNext(w: World, h: Handle, v: Visit)
    ensures Next(w, Serving(h, v.file, v.at)) == ServeNext(w, h, v).w
    ensures
      var w' := Next(w, Serving(h, v.file, v.at));
      !ServeNext(w, h, v).onward <==> v.stop && h in w.links && h !in w'.links
  {
    hide Serve;
  }

  /** How many keys of the batch come to be served. */
  lemma BatchLength(w: World, keys: seq<Handle>, visits: map<Handle, Visit>) returns (n: nat)
    requires forall j :: 0 <= j < |keys| ==> keys[j] in visits
    ensures n <= |keys| && (forall j :: 0 <= j < n ==> ServeAll(w, keys[..j], visits).onward)
    ensures n < |keys| ==> !ServeAll(w, keys[..n], visits).onward
  {
    hide ServeAll;
    n := 0;
    while n < |keys| && ServeAll(w, keys[..n], visits).onward
      invariant n <= |keys| && forall j :: 0 <= j < n ==> ServeAll(w, keys[..j], visits).onward
      decreases |keys| - n
    {
      n := n + 1;
    }
  }

  lemma BreaksAt(w: World, keys: seq<Handle>, visits: map<Handle, Visit>, i: nat)
    requires i < |keys| && forall j :: 0 <= j < |keys| ==> keys[j] in visits
    requires forall j :: 0 <= j <= i ==> ServeAll(w, keys[..j], visits).onward
    ensures BrokenOff(w, visits, Servings(keys, visits), i) <==> !ServeAll(w, keys[..i + 1], visits).onward
  {
    hide *;
    ServedSoFar(w, keys, visits, i);
    ServedSoFar(w, keys, visits, i + 1);
    ServeStep(w, keys, visits, i);
    ServingIsNext(ServeAll(w, keys[..i], visits).w, keys[i], visits[keys[i]]);
    ServesTo(ServeAll(w, keys[..i], visits).w, keys[i], visits[keys[i]]);
    BreakMeans(w, keys, visits, i);
  }

  lemma ServesTo(w: World, h: Handle, v: Visit)
    ensures ServeNext(w, h, v).w == Next(w, Serving(h, v.file, v.at))
  {
    hide Serve;
  }

  lemma BreakMeans(w: World, keys: seq<Handle>, visits: map<Handle, Visit>, i: nat)
    requires i < |keys| && forall j :: 0 <= j < |keys| ==> keys[j] in visits
    ensures BrokenOff(w, visits, Servings(keys, visits), i) <==>
      && visits[keys[i]].stop && keys[i] in Execute(w, Servings(keys[..i], visits)).links
      && keys[i] !in Execute(w, Servings(keys[..i + 1], visits)).links
  {
    ServingsPrefix(keys, visits, i);
    ServingsPrefix(keys, visits, i + 1);
    hide Execute, Servings;
  }

  lemma BatchEnds(w: World, keys: seq<Handle>, visits: map<Handle, Visit>, n: nat)
    requires n <= |keys| && forall j :: 0 <= j < |keys| ==> keys[j] in visits
    requires n < |keys| ==> !ServeAll(w, keys[..n], visits).onward
    ensures ServeAll(w, keys, visits).w == ServeAll(w, keys[..n], visits).w
  {
    hide ServeAll;
    if n < |keys| {
      ServeStops(w, keys, visits, n);
    } else {
      assert keys[..n] == keys;
    }
  }

  lemma ServeAllSteps(w: World, polled: set<Handle>, visits: map<Handle, Visit>) returns (batch: seq<Step>)
    ensures
      var keys := SortedKeys(visits.Keys * polled);
      Execute(w, batch) == ServeAll(w, keys, visits).w
    ensures IsBatch(polled, w, visits, batch)
  {
    var keys := SortedKeys(visits.Keys * polled);
    KeysAreReady(visits, polled);
    hide *;
    var n := BatchLength(w, keys, visits);
    ServedSoFar(w, keys, visits, n);
    BatchEnds(w, keys, visits, n);
    BreaksWhere(w, keys, visits, n);
    KeysMakeBatch(polled, w, visits, keys, n);
    batch := Servings(keys[..n], visits);
  }

  lemma KeysAreReady(visits: map<Handle, Visit>, polled: set<Handle>)
    ensures
      var keys := SortedKeys(visits.Keys * polled);
      && (forall i :: 0 <= i < |keys| ==> keys[i] in polled && keys[i] in visits)
      && forall h :: h in polled && h in visits ==> exists i :: 0 <= i < |keys| && keys[i] == h
  {
    var keys := SortedKeys(visits.Keys * polled);
    assert forall h :: h in polled && h in visits ==> h in keys;
    hide SortedKeys;
  }

  lemma BreaksWhere(w: World, keys: seq<Handle>, visits: map<Handle, Visit>, n: nat)
    requires n <= |keys| && forall j :: 0 <= j < |keys| ==> keys[j] in visits
    requires forall j :: 0 <= j < n ==> ServeAll(w, keys[..j], visits).onward
    requires n < |keys| ==> !ServeAll(w, keys[..n], visits).onward
    ensures forall i :: 0 <= i < n - 1 ==> !BrokenOff(w, visits, Servings(keys[..n], visits), i)
    ensures n < |keys| ==> n > 0 && BrokenOff(w, visits, Servings(keys[..n], visits), n - 1)
  {
    if n < |keys| {
      NotBrokenAtOnce(w, keys, visits, n);
      PrefixBreaks(w, keys, visits, n, n - 1);
    }
    hide ServeAll, BrokenOff, Servings;
    forall i | 0 <= i < n - 1 ensures !BrokenOff(w, visits, Servings(keys[..n], visits), i) {
      PrefixBreaks(w, keys, visits, n, i);
    }
  }

  lemma KeysMakeBatch(polled: set<Handle>, w: World, visits: map<Handle, Visit>, keys: seq<Handle>, n: nat)
    requires n <= |keys| && forall i, j :: 0 <= i < j < |keys| ==> keys[i] < keys[j]
    requires forall i :: 0 <= i < |keys| ==> keys[i] in polled && keys[i] in visits
    requires forall h :: h in polled && h in visits ==> exists i :: 0 <= i < |keys| && keys[i] == h
    requires forall i :: 0 <= i < n - 1 ==> !BrokenOff(w, visits, Servings(keys[..n], visits), i)
    requires n < |keys| ==> n > 0 && BrokenOff(w, visits, Servings(keys[..n], visits), n - 1)
    ensures IsBatch(polled, w, visits, Servings(keys[..n], visits))
  {
    hide BrokenOff, Servings;
    var batch := Servings(keys[..n], visits);
    assert forall i :: 0 <= i < n ==> batch[i].h == keys[i];
    forall h | h in polled && h in visits && !(exists i :: 0 <= i < |batch| && batch[i].h == h)
      ensures batch != [] && batch[|batch| - 1].h < h && BrokenOff(w, visits, batch, |batch| - 1)
    {
      var j :| 0 <= j < |keys| && keys[j] == h;
      assert n <= j;
    }
  }

  lemma NotBrokenAtOnce(w: World, keys: seq<Handle>, visits: map<Handle, Visit>, n: nat)
    requires n < |keys| && forall j :: 0 <= j < |keys| ==> keys[j] in visits
    requires !ServeAll(w, keys[..n], visits).onward
    ensures n > 0
  {
    assert keys[..0] == [];
  }

  lemma PrefixBreaks(w: World, keys: seq<Handle>, visits: map<Handle, Visit>, n: nat, i: nat)
    requires i < n <= |keys| && forall j :: 0 <= j < |keys| ==> keys[j] in visits
    requires forall j :: 0 <= j < n ==> ServeAll(w, keys[..j], visits).onward
    ensures BrokenOff(w, visits, Servings(keys[..n], visits), i) <==> !ServeAll(w, keys[..i + 1], visits).onward
  {
    forall j | 0 <= j <= n ensures keys[..n][..j] == keys[..j] {
    }
    hide ServeAll, BrokenOff, Servings;
    BreaksAt(w, keys[..n], visits, i);
  }

  lemma OneStep(w: World, step: Step)
    ensures Execute(w, [step]) == Next(w, step)
  {
    hide Next;
    assert Execute(w, [step][..0]) == w;
  }

  /** After the sweep, if the server is still running. */
  lemma ServeSocketsSteps(w: World, r: Round) returns (batch: seq<Step>)
    ensures
      var w1 := Next(w, Accepting(r.offered, r.acceptTime));
      Execute(w1, batch) == ServeSockets(w, r) && IsBatch(w.links.Keys, w1, r.visits, batch)
  {
    hide Accept, ServeAll, Execute, SortedKeys, IsBatch;
    batch := ServeAllSteps(Next(w, Accepting(r.offered, r.acceptTime)), w.links.Keys, r.visits);
  }

  /** A request ends the pass exactly when it ends a session. */
  lemma StagesEnd(w: World, file: File, at: int)
    requires Inv(w)
    ensures TakeWeather(w, file, at).onward <==> !Ended(w, TakeWeather(w, file, at).w)
    ensures TakeDisconnect(w, at).onward <==> !Ended(w, TakeDisconnect(w, at).w)
  {
    hide *;
    NamedIsVerified(w, w.board.weatherRequest);
    WeatherEnds(w, file, at);
    NamedIsVerified(w, w.board.disconnectRequest);
    DismissalEnds(w, at);
  }

  lemma NamedIsVerified(w: World, id: Text)
    requires Inv(w)
    ensures id != [] && FindById(w.links, id).Some? ==> IsVerified(w.links[FindById(w.links, id).value].s.State())
  {
    if id != [] && FindById(w.links, id).Some? {
      OwnerIsVerified(w, id);
    }
    hide Inv, FindById, CoreOk;
  }

  lemma WeatherEnds(w: World, file: File, at: int)
    requires
      var found := FindById(w.links, w.board.weatherRequest);
      w.board.weatherRequest != [] && found.Some? ==> IsVerified(w.links[found.value].s.State())
    ensures TakeWeather(w, file, at).onward <==> !Ended(w, TakeWeather(w, file, at).w)
  {
    hide FindById, SendWeatherMap, IsVerified;
  }

  lemma DismissalEnds(w: World, at: int)
    requires
      var found := FindById(w.links, w.board.disconnectRequest);
      w.board.disconnectRequest != [] && found.Some? ==> IsVerified(w.links[found.value].s.State())
    ensures TakeDisconnect(w, at).onward <==> !Ended(w, TakeDisconnect(w, at).w)
  {
    var found := FindById(w.links, w.board.disconnectRequest);
    if found.Some? {
      DismissLeaves(TurnOf(w.(board := w.board.(disconnectRequest := [])), found.value), at);
    }
    hide FindById, Dismiss, IsVerified;
  }

  lemma DismissLeaves(t: Turn, at: int)
    ensures !Dismiss(t, at).keep
  {
    hide EncodePacket, MakeHeader, Fault, Sync, Transition;
  }

  function RequestSteps(r: Round): (steps: seq<Step>)
    ensures |steps| == 5
  {
    [Network(r.peers), Act(r.first), Weather(r.mapFile, r.mapTime), Act(r.second), Dismissal(r.dismissTime)]
  }

  /** The world once `n` of the request steps are taken. */
  function AfterRequests(w: World, r: Round, n: nat): World
    requires n <= 5
  {
    Execute(w, RequestSteps(r)[..n])
  }

  /** Request step number `n` ended a session. */
  ghost predicate CutShort(w: World, r: Round, n: nat)
    requires 0 < n <= 5
  {
    Ended(AfterRequests(w, r, n - 1), AfterRequests(w, r, n))
  }

  /** A pass through the loop is one of the interleavings, and which steps it takes is settled by the round. */
  lemma IterateIsSteps(w: World, r: Round) returns (steps: seq<Step>)
    ensures Execute(w, steps) == Iterate(w, r)
    ensures Inv(w) ==> IsPass(w, r, steps)
  {
    PassWorlds(w, r);
    hide *;
    var a := TakeWeather(AfterRequests(w, r, 2), r.mapFile, r.mapTime);
    var b := TakeDisconnect(AfterRequests(w, r, 4), r.dismissTime);
    if Inv(w) {
      RequestsEnd(w, r);
    }
    if !a.onward {
      steps := RequestSteps(r)[..3];
      ShortPass(w, r);
    } else if !b.onward {
      steps := RequestSteps(r)[..5];
      DismissingPass(w, r);
    } else {
      steps := FullPass(w, r);
    }
  }

  lemma RequestsEnd(w: World, r: Round)
    requires Inv(w)
    ensures
      TakeWeather(AfterRequests(w, r, 2), r.mapFile, r.mapTime).onward <==>
        !CutShort(w, r, 3)
    ensures
      TakeDisconnect(AfterRequests(w, r, 4), r.dismissTime).onward <==>
        !CutShort(w, r, 5)
  {
    PassWorlds(w, r);
    RequestsInv(w, r);
    hide *;
    StagesEnd(AfterRequests(w, r, 2), r.mapFile, r.mapTime);
    StagesEnd(AfterRequests(w, r, 4), r.mapFile, r.dismissTime);
  }

  lemma RequestsInv(w: World, r: Round)
    requires Inv(w)
    ensures Inv(AfterRequests(w, r, 2)) && Inv(AfterRequests(w, r, 4))
  {
    EveryStep(w, RequestSteps(r)[..2]);
    EveryStep(w, RequestSteps(r)[..4]);
    hide Inv, Execute, RequestSteps;
  }

  lemma ShortPass(w: World, r: Round)
    ensures CutShort(w, r, 3) ==> IsPass(w, r, RequestSteps(r)[..3])
  {
    var steps := RequestSteps(r)[..3];
    assert steps[..2] == RequestSteps(r)[..2] && steps[..3] == steps;
    hide Execute, Ended, IsBatch;
  }

  lemma DismissingPass(w: World, r: Round)
    ensures
      !CutShort(w, r, 3) && CutShort(w, r, 5) ==>
        IsPass(w, r, RequestSteps(r)[..5])
  {
    var steps := RequestSteps(r)[..5];
    assert steps[..2] == RequestSteps(r)[..2] && steps[..3] == RequestSteps(r)[..3];
    assert steps[..4] == RequestSteps(r)[..4] && steps[..5] == steps;
    hide Execute, Ended, IsBatch;
  }

  /** The pass that comes to its sweep. */
  lemma FullPass(w: World, r: Round) returns (steps: seq<Step>)
    ensures
      var c := Sweep(AfterRequests(w, r, 5), r.now);
      Execute(w, steps) == if r.stopped then c else ServeSockets(c, r)
    ensures
      !CutShort(w, r, 3) && !CutShort(w, r, 5) ==>
        IsPass(w, r, steps)
  {
    var p5, sweep, accept := RequestSteps(r), Sweeping(r.now), Accepting(r.offered, r.acceptTime);
    var w5 := AfterRequests(w, r, 5);
    var c := Sweep(w5, r.now);
    NextIsSweep(w5, r.now);
    hide *;
    RequestsTaken(w, r);
    OneMore(w, p5, sweep);
    if r.stopped {
      steps := p5 + [sweep];
      SweepingPass(w, r);
    } else {
      OneMore(w, p5 + [sweep], accept);
      var batch := ServeSocketsSteps(c, r);
      ExecuteAppend(w, p5 + [sweep] + [accept], batch);
      steps := p5 + [sweep] + [accept] + batch;
      ServingPass(w, r, batch);
    }
  }

  lemma NextIsSweep(w: World, now: int)
    ensures Next(w, Sweeping(now)) == Sweep(w, now)
  {
    hide Sweep;
  }

  lemma RequestsTaken(w: World, r: Round)
    ensures Execute(w, RequestSteps(r)) == AfterRequests(w, r, 5) && |RequestSteps(r)| == 5
  {
    assert RequestSteps(r)[..5] == RequestSteps(r);
    hide Execute;
  }

  lemma SweepingPass(w: World, r: Round)
    requires r.stopped
    ensures
      !CutShort(w, r, 3) && !CutShort(w, r, 5) ==>
        IsPass(w, r, RequestSteps(r) + [Sweeping(r.now)])
  {
    var steps := RequestSteps(r) + [Sweeping(r.now)];
    assert steps[..2] == RequestSteps(r)[..2] && steps[..3] == RequestSteps(r)[..3];
    assert steps[..4] == RequestSteps(r)[..4] && steps[..5] == RequestSteps(r)[..5];
    hide Execute, Ended, IsBatch;
  }

  lemma ServingPass(w: World, r: Round, batch: seq<Step>)
    requires !r.stopped
    requires
      var p6 := RequestSteps(r) + [Sweeping(r.now)];
      var p7 := p6 + [Accepting(r.offered, r.acceptTime)];
      IsBatch(Execute(w, p6).links.Keys, Execute(w, p7), r.visits, batch)
    ensures
      !CutShort(w, r, 3) && !CutShort(w, r, 5) ==>
        IsPass(w, r, RequestSteps(r) + [Sweeping(r.now)] + [Accepting(r.offered, r.acceptTime)] + batch)
  {
    var p6 := RequestSteps(r) + [Sweeping(r.now)];
    var p7 := p6 + [Accepting(r.offered, r.acceptTime)];
    var steps := p7 + batch;
    assert steps[..2] == RequestSteps(r)[..2] && steps[..3] == RequestSteps(r)[..3];
    assert steps[..4] == RequestSteps(r)[..4] && steps[..5] == RequestSteps(r)[..5];
    assert steps[..6] == p6 && steps[..7] == p7 && steps[7..] == batch;
    hide Execute, Ended, IsBatch;
  }

  lemma PassWorlds(w: World, r: Round)
    ensures AfterRequests(w, r, 3) == TakeWeather(AfterRequests(w, r, 2), r.mapFile, r.mapTime).w
    ensures AfterRequests(w, r, 5) == TakeDisconnect(AfterRequests(w, r, 4), r.dismissTime).w
    ensures
      var a := TakeWeather(AfterRequests(w, r, 2), r.mapFile, r.mapTime);
      var b := TakeDisconnect(AfterRequests(w, r, 4), r.dismissTime);
      Iterate(w, r) == if !a.onward then AfterRequests(w, r, 3) else if !b.onward then AfterRequests(w, r, 5)
        else if r.stopped then Sweep(AfterRequests(w, r, 5), r.now)
        else ServeSockets(Sweep(AfterRequests(w, r, 5), r.now), r)
    ensures Execute(w, RequestSteps(r)[..3]) == AfterRequests(w, r, 3)
    ensures Execute(w, RequestSteps(r)[..5]) == AfterRequests(w, r, 5)
  {
    hide Deliver, Operate, TakeWeather, TakeDisconnect, Sweep, ServeSockets;
    var p := RequestSteps(r);
    assert p[..0] == [];
    forall i: nat | i < 5 ensures Execute(w, p[..i + 1]) == Next(Execute(w, p[..i]), p[i]) {
      assert p[..i + 1] == p[..i] + [p[i]];
      OneMore(w, p[..i], p[i]);
    }
    hide Execute;
    assert Execute(w, p[..0 + 1]) == Deliver(w, r.peers);
    assert Execute(w, p[..1 + 1]) == Operate(Deliver(w, r.peers), r.first);
    assert Execute(w, p[..2 + 1]) == TakeWeather(Execute(w, p[..2]), r.mapFile, r.mapTime).w;
    assert Execute(w, p[..3 + 1]) == Operate(Execute(w, p[..3]), r.second);
    assert Execute(w, p[..4 + 1]) == TakeDisconnect(Execute(w, p[..4]), r.dismissTime).w;
  }

  /** So whatever holds of every interleaving holds of every run of the server thread. */
  lemma {:induction false} RunIsSteps(rounds: seq<Round>) returns (steps: seq<Step>)
    ensures Execute(START, steps) == Run(rounds)
  {
    if rounds == [] {
      steps := [];
    } else {
      hide Iterate;
      var before := RunIsSteps(rounds[..|rounds| - 1]);
      var more := IterateIsSteps(Execute(START, before), rounds[|rounds| - 1]);
      ExecuteAppend(START, before, more);
      steps := before + more;
    }
  }

  lemma NextInv(w: World, step: Step)
    requires Inv(w)
    ensures Inv(Next(w, step))
  {
    hide Inv, Deliver, Operate, TakeWeather, TakeDisconnect, Sweep, Accept, Serve;
    match step
    case Network(peers) => DeliverInv(w, peers);
    case Act(o) => OperateInv(w, o);
    case Weather(file, at) => TakeWeatherInv(w, file, at);
    case Dismissal(at) => TakeDisconnectInv(w, at);
    case Sweeping(now) => SweepInv(w, now);
    case Accepting(offered, at) => AcceptInv(w, offered, at);
    case Serving(h, file, at) => ServeInv(w, h, file, at);
  }

  /** The table, the dashboard and the black box agree at every step boundary, not only at the head of the loop. */
  lemma {:induction false} EveryStep(w: World, steps: seq<Step>)
    requires Inv(w)
    ensures Inv(Execute(w, steps))
    decreases |steps|
  {
    hide Inv, Next;
    if steps != [] {
      EveryStep(w, steps[..|steps| - 1]);
      NextInv(Execute(w, steps[..|steps| - 1]), steps[|steps| - 1]);
    }
  }

  lemma StartInv()
    ensures Inv(START)
  {
    EveryRun([]);
    assert Run([]) == START;
  }

  lemma Reachable(steps: seq<Step>)
    ensures Inv(Execute(START, steps))
  {
    hide Inv, Execute;
    StartInv();
    EveryStep(START, steps);
  }
}
