/** The engine is a server of StationEditing: its station commands edit exactly the rows the editor's protocol edits
    (simulation/station.go, simulator/station_api.go). */
module StationServer {
  import opened Basics
  import opened Model
  import opened Worlds
  import opened Engine
  import opened Emission
  import opened Receiving
  import opened Listening
  import opened Runs
  import opened Reachable
  import Versions
  import Editing = StationEditing
  import Station

  /** The definitions by station ID, as a browser lists them. */
  function RowsOf(stations: seq<Site>): Editing.Rows {
    map id <- Ids(stations) :: Found(stations, id)
  }

  function Found(stations: seq<Site>, id: string): Definition
    requires id in Ids(stations)
  {
    var i := FindStation(stations, id);
    assert i < |stations| by {
      var st :| st in stations && st.id == id;
    }
    stations[i].definition
  }

  lemma RowAt(stations: seq<Site>, i: nat)
    requires DistinctIds(stations) && i < |stations|
    ensures stations[i].id in RowsOf(stations) && RowsOf(stations)[stations[i].id] == stations[i].definition
  {
    FindsStation(stations, i);
    assert stations[i] in stations;
  }

  lemma RowIs(stations: seq<Site>, id: string) returns (i: nat)
    requires id in RowsOf(stations)
    ensures i < |stations| && stations[i].id == id && RowsOf(stations)[id] == stations[i].definition
  {
    i := FindStation(stations, id);
    var st :| st in stations && st.id == id;
  }

  lemma AddedRows(stations: seq<Site>, st: Site)
    requires DistinctIds(stations) && st.id !in Ids(stations)
    ensures RowsOf(stations + [st]) == RowsOf(stations)[st.id := st.definition]
  {
    hide RowsOf;
    var more, a, b := stations + [st], RowsOf(stations + [st]), RowsOf(stations)[st.id := st.definition];
    assert DistinctIds(more) by {
      forall i | 0 <= i < |stations| ensures stations[i].id != st.id { assert stations[i] in stations; }
    }
    RowAt(more, |stations|);
    forall id | id in a ensures id in b && b[id] == a[id] {
      var i := RowIs(more, id);
      if i < |stations| {
        assert stations[i] in stations;
        RowAt(stations, i);
      }
    }
    forall id | id in b ensures id in a {
      if id != st.id {
        var i := RowIs(stations, id);
        RowAt(more, i);
      }
    }
  }

  lemma ReplacedRows(stations: seq<Site>, i: nat, st: Site)
    requires DistinctIds(stations) && i < |stations| && st.id == stations[i].id
    ensures RowsOf(stations[i := st]) == RowsOf(stations)[st.id := st.definition]
  {
    hide RowsOf;
    var next, a, b := stations[i := st], RowsOf(stations[i := st]), RowsOf(stations)[st.id := st.definition];
    assert DistinctIds(next);
    RowAt(next, i);
    forall id | id in a ensures id in b && b[id] == a[id] {
      var k := RowIs(next, id);
      RowAt(stations, k);
    }
    forall id | id in b ensures id in a {
      if id != st.id {
        var k := RowIs(stations, id);
        RowAt(next, k);
      }
    }
  }

  lemma RemovedRows(stations: seq<Site>, i: nat)
    requires DistinctIds(stations) && i < |stations|
    ensures RowsOf(stations[..i] + stations[i + 1..]) == RowsOf(stations) - {stations[i].id}
  {
    hide RowsOf;
    var next, a, b := stations[..i] + stations[i + 1..], RowsOf(stations[..i] + stations[i + 1..]), RowsOf(stations) - {stations[i].id};
    assert DistinctIds(next);
    forall id | id in a ensures id in b && b[id] == a[id] {
      var k := RowIs(next, id);
      RowAt(stations, if k < i then k else k + 1);
    }
    forall id | id in b ensures id in a {
      var k := RowIs(stations, id);
      assert k != i;
      RowAt(next, if k < i then k else k - 1);
    }
  }

  /** The engine command for a browser's change. */
  function AsCommand(c: Editing.Change): Command
    requires c.id.Some? || c.value.Some?
  {
    if c.id.None? then Add(c.revision, c.value.value)
    else if c.value.Some? then Update(c.revision, c.id.value, c.value.value)
    else Remove(c.revision, c.id.value)
  }

  /** The command did what the protocol's server does with the change: it edited the rows, and the set revision grew by
      one exactly if they changed. */
  ghost predicate EditsRows(e: Engine, f: Engine, c: Editing.Change) {
    var before, after := RowsOf(e.state.stations), RowsOf(f.state.stations);
    && c.revision == e.state.stationRevision
    && Editing.Edited(before, c, StationId(e.state.lastStationId + 1)) == Some(after)
    && f.state.stationRevision == e.state.stationRevision + (if after == before then 0 else 1)
  }

  lemma AddServes(w: World, e: Engine, c: Editing.Change)
    requires Versions.SitesAllocated(e.state) && c.id.None? && c.value.Some?
    requires AddStation(w, e, c.revision, c.value.value).Committed?
    ensures EditsRows(e, AddStation(w, e, c.revision, c.value.value).engine, c)
  {
    hide Station.DefinitionValid, Station.CanonicalForm, StationId, RowsOf, Allocated;
    var s, id := e.state, StationId(e.state.lastStationId + 1);
    Versions.NotYetAllocated(s.lastStationId);
    assert id !in Ids(s.stations);
    var f := AddStation(w, e, c.revision, c.value.value).engine.state;
    AddedRows(s.stations, f.stations[|s.stations|]);
    NoRow(s.stations, id);
  }

  lemma NoRow(stations: seq<Site>, id: string)
    ensures id in RowsOf(stations) <==> id in Ids(stations)
  {
  }

  lemma UpdateServes(w: World, e: Engine, c: Editing.Change)
    requires Versions.SitesAllocated(e.state) && c.id.Some? && c.value.Some?
    requires UpdateStation(w, e, c.revision, c.id.value, c.value.value).Committed?
    ensures EditsRows(e, UpdateStation(w, e, c.revision, c.id.value, c.value.value).engine, c)
  {
    hide Station.DefinitionValid, Station.CanonicalForm, StationId, RowsOf, Allocated, FindStation;
    var s := e.state;
    var i := FindStation(s.stations, c.id.value);
    var f := UpdateStation(w, e, c.revision, c.id.value, c.value.value).engine.state;
    RowAt(s.stations, i);
    ReplacedRows(s.stations, i, f.stations[i]);
    assert s.stations[i := f.stations[i]] == f.stations;
  }

  lemma RemoveServes(e: Engine, c: Editing.Change)
    requires Versions.SitesAllocated(e.state) && c.id.Some? && c.value.None?
    requires RemoveStation(e, c.revision, c.id.value).Committed?
    ensures EditsRows(e, RemoveStation(e, c.revision, c.id.value).engine, c)
  {
    hide StationId, RowsOf, Allocated, FindStation, RemoveObservations;
    var i := FindStation(e.state.stations, c.id.value);
    RowAt(e.state.stations, i);
    RemovedRows(e.state.stations, i);
  }

  /** Each engine command is a server step of the editing protocol: it fails and leaves the rows and their revision
      alone, or it edits as asked; commands that are no station change leave rows and revision alone. */
  lemma EngineServesEditors(w: World, e: Engine, tr: Trace, c: Editing.Change, other: Command)
    requires Inv(w, e, tr) && (c.id.Some? || c.value.Some?)
    ensures Ready(e)
    ensures Execute(w, e, AsCommand(c)).Committed? ==> EditsRows(e, After(w, e, AsCommand(c)), c)
    ensures Execute(w, e, AsCommand(c)).Failed? ==> After(w, e, AsCommand(c)) == e
    ensures other.SetCountTo? || other.AdvanceBy? || other.ElapseBy? || other.SetSpeedTo? ==>
              var f := After(w, e, other).state;
              RowsOf(f.stations) == RowsOf(e.state.stations) && f.stationRevision == e.state.stationRevision
  {
    hide Inv, EditsRows, SetCount, Advance, Elapse, SetSpeed, AddStation, UpdateStation, RemoveStation;
    InvReady(w, e, tr);
    Versions.InvAllocated(w, e, tr);
    if other.SetCountTo? || other.AdvanceBy? || other.ElapseBy? || other.SetSpeedTo? {
      Versions.EmissionKeepsSites(w, e, other);
    }
    if Execute(w, e, AsCommand(c)).Committed? {
      if c.id.None? {
        AddServes(w, e, c);
      } else if c.value.Some? {
        UpdateServes(w, e, c);
      } else {
        RemoveServes(e, c);
      }
    }
  }

  // ----- Pages on a live engine -----

  /** An engine with pages on it. at counts the station sets before the current one, runs the run IDs used so far, and
      applied remembers what was changed; all three are for the statement only. */
  datatype Live = Live(world: World, engine: Engine, trace: Trace, pages: map<nat, Editing.Page>,
                       late: multiset<Editing.Change>, at: nat, runs: set<string>, applied: seq<Editing.Commit>)

  /** The station set as the engine serves it now. */
  ghost function SetOf(l: Live): Editing.StationSet {
    Editing.StationSet(l.world.id, l.engine.state.stationRevision, RowsOf(l.engine.state.stations), l.at)
  }

  /** A command of the driver's that is no station edit. */
  predicate Paces(c: Command) {
    c.SetCountTo? || c.AdvanceBy? || c.ElapseBy? || c.SetSpeedTo?
  }

  /** A page's step that involves no change at the server. */
  predicate OwnStep(a: Editing.Action) {
    !a.ServeChange? && !a.ServeLate? && !a.Restart? && !a.FailChange? && !a.FailLate?
  }

  /** The engine paces on; a page takes a step of its own; a change is served, in time or after its page gave up; the
      program restarts with another engine. */
  datatype LiveStep = Pace(command: Command) | PageStep(action: Editing.Action)
                    | ServeSent(page: nat) | ServeOverdue(request: Editing.Change)
                    | Reboot(world: World, engine: Engine, trace: Trace)

  ghost predicate LiveOk(l: Live) {
    WorldSound(l.world) && Inv(l.world, l.engine, l.trace)
  }

  lemma LiveReady(l: Live)
    requires LiveOk(l)
    ensures Ready(l.engine) && l.engine.store.receivers.Keys == l.trace.witnesses.Keys == Ids(l.engine.state.stations)
  {
    hide Inv, WorldSound;
    InvReady(l.world, l.engine, l.trace);
    InvKeys(l.world, l.engine, l.trace);
  }

  ghost function Commanded(l: Live, c: Command): (next: Live)
    requires LiveOk(l)
    ensures LiveOk(next)
  {
    LiveReady(l);
    CommandKeepsInv(l.world, l.engine, l.trace, c);
    l.(engine := After(l.world, l.engine, c), trace := TraceAfter(l.world, l.engine, l.trace, c))
  }

  datatype LiveServed = LiveServed(live: Live, answer: Editing.Answer)

  /** Whether the engine commits a change of the current run and revision. */
  ghost predicate Takes(l: Live, c: Editing.Change)
    requires LiveOk(l)
  {
    LiveReady(l);
    && c.run == l.world.id && c.revision == l.engine.state.stationRevision && (c.id.Some? || c.value.Some?)
    && Execute(l.world, l.engine, AsCommand(c)).Committed?
  }

  /** The engine's answer to a change: refused if it names another run or revision, otherwise the command's. */
  ghost function ServedBy(l: Live, c: Editing.Change): (r: LiveServed)
    requires LiveOk(l)
    ensures LiveOk(r.live)
  {
    var s := l.engine.state;
    if c.run != l.world.id || c.revision != s.stationRevision then LiveServed(l, Editing.Refused)
    else if !Takes(l, c) then LiveServed(l, Editing.Broken)
    else
      var next := Commanded(l, AsCommand(c));
      var commit := Editing.Commit(c, StationId(s.lastStationId + 1), RowsOf(s.stations), RowsOf(next.engine.state.stations));
      var counted := next.(at := if next.engine.state.stationRevision == s.stationRevision then l.at else l.at + 1,
                           applied := l.applied + [commit]);
      LiveServed(counted, Editing.Applied(SetOf(counted)))
  }

  ghost function LiveNext(l: Live, step: LiveStep): (next: Live)
    requires LiveOk(l)
    ensures LiveOk(next)
  {
    match step
    case Pace(c) => if Paces(c) then Commanded(l, c) else l
    case PageStep(a) =>
      if !OwnStep(a) then l
      else
        var t := Editing.Next(Editing.System([SetOf(l)], l.pages, l.late, []), a);
        l.(pages := t.pages, late := t.late)
    case ServeSent(b) =>
      if b !in l.pages || !l.pages[b].save.Sent? then l
      else
        var served := ServedBy(l, l.pages[b].save.change);
        served.live.(pages := l.pages[b := l.pages[b].(save := Editing.Answered(served.answer))])
    case ServeOverdue(c) =>
      if c !in l.late then l else ServedBy(l, c).live.(late := l.late - multiset{c})
    case Reboot(w, e, tr) =>
      if w.id in l.runs || !WorldSound(w) || !Inv(w, e, tr) || e.state.stationRevision != 1 then l
      else l.(world := w, engine := e, trace := tr, at := l.at + 1, runs := l.runs + {w.id})
  }

  ghost function LiveAfter(l: Live, steps: seq<LiveStep>): (next: Live)
    requires LiveOk(l)
    ensures LiveOk(next)
    decreases |steps|
  {
    if steps == [] then l else LiveNext(LiveAfter(l, steps[..|steps| - 1]), steps[|steps| - 1])
  }

  /** s is the protocol's view of l. */
  ghost predicate Refines(l: Live, s: Editing.System) {
    && |s.past| == l.at + 1 && Editing.Current(s) == SetOf(l)
    && s.pages == l.pages && s.late == l.late && s.applied == l.applied
    && forall i :: 0 <= i < |s.past| ==> s.past[i].run in l.runs
  }

  lemma OwnStepIsLocal(s: Editing.System, now: Editing.StationSet, a: Editing.Action)
    requires s.past != [] && Editing.Current(s) == now && OwnStep(a)
    ensures var t := Editing.Next(Editing.System([now], s.pages, s.late, []), a);
            Editing.Next(s, a) == s.(pages := t.pages, late := t.late)
  {
    hide Editing.OnPage, Editing.Serve;
  }

  lemma PacingSimulated(l: Live, s: Editing.System, c: Command)
    requires LiveOk(l) && Refines(l, s) && Paces(c)
    ensures Refines(Commanded(l, c), s)
  {
    hide Inv, WorldSound, After, TraceAfter, RowsOf;
    LiveReady(l);
    Versions.EmissionKeepsSites(l.world, l.engine, c);
  }

  /** A change the engine takes is one the protocol's server takes, with the same rows and the same answer. */
  lemma TakenSimulated(l: Live, s: Editing.System, c: Editing.Change)
    requires LiveOk(l) && Refines(l, s) && Takes(l, c)
    ensures var served := ServedBy(l, c);
            var t := Editing.Serve(s, c, StationId(l.engine.state.lastStationId + 1));
            t.answer == served.answer && Refines(served.live, t.system)
  {
    hide Inv, WorldSound, Execute, After, TraceAfter, RowsOf, Editing.Edited, StationId;
    LiveReady(l);
    EngineServesEditors(l.world, l.engine, l.trace, c, SetCountTo(0));
    assert EditsRows(l.engine, After(l.world, l.engine, AsCommand(c)), c);
  }

  predicate Pending(l: Live, step: LiveStep) {
    (step.ServeSent? && step.page in l.pages && l.pages[step.page].save.Sent?) || (step.ServeOverdue? && step.request in l.late)
  }

  function Requested(l: Live, step: LiveStep): Editing.Change
    requires Pending(l, step)
  {
    if step.ServeSent? then l.pages[step.page].save.change else step.request
  }

  lemma LiveServes(l: Live, step: LiveStep)
    requires LiveOk(l) && Pending(l, step)
    ensures var served := ServedBy(l, Requested(l, step));
            LiveNext(l, step)
            == if step.ServeSent?
               then served.live.(pages := l.pages[step.page := l.pages[step.page].(save := Editing.Answered(served.answer))])
               else served.live.(late := l.late - multiset{step.request})
  {
    hide ServedBy, LiveOk, SetOf;
  }

  lemma ProtocolServes(s: Editing.System, a: Editing.Action)
    requires s.past != []
    ensures a.ServeChange? && a.page in s.pages && s.pages[a.page].save.Sent? ==>
              var t := Editing.Serve(s, s.pages[a.page].save.change, a.newId);
              Editing.Next(s, a) == t.system.(pages := s.pages[a.page := s.pages[a.page].(save := Editing.Answered(t.answer))])
    ensures a.ServeLate? && a.request in s.late ==>
              Editing.Next(s, a) == Editing.Serve(s, a.request, a.newId).system.(late := s.late - multiset{a.request})
  {
    hide Editing.Serve;
  }

  /** Refinement does not look at the pages and the requests given up but for their equality. */
  lemma RefinesWith(l: Live, s: Editing.System, pages: map<nat, Editing.Page>, late: multiset<Editing.Change>)
    requires Refines(l, s)
    ensures Refines(l.(pages := pages, late := late), s.(pages := pages, late := late))
  {
    hide RowsOf;
  }

  lemma StaleSimulated(l: Live, s: Editing.System, c: Editing.Change)
    requires LiveOk(l) && Refines(l, s)
    requires c.run != l.world.id || c.revision != l.engine.state.stationRevision
    ensures ServedBy(l, c) == LiveServed(l, Editing.Refused)
    ensures Editing.Serve(s, c, "") == Editing.Served(s, Editing.Refused)
  {
    hide LiveOk, Takes, RowsOf, Editing.Edited;
  }

  lemma BrokenIs(l: Live, c: Editing.Change)
    requires LiveOk(l) && !Takes(l, c) && c.run == l.world.id && c.revision == l.engine.state.stationRevision
    ensures ServedBy(l, c) == LiveServed(l, Editing.Broken)
  {
    hide LiveOk, Takes;
  }

  /** What serving a request does to the live engine is what the protocol's server does with it. */
  lemma AnswerSimulated(l: Live, s: Editing.System, step: LiveStep, newId: string)
    requires LiveOk(l) && Refines(l, s) && Pending(l, step)
    requires var served, t := ServedBy(l, Requested(l, step)), Editing.Serve(s, Requested(l, step), newId);
             served.answer == t.answer && Refines(served.live, t.system)
             && served.live.pages == l.pages && served.live.late == l.late
    ensures var a := if step.ServeSent? then Editing.ServeChange(step.page, newId) else Editing.ServeLate(step.request, newId);
            Refines(LiveNext(l, step), Editing.Next(s, a))
  {
    hide LiveOk, SetOf, LiveNext, ServedBy, Editing.Serve, Editing.Next;
    var c := Requested(l, step);
    var served, t := ServedBy(l, c), Editing.Serve(s, c, newId);
    var a := if step.ServeSent? then Editing.ServeChange(step.page, newId) else Editing.ServeLate(step.request, newId);
    LiveServes(l, step);
    ProtocolServes(s, a);
    if step.ServeSent? {
      RefinesWith(served.live, t.system, l.pages[step.page := l.pages[step.page].(save := Editing.Answered(served.answer))], l.late);
    } else {
      RefinesWith(served.live, t.system, l.pages, l.late - multiset{step.request});
    }
  }

  lemma BrokenSimulated(l: Live, s: Editing.System, step: LiveStep)
    requires LiveOk(l) && Refines(l, s) && Pending(l, step)
    requires ServedBy(l, Requested(l, step)) == LiveServed(l, Editing.Broken)
    ensures var a := if step.ServeSent? then Editing.FailChange(step.page) else Editing.FailLate(step.request);
            Refines(LiveNext(l, step), Editing.Next(s, a))
  {
    hide LiveOk, SetOf, LiveNext, ServedBy, Editing.Next;
    LiveServes(l, step);
    FailureIsLocal(s, if step.ServeSent? then Editing.FailChange(step.page) else Editing.FailLate(step.request));
    if step.ServeSent? {
      RefinesWith(l, s, l.pages[step.page := l.pages[step.page].(save := Editing.Answered(Editing.Broken))], l.late);
    } else {
      RefinesWith(l, s, l.pages, l.late - multiset{step.request});
    }
  }

  lemma ServingSimulated(l: Live, s: Editing.System, step: LiveStep) returns (a: Editing.Action)
    requires LiveOk(l) && Refines(l, s) && Pending(l, step)
    ensures Refines(LiveNext(l, step), Editing.Next(s, a))
  {
    hide LiveOk, Takes, SetOf, LiveNext, Editing.Next, ServedBy, Editing.Serve, StationId;
    var c := Requested(l, step);
    if c.run != l.world.id || c.revision != l.engine.state.stationRevision {
      StaleSimulated(l, s, c);
      AnswerSimulated(l, s, step, "");
      a := if step.ServeSent? then Editing.ServeChange(step.page, "") else Editing.ServeLate(step.request, "");
    } else if Takes(l, c) {
      var newId := StationId(l.engine.state.lastStationId + 1);
      TakenSimulated(l, s, c);
      TakenKeepsPages(l, s, c, newId);
      AnswerSimulated(l, s, step, newId);
      a := if step.ServeSent? then Editing.ServeChange(step.page, newId) else Editing.ServeLate(step.request, newId);
    } else {
      BrokenIs(l, c);
      BrokenSimulated(l, s, step);
      a := if step.ServeSent? then Editing.FailChange(step.page) else Editing.FailLate(step.request);
    }
  }

  lemma TakenKeepsPages(l: Live, s: Editing.System, c: Editing.Change, newId: string)
    requires LiveOk(l) && s.past != []
    ensures ServedBy(l, c).live.pages == l.pages && ServedBy(l, c).live.late == l.late
    ensures Editing.Serve(s, c, newId).system.pages == s.pages && Editing.Serve(s, c, newId).system.late == s.late
  {
    hide LiveOk, Takes;
    Editing.ServePages(s, c, newId);
  }

  lemma FailureIsLocal(s: Editing.System, a: Editing.Action)
    requires s.past != [] && (a.FailChange? || a.FailLate?)
    ensures a.FailChange? && a.page in s.pages && s.pages[a.page].save.Sent? ==>
              Editing.Next(s, a) == s.(pages := s.pages[a.page := s.pages[a.page].(save := Editing.Answered(Editing.Broken))])
    ensures a.FailLate? ==> Editing.Next(s, a) == s.(late := s.late - multiset{a.request})
  {
  }

  /** Each step of a live engine with its pages is at most one step of the protocol. */
  lemma StepSimulated(l: Live, s: Editing.System, step: LiveStep) returns (actions: seq<Editing.Action>)
    requires LiveOk(l) && Refines(l, s)
    ensures |actions| <= 1 && Refines(LiveNext(l, step), if actions == [] then s else Editing.Next(s, actions[0]))
  {
    hide LiveOk, ServedBy, Takes, Editing.Serve, Editing.OnPage;
    actions := [];
    match step
    case Pace(c) =>
      if Paces(c) {
        PacingSimulated(l, s, c);
      }
    case PageStep(a) =>
      if OwnStep(a) {
        OwnStepIsLocal(s, SetOf(l), a);
        actions := [a];
      }
    case Reboot(w, e, tr) =>
      if LiveNext(l, step) != l {
        RebootSimulated(l, s, w, e, tr);
        actions := [Editing.Restart(w.id, RowsOf(e.state.stations))];
      }
    case ServeSent(b) =>
      if b in l.pages && l.pages[b].save.Sent? {
        var a := ServingSimulated(l, s, step);
        actions := [a];
      }
    case ServeOverdue(c) =>
      if c in l.late {
        var a := ServingSimulated(l, s, step);
        actions := [a];
      }
  }

  lemma RebootSimulated(l: Live, s: Editing.System, w: World, e: Engine, tr: Trace)
    requires LiveOk(l) && Refines(l, s) && LiveNext(l, Reboot(w, e, tr)) != l
    ensures Refines(LiveNext(l, Reboot(w, e, tr)), Editing.Next(s, Editing.Restart(w.id, RowsOf(e.state.stations))))
  {
    hide Inv, WorldSound, RowsOf;
  }

  /** Pages on an engine that just started. */
  ghost predicate Fresh(l: Live) {
    && LiveOk(l) && l.engine.state.stationRevision == 1 && l.at == 0 && l.runs == {l.world.id}
    && l.pages == map[] && l.late == multiset{} && l.applied == []
  }

  /** Whatever pages, engine and restarts do, what happened is a run of the editing protocol. */
  lemma {:induction false} LiveRunsAreRuns(l: Live, steps: seq<LiveStep>)
    requires Fresh(l)
    ensures exists actions :: Refines(LiveAfter(l, steps), Editing.After(Editing.Start(l.world.id, RowsOf(l.engine.state.stations)), actions))
    decreases |steps|
  {
    hide LiveOk, Refines, LiveNext, Editing.Next, RowsOf;
    var start := Editing.Start(l.world.id, RowsOf(l.engine.state.stations));
    if steps == [] {
      FreshRefines(l);
      assert Editing.After(start, []) == start;
    } else {
      var n := |steps| - 1;
      LiveRunsAreRuns(l, steps[..n]);
      var actions :| Refines(LiveAfter(l, steps[..n]), Editing.After(start, actions));
      var more := StepSimulated(LiveAfter(l, steps[..n]), Editing.After(start, actions), steps[n]);
      if more == [] {
        assert Refines(LiveAfter(l, steps), Editing.After(start, actions));
      } else {
        assert (actions + more)[..|actions|] == actions && (actions + more)[|actions|] == more[0];
        assert Editing.After(start, actions + more) == Editing.Next(Editing.After(start, actions), more[0]);
      }
    }
  }

  lemma FreshRefines(l: Live)
    requires Fresh(l)
    ensures Refines(l, Editing.Start(l.world.id, RowsOf(l.engine.state.stations)))
  {
    hide LiveOk, RowsOf;
  }

  /** No lost update on the engine itself: every station change it committed for a page was computed from, or reviewed
      against, exactly the rows it replaced, and changed one of them. */
  lemma EnginesLoseNoUpdate(l: Live, steps: seq<LiveStep>, i: nat)
    requires Fresh(l)
    ensures i < |LiveAfter(l, steps).applied| ==>
              var c := LiveAfter(l, steps).applied[i];
              && c.replaced == c.change.base
              && forall id :: id != (if c.change.id.Some? then c.change.id.value else c.newId) ==>
                   (id in c.result <==> id in c.change.base) && (id in c.result ==> c.result[id] == c.change.base[id])
  {
    hide LiveOk, LiveNext, RowsOf;
    LiveRunsAreRuns(l, steps);
    var start := Editing.Start(l.world.id, RowsOf(l.engine.state.stations));
    var actions :| Refines(LiveAfter(l, steps), Editing.After(start, actions));
    if i < |LiveAfter(l, steps).applied| {
      Editing.NoLostUpdate(l.world.id, RowsOf(l.engine.state.stations), actions, i);
    }
  }
}
