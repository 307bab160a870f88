/** Reading a station's history by cursor while the engine commits and evicts (simulation/observation.go, types.go). */
module HistoryLogs {
  import opened Basics
  import opened Model
  import opened Worlds
  import opened Engine
  import opened HistoryRing
  import opened Listening
  import opened Receiving
  import opened Emission
  import opened Runs
  import opened Reachable
  import opened Targets
  import opened Wire
  import opened Snapshots
  import Honest = HonestRuns
  import HonestStations
  import RateWindow
  import Versions

  // ----- The page as a function of the unbounded log -----

  /** How many records of a log are still retained. */
  function Kept(log: seq<Reception>): nat {
    Min(HISTORY_LIMIT, |log|)
  }

  /** The log index at which a page starts: after the cursor, or at the newest limit records. */
  function StartOf(log: seq<Reception>, after: Option<nat>, limit: int): (from: nat)
    requires limit > 0 && (after.Some? ==> after.value <= |log|)
    ensures from <= |log|
  {
    Max(|log| - Kept(log), if after.Some? then after.value else |log| - limit)
  }

  /** The page a reader of the unbounded log would be given if it still held only its newest records. */
  function PageFor(run: string, id: string, log: seq<Reception>, after: Option<nat>, limit: int): WirePage
    requires limit > 0 && (after.Some? ==> after.value <= |log|)
  {
    var from := StartOf(log, after, limit);
    var to := Min(from + limit, |log|);
    var oldest := if log == [] then None else Some(|log| - Kept(log) + 1);
    WirePage(run, id, after.None?, oldest, if log == [] then None else Some(|log|),
             if |log| > HISTORY_LIMIT then oldest else None, AllToWire(log[from..to]), to, to < |log|,
             after.Some? && after.value < from)
  }

  lemma RingBounds(rc: Receiver, log: seq<Reception>, after: Option<nat>, limit: int)
    requires Retains(rc, log) && Contiguous(log) && rc.stats.last == |log|
    requires limit > 0 && (after.Some? ==> after.value <= |log|)
    ensures RingCounts(rc) && |rc.history| == Kept(log)
    ensures OldestOf(rc) == if log == [] then None else Some(|log| - Kept(log) + 1)
    ensures PageFrom(rc, after, limit) == StartOf(log, after, limit) - (|log| - Kept(log))
    ensures (Behind(rc, after) && after.value < OldestOf(rc).value - 1)
            == (after.Some? && after.value < StartOf(log, after, limit))
  {
    hide Retains, HistoryRing.At, Contiguous;
    RetainedSequences(rc, log);
  }

  lemma RingRecords(rc: Receiver, log: seq<Reception>, from: nat, to: nat)
    requires Retains(rc, log) && Contiguous(log) && |rc.history| == Kept(log) && from <= to <= |rc.history|
    ensures var base := |log| - |rc.history|;
            seq(to - from, i requires 0 <= i < to - from => ToWire(HistoryRing.At(rc, from + i)))
            == AllToWire(log[base + from..base + to])
    ensures from < to ==> HistoryRing.At(rc, to - 1).sequence == |log| - |rc.history| + to
  {
    hide Retains, HistoryRing.At, Contiguous;
    RetainedSequences(rc, log);
    var base := |log| - |rc.history|;
    var a := seq(to - from, i requires 0 <= i < to - from => ToWire(HistoryRing.At(rc, from + i)));
    forall i | 0 <= i < to - from
      ensures a[i] == AllToWire(log[base + from..base + to])[i]
    {
      assert HistoryRing.At(rc, from + i) == log[base + (from + i)];
    }
  }

  /** The ring serves exactly the page of the log. */
  lemma RingServesLog(w: World, id: string, rc: Receiver, log: seq<Reception>, after: Option<nat>, limit: int)
    requires Retains(rc, log) && Contiguous(log) && rc.stats.last == |log|
    requires limit > 0 && (after.Some? ==> after.value <= |log|)
    ensures RingCounts(rc) && PageOf(w, id, rc, after, limit) == PageFor(w.id, id, log, after, limit)
  {
    hide Retains, HistoryRing.At, Contiguous, PageFrom, OldestOf, Behind, AllToWire, RingCounts;
    RingBounds(rc, log, after, limit);
    var from := PageFrom(rc, after, limit);
    var to := Min(from + limit, |rc.history|);
    RingRecords(rc, log, from, to);
    var a, b := PageOf(w, id, rc, after, limit), PageFor(w.id, id, log, after, limit);
    assert a.receptions == b.receptions;
    assert a.nextAfter == b.nextAfter;
    assert a.gap == b.gap;
    assert a == b;
  }

  lemma StationRetains(w: World, e: Engine, tr: Trace, id: string)
    requires Inv(w, e, tr) && id in tr.witnesses
    ensures id in e.store.receivers && id in Ids(e.state.stations)
    ensures var rc, log := e.store.receivers[id], tr.witnesses[id].log;
            Retains(rc, log) && Contiguous(log) && rc.stats.last == |log|
  {
    hide SentOk, FleetOk, TargetsOk, Young, TargetsLogged, HeardOk, SiteOk, Allocated, Genuine, RateWindow.BucketsOk, Retains;
    var st :| st in e.state.stations && st.id == id;
    HonestStations.LogContiguous(tr.sent, |tr.sent|, st, tr.witnesses[id].log);
  }

  /** What ReceptionHistory answers in every reachable state, for every cursor and limit. */
  lemma EngineServesLog(w: World, e: Engine, tr: Trace, id: string, after: Option<nat>, limit: int)
    requires Inv(w, e, tr)
    ensures Tracks(e.store, e.state.stations) && RingsCount(e)
    ensures HistoryPage(w, e, id, after, limit)
            == if limit < 1 || limit > HISTORY_LIMIT then PageError(Invalid)
               else if id !in tr.witnesses then PageError(NotFound)
               else if after.Some? && after.value > |tr.witnesses[id].log| then PageError(Invalid)
               else Page(PageFor(w.id, id, tr.witnesses[id].log, after, limit))
  {
    hide Inv, PageOf, PageFor, RingCounts, Retains;
    Honest.RingsCountInv(w, e, tr);
    InvKeys(w, e, tr);
    if id in tr.witnesses && 1 <= limit <= HISTORY_LIMIT {
      StationRetains(w, e, tr, id);
      var st :| st in e.state.stations && st.id == id;
      if after.None? || after.value <= |tr.witnesses[id].log| {
        RingServesLog(w, id, e.store.receivers[id], tr.witnesses[id].log, after, limit);
      }
    }
  }

  // ----- Logs grow -----

  predicate Extends(longer: seq<Reception>, log: seq<Reception>) {
    |log| <= |longer| && longer[..|log|] == log
  }

  lemma HearingExtends(w: World, e: Engine, tr: Trace, sent: seq<Transmission>, id: string)
    requires e.store.receivers.Keys == tr.witnesses.Keys == Ids(e.state.stations)
    requires Tracks(e.store, e.state.stations) && id in tr.witnesses
    ensures id in TraceSent(w, e, tr, sent).witnesses
    ensures Extends(TraceSent(w, e, tr, sent).witnesses[id].log, tr.witnesses[id].log)
  {
    hide HearAll, Hearings, NewRecords;
  }

  lemma AddingExtends(w: World, e: Engine, tr: Trace, id: string)
    requires Inv(w, e, tr)
    ensures id in tr.witnesses ==> TraceAdded(e, tr).witnesses[id] == tr.witnesses[id]
    ensures id in TraceAdded(e, tr).witnesses && id !in tr.witnesses ==> !Allocated(id, e.state.lastStationId)
  {
    hide Inv, Allocated, StationId;
    InvKeys(w, e, tr);
    Versions.InvAllocated(w, e, tr);
    Versions.NotYetAllocated(e.state.lastStationId);
    if id in tr.witnesses {
      var st :| st in e.state.stations && st.id == id;
    }
  }

  /** A command only appends to the log of a station it does not remove; a station it adds has a new ID. */
  lemma LogsGrow(w: World, e: Engine, tr: Trace, c: Command, id: string)
    requires WorldSound(w) && Inv(w, e, tr)
    ensures Ready(e) && e.store.receivers.Keys == tr.witnesses.Keys == Ids(e.state.stations)
    ensures id in TraceAfter(w, e, tr, c).witnesses ==>
              if id in tr.witnesses then Extends(TraceAfter(w, e, tr, c).witnesses[id].log, tr.witnesses[id].log)
              else !Allocated(id, e.state.lastStationId)
  {
    hide Inv, WorldSound, SetCount, Advance, Elapse, SetSpeed, AddStation, UpdateStation, RemoveStation, StationId,
         TraceSent, TraceAdded, Allocated;
    InvReady(w, e, tr);
    InvKeys(w, e, tr);
    AddingExtends(w, e, tr, id);
    match Execute(w, e, c)
    case Failed(_) =>
    case Committed(_, sent) =>
      if id in tr.witnesses {
        HearingExtends(w, e, tr, sent, id);
      } else {
        NotHeard(w, e, tr, sent, id);
      }
  }

  lemma NotHeard(w: World, e: Engine, tr: Trace, sent: seq<Transmission>, id: string)
    requires e.store.receivers.Keys == tr.witnesses.Keys == Ids(e.state.stations)
    requires Tracks(e.store, e.state.stations) && id !in tr.witnesses
    ensures id !in TraceSent(w, e, tr, sent).witnesses
  {
  }

  lemma KnownIsAllocated(w: World, e: Engine, tr: Trace, id: string)
    requires Inv(w, e, tr) && id in tr.witnesses
    ensures Allocated(id, e.state.lastStationId)
  {
    hide Inv, Allocated;
    InvKeys(w, e, tr);
    Versions.InvAllocated(w, e, tr);
    var st :| st in e.state.stations && st.id == id;
  }

  // ----- A reader among the commands -----

  /** The engine runs a command, or the reader asks for the page after its cursor. */
  datatype Step = Does(command: Command) | Reads(limit: int)

  datatype Reading = Reading(engine: Engine, trace: Trace, pages: seq<WirePage>)

  /** The cursor before page i: the reader follows nextAfter. */
  function Before(start: Option<nat>, pages: seq<WirePage>, i: nat): Option<nat>
    requires i <= |pages|
  {
    if i == 0 then start else Some(pages[i - 1].nextAfter)
  }

  ghost function Follow(w: World, e: Engine, tr: Trace, id: string, start: Option<nat>, steps: seq<Step>): (r: Reading)
    requires WorldSound(w) && Inv(w, e, tr)
    ensures Inv(w, r.engine, r.trace)
    decreases |steps|
  {
    if steps == [] then Reading(e, tr, [])
    else
      var r := Follow(w, e, tr, id, start, steps[..|steps| - 1]);
      Taken(w, r, id, start, steps[|steps| - 1])
  }

  ghost function Taken(w: World, r: Reading, id: string, start: Option<nat>, step: Step): (next: Reading)
    requires WorldSound(w) && Inv(w, r.engine, r.trace)
    ensures Inv(w, next.engine, next.trace)
  {
    match step
    case Does(c) =>
      CommandKeepsInv(w, r.engine, r.trace, c);
      Reading(After(w, r.engine, c), TraceAfter(w, r.engine, r.trace, c), r.pages)
    case Reads(limit) =>
      EngineServesLog(w, r.engine, r.trace, id, Before(start, r.pages, |r.pages|), limit);
      match HistoryPage(w, r.engine, id, Before(start, r.pages, |r.pages|), limit)
      case Page(page) => r.(pages := r.pages + [page])
      case PageError(_) => r
  }

  /** A page against the log: a block of records ending at its cursor, which leaves out records after the previous
      cursor exactly if it is marked as a gap, and then starts at the oldest record it reports. */
  predicate PageFits(page: WirePage, before: Option<nat>, log: seq<Reception>) {
    && |page.receptions| <= page.nextAfter <= |log|
    && page.receptions == AllToWire(log[page.nextAfter - |page.receptions|..page.nextAfter])
    && (before.Some? ==> before.value <= page.nextAfter - |page.receptions|
                         && (page.gap <==> before.value < page.nextAfter - |page.receptions|))
    && (page.gap ==> before.Some? && page.oldest == Some(page.nextAfter - |page.receptions| + 1))
  }

  lemma PageForFits(run: string, id: string, log: seq<Reception>, after: Option<nat>, limit: int)
    requires limit > 0 && (after.Some? ==> after.value <= |log|)
    ensures var page := PageFor(run, id, log, after, limit);
            && PageFits(page, after, log)
            && (page.hasMore <==> page.nextAfter < |log|) && (page.hasMore ==> |page.receptions| == limit)
            && (page.gap <==> after.Some? && after.value < |log| - HISTORY_LIMIT)
  {
  }

  lemma SliceOfPrefix(log: seq<Reception>, n: nat, from: nat, to: nat)
    requires from <= to <= n <= |log|
    ensures log[..n][from..to] == log[from..to]
  {
  }

  lemma FitsLonger(page: WirePage, before: Option<nat>, log: seq<Reception>, longer: seq<Reception>)
    requires PageFits(page, before, log) && Extends(longer, log)
    ensures PageFits(page, before, longer)
  {
    hide AllToWire;
    SliceOfPrefix(longer, |log|, page.nextAfter - |page.receptions|, page.nextAfter);
  }

  ghost predicate AllFit(pages: seq<WirePage>, start: Option<nat>, log: seq<Reception>) {
    forall i :: 0 <= i < |pages| ==> PageFits(pages[i], Before(start, pages, i), log)
  }

  ghost predicate ReadingOk(r: Reading, id: string, start: Option<nat>) {
    && (r.pages != [] ==> Allocated(id, r.engine.state.lastStationId))
    && (id in r.trace.witnesses ==> AllFit(r.pages, start, r.trace.witnesses[id].log))
  }

  lemma DoesKeepsReading(w: World, r: Reading, id: string, start: Option<nat>, c: Command)
    requires WorldSound(w) && Inv(w, r.engine, r.trace) && ReadingOk(r, id, start)
    ensures ReadingOk(Taken(w, r, id, start, Does(c)), id, start)
  {
    hide Inv, WorldSound, Allocated, PageFits, After, TraceAfter, Extends;
    var next := Taken(w, r, id, start, Does(c));
    LogsGrow(w, r.engine, r.trace, c, id);
    Versions.CommandEvolves(w, r.engine, r.trace, c);
    Versions.AllocatedMonotone(id, r.engine.state.lastStationId, next.engine.state.lastStationId);
    if id in next.trace.witnesses && id in r.trace.witnesses {
      forall i | 0 <= i < |r.pages|
        ensures PageFits(r.pages[i], Before(start, r.pages, i), next.trace.witnesses[id].log)
      {
        FitsLonger(r.pages[i], Before(start, r.pages, i), r.trace.witnesses[id].log, next.trace.witnesses[id].log);
      }
    }
  }

  lemma ReadsKeepsReading(w: World, r: Reading, id: string, start: Option<nat>, limit: int)
    requires WorldSound(w) && Inv(w, r.engine, r.trace) && ReadingOk(r, id, start)
    ensures ReadingOk(Taken(w, r, id, start, Reads(limit)), id, start)
  {
    hide Inv, WorldSound, Allocated, PageFits, PageFor, HistoryPage;
    var cursor := Before(start, r.pages, |r.pages|);
    EngineServesLog(w, r.engine, r.trace, id, cursor, limit);
    if HistoryPage(w, r.engine, id, cursor, limit).Page? {
      PageForFits(w.id, id, r.trace.witnesses[id].log, cursor, limit);
      KnownIsAllocated(w, r.engine, r.trace, id);
    }
  }

  /** However commands and reads interleave, the pages a reader gets by following its cursor account for the station's
      whole log: records between two pages are missing exactly where the later one is marked as a gap. */
  lemma {:induction false} ReadersLoseNothing(w: World, e: Engine, tr: Trace, id: string, start: Option<nat>, steps: seq<Step>)
    requires WorldSound(w) && Inv(w, e, tr)
    ensures ReadingOk(Follow(w, e, tr, id, start, steps), id, start)
    decreases |steps|
  {
    hide Inv, WorldSound, Taken, ReadingOk;
    if steps == [] {
      NothingRead(e, tr, id, start);
    } else {
      var n := |steps| - 1;
      ReadersLoseNothing(w, e, tr, id, start, steps[..n]);
      match steps[n]
      case Does(c) => DoesKeepsReading(w, Follow(w, e, tr, id, start, steps[..n]), id, start, c);
      case Reads(limit) => ReadsKeepsReading(w, Follow(w, e, tr, id, start, steps[..n]), id, start, limit);
    }
  }

  lemma NothingRead(e: Engine, tr: Trace, id: string, start: Option<nat>)
    ensures ReadingOk(Reading(e, tr, []), id, start)
  {
  }

  function Joined(pages: seq<WirePage>): seq<WireReception> {
    if pages == [] then [] else Joined(pages[..|pages| - 1]) + pages[|pages| - 1].receptions
  }

  lemma WireBlocks(log: seq<Reception>, from: nat, middle: nat, to: nat)
    requires from <= middle <= to <= |log|
    ensures AllToWire(log[from..middle]) + AllToWire(log[middle..to]) == AllToWire(log[from..to])
  {
    assert log[from..middle] + log[middle..to] == log[from..to];
    hide ToWire;
  }

  lemma FrontFits(pages: seq<WirePage>, start: Option<nat>, log: seq<Reception>)
    requires AllFit(pages, start, log) && pages != []
    ensures AllFit(pages[..|pages| - 1], start, log)
    ensures PageFits(pages[|pages| - 1], Before(start, pages[..|pages| - 1], |pages| - 1), log)
  {
    hide PageFits;
    var front := pages[..|pages| - 1];
    forall i | 0 <= i <= |front| ensures Before(start, front, i) == Before(start, pages, i) {
    }
    forall i | 0 <= i < |front| ensures PageFits(front[i], Before(start, front, i), log) {
      assert PageFits(pages[i], Before(start, pages, i), log);
    }
  }

  lemma {:induction false} FittingPagesJoin(pages: seq<WirePage>, start: nat, log: seq<Reception>)
    requires AllFit(pages, Some(start), log) && start <= |log|
    requires forall i :: 0 <= i < |pages| ==> !pages[i].gap
    ensures start <= Before(Some(start), pages, |pages|).value <= |log|
    ensures Joined(pages) == AllToWire(log[start..Before(Some(start), pages, |pages|).value])
    decreases |pages|
  {
    hide AllFit, AllToWire;
    if pages != [] {
      var last := pages[|pages| - 1];
      FrontFits(pages, Some(start), log);
      FittingPagesJoin(pages[..|pages| - 1], start, log);
      WireBlocks(log, start, last.nextAfter - |last.receptions|, last.nextAfter);
    }
  }

  /** A reader that starts at a sequence and meets no gap reads exactly the log from there to its cursor; once a page says
      there is no more it has read everything so far, and a gap means the next record was evicted. */
  lemma GaplessReadersReadAll(w: World, e: Engine, tr: Trace, id: string, start: nat, steps: seq<Step>, limit: int)
    requires WorldSound(w) && Inv(w, e, tr)
    ensures var r := Follow(w, e, tr, id, Some(start), steps);
            var cursor := Before(Some(start), r.pages, |r.pages|).value;
            id in r.trace.witnesses && start <= |r.trace.witnesses[id].log| ==>
              && ((forall i :: 0 <= i < |r.pages| ==> !r.pages[i].gap) ==>
                    && start <= cursor <= |r.trace.witnesses[id].log|
                    && Joined(r.pages) == AllToWire(r.trace.witnesses[id].log[start..cursor]))
    ensures var r := Follow(w, e, tr, id, Some(start), steps + [Reads(limit)]);
            var before := Follow(w, e, tr, id, Some(start), steps).pages;
            var cursor := Before(Some(start), before, |before|).value;
            id in r.trace.witnesses && |r.pages| > |before| ==>
              var page := r.pages[|before|];
              && (page.hasMore <==> page.nextAfter < |r.trace.witnesses[id].log|)
              && (page.gap <==> cursor < |r.trace.witnesses[id].log| - HISTORY_LIMIT)
  {
    hide Inv, WorldSound, PageFits, PageFor, HistoryPage;
    ReadersLoseNothing(w, e, tr, id, Some(start), steps);
    var r := Follow(w, e, tr, id, Some(start), steps);
    if id in r.trace.witnesses {
      var log := r.trace.witnesses[id].log;
      if start <= |log| && forall i :: 0 <= i < |r.pages| ==> !r.pages[i].gap {
        FittingPagesJoin(r.pages, start, log);
      }
      var cursor := Before(Some(start), r.pages, |r.pages|);
      EngineServesLog(w, r.engine, r.trace, id, cursor, limit);
      assert (steps + [Reads(limit)])[..|steps|] == steps;
      if HistoryPage(w, r.engine, id, cursor, limit).Page? {
        PageForFits(w.id, id, log, cursor, limit);
      }
    }
  }
}
