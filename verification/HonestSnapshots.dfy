/** The display never rejects an honest engine: in every reachable state, for every valid selection, the served snapshot
    passes every check of the projector (simulation/observation.go, simulator/station_convert.go, display/project.go). */
module HonestSnapshots {
  import opened Basics
  import opened Model
  import opened Sorting
  import opened Worlds
  import opened Engine
  import opened Emission
  import opened HistoryRing
  import opened Receiving
  import opened Targets
  import opened Listening
  import opened Runs
  import opened Wire
  import opened Agreement
  import opened Projections
  import opened Snapshots
  import opened HonestStations
  import opened HonestTargets

  // ----- Lists without repetitions -----

  ghost predicate Distinct<T>(s: seq<T>) {
    forall i, j :: 0 <= i < j < |s| ==> s[i] != s[j]
  }

  lemma {:induction false} DistinctCounts<T>(s: seq<T>, x: T)
    requires Distinct(s)
    ensures multiset(s)[x] == if x in s then 1 else 0
  {
    if s != [] {
      var n := |s| - 1;
      assert s == s[..n] + [s[n]];
      DistinctCounts(s[..n], x);
    }
  }

  lemma SameMembersSameMultiset<T>(a: seq<T>, b: seq<T>)
    requires Distinct(a) && Distinct(b) && forall x :: x in a <==> x in b
    ensures multiset(a) == multiset(b)
  {
    forall x
      ensures multiset(a)[x] == multiset(b)[x]
    {
      DistinctCounts(a, x);
      DistinctCounts(b, x);
    }
  }

  /** Two listings of one set of IDs sort alike. */
  lemma SameIdsSortAlike(a: seq<string>, b: seq<string>)
    requires Distinct(a) && Distinct(b) && forall x :: x in a <==> x in b
    ensures SortIds(a) == SortIds(b)
    ensures forall x :: x in SortIds(a) <==> x in a
  {
    StringOrder();
    SameMembersSameMultiset(a, b);
    hide StringAtMost, Sort, Distinct;
    SortOfPermutation(a, b, StringAtMost);
    SortCorrect(a, StringAtMost);
  }

  // ----- The stations of a snapshot -----

  lemma WireStationOrder()
    ensures TotalOrder(WireStationAtMost)
  {
    StringOrder();
    hide StringAtMost;
    assert forall a, b :: WireStationAtMost(a, b) || WireStationAtMost(b, a);
    forall a, b, c | WireStationAtMost(a, b) && WireStationAtMost(b, c)
      ensures WireStationAtMost(a, c)
    {
      assert StringAtMost(a.id, b.id) && StringAtMost(b.id, c.id);
    }
  }

  function WireStationKey(s: WireStation): string {
    s.id
  }

  /** Sorting distinct stations by ID gives strictly increasing IDs. */
  lemma SortedStations(all: seq<WireStation>)
    requires forall i, j :: 0 <= i < j < |all| ==> all[i].id != all[j].id
    ensures var s := Sort(all, WireStationAtMost);
            && |s| == |all| && (forall x :: x in s <==> x in all)
            && (forall i, j :: 0 <= i < j < |s| ==> s[i].id != s[j].id)
            && (forall i :: 1 <= i < |s| ==> StringLess(s[i - 1].id, s[i].id))
  {
    hide StringLess, Sort;
    WireStationOrder();
    StringOrder();
    SortCorrect(all, WireStationAtMost);
    forall i, j | 0 <= i < j < |all|
      ensures WireStationKey(all[i]) != WireStationKey(all[j])
    {
    }
    SortKeepsDistinct(all, WireStationAtMost, WireStationKey);
    var s := Sort(all, WireStationAtMost);
    forall i, j | 0 <= i < j < |s|
      ensures s[i].id != s[j].id
    {
      assert WireStationKey(s[i]) != WireStationKey(s[j]);
    }
    forall i | 1 <= i < |s|
      ensures StringLess(s[i - 1].id, s[i].id)
    {
      assert WireStationAtMost(s[i - 1], s[i]) && s[i - 1].id != s[i].id;
    }
  }

  lemma {:induction false} StationsByIdFinds(stations: seq<WireStation>, k: nat)
    requires (forall i, j :: 0 <= i < j < |stations| ==> stations[i].id != stations[j].id) && k < |stations|
    ensures stations[k].id in StationsById(stations) && StationsById(stations)[stations[k].id] == stations[k]
  {
    var n := |stations| - 1;
    if k < n {
      StationsByIdFinds(stations[..n], k);
      assert stations[k].id != stations[n].id;
    }
  }

  // ----- The selection -----

  lemma {:induction false} SelectedIdsAre(stations: seq<Site>, selected: seq<bool>, id: string)
    requires |stations| == |selected|
    ensures id in SelectedIds(stations, selected) <==> exists i :: 0 <= i < |stations| && selected[i] && stations[i].id == id
  {
    if stations != [] {
      var n := |stations| - 1;
      SelectedIdsAre(stations[..n], selected[..n], id);
      if i :| 0 <= i < |stations| && selected[i] && stations[i].id == id {
        if i < n {
          assert selected[..n][i] && stations[..n][i].id == id;
        }
      }
      if id in SelectedIds(stations[..n], selected[..n]) {
        var i :| 0 <= i < n && selected[..n][i] && stations[..n][i].id == id;
        assert selected[i] && stations[i].id == id;
      }
    }
  }

  lemma {:induction false} SelectedIdsDistinct(stations: seq<Site>, selected: seq<bool>)
    requires |stations| == |selected| && DistinctIds(stations)
    ensures Distinct(SelectedIds(stations, selected))
  {
    if stations != [] {
      var n := |stations| - 1;
      SelectedIdsDistinct(stations[..n], selected[..n]);
      SelectedIdsAre(stations[..n], selected[..n], stations[n].id);
      if i :| 0 <= i < n && selected[..n][i] && stations[..n][i].id == stations[n].id {
        assert stations[i].id != stations[n].id;
      }
    }
  }

  /** What the display asks for: nothing for all stations, or distinct configured stations in any order. */
  ghost predicate ValidSelection(stations: seq<Site>, requested: Option<seq<string>>) {
    requested.Some? ==>
      && requested.value != [] && Distinct(requested.value)
      && forall id <- requested.value :: exists st <- stations :: st.id == id
  }

  function Requested(requested: Option<seq<string>>): seq<string> {
    if requested.None? then [] else requested.value
  }

  lemma ValidSelects(stations: seq<Site>, requested: Option<seq<string>>)
    requires DistinctIds(stations) && ValidSelection(stations, requested)
    ensures Selects(stations, Requested(requested)).Some?
    ensures var selected := Selects(stations, Requested(requested)).value;
            && |selected| == |stations|
            && forall i :: 0 <= i < |stations| ==> selected[i] == (requested.None? || stations[i].id in requested.value)
  {
    forall id | id in Requested(requested)
      ensures FindStation(stations, id) < |stations|
    {
      var st :| st in stations && st.id == id;
      var i :| 0 <= i < |stations| && stations[i] == st;
      FindsStation(stations, i);
    }
  }

  // ----- The context -----

  lemma MmsisAre(e: Engine)
    requires |e.store.targets.targets| <= TARGET_LIMIT
    ensures var mmsis := Ascending(e.store.targets.targets.Keys);
            && (forall m <- mmsis :: m in e.store.targets.targets) && Increasing(mmsis) && |mmsis| <= TARGET_LIMIT
  {
    AscendingIs(e.store.targets.targets.Keys);
    assert |e.store.targets.targets.Keys| == |e.store.targets.targets|;
  }

  lemma InvTargets(w: World, e: Engine, tr: Trace)
    requires Inv(w, e, tr)
    ensures |e.store.targets.targets| <= TARGET_LIMIT && Tracks(e.store, e.state.stations) && DistinctIds(e.state.stations)
  {
    InvReady(w, e, tr);
  }

  lemma WireStations(w: World, e: Engine, mmsis: seq<nat>, now: int)
    requires Tracks(e.store, e.state.stations) && DistinctIds(e.state.stations)
    requires forall m <- mmsis :: m in e.store.targets.targets
    ensures var all := StationsToWire(e, mmsis, e.state.stations, now);
            && |all| == |e.state.stations|
            && (forall i :: 0 <= i < |all| ==>
                  e.state.stations[i].id in e.store.receivers && all[i].id == e.state.stations[i].id
                  && all[i] == StationToWire(e, mmsis, e.state.stations[i], e.store.receivers[e.state.stations[i].id], now))
            && (forall i, j :: 0 <= i < j < |all| ==> all[i].id != all[j].id)
  {
    hide RecentOf, StationCount, ContoursToWire, HistoryRing.At, Ratio;
  }

  /** The parts of a snapshot, by name. */
  lemma SnapshotParts(w: World, e: Engine, selected: seq<bool>)
    requires |e.state.stations| == |selected| && Tracks(e.store, e.state.stations)
    requires |e.store.targets.targets| <= TARGET_LIMIT
    ensures var o, mmsis, now := Served(w, e, selected), Ascending(e.store.targets.targets.Keys), Now(w, e.state);
            && (forall m <- mmsis :: m in e.store.targets.targets)
            && o.stations == Sort(StationsToWire(e, mmsis, e.state.stations, now), WireStationAtMost)
            && o.targets == TargetsToWire(e, selected, mmsis, now)
            && o.currentTargets == CountTargets(o.targets, false) && o.lostTargets == CountTargets(o.targets, true)
            && o.recent == Sort(AllToWire(RecentOfAll(e, selected)), ReceptionAtMost)
            && o.selection == SortIds(SelectedIds(e.state.stations, selected))
            && o.limits == PublishedLimits() && o.startedAt == w.start && o.clock.now == o.snapshotAt == now
            && o.transmissions == e.state.sequence && o.recentIsSample
            && o.clock == Clock(now, Millis(e.state.elapsed), e.state.speed as real / SPEED_SCALE as real, e.state.speed == 0)
            && o.stateRevision == e.state.revision && o.stationSetRevision == e.state.stationRevision
            && o.receivedTransmissions == e.store.receivedTransmissions && o.receptions == e.store.receptions
  {
    MmsisAre(e);
    hide Sort, TargetsToWire, StationsToWire, CountTargets, RecentOfAll, SelectedIds, Ascending, Millis;
  }

  lemma ContextShows(w: World, e: Engine, tr: Trace, selected: seq<bool>)
    requires Inv(w, e, tr) && |selected| == |e.state.stations|
    ensures Tracks(e.store, e.state.stations)
    ensures var mmsis := Ascending(e.store.targets.targets.Keys);
            && (forall m <- mmsis :: m in e.store.targets.targets)
            && Shown(w, e, tr, mmsis, selected, ContextOf(Served(w, e, selected)))
  {
    hide Inv, Served, StationToWire, StationsById, Sort, Ascending, SelectedIds, PublishedLimits;
    InvTargets(w, e, tr);
    InvClockOf(w, e, tr);
    MmsisAre(e);
    SnapshotParts(w, e, selected);
    var mmsis, o, now := Ascending(e.store.targets.targets.Keys), Served(w, e, selected), Now(w, e.state);
    var all := StationsToWire(e, mmsis, e.state.stations, now);
    WireStations(w, e, mmsis, now);
    SortedStations(all);
    SelectedIdsDistinct(e.state.stations, selected);
    var ids := SelectedIds(e.state.stations, selected);
    SameIdsSortAlike(ids, ids);
    var c := ContextOf(o);
    forall i | 0 <= i < |selected|
      ensures ShownAt(e, mmsis, selected, c, i)
    {
      assert all[i] in all;
      var k :| 0 <= k < |o.stations| && o.stations[k] == all[i];
      StationsByIdFinds(o.stations, k);
      SelectedHere(e.state.stations, selected, i);
    }
  }

  lemma SelectedHere(stations: seq<Site>, selected: seq<bool>, i: nat)
    requires |stations| == |selected| && DistinctIds(stations) && i < |stations|
    ensures stations[i].id in SelectedIds(stations, selected) <==> selected[i]
  {
    SelectedIdsAre(stations, selected, stations[i].id);
    if k :| 0 <= k < |stations| && selected[k] && stations[k].id == stations[i].id {
      assert i == k || i < k || k < i;
    }
  }

  lemma InvClockOf(w: World, e: Engine, tr: Trace)
    requires Inv(w, e, tr)
    ensures ClockOk(w, e.state) && e.state.sequence == |tr.sent| && 1 <= e.state.stationRevision
    ensures |e.state.stations| <= MAX_STATIONS
    ensures e.store.receivedTransmissions <= |tr.sent| && e.store.receivedTransmissions <= e.store.receptions
  {
  }

  // ----- Selection and stations -----

  lemma SelectionHonest(w: World, e: Engine, tr: Trace, requested: Option<seq<string>>, selected: seq<bool>)
    requires Inv(w, e, tr) && ValidSelection(e.state.stations, requested)
    requires Selects(e.state.stations, Requested(requested)) == Some(selected) && |selected| == |e.state.stations|
    ensures Tracks(e.store, e.state.stations)
    ensures SelectionAccepted(requested, Served(w, e, selected))
  {
    hide Inv, Served, StationToWire, Sort, Ascending, SelectedIds, PublishedLimits, Selects;
    InvTargets(w, e, tr);
    MmsisAre(e);
    SnapshotParts(w, e, selected);
    ValidSelects(e.state.stations, requested);
    var mmsis, o, now := Ascending(e.store.targets.targets.Keys), Served(w, e, selected), Now(w, e.state);
    var all := StationsToWire(e, mmsis, e.state.stations, now);
    WireStations(w, e, mmsis, now);
    SortedStations(all);
    var ids := SelectedIds(e.state.stations, selected);
    SelectedIdsDistinct(e.state.stations, selected);
    var want := if requested.None? then StationIds(o.stations) else requested.value;
    forall id
      ensures id in ids <==> id in want
    {
      SelectedIdsAre(e.state.stations, selected, id);
      if requested.None? {
        AllListed(e.state.stations, all, o.stations, id);
      } else if id in want {
        var st :| st in e.state.stations && st.id == id;
        var i :| 0 <= i < |selected| && e.state.stations[i] == st;
        assert selected[i];
      }
    }
    SameIdsSortAlike(ids, want);
  }

  lemma AllListed(stations: seq<Site>, all: seq<WireStation>, sorted: seq<WireStation>, id: string)
    requires |all| == |stations| && forall i :: 0 <= i < |all| ==> all[i].id == stations[i].id
    requires forall x :: x in sorted <==> x in all
    ensures id in StationIds(sorted) <==> exists i :: 0 <= i < |stations| && stations[i].id == id
  {
    if id in StationIds(sorted) {
      var k :| 0 <= k < |sorted| && StationIds(sorted)[k] == id;
      assert sorted[k] in all;
      var i :| 0 <= i < |all| && all[i] == sorted[k];
      assert stations[i].id == id;
    }
    if i :| 0 <= i < |stations| && stations[i].id == id {
      assert all[i] in sorted;
      var k :| 0 <= k < |sorted| && sorted[k] == all[i];
      assert StationIds(sorted)[k] == id;
    }
  }

  lemma StationsHonest(w: World, e: Engine, tr: Trace, selected: seq<bool>)
    requires WorldSound(w) && Inv(w, e, tr) && |selected| == |e.state.stations|
    ensures Tracks(e.store, e.state.stations)
    ensures StationsAccepted(Served(w, e, selected)) && |Served(w, e, selected).stations| <= MAX_STATIONS
  {
    hide Inv, WorldSound, Served, StationToWire, Sort, Ascending, PublishedLimits, StationAccepted, StringLess;
    InvTargets(w, e, tr);
    InvClockOf(w, e, tr);
    MmsisAre(e);
    SnapshotParts(w, e, selected);
    var mmsis, o, now := Ascending(e.store.targets.targets.Keys), Served(w, e, selected), Now(w, e.state);
    var all := StationsToWire(e, mmsis, e.state.stations, now);
    WireStations(w, e, mmsis, now);
    SortedStations(all);
    forall s | s in o.stations
      ensures StationAccepted(s, o.limits, o.startedAt, o.clock.now)
    {
      assert s in all;
      var i :| 0 <= i < |all| && all[i] == s;
      StationHonest(w, e, tr, mmsis, e.state.stations[i], now);
    }
  }

  // ----- Targets -----

  /** Each served target is built from one stored target, in increasing order of MMSI. */
  lemma {:induction false} ServedTargets(e: Engine, selected: seq<bool>, mmsis: seq<nat>, now: int)
    requires |e.state.stations| == |selected| && (forall m <- mmsis :: m in e.store.targets.targets) && Increasing(mmsis)
    ensures var ts := TargetsToWire(e, selected, mmsis, now);
            && |ts| <= |mmsis|
            && (forall t <- ts :: t.mmsi in mmsis
                  && TargetToWire(e.state.stations, selected, t.mmsi, e.store.targets.targets[t.mmsi], now) == Some(t))
            && (forall i, j :: 0 <= i < j < |ts| ==> ts[i].mmsi < ts[j].mmsi)
  {
    hide SightUpTo, Sort;
    if mmsis != [] {
      var n := |mmsis| - 1;
      ServedTargets(e, selected, mmsis[..n], now);
      var front := TargetsToWire(e, selected, mmsis[..n], now);
      forall t | t in front
        ensures t.mmsi < mmsis[n]
      {
        var k :| 0 <= k < n && mmsis[k] == t.mmsi;
      }
    }
  }

  lemma TargetsHonest(w: World, e: Engine, tr: Trace, selected: seq<bool>)
    requires WorldSound(w) && Inv(w, e, tr) && |selected| == |e.state.stations|
    ensures Tracks(e.store, e.state.stations)
    ensures var o := Served(w, e, selected);
            TargetsAccepted(ContextOf(o), w.decode, o) && |o.targets| <= TARGET_LIMIT
  {
    hide Inv, WorldSound, Served, StationToWire, Sort, Ascending, PublishedLimits, TargetAccepted, TargetToWire, TargetsToWire,
         Shown, ContextOf, CountTargets, CountAt, Provenances;
    InvTargets(w, e, tr);
    MmsisAre(e);
    SnapshotParts(w, e, selected);
    ContextShows(w, e, tr, selected);
    var mmsis, o, now := Ascending(e.store.targets.targets.Keys), Served(w, e, selected), Now(w, e.state);
    var c := ContextOf(o);
    ShownClock(w, e, tr, mmsis, selected, c);
    ServedTargets(e, selected, mmsis, now);
    forall t | t in o.targets
      ensures TargetAccepted(c, w.decode, t)
    {
      TargetHonest(w, e, tr, mmsis, selected, c, t.mmsi);
    }
    forall s | s in o.stations && s.id in c.selected
      ensures s.currentTargets == CountAt(Provenances(o.targets), s.id, false)
              && s.lostTargets == CountAt(Provenances(o.targets), s.id, true)
    {
      CountsHonest(w, e, tr, selected, s);
    }
  }

  lemma CountsHonest(w: World, e: Engine, tr: Trace, selected: seq<bool>, s: WireStation)
    requires Inv(w, e, tr) && |selected| == |e.state.stations| && Tracks(e.store, e.state.stations)
    requires s in Served(w, e, selected).stations && s.id in ContextOf(Served(w, e, selected)).selected
    ensures var ps := Provenances(Served(w, e, selected).targets);
            s.currentTargets == CountAt(ps, s.id, false) && s.lostTargets == CountAt(ps, s.id, true)
  {
    hide Inv, Served, Sort, Ascending, PublishedLimits, TargetsToWire, ContextOf, CountAt, Provenances, RecentOf, StationCount,
         ContoursToWire, HistoryRing.At, StationsToWire;
    InvTargets(w, e, tr);
    MmsisAre(e);
    SnapshotParts(w, e, selected);
    ContextShows(w, e, tr, selected);
    var mmsis, o, now := Ascending(e.store.targets.targets.Keys), Served(w, e, selected), Now(w, e.state);
    var all := StationsToWire(e, mmsis, e.state.stations, now);
    WireStations(w, e, mmsis, now);
    SortedStations(all);
    assert s in all;
    var i :| 0 <= i < |all| && all[i] == s;
    assert ShownAt(e, mmsis, selected, ContextOf(o), i);
    CountsAgree(w, e, tr, selected, mmsis, i, false);
    CountsAgree(w, e, tr, selected, mmsis, i, true);
  }
}
