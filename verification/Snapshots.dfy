/** What the engine shows of its state: observations of a selection and pages of one station's history, as served
    (simulation/observation.go, simulator/station_convert.go). */
module Snapshots {
  import opened Basics
  import opened Model
  import opened Sorting
  import opened Worlds
  import opened Engine
  import opened RateWindow
  import opened HistoryRing
  import opened CoverageCut
  import opened Wire
  import opened Projections

  // ----- Receptions -----

  /** receptionResponse. */
  function ToWire(r: Reception): WireReception {
    WireReception(r.stationId, r.sequence, r.transmission, r.mmsi, ChannelText(r.channel), r.timestamp, r.sentence,
                  r.vesselType, r.configRevision, r.rfRevision, r.receiver, r.link)
  }

  function AllToWire(receptions: seq<Reception>): (r: seq<WireReception>)
    ensures |r| == |receptions|
  {
    seq(|receptions|, i requires 0 <= i < |receptions| => ToWire(receptions[i]))
  }

  function StatusText(status: Status): string {
    match status
    case Fresh => "fresh"
    case Stale => "stale"
    case Lost => "lost"
  }

  // ----- Selections -----

  /** selectStations: flags parallel to the stations; an empty request selects all. None for an unknown ID. */
  function Selects(stations: seq<Site>, requested: seq<string>): Option<seq<bool>> {
    if exists id <- requested :: FindStation(stations, id) == |stations| then None
    else Some(seq(|stations|, i requires 0 <= i < |stations| => requested == [] || stations[i].id in requested))
  }

  method SelectStations(stations: seq<Site>, requested: seq<string>) returns (r: Option<seq<bool>>)
    requires forall i, j :: 0 <= i < j < |stations| ==> stations[i].id != stations[j].id
    ensures r == Selects(stations, requested)
  {
    var selected := seq(|stations|, i => false);
    for k := 0 to |requested|
      invariant |selected| == |stations|
      invariant forall id <- requested[..k] :: FindStation(stations, id) < |stations|
      invariant forall i :: 0 <= i < |stations| ==> selected[i] == (stations[i].id in requested[..k])
    {
      var i := FindStation(stations, requested[k]);
      assert requested[..k + 1] == requested[..k] + [requested[k]];
      if i == |stations| {
        assert requested[k] in requested;
        return None;
      }
      selected := selected[i := true];
    }
    assert requested[..|requested|] == requested;
    if requested == [] {
      for i := 0 to |selected|
        invariant |selected| == |stations|
        invariant forall k :: 0 <= k < i ==> selected[k]
      {
        selected := selected[i := true];
      }
    }
    assert selected == Selects(stations, requested).value;
    r := Some(selected);
  }

  /** The selected IDs in creation order. */
  function SelectedIds(stations: seq<Site>, selected: seq<bool>): seq<string>
    requires |selected| == |stations|
  {
    if stations == [] then []
    else
      var n := |stations| - 1;
      SelectedIds(stations[..n], selected[..n]) + if selected[n] then [stations[n].id] else []
  }

  // ----- Stations -----

  function Ratio(part: nat, whole: nat): Option<real> {
    if whole == 0 then None else Some(part as real / whole as real)
  }

  /** The loop over the rate buckets. */
  method SumBuckets(buckets: seq<Bucket>, current: int) returns (opportunities: nat, received: nat)
    ensures (opportunities, received) == SumFresh(buckets, current, |buckets|)
  {
    opportunities, received := 0, 0;
    for i := 0 to |buckets|
      invariant (opportunities, received) == SumFresh(buckets, current, i)
    {
      if buckets[i].second > current - RATE_BUCKETS && buckets[i].second <= current {
        opportunities := opportunities + buckets[i].opportunities;
        received := received + buckets[i].received;
      }
    }
  }

  function Rate(count: nat, duration: int): Option<real> {
    if duration > 0 then Some(count as real / (duration as real / SECOND as real)) else None
  }

  function RecentOf(rc: Receiver, st: Site, elapsed: int, now: int): Recent {
    var duration := Min(RATE_WINDOW, now - st.createdAt);
    var (o, r) := SumFresh(rc.stats.buckets, elapsed / SECOND, |rc.stats.buckets|);
    Recent(Millis(duration), o, r, Rate(o, duration), Rate(r, duration), Ratio(r, o))
  }

  function ContoursToWire(coverage: seq<Coverage>): (r: seq<WireCoverage>)
    ensures |r| == |coverage|
  {
    seq(|coverage|, i requires 0 <= i < |coverage| =>
      var c := coverage[i];
      WireCoverage(ChannelText(c.channel), c.threshold, c.minRadius, c.maxRadius, Geometry(c.ring)))
  }

  function ObservationAt(t: Target, id: string): Option<Reception> {
    var i := IndexOf(t.observations, id);
    if i < |t.observations| then Some(t.observations[i]) else None
  }

  /** Whether station id observes the target, and as lost or not. */
  predicate SeenAs(t: Target, id: string, now: int, lost: bool) {
    var r := ObservationAt(t, id);
    r.Some? && (TargetStatus(now - r.value.timestamp) == Lost) == lost
  }

  /** Targets a station observes, as lost or not. */
  function StationCount(targets: map<nat, Target>, mmsis: seq<nat>, id: string, now: int, lost: bool): nat
    requires forall m <- mmsis :: m in targets
  {
    if mmsis == [] then 0
    else
      var m := mmsis[|mmsis| - 1];
      StationCount(targets, mmsis[..|mmsis| - 1], id, now, lost) + if SeenAs(targets[m], id, now, lost) then 1 else 0
  }

  function StationToWire(e: Engine, mmsis: seq<nat>, st: Site, rc: Receiver, now: int): WireStation
    requires forall m <- mmsis :: m in e.store.targets.targets
  {
    var c := rc.stats.counters;
    WireStation(st.id, st.definition, st.configRevision, st.rfRevision, st.createdAt, st.rfUpdatedAt,
                ContoursToWire(st.coverage), c, Ratio(c.received, c.opportunities),
                RecentOf(rc, st, e.state.elapsed, now),
                if rc.history == [] then None else Some(HistoryRing.At(rc, 0).sequence),
                if rc.history == [] then None else Some(rc.stats.last),
                StationCount(e.store.targets.targets, mmsis, st.id, now, false),
                StationCount(e.store.targets.targets, mmsis, st.id, now, true))
  }

  function StationsToWire(e: Engine, mmsis: seq<nat>, stations: seq<Site>, now: int): (r: seq<WireStation>)
    requires forall m <- mmsis :: m in e.store.targets.targets
    requires Tracks(e.store, stations)
    ensures |r| == |stations|
  {
    seq(|stations|, i requires 0 <= i < |stations| =>
      StationToWire(e, mmsis, stations[i], e.store.receivers[stations[i].id], now))
  }

  // ----- Targets -----

  /** The first k stations: the newest transmission among the selected ones, and what each of them last received. */
  datatype Sighting = Sighting(chosen: Option<Reception>, provenance: seq<Reception>, enabled: seq<bool>)

  function SightUpTo(stations: seq<Site>, selected: seq<bool>, t: Target, k: nat): (s: Sighting)
    requires k <= |stations| == |selected|
    ensures |s.provenance| == |s.enabled|
  {
    if k == 0 then Sighting(None, [], [])
    else
      var s, st := SightUpTo(stations, selected, t, k - 1), stations[k - 1];
      var r := ObservationAt(t, st.id);
      if r.None? || !selected[k - 1] then s
      else
        Sighting(if s.chosen.None? || r.value.transmission > s.chosen.value.transmission then r else s.chosen,
                 s.provenance + [r.value], s.enabled + [st.definition.enabled])
  }

  function ProvenanceToWire(r: Reception, enabled: bool, now: int, chosen: Reception): WireProvenance {
    var age := now - r.timestamp;
    WireProvenance(r.stationId, enabled, r.sequence, r.transmission, r.timestamp, ChannelText(r.channel), r.link.power,
                   r.rfRevision, Millis(age), StatusText(TargetStatus(age)), r.transmission == chosen.transmission)
  }

  function ProvenancesToWire(s: Sighting, now: int, chosen: Reception): (r: seq<WireProvenance>)
    requires |s.provenance| == |s.enabled|
    ensures |r| == |s.provenance|
  {
    seq(|s.provenance|, i requires 0 <= i < |s.provenance| => ProvenanceToWire(s.provenance[i], s.enabled[i], now, chosen))
  }

  predicate ProvenanceAtMost(a: WireProvenance, b: WireProvenance) {
    StringAtMost(a.stationId, b.stationId)
  }

  /** observedTarget and its conversion; None for a target that only unselected stations heard. */
  function TargetToWire(stations: seq<Site>, selected: seq<bool>, mmsi: nat, t: Target, now: int): Option<WireTarget>
    requires |stations| == |selected|
  {
    var s := SightUpTo(stations, selected, t, |stations|);
    if s.chosen.None? then None
    else
      var chosen := s.chosen.value;
      var age := now - chosen.timestamp;
      Some(WireTarget(mmsi, ToWire(chosen), Millis(age), StatusText(TargetStatus(age)),
                      Sort(ProvenancesToWire(s, now, chosen), ProvenanceAtMost)))
  }

  function TargetsToWire(e: Engine, selected: seq<bool>, mmsis: seq<nat>, now: int): seq<WireTarget>
    requires |e.state.stations| == |selected| && forall m <- mmsis :: m in e.store.targets.targets
  {
    if mmsis == [] then []
    else
      var m := mmsis[|mmsis| - 1];
      var front := TargetsToWire(e, selected, mmsis[..|mmsis| - 1], now);
      var t := TargetToWire(e.state.stations, selected, m, e.store.targets.targets[m], now);
      if t.None? then front else front + [t.value]
  }

  /** observedTarget: the loop over the stations in creation order. */
  method ObserveTarget(stations: seq<Site>, selected: seq<bool>, mmsi: nat, t: Target, now: int) returns (r: Option<WireTarget>)
    requires |stations| == |selected|
    ensures r == TargetToWire(stations, selected, mmsi, t, now)
  {
    hide IndexOf, TargetStatus, Sort, ToWire;
    var chosen: Option<Reception>, provenance: seq<Reception>, enabled: seq<bool> := None, [], [];
    for i := 0 to |stations|
      invariant |provenance| == |enabled|
      invariant Sighting(chosen, provenance, enabled) == SightUpTo(stations, selected, t, i)
    {
      var j := IndexOf(t.observations, stations[i].id);
      if j < |t.observations| && selected[i] {
        var o := t.observations[j];
        if chosen.None? || o.transmission > chosen.value.transmission {
          chosen := Some(o);
        }
        provenance := provenance + [o];
        enabled := enabled + [stations[i].definition.enabled];
      }
    }
    if chosen.None? {
      return None;
    }
    var marked: seq<WireProvenance> := [];
    for i := 0 to |provenance|
      invariant marked == ProvenancesToWire(Sighting(chosen, provenance, enabled), now, chosen.value)[..i]
    {
      marked := marked + [ProvenanceToWire(provenance[i], enabled[i], now, chosen.value)];
    }
    assert marked == ProvenancesToWire(Sighting(chosen, provenance, enabled), now, chosen.value);
    var age := now - chosen.value.timestamp;
    r := Some(WireTarget(mmsi, ToWire(chosen.value), Millis(age), StatusText(TargetStatus(age)), Sort(marked, ProvenanceAtMost)));
  }

  // ----- Recent receptions -----

  datatype Ranked = Ranked(reception: Reception, station: nat)

  predicate RankAtMost(a: Ranked, b: Ranked) {
    a.reception.timestamp < b.reception.timestamp
    || (a.reception.timestamp == b.reception.timestamp
        && (a.reception.transmission < b.reception.transmission
            || (a.reception.transmission == b.reception.transmission && a.station <= b.station)))
  }

  /** The newest RECENT_LIMIT records of one ring, oldest first. */
  function Tail(rc: Receiver, station: nat): (r: seq<Ranked>)
    ensures |r| == Min(RECENT_LIMIT, |rc.history|)
  {
    var from := |rc.history| - Min(RECENT_LIMIT, |rc.history|);
    seq(|rc.history| - from, i requires 0 <= i < |rc.history| - from => Ranked(HistoryRing.At(rc, from + i), station))
  }

  function Candidates(e: Engine, selected: seq<bool>, k: nat): seq<Ranked>
    requires k <= |e.state.stations| == |selected| && Tracks(e.store, e.state.stations)
  {
    if k == 0 then []
    else Candidates(e, selected, k - 1)
         + if selected[k - 1] then Tail(e.store.receivers[e.state.stations[k - 1].id], k - 1) else []
  }

  function Receptions(ranked: seq<Ranked>): (r: seq<Reception>)
    ensures |r| == |ranked|
  {
    seq(|ranked|, i requires 0 <= i < |ranked| => ranked[i].reception)
  }

  /** recentReceptions. */
  function RecentOfAll(e: Engine, selected: seq<bool>): seq<Reception>
    requires |e.state.stations| == |selected| && Tracks(e.store, e.state.stations)
  {
    Receptions(Newest(RECENT_LIMIT, Sort(Candidates(e, selected, |selected|), RankAtMost)))
  }

  predicate ReceptionAtMost(a: WireReception, b: WireReception) {
    !EarlierReception(b, a)
  }

  // ----- The snapshot -----

  /** Observation settings as published, in milliseconds. */
  function PublishedLimits(): Limits {
    Limits(MAX_STATIONS, TARGET_LIMIT, RECENT_LIMIT, HISTORY_LIMIT, FRESH_AGE / MILLISECOND, STALE_AGE / MILLISECOND,
           EXPIRY_AGE / MILLISECOND, RATE_WINDOW / MILLISECOND, [0.9, 0.5], 0.01, 100.0, 0.01)
  }

  predicate WireStationAtMost(a: WireStation, b: WireStation) {
    StringAtMost(a.id, b.id)
  }

  ghost predicate IsLeast(keys: set<nat>, m: nat) {
    m in keys && forall k <- keys :: m <= k
  }

  lemma {:induction false} LeastExists(keys: set<nat>)
    requires keys != {}
    ensures exists m: nat :: IsLeast(keys, m)
  {
    var k :| k in keys;
    if keys == {k} {
      assert IsLeast(keys, k);
    } else {
      LeastExists(keys - {k});
      var m: nat :| IsLeast(keys - {k}, m);
      LeastOfBoth(keys, k, m);
    }
  }

  lemma LeastOfBoth(keys: set<nat>, k: nat, m: nat)
    requires k in keys && IsLeast(keys - {k}, m)
    ensures IsLeast(keys, if m < k then m else k)
  {
    forall x | x in keys
      ensures (if m < k then m else k) <= x
    {
      assert x == k || x in keys - {k};
    }
  }

  /** slices.Sorted over the keys of the target map. */
  ghost function Ascending(keys: set<nat>): seq<nat> {
    if keys == {} then []
    else
      LeastExists(keys);
      var m: nat :| IsLeast(keys, m);
      [m] + Ascending(keys - {m})
  }

  ghost predicate Increasing(s: seq<nat>) {
    forall i, j :: 0 <= i < j < |s| ==> s[i] < s[j]
  }

  lemma Prepended(m: nat, s: seq<nat>)
    requires Increasing(s) && forall x <- s :: m < x
    ensures Increasing([m] + s)
  {
    var more := [m] + s;
    forall i, j | 0 <= i < j < |more|
      ensures more[i] < more[j]
    {
      assert more[j] == s[j - 1] && s[j - 1] in s;
      assert i == 0 || more[i] == s[i - 1];
    }
  }

  lemma {:induction false} AscendingIs(keys: set<nat>)
    ensures forall m :: m in Ascending(keys) <==> m in keys
    ensures Increasing(Ascending(keys)) && |Ascending(keys)| == |keys|
  {
    if keys != {} {
      LeastExists(keys);
      var s := Ascending(keys);
      var m := s[0];
      assert IsLeast(keys, m) && s == [m] + Ascending(keys - {m});
      AscendingIs(keys - {m});
      Prepended(m, Ascending(keys - {m}));
    }
  }

  /** Observations of a selection and observationsResponse. */
  ghost function Served(w: World, e: Engine, selected: seq<bool>): WireSnapshot
    requires |e.state.stations| == |selected| && Tracks(e.store, e.state.stations)
  {
    AscendingIs(e.store.targets.targets.Keys);
    var s, now := e.state, w.start + e.state.elapsed;
    var mmsis := Ascending(e.store.targets.targets.Keys);
    var targets := TargetsToWire(e, selected, mmsis, now);
    WireSnapshot(PublishedLimits(), w.start,
                 Clock(now, Millis(s.elapsed), s.speed as real / SPEED_SCALE as real, s.speed == 0), now, s.revision,
                 s.stationRevision, SortIds(SelectedIds(s.stations, selected)),
                 Sort(StationsToWire(e, mmsis, s.stations, now), WireStationAtMost), targets,
                 CountTargets(targets, false), CountTargets(targets, true),
                 Sort(AllToWire(RecentOfAll(e, selected)), ReceptionAtMost), true, s.sequence,
                 e.store.receivedTransmissions, e.store.receptions, e.store.targets.evictions)
  }

  // ----- History pages -----

  datatype PageReply = Page(page: WirePage) | PageError(error: Error)

  /** The retained records end at the latest sequence and count up to it. */
  predicate RingCounts(rc: Receiver) {
    rc.history != [] ==> HistoryRing.At(rc, 0).sequence > 0 && rc.stats.last == HistoryRing.At(rc, 0).sequence + |rc.history| - 1
  }

  predicate RingsCount(e: Engine) {
    forall id <- e.store.receivers :: RingCounts(e.store.receivers[id])
  }

  function OldestOf(rc: Receiver): Option<nat> {
    if rc.history == [] then None else Some(HistoryRing.At(rc, 0).sequence)
  }

  /** Whether retained records follow the cursor. */
  predicate Behind(rc: Receiver, after: Option<nat>) {
    after.Some? && rc.history != [] && after.value < rc.stats.last
  }

  /** The index of the first record of a page. */
  function PageFrom(rc: Receiver, after: Option<nat>, limit: int): (from: nat)
    requires RingCounts(rc) && limit > 0
    ensures from <= |rc.history|
  {
    if after.None? then Max(|rc.history| - limit, 0)
    else if Behind(rc, after) then Max(after.value + 1, OldestOf(rc).value) - OldestOf(rc).value
    else |rc.history|
  }

  function PageOf(w: World, id: string, rc: Receiver, after: Option<nat>, limit: int): WirePage
    requires RingCounts(rc) && limit > 0
  {
    var oldest, from := OldestOf(rc), PageFrom(rc, after, limit);
    var to := Min(from + limit, |rc.history|);
    WirePage(w.id, id, after.None?, oldest, if oldest.Some? then Some(rc.stats.last) else None,
             if oldest.Some? && oldest.value > 1 then oldest else None,
             seq(to - from, i requires 0 <= i < to - from => ToWire(HistoryRing.At(rc, from + i))),
             if to > from then HistoryRing.At(rc, to - 1).sequence else if after.Some? then after.value else 0,
             to < |rc.history|, Behind(rc, after) && after.value < oldest.value - 1)
  }

  /** ReceptionHistory and receptionPageResponse. */
  function HistoryPage(w: World, e: Engine, id: string, after: Option<nat>, limit: int): PageReply
    requires Tracks(e.store, e.state.stations) && RingsCount(e)
  {
    if limit < 1 || limit > HISTORY_LIMIT then PageError(Invalid)
    else if FindStation(e.state.stations, id) == |e.state.stations| then PageError(NotFound)
    else if after.Some? && after.value > ReceiverOf(e, id).stats.last then PageError(Invalid)
    else Page(PageOf(w, id, ReceiverOf(e, id), after, limit))
  }

  function ReceiverOf(e: Engine, id: string): Receiver
    requires Tracks(e.store, e.state.stations) && FindStation(e.state.stations, id) < |e.state.stations|
  {
    assert e.state.stations[FindStation(e.state.stations, id)] in e.state.stations;
    e.store.receivers[id]
  }

  /** The page of one station: cursor, gap and bounds step by step. */
  method StationPage(w: World, id: string, rc: Receiver, after: Option<nat>, limit: int) returns (page: WirePage)
    requires RingCounts(rc) && limit > 0 && (after.Some? ==> after.value <= rc.stats.last)
    ensures page == PageOf(w, id, rc, after, limit)
  {
    hide HistoryRing.At;
    var latest, retained: nat := rc.stats.last, |rc.history|;
    var next, gap, from: nat := 0, false, Max(retained - limit, 0);
    if after.Some? {
      next := after.value;
      from := retained;
      if retained > 0 && after.value < latest {
        var oldest := HistoryRing.At(rc, 0).sequence;
        gap := after.value < oldest - 1;
        from := Max(after.value + 1, oldest) - oldest;
      }
    }
    var oldest: Option<nat>, truncated: Option<nat> := None, None;
    if retained > 0 {
      oldest := Some(HistoryRing.At(rc, 0).sequence);
      truncated := if oldest.value > 1 then oldest else None;
    }
    var to := Min(from + limit, retained);
    var records: seq<WireReception> := [];
    for i := from to to
      invariant |records| == i - from
      invariant forall k :: 0 <= k < i - from ==> records[k] == ToWire(HistoryRing.At(rc, from + k))
    {
      records := records + [ToWire(HistoryRing.At(rc, i))];
    }
    if to > from {
      next := records[|records| - 1].sequence;
    }
    page := WirePage(w.id, id, after.None?, oldest, if retained > 0 then Some(latest) else None, truncated, records, next,
                     to < retained, gap);
    assert records == PageOf(w, id, rc, after, limit).receptions;
  }

  method ReceptionHistory(w: World, e: Engine, id: string, after: Option<nat>, limit: int) returns (r: PageReply)
    requires Tracks(e.store, e.state.stations) && RingsCount(e)
    ensures r == HistoryPage(w, e, id, after, limit)
  {
    hide PageOf, RingCounts;
    if limit < 1 || limit > HISTORY_LIMIT {
      return PageError(Invalid);
    }
    if FindStation(e.state.stations, id) == |e.state.stations| {
      return PageError(NotFound);
    }
    var rc := ReceiverOf(e, id);
    if after.Some? && after.value > rc.stats.last {
      return PageError(Invalid);
    }
    var page := StationPage(w, id, rc, after, limit);
    r := Page(page);
  }
}
