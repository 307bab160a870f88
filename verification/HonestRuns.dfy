/** The display never rejects an honest engine: the theorem for snapshots and for history pages, over whole runs
    (display/project.go, simulation/observation.go). */
module HonestRuns {
  import opened Basics
  import opened Model
  import opened Sorting
  import opened Worlds
  import opened Engine
  import opened Emission
  import opened HistoryRing
  import opened Receiving
  import opened Targets
  import opened Listening
  import opened Runs
  import opened Reachable
  import opened Versions
  import opened Wire
  import opened Agreement
  import opened Projections
  import opened Snapshots
  import opened HonestStations
  import opened HonestTargets
  import opened HonestSnapshots

  // ----- Recent receptions -----

  lemma RankOrder()
    ensures TotalOrder(RankAtMost)
  {
  }

  lemma ReceptionOrder()
    ensures TotalOrder(ReceptionAtMost)
  {
    hide StringLess;
    forall a, b
      ensures ReceptionAtMost(a, b) || ReceptionAtMost(b, a)
    {
      StringsCompare(a.stationId, b.stationId);
    }
    forall a, b, c | ReceptionAtMost(a, b) && ReceptionAtMost(b, c)
      ensures ReceptionAtMost(a, c)
    {
      ReceptionsChain(a, b, c);
    }
  }

  lemma ReceptionsChain(a: WireReception, b: WireReception, c: WireReception)
    requires ReceptionAtMost(a, b) && ReceptionAtMost(b, c)
    ensures ReceptionAtMost(a, c)
  {
    hide StringLess;
    if !StringLess(b.stationId, a.stationId) && !StringLess(c.stationId, b.stationId) {
      StringsChain(a.stationId, b.stationId, c.stationId);
    }
  }

  /** A candidate is the record its selected station logged. */
  ghost predicate CandidateOk(e: Engine, tr: Trace, selected: seq<bool>, k: nat, x: Ranked)
    requires k <= |selected| == |e.state.stations|
  {
    && x.station < k && selected[x.station] && x.reception.stationId == e.state.stations[x.station].id
    && Logged(tr.witnesses, x.reception)
  }

  function RankKey(x: Ranked): (nat, nat) {
    (x.station, x.reception.sequence)
  }

  ghost predicate CandidatesOk(e: Engine, tr: Trace, selected: seq<bool>, k: nat, cs: seq<Ranked>)
    requires k <= |selected| == |e.state.stations|
  {
    && (forall x <- cs :: CandidateOk(e, tr, selected, k, x))
    && (forall i, j :: 0 <= i < j < |cs| ==> RankKey(cs[i]) != RankKey(cs[j]))
  }

  lemma StationListens(w: World, e: Engine, tr: Trace, k: nat)
    requires Inv(w, e, tr) && k < |e.state.stations|
    ensures var st := e.state.stations[k];
            && st.id in e.store.receivers && st.id in tr.witnesses
            && Listens(w, tr.sent, |tr.sent|, st, e.store.receivers[st.id], tr.witnesses[st.id])
  {
    hide SentOk, FleetOk, TargetsOk, Young, TargetsLogged, HeardOk, SiteOk, Allocated, Listens;
    assert e.state.stations[k].id in Ids(e.state.stations);
  }

  /** Record i of a ring, as its station logged it. */
  lemma RingRecord(w: World, e: Engine, tr: Trace, k: nat, i: nat)
    requires Inv(w, e, tr) && k < |e.state.stations|
    ensures e.state.stations[k].id in e.store.receivers
    ensures var rc := e.store.receivers[e.state.stations[k].id];
            i < |rc.history| ==>
              && Logged(tr.witnesses, HistoryRing.At(rc, i)) && HistoryRing.At(rc, i).stationId == e.state.stations[k].id
              && rc.stats.last >= |rc.history| && HistoryRing.At(rc, i).sequence == rc.stats.last - |rc.history| + i + 1
  {
    hide Inv, Genuine, RateWindow.BucketsOk, HistoryRing.At, Retains;
    StationListens(w, e, tr, k);
    var st := e.state.stations[k];
    var rc, wit := e.store.receivers[st.id], tr.witnesses[st.id];
    RetainedSequences(rc, wit.log);
    if i < |rc.history| {
      var r := HistoryRing.At(rc, i);
      assert r == wit.log[|wit.log| - |rc.history| + i] && r in wit.log;
      assert FromSite(st, r);
    }
  }

  lemma CountedKeys(cs: seq<Ranked>, k: nat, base: int)
    requires forall i :: 0 <= i < |cs| ==> cs[i].station == k && cs[i].reception.sequence == base + i
    ensures forall i, j :: 0 <= i < j < |cs| ==> RankKey(cs[i]) != RankKey(cs[j])
  {
  }

  lemma TailOk(w: World, e: Engine, tr: Trace, selected: seq<bool>, k: nat)
    requires Inv(w, e, tr) && |selected| == |e.state.stations| && k < |selected| && selected[k]
    ensures e.state.stations[k].id in e.store.receivers
    ensures CandidatesOk(e, tr, selected, k + 1, Tail(e.store.receivers[e.state.stations[k].id], k))
    ensures forall x <- Tail(e.store.receivers[e.state.stations[k].id], k) :: x.station == k
  {
    hide Inv, Logged, RankKey, HistoryRing.At;
    RingRecord(w, e, tr, k, 0);
    var rc := e.store.receivers[e.state.stations[k].id];
    var tail := Tail(rc, k);
    var from := |rc.history| - |tail|;
    forall i | 0 <= i < |tail|
      ensures CandidateOk(e, tr, selected, k + 1, tail[i]) && tail[i].station == k
      ensures tail[i].reception.sequence == rc.stats.last - |tail| + 1 + i
    {
      RingRecord(w, e, tr, k, from + i);
    }
    CountedKeys(tail, k, rc.stats.last - |tail| + 1);
  }

  lemma JoinCandidates(e: Engine, tr: Trace, selected: seq<bool>, k: nat, a: seq<Ranked>, b: seq<Ranked>)
    requires k < |selected| == |e.state.stations| && CandidatesOk(e, tr, selected, k, a)
    requires CandidatesOk(e, tr, selected, k + 1, b) && forall x <- b :: x.station == k
    ensures CandidatesOk(e, tr, selected, k + 1, a + b)
  {
    var cs := a + b;
    forall i, j | 0 <= i < j < |cs|
      ensures RankKey(cs[i]) != RankKey(cs[j])
    {
      if i < |a| <= j {
        assert CandidateOk(e, tr, selected, k, cs[i]) && cs[j] in b;
      } else if |a| <= i {
        assert RankKey(b[i - |a|]) != RankKey(b[j - |a|]);
      }
    }
  }

  lemma {:induction false} CandidatesAreOk(w: World, e: Engine, tr: Trace, selected: seq<bool>, k: nat)
    requires Inv(w, e, tr) && k <= |selected| == |e.state.stations|
    ensures Tracks(e.store, e.state.stations)
    ensures CandidatesOk(e, tr, selected, k, Candidates(e, selected, k))
  {
    hide Inv, Tail, CandidatesOk, Logged;
    InvReady(w, e, tr);
    if k == 0 {
      NoCandidates(e, tr, selected);
    } else {
      CandidatesAreOk(w, e, tr, selected, k - 1);
      if selected[k - 1] {
        TailOk(w, e, tr, selected, k - 1);
        JoinCandidates(e, tr, selected, k - 1, Candidates(e, selected, k - 1), Tail(e.store.receivers[e.state.stations[k - 1].id], k - 1));
      } else {
        MoreStations(e, tr, selected, k - 1, Candidates(e, selected, k - 1));
        assert Candidates(e, selected, k - 1) + [] == Candidates(e, selected, k - 1);
      }
    }
  }

  lemma NoCandidates(e: Engine, tr: Trace, selected: seq<bool>)
    requires |selected| == |e.state.stations|
    ensures CandidatesOk(e, tr, selected, 0, [])
  {
  }

  lemma MoreStations(e: Engine, tr: Trace, selected: seq<bool>, k: nat, cs: seq<Ranked>)
    requires k < |selected| == |e.state.stations| && CandidatesOk(e, tr, selected, k, cs)
    ensures CandidatesOk(e, tr, selected, k + 1, cs)
  {
    forall x | x in cs
      ensures CandidateOk(e, tr, selected, k + 1, x)
    {
      assert CandidateOk(e, tr, selected, k, x);
    }
  }

  lemma NewestOk(e: Engine, tr: Trace, selected: seq<bool>, k: nat, cs: seq<Ranked>)
    requires k <= |selected| == |e.state.stations| && CandidatesOk(e, tr, selected, k, cs)
    ensures CandidatesOk(e, tr, selected, k, Newest(RECENT_LIMIT, Sort(cs, RankAtMost)))
  {
    hide Sort, RankAtMost, CandidateOk;
    RankOrder();
    SortCorrect(cs, RankAtMost);
    SortKeepsDistinct(cs, RankAtMost, RankKey);
  }

  function ReceptionKey(r: WireReception): (string, nat) {
    (r.stationId, r.sequence)
  }

  /** Different keys by station index are different keys by station ID. */
  lemma KeysById(e: Engine, tr: Trace, selected: seq<bool>, k: nat, cs: seq<Ranked>)
    requires k <= |selected| == |e.state.stations| && CandidatesOk(e, tr, selected, k, cs) && DistinctIds(e.state.stations)
    ensures var rs := AllToWire(Receptions(cs));
            forall i, j :: 0 <= i < j < |rs| ==> ReceptionKey(rs[i]) != ReceptionKey(rs[j])
  {
    var rs := AllToWire(Receptions(cs));
    forall i, j | 0 <= i < j < |rs|
      ensures ReceptionKey(rs[i]) != ReceptionKey(rs[j])
    {
      assert RankKey(cs[i]) != RankKey(cs[j]);
      assert cs[i] in cs && cs[j] in cs;
      var a, b := cs[i].station, cs[j].station;
      assert CandidateOk(e, tr, selected, k, cs[i]) && CandidateOk(e, tr, selected, k, cs[j]);
      assert a < b || b < a || a == b;
    }
  }

  /** What each recent reception of the snapshot is. */
  lemma RecentsAre(w: World, e: Engine, tr: Trace, selected: seq<bool>)
    requires Inv(w, e, tr) && |selected| == |e.state.stations|
    ensures Tracks(e.store, e.state.stations)
    ensures var recent := Sort(AllToWire(RecentOfAll(e, selected)), ReceptionAtMost);
            && |recent| <= RECENT_LIMIT
            && (forall x <- recent :: exists c :: CandidateOk(e, tr, selected, |selected|, c) && x == ToWire(c.reception))
            && (forall i, j :: 0 <= i < j < |recent| ==> (recent[i].stationId, recent[i].sequence) != (recent[j].stationId, recent[j].sequence))
            && (forall i :: 1 <= i < |recent| ==> !EarlierReception(recent[i], recent[i - 1]))
  {
    hide Inv, Sort, Candidates, CandidateOk, ToWire, EarlierReception;
    InvTargets(w, e, tr);
    CandidatesAreOk(w, e, tr, selected, |selected|);
    var cs := Newest(RECENT_LIMIT, Sort(Candidates(e, selected, |selected|), RankAtMost));
    NewestOk(e, tr, selected, |selected|, Candidates(e, selected, |selected|));
    var rs := AllToWire(Receptions(cs));
    KeysById(e, tr, selected, |selected|, cs);
    ReceptionOrder();
    SortCorrect(rs, ReceptionAtMost);
    SortKeepsDistinct(rs, ReceptionAtMost, ReceptionKey);
    var recent := Sort(rs, ReceptionAtMost);
    forall i, j | 0 <= i < j < |recent|
      ensures (recent[i].stationId, recent[i].sequence) != (recent[j].stationId, recent[j].sequence)
    {
      assert ReceptionKey(recent[i]) != ReceptionKey(recent[j]);
    }
    forall x | x in recent
      ensures exists c :: CandidateOk(e, tr, selected, |selected|, c) && x == ToWire(c.reception)
    {
      assert x in rs;
      var i :| 0 <= i < |rs| && rs[i] == x;
      assert cs[i] in cs;
      assert CandidateOk(e, tr, selected, |selected|, cs[i]) && x == ToWire(cs[i].reception);
    }
    forall i | 1 <= i < |recent|
      ensures !EarlierReception(recent[i], recent[i - 1])
    {
      assert ReceptionAtMost(recent[i - 1], recent[i]);
    }
  }

  lemma RecentsHonest(w: World, e: Engine, tr: Trace, selected: seq<bool>)
    requires WorldSound(w) && Inv(w, e, tr) && |selected| == |e.state.stations|
    ensures Tracks(e.store, e.state.stations)
    ensures var o := Served(w, e, selected);
            RecentsAccepted(ContextOf(o), w.decode, o.recent) && |o.recent| <= RECENT_LIMIT
  {
    hide Inv, WorldSound, Served, Sort, Ascending, ReceptionAccepted, Shown, ContextOf, ToWire, RecentOfAll, AllToWire,
         EarlierReception, Logged;
    InvTargets(w, e, tr);
    MmsisAre(e);
    SnapshotParts(w, e, selected);
    ContextShows(w, e, tr, selected);
    RecentsAre(w, e, tr, selected);
    var mmsis, o := Ascending(e.store.targets.targets.Keys), Served(w, e, selected);
    forall x | x in o.recent
      ensures ReceptionAccepted(Some(ContextOf(o)), w.decode, x)
    {
      var c :| CandidateOk(e, tr, selected, |selected|, c) && x == ToWire(c.reception);
      ReceptionHonest(w, e, tr, mmsis, selected, ContextOf(o), c.station, c.reception);
    }
  }

  // ----- One explanation of all references -----

  /** What the run itself assigns to every transmission and reception. */
  function Truth(tr: Trace): Assignment {
    Assignment((id, sequence) =>
                 if id in tr.witnesses && 1 <= sequence <= |tr.witnesses[id].log|
                 then tr.witnesses[id].log[sequence - 1].transmission else 0,
               k =>
                 if 1 <= k <= |tr.sent|
                 then Known(tr.sent[k - 1].message.mmsi, ChannelText(tr.sent[k - 1].channel),
                            tr.sent[k - 1].message.timestamp, tr.sent[k - 1].message.sentence)
                 else Known(0, "", 0, ""))
  }

  lemma TrueReception(tr: Trace, r: Reception)
    requires Logged(tr.witnesses, r) && Genuine(tr.sent, r)
    ensures Explains(Truth(tr), ReceptionRefs(ToWire(r)))
  {
  }

  lemma TrueProvenance(tr: Trace, r: Reception, enabled: bool, now: int, chosen: Reception)
    requires Logged(tr.witnesses, r) && Genuine(tr.sent, r)
    ensures Explains(Truth(tr), ProvenanceRefs(r.mmsi, ProvenanceToWire(r, enabled, now, chosen)))
  {
    hide TargetStatus, StatusText;
  }

  lemma {:induction false} ReceptionsExplained(a: Assignment, rs: seq<WireReception>)
    requires forall r <- rs :: Explains(a, ReceptionRefs(r))
    ensures Explains(a, ReceptionsRefs(rs))
  {
    hide ReceptionRefs, ExplainsOne;
    if rs != [] {
      ReceptionsExplained(a, rs[..|rs| - 1]);
      assert rs[|rs| - 1] in rs;
    }
  }

  lemma {:induction false} StationsExplained(a: Assignment, mmsi: nat, ps: seq<WireProvenance>)
    requires forall p <- ps :: Explains(a, ProvenanceRefs(mmsi, p))
    ensures Explains(a, StationsRefs(mmsi, ps))
  {
    hide ProvenanceRefs, ExplainsOne;
    if ps != [] {
      StationsExplained(a, mmsi, ps[..|ps| - 1]);
      assert ps[|ps| - 1] in ps;
    }
  }

  lemma {:induction false} TargetsExplained(a: Assignment, ts: seq<WireTarget>)
    requires forall t <- ts :: Explains(a, TargetRefs(t))
    ensures Explains(a, TargetsRefs(ts))
  {
    hide TargetRefs, ExplainsOne;
    if ts != [] {
      TargetsExplained(a, ts[..|ts| - 1]);
      assert ts[|ts| - 1] in ts;
    }
  }

  /** A stored observation is a genuine logged reception. */
  lemma ObservationTrue(w: World, e: Engine, tr: Trace, m: nat, r: Reception)
    requires Inv(w, e, tr) && m in e.store.targets.targets && r in e.store.targets.targets[m].observations
    ensures Logged(tr.witnesses, r) && Genuine(tr.sent, r) && r.mmsi == m
  {
    hide Inv, Genuine;
    ObservationFacts(w, e, tr, m, r);
    LoggedIsGenuine(w, e, tr, r);
  }

  lemma LoggedIsGenuine(w: World, e: Engine, tr: Trace, r: Reception)
    requires Inv(w, e, tr) && Logged(tr.witnesses, r)
    ensures Genuine(tr.sent, r)
  {
    hide SentOk, FleetOk, SitesOk, TargetsOk, Young, TargetsLogged, HeardOk, Genuine, Listens;
    MemberIsLogged(w, e.state.stations, e.store.receivers, tr, r.stationId, r);
  }

  lemma TargetTrue(w: World, e: Engine, tr: Trace, selected: seq<bool>, m: nat, now: int)
    requires Inv(w, e, tr) && |selected| == |e.state.stations| && m in e.store.targets.targets
    requires TargetToWire(e.state.stations, selected, m, e.store.targets.targets[m], now).Some?
    ensures Explains(Truth(tr), TargetRefs(TargetToWire(e.state.stations, selected, m, e.store.targets.targets[m], now).value))
  {
    hide Inv, SightUpTo, ObservationAt, Sort, TargetStatus, StatusText, SeenBy, ProvenanceToWire, ToWire, ReceptionRefs,
         ProvenanceRefs, StationsRefs, ExplainsOne, Truth, Genuine, Logged;
    var t := e.store.targets.targets[m];
    var s := SightUpTo(e.state.stations, selected, t, |e.state.stations|);
    InvDistinctIds(w, e, tr);
    SightingIsOk(e.state.stations, selected, t, |e.state.stations|);
    var chosen := s.chosen.value;
    var wire := TargetToWire(e.state.stations, selected, m, t, now).value;
    var all := ProvenancesToWire(s, now, chosen);
    assert wire.stations == Sort(all, ProvenanceAtMost);
    ProvenancesDistinct(s, now, chosen);
    forall p | p in wire.stations
      ensures Explains(Truth(tr), ProvenanceRefs(m, p))
    {
      assert p in all;
      var i :| 0 <= i < |all| && all[i] == p;
      SeenIsObserved(e.state.stations, selected, t, s.provenance[i], s.enabled[i]);
      ObservationTrue(w, e, tr, m, s.provenance[i]);
      TrueProvenance(tr, s.provenance[i], s.enabled[i], now, chosen);
    }
    StationsExplained(Truth(tr), m, wire.stations);
    var k :| 0 <= k < |s.provenance| && s.provenance[k] == chosen;
    SeenIsObserved(e.state.stations, selected, t, chosen, s.enabled[k]);
    ObservationTrue(w, e, tr, m, chosen);
    TrueReception(tr, chosen);
  }

  lemma SeenIsObserved(stations: seq<Site>, selected: seq<bool>, t: Target, r: Reception, enabled: bool)
    requires |stations| == |selected| && SeenBy(stations, selected, t, |stations|, r, enabled)
    ensures r in t.observations
  {
    hide ObservationAt;
    var j: nat :| 0 <= j < |stations| && selected[j] && ObservationAt(t, stations[j].id) == Some(r)
           && enabled == stations[j].definition.enabled;
    ObservationAtIs(t, stations[j].id);
  }

  lemma ReferencesExplained(w: World, e: Engine, tr: Trace, selected: seq<bool>)
    requires WorldSound(w) && Inv(w, e, tr) && |selected| == |e.state.stations|
    ensures Tracks(e.store, e.state.stations)
    ensures var o := Served(w, e, selected);
            Explained(TargetsRefs(o.targets) + ReceptionsRefs(o.recent))
  {
    hide Inv, WorldSound, Served, Sort, Ascending, TargetsToWire, TargetToWire, ToWire, RecentOfAll, AllToWire, ExplainsOne, Truth,
         TargetRefs, ReceptionRefs, TargetsRefs, ReceptionsRefs, Logged, Genuine;
    InvTargets(w, e, tr);
    MmsisAre(e);
    SnapshotParts(w, e, selected);
    RecentsAre(w, e, tr, selected);
    var mmsis, o, now := Ascending(e.store.targets.targets.Keys), Served(w, e, selected), Now(w, e.state);
    ServedTargets(e, selected, mmsis, now);
    forall t | t in o.targets
      ensures Explains(Truth(tr), TargetRefs(t))
    {
      TargetTrue(w, e, tr, selected, t.mmsi, now);
    }
    TargetsExplained(Truth(tr), o.targets);
    forall x | x in o.recent
      ensures Explains(Truth(tr), ReceptionRefs(x))
    {
      var c :| CandidateOk(e, tr, selected, |selected|, c) && x == ToWire(c.reception);
      LoggedIsGenuine(w, e, tr, c.reception);
      TrueReception(tr, c.reception);
    }
    ReceptionsExplained(Truth(tr), o.recent);
    assert Explains(Truth(tr), TargetsRefs(o.targets) + ReceptionsRefs(o.recent));
  }

  // ----- Snapshots -----

  /** Hundredths are whole steps. */
  lemma SpeedOnStep(h: int, speed: real, step: real)
    requires 0 <= h <= MAX_SPEED && speed * 100.0 == h as real && step == 0.01
    ensures speed / step == h as real && Round(speed / step) == h
    ensures (speed == 0.0 <==> h == 0) && (h != 0 ==> 0.01 <= speed <= 100.0)
  {
    var q := speed / step;
    assert q * step == speed;
    assert q * 0.01 == speed;
  }

  lemma ClockHonest(start: int, elapsed: int, speed: int)
    requires 0 <= elapsed && 0 <= speed <= MAX_SPEED
    ensures ClockAccepted(Clock(start + elapsed, Millis(elapsed), speed as real / SPEED_SCALE as real, speed == 0), start,
                          PublishedLimits())
  {
    hide Round, Millis;
    var x, limits := speed as real / SPEED_SCALE as real, PublishedLimits();
    SpeedOnStep(speed, x, limits.speedStep);
    MillisOf(elapsed);
  }

  lemma HeaderHonest(w: World, e: Engine, tr: Trace, selected: seq<bool>)
    requires Inv(w, e, tr) && |selected| == |e.state.stations| && 1 <= e.state.revision
    requires Tracks(e.store, e.state.stations)
    requires |Served(w, e, selected).stations| <= MAX_STATIONS
    requires |Served(w, e, selected).targets| <= TARGET_LIMIT && |Served(w, e, selected).recent| <= RECENT_LIMIT
    ensures HeaderAccepted(Served(w, e, selected))
  {
    hide Inv, Served, ClockAccepted, Millis, Sort, TargetsToWire, StationsToWire, CountTargets, RecentOfAll, SelectedIds, Ascending;
    InvTargets(w, e, tr);
    InvClockOf(w, e, tr);
    SnapshotParts(w, e, selected);
    ClockHonest(w.start, e.state.elapsed, e.state.speed);
  }

  /** In every state that keeps the invariant, for every valid selection, the served snapshot is accepted. */
  lemma SnapshotNeverRejected(w: World, e: Engine, tr: Trace, requested: Option<seq<string>>)
    requires WorldSound(w) && Inv(w, e, tr) && 1 <= e.state.revision && ValidSelection(e.state.stations, requested)
    ensures Tracks(e.store, e.state.stations) && Selects(e.state.stations, Requested(requested)).Some?
    ensures SnapshotAccepted(w.decode, requested, Served(w, e, Selects(e.state.stations, Requested(requested)).value))
  {
    hide Inv, WorldSound, Served, Selects, HeaderAccepted, StationsAccepted, SelectionAccepted, TargetsAccepted, RecentsAccepted,
         Explained, ContextOf, TargetsRefs, ReceptionsRefs, ValidSelection;
    InvTargets(w, e, tr);
    ValidSelects(e.state.stations, requested);
    var selected := Selects(e.state.stations, Requested(requested)).value;
    StationsHonest(w, e, tr, selected);
    TargetsHonest(w, e, tr, selected);
    RecentsHonest(w, e, tr, selected);
    HeaderHonest(w, e, tr, selected);
    SelectionHonest(w, e, tr, requested, selected);
    ReferencesExplained(w, e, tr, selected);
  }

  // ----- Pages -----

  lemma RingsCountInv(w: World, e: Engine, tr: Trace)
    requires Inv(w, e, tr)
    ensures Tracks(e.store, e.state.stations) && RingsCount(e)
  {
    hide Inv, HistoryRing.At, Logged;
    InvReady(w, e, tr);
    InvKeys(w, e, tr);
    forall id | id in e.store.receivers
      ensures RingCounts(e.store.receivers[id])
    {
      assert id in Ids(e.state.stations);
      var k :| 0 <= k < |e.state.stations| && e.state.stations[k].id == id;
      RingRecord(w, e, tr, k, 0);
    }
  }

  /** Neighbouring records of a ring follow each other. */
  lemma RingFollows(w: World, e: Engine, tr: Trace, k: nat, i: nat)
    requires WorldSound(w) && Inv(w, e, tr) && k < |e.state.stations|
    ensures e.state.stations[k].id in e.store.receivers
    ensures var rc := e.store.receivers[e.state.stations[k].id];
            i + 1 < |rc.history| ==> Follows(ToWire(HistoryRing.At(rc, i)), ToWire(HistoryRing.At(rc, i + 1)))
  {
    hide Inv, Genuine, RateWindow.BucketsOk, HistoryRing.At, Retains, WorldSound, SentOk;
    StationListens(w, e, tr, k);
    InvSent(w, e, tr);
    var st := e.state.stations[k];
    var rc, wit := e.store.receivers[st.id], tr.witnesses[st.id];
    RetainedSequences(rc, wit.log);
    if i + 1 < |rc.history| {
      var x, y := HistoryRing.At(rc, i), HistoryRing.At(rc, i + 1);
      assert x == wit.log[|wit.log| - |rc.history| + i] && y == wit.log[|wit.log| - |rc.history| + i + 1];
      assert x in wit.log && y in wit.log;
      KeysFollowEmission(w, tr.sent, x, y);
    }
  }

  lemma PageRecordHonest(w: World, e: Engine, tr: Trace, k: nat, i: nat)
    requires WorldSound(w) && Inv(w, e, tr) && k < |e.state.stations|
    ensures e.state.stations[k].id in e.store.receivers
    ensures var rc := e.store.receivers[e.state.stations[k].id];
            i < |rc.history| ==>
              var r := ToWire(HistoryRing.At(rc, i));
              && ReceptionAccepted(None, w.decode, r) && r.stationId == e.state.stations[k].id
              && Explains(Truth(tr), ReceptionRefs(r))
  {
    hide Inv, WorldSound, HistoryRing.At, Logged, PayloadAccepted, ReceiverAccepted, SentOk, Truth;
    RingRecord(w, e, tr, k, i);
    var rc := e.store.receivers[e.state.stations[k].id];
    if i < |rc.history| {
      var r := HistoryRing.At(rc, i);
      LoggedFacts(w, e, tr, k, r);
      InvSent(w, e, tr);
      InvId(w, e, tr, k);
      GenuineFacts(w, tr.sent, r);
      SnapshotAcceptedAsReceiver(r.receiver);
      TrueReception(tr, r);
    }
  }

  /** A ring whose records count up to its latest sequence. */
  ghost predicate Counted(rc: Receiver) {
    && RingCounts(rc) && (rc.history == [] ==> rc.stats.last == 0)
    && forall i :: 0 <= i < |rc.history| ==> HistoryRing.At(rc, i).sequence == rc.stats.last - |rc.history| + i + 1
  }

  lemma CountedRange(w: World, id: string, rc: Receiver, req: HistoryRequest, i: nat)
    requires Counted(rc) && PageLimit(req) > 0
    ensures var page := PageOf(w, id, rc, req.after, PageLimit(req));
            i < |page.receptions| ==> page.oldest.Some? && page.latest.Some?
                                      && page.oldest.value <= page.receptions[i].sequence <= page.latest.value
  {
    hide HistoryRing.At;
    var page, from := PageOf(w, id, rc, req.after, PageLimit(req)), PageFrom(rc, req.after, PageLimit(req));
    if i < |page.receptions| {
      assert page.receptions[i] == ToWire(HistoryRing.At(rc, from + i));
      assert page.oldest == Some(HistoryRing.At(rc, 0).sequence);
    }
  }

  lemma CountedHeader(w: World, id: string, rc: Receiver, req: HistoryRequest)
    requires Counted(rc) && req.simulationId == w.id && PageLimit(req) > 0 && (req.after.Some? ==> req.after.value <= rc.stats.last)
    ensures var page := PageOf(w, id, rc, req.after, PageLimit(req));
            && PageHeaderAccepted(id, req, page)
            && forall i :: 0 <= i < |page.receptions| ==> page.oldest.value <= page.receptions[i].sequence <= page.latest.value
  {
    hide HistoryRing.At;
    var page := PageOf(w, id, rc, req.after, PageLimit(req));
    forall i | 0 <= i < |page.receptions|
      ensures page.oldest.value <= page.receptions[i].sequence <= page.latest.value
    {
      CountedRange(w, id, rc, req, i);
    }
  }

  lemma CountedCursor(w: World, id: string, rc: Receiver, req: HistoryRequest)
    requires Counted(rc) && PageLimit(req) > 0 && (req.after.Some? ==> req.after.value <= rc.stats.last)
    ensures PageCursorAccepted(req, PageOf(w, id, rc, req.after, PageLimit(req)))
  {
    hide HistoryRing.At;
    var page, from := PageOf(w, id, rc, req.after, PageLimit(req)), PageFrom(rc, req.after, PageLimit(req));
    var n := |page.receptions|;
    if n > 0 {
      forall i | 0 <= i < n
        ensures page.receptions[i].sequence == rc.stats.last - |rc.history| + from + i + 1
      {
        assert page.receptions[i] == ToWire(HistoryRing.At(rc, from + i));
      }
      assert page.oldest.value == HistoryRing.At(rc, 0).sequence == rc.stats.last - |rc.history| + 1;
    }
  }

  lemma RingCounted(w: World, e: Engine, tr: Trace, k: nat)
    requires Inv(w, e, tr) && k < |e.state.stations|
    ensures e.state.stations[k].id in e.store.receivers && Counted(e.store.receivers[e.state.stations[k].id])
  {
    hide Inv, HistoryRing.At, Logged;
    RingRecord(w, e, tr, k, 0);
    NothingHeardYet(w, e, tr, k);
    var rc := e.store.receivers[e.state.stations[k].id];
    forall i | 0 <= i < |rc.history|
      ensures HistoryRing.At(rc, i).sequence == rc.stats.last - |rc.history| + i + 1
    {
      RingRecord(w, e, tr, k, i);
    }
  }

  lemma NothingHeardYet(w: World, e: Engine, tr: Trace, k: nat)
    requires Inv(w, e, tr) && k < |e.state.stations|
    ensures e.state.stations[k].id in e.store.receivers
    ensures var rc := e.store.receivers[e.state.stations[k].id]; rc.history == [] ==> rc.stats.last == 0
  {
    hide SentOk, FleetOk, TargetsOk, Young, TargetsLogged, HeardOk, SiteOk, Allocated, LogOk, RateWindow.BucketsOk,
         HistoryRing.At, Retains;
    var st := e.state.stations[k];
    assert st.id in Ids(e.state.stations);
    assert Listens(w, tr.sent, |tr.sent|, st, e.store.receivers[st.id], tr.witnesses[st.id]);
    RetainedSize(e.store.receivers[st.id], tr.witnesses[st.id].log);
  }

  /** Every page an honest engine answers a request with is accepted. */
  lemma PageNeverRejected(w: World, e: Engine, tr: Trace, id: string, req: HistoryRequest)
    requires WorldSound(w) && Inv(w, e, tr) && req.simulationId == w.id
    ensures Tracks(e.store, e.state.stations) && RingsCount(e)
    ensures var reply := HistoryPage(w, e, id, req.after, PageLimit(req));
            reply.Page? ==> PageAccepted(w.decode, id, req, reply.page)
  {
    hide Inv, WorldSound, HistoryRing.At, PageHeaderAccepted, PageCursorAccepted, ReceptionAccepted, Follows, ToWire,
         ReceptionsRefs, ReceptionRefs, Truth, ExplainsOne, FindStation;
    RingsCountInv(w, e, tr);
    var reply := HistoryPage(w, e, id, req.after, PageLimit(req));
    if reply.Page? {
      var k := FindStation(e.state.stations, id);
      var rc, page := ReceiverOf(e, id), reply.page;
      RingCounted(w, e, tr, k);
      CountedHeader(w, id, rc, req);
      CountedCursor(w, id, rc, req);
      var from := PageFrom(rc, req.after, PageLimit(req));
      forall i | 0 <= i < |page.receptions|
        ensures page.receptions[i].stationId == id && ReceptionAccepted(None, w.decode, page.receptions[i])
        ensures Explains(Truth(tr), ReceptionRefs(page.receptions[i]))
        ensures i > 0 ==> Follows(page.receptions[i - 1], page.receptions[i])
      {
        PageRecordHonest(w, e, tr, k, from + i);
        if i > 0 {
          RingFollows(w, e, tr, k, from + i - 1);
        }
      }
      ReceptionsExplained(Truth(tr), page.receptions);
      assert Explained(ReceptionsRefs(page.receptions));
    }
  }

  // ----- Whole runs -----

  /** The served snapshot of a valid selection and the page for a request are accepted. */
  ghost predicate DisplayAccepts(w: World, e: Engine, requested: Option<seq<string>>, id: string, req: HistoryRequest) {
    && Tracks(e.store, e.state.stations) && RingsCount(e)
    && (ValidSelection(e.state.stations, requested) ==>
          && Selects(e.state.stations, Requested(requested)).Some?
          && SnapshotAccepted(w.decode, requested, Served(w, e, Selects(e.state.stations, Requested(requested)).value)))
    && (var reply := HistoryPage(w, e, id, req.after, PageLimit(req));
        reply.Page? ==> PageAccepted(w.decode, id, req, reply.page))
  }

  lemma HonestStateAccepted(w: World, e: Engine, tr: Trace, requested: Option<seq<string>>, id: string, req: HistoryRequest)
    requires WorldSound(w) && Inv(w, e, tr) && 1 <= e.state.revision && req.simulationId == w.id
    ensures DisplayAccepts(w, e, requested, id, req)
  {
    hide Inv, WorldSound, Served, Selects, SnapshotAccepted, HistoryPage, PageAccepted, ValidSelection;
    PageNeverRejected(w, e, tr, id, req);
    if ValidSelection(e.state.stations, requested) {
      SnapshotNeverRejected(w, e, tr, requested);
    }
  }

  /** From New, after any commands, failed or not: every snapshot of every valid selection and every page is accepted. */
  lemma HonestEngineNeverRejected(w: World, source: nat, count: int, speed: real, definitions: seq<Definition>,
                                  commands: seq<Command>, requested: Option<seq<string>>, id: string, req: HistoryRequest)
    requires WorldSound(w) && New(w, source, count, speed, definitions).Committed? && req.simulationId == w.id
    ensures Inv(w, New(w, source, count, speed, definitions).engine, NewTrace(w, source, count, speed, definitions))
    ensures DisplayAccepts(w, Run(w, New(w, source, count, speed, definitions).engine,
                                  NewTrace(w, source, count, speed, definitions), commands).0, requested, id, req)
  {
    hide Inv, WorldSound, DisplayAccepts, Run, NewTrace, SetCount, Blank;
    NewInv(w, source, count, speed, definitions);
    var e0, t0 := New(w, source, count, speed, definitions).engine, NewTrace(w, source, count, speed, definitions);
    var (e, tr) := Run(w, e0, t0, commands);
    RunsRevision(w, e0, t0, commands, 0);
    NoCommands(w, e0, t0, commands);
    HonestStateAccepted(w, e, tr, requested, id, req);
  }

  lemma NoCommands(w: World, e: Engine, tr: Trace, commands: seq<Command>)
    requires WorldSound(w) && Inv(w, e, tr)
    ensures Run(w, e, tr, commands[..0]) == (e, tr)
  {
    hide Inv, WorldSound;
  }
}
