/** Whole runs: the unbounded record of everything emitted and heard, and the invariant that ties every reachable
    engine to it. */
module Runs {
  import opened Basics
  import opened Model
  import opened Worlds
  import opened Engine
  import opened Emission
  import opened RateWindow
  import opened HistoryRing
  import opened Receiving
  import opened Targets
  import opened Listening
  import RadioModel

  /** Everything emitted, everything received in order, and what each configured station heard. */
  datatype Trace = Trace(sent: seq<Transmission>, heard: seq<Reception>, witnesses: map<string, Witness>)

  function Now(w: World, s: State): int {
    w.start + s.elapsed
  }

  ghost predicate ClockOk(w: World, s: State) {
    && 0 <= s.elapsed <= MAX_INT64 && Now(w, s) < YEAR_10000
    && 0 <= s.remainder < SPEED_SCALE && 0 <= s.speed <= MAX_SPEED
    && w.start <= s.updatedAt <= Now(w, s)
  }

  ghost predicate SentWithin(w: World, s: State, sent: seq<Transmission>) {
    && SentOk(w, sent) && s.sequence == |sent| <= MAX_UINT64
    && FleetOk(sent, s.vessels, s.nextMMSI) && |s.vessels| <= MAX_VESSELS
    && forall t <- sent :: t.message.timestamp <= Now(w, s)
  }

  ghost predicate Allocated(id: string, last: nat) {
    exists n: nat :: 1 <= n <= last && id == StationId(n)
  }

  ghost predicate SiteTimesOk(w: World, now: int, st: Site) {
    w.start <= st.createdAt <= st.rfUpdatedAt <= now
  }

  ghost predicate SitesOk(w: World, s: State) {
    && |s.stations| <= MAX_STATIONS && DistinctIds(s.stations) && 1 <= s.stationRevision
    && forall st <- s.stations :: SiteOk(w, st) && Allocated(st.id, s.lastStationId) && SiteTimesOk(w, Now(w, s), st)
  }

  function Ids(stations: seq<Site>): set<string> {
    set st <- stations :: st.id
  }

  ghost predicate WitnessesOk(w: World, stations: seq<Site>, receivers: map<string, Receiver>, tr: Trace) {
    && receivers.Keys == tr.witnesses.Keys == Ids(stations)
    && forall st <- stations :: Listens(w, tr.sent, |tr.sent|, st, receivers[st.id], tr.witnesses[st.id])
  }

  /** r is the record its station logged under its sequence. */
  ghost predicate Logged(witnesses: map<string, Witness>, r: Reception) {
    && r.stationId in witnesses
    && 1 <= r.sequence <= |witnesses[r.stationId].log|
    && witnesses[r.stationId].log[r.sequence - 1] == r
  }

  ghost predicate TargetsLogged(ts: TargetStore, witnesses: map<string, Witness>) {
    forall m <- ts.targets :: forall r <- ts.targets[m].observations :: Logged(witnesses, r)
  }

  /** Every reception of the run, including those of removed stations. */
  ghost predicate HeardOk(sent: seq<Transmission>, heard: seq<Reception>) {
    && (forall r <- heard :: Genuine(sent, r))
    && (forall i, j :: 0 <= i < j < |heard| ==> heard[i].transmission <= heard[j].transmission)
  }

  ghost predicate TotalsOk(e: Engine, tr: Trace) {
    && e.store.receptions == |tr.heard| <= MAX_UINT64
    && e.store.receivedTransmissions == |HeardOf(tr.heard)|
    && e.store.receivedTransmissions <= |tr.sent| && e.store.receivedTransmissions <= |tr.heard|
    && e.store.targets.evictions <= |tr.heard|
  }

  /** The invariant of every reachable engine. */
  ghost predicate Inv(w: World, e: Engine, tr: Trace) {
    && ClockOk(w, e.state) && SentWithin(w, e.state, tr.sent) && SitesOk(w, e.state)
    && e.messages == Newest(MESSAGE_LIMIT, Messages(tr.sent))
    && WitnessesOk(w, e.state.stations, e.store.receivers, tr)
    && TargetsOk(e.store.targets) && Young(e.store.targets, Now(w, e.state))
    && TargetsLogged(e.store.targets, tr.witnesses)
    && HeardOk(tr.sent, tr.heard) && TotalsOk(e, tr)
  }

  lemma InvReady(w: World, e: Engine, tr: Trace)
    requires Inv(w, e, tr)
    ensures Ready(e)
  {
    forall st | st in e.state.stations
      ensures st.id in e.store.receivers
    {
      assert st.id in Ids(e.state.stations);
    }
  }

  // ----- The trace of a step -----

  /** The records a committed emission produces. */
  function NewRecords(w: World, e: Engine, stations: seq<Site>, sent: seq<Transmission>): seq<Reception>
    requires Tracks(e.store, stations)
  {
    var b := ReceiveAll(w, stations, StageReceptions(e.store, stations), sent);
    if b.None? then [] else b.value.records
  }

  function HearAllStations(w: World, e: Engine, tr: Trace, sent: seq<Transmission>): map<string, Witness>
    requires e.store.receivers.Keys == tr.witnesses.Keys == Ids(e.state.stations)
  {
    map id | id in tr.witnesses ::
      var i := FindStation(e.state.stations, id);
      if i < |e.state.stations|
      then WitnessAll(w, e.state.stations[i], tr.witnesses[id], e.store.receivers[id], sent)
      else tr.witnesses[id]
  }

  /** The trace after a committed emission of sent. */
  function TraceSent(w: World, e: Engine, tr: Trace, sent: seq<Transmission>): Trace
    requires e.store.receivers.Keys == tr.witnesses.Keys == Ids(e.state.stations)
    requires Tracks(e.store, e.state.stations)
  {
    Trace(tr.sent + sent, tr.heard + NewRecords(w, e, e.state.stations, sent), HearAllStations(w, e, tr, sent))
  }

  // ----- Emissions -----

  lemma FindsStation(stations: seq<Site>, i: nat)
    requires DistinctIds(stations) && i < |stations|
    ensures FindStation(stations, stations[i].id) == i
  {
    var k := FindStation(stations, stations[i].id);
    assert k <= i && k < |stations|;
  }

  lemma SetStatsAt(receivers: map<string, Receiver>, stations: seq<Site>, stats: seq<Stats>, k: nat, i: nat)
    requires k <= |stations| == |stats| && DistinctIds(stations) && i < |stations|
    requires forall st <- stations :: st.id in receivers
    ensures SetStats(receivers, stations, stats, k)[stations[i].id]
         == if i < k then receivers[stations[i].id].(stats := stats[i]) else receivers[stations[i].id]
  {
    if k > 0 {
      SetStatsAt(receivers, stations, stats, k - 1, i);
      SetStatsAt(receivers, stations, stats, k - 1, k - 1);
      assert i != k - 1 ==> stations[i].id != stations[k - 1].id;
    }
  }

  /** A committed batch, receiver by receiver: staging and applying is listening to each report in turn. */
  lemma AppliedReceiver(w: World, e: Engine, sent: seq<Transmission>, b: Batch, now: int, i: nat)
    requires Tracks(e.store, e.state.stations) && DistinctIds(e.state.stations) && i < |e.state.stations|
    requires ReceiveAll(w, e.state.stations, StageReceptions(e.store, e.state.stations), sent) == Some(b)
    requires forall r <- b.records :: r.stationId in e.store.receivers
    ensures var st := e.state.stations[i];
            var next := ApplyReceptions(e.store, e.state.stations, b, now);
            && next.receivers.Keys == e.store.receivers.Keys
            && next.receivers[st.id] == ListenAll(w, st, e.store.receivers[st.id], sent)
            && OfStation(b.records, st.id) == HearAll(w, st, Ear(e.store.receivers[st.id].stats, []), sent).records
  {
    hide ReceiveAll, HearAll, ApplyRecords, OfStation, Expire, PushAll, SetStats, ListenAll;
    var stations, st := e.state.stations, e.state.stations[i];
    var staged := StageReceptions(e.store, stations);
    ReceiveAllHears(w, stations, staged, sent, i);
    NoRecords(st.id);
    var counted := SetStats(e.store.receivers, stations, b.stats, |stations|);
    SetStatsAt(e.store.receivers, stations, b.stats, |stations|, i);
    ApplyRecordsReceiver(Applying(counted, e.store.targets, 0), b.records, st.id);
    StagedListening(w, st, e.store.receivers[st.id], sent);
  }

  lemma NoRecords(id: string)
    ensures OfStation([], id) == []
  {
  }

  /** The next state of a committed emission, relative to the engine it started from. */
  ghost predicate NextOk(w: World, e: Engine, tr: Trace, sent: seq<Transmission>, next: State) {
    && ClockOk(w, next) && SentWithin(w, next, tr.sent + sent)
    && next.stations == e.state.stations && next.stationRevision == e.state.stationRevision
    && next.lastStationId == e.state.lastStationId
    && e.state.elapsed <= next.elapsed
    && (forall t <- sent :: Now(w, e.state) <= t.message.timestamp)
  }

  lemma SitesStay(w: World, a: State, b: State)
    requires SitesOk(w, a) && b.stations == a.stations && b.stationRevision == a.stationRevision
    requires b.lastStationId == a.lastStationId && a.elapsed <= b.elapsed
    ensures SitesOk(w, b)
  {
    hide SiteOk, Allocated;
  }

  lemma MessagesConcat(a: seq<Transmission>, b: seq<Transmission>)
    ensures Messages(a + b) == Messages(a) + Messages(b)
  {
  }

  lemma NewestMessages(a: seq<Transmission>, b: seq<Transmission>)
    ensures Newest(MESSAGE_LIMIT, Newest(MESSAGE_LIMIT, Messages(a)) + Messages(b)) == Newest(MESSAGE_LIMIT, Messages(a + b))
  {
    MessagesConcat(a, b);
    NewestTwice(MESSAGE_LIMIT, Messages(a), Messages(b));
  }

  lemma HearsAt(w: World, e: Engine, tr: Trace, sent: seq<Transmission>, i: nat)
    requires e.store.receivers.Keys == tr.witnesses.Keys == Ids(e.state.stations)
    requires DistinctIds(e.state.stations) && i < |e.state.stations|
    ensures var st := e.state.stations[i];
            && st.id in tr.witnesses && st.id in e.store.receivers && st.id in HearAllStations(w, e, tr, sent)
            && HearAllStations(w, e, tr, sent)[st.id]
               == WitnessAll(w, st, tr.witnesses[st.id], e.store.receivers[st.id], sent)
  {
    hide WitnessAll, FindStation;
    assert e.state.stations[i].id in Ids(e.state.stations);
    FindsStation(e.state.stations, i);
  }

  lemma HearKeys(w: World, e: Engine, tr: Trace, sent: seq<Transmission>)
    requires e.store.receivers.Keys == tr.witnesses.Keys == Ids(e.state.stations)
    ensures HearAllStations(w, e, tr, sent).Keys == tr.witnesses.Keys
  {
    hide WitnessAll, FindStation;
  }

  lemma SitesDistinct(w: World, s: State)
    requires SitesOk(w, s)
    ensures DistinctIds(s.stations) && forall st <- s.stations :: SiteOk(w, st)
  {
    hide DistinctIds, SiteOk;
  }

  lemma WitnessHears(w: World, e: Engine, tr: Trace, sent: seq<Transmission>, b: Batch, now: int, i: nat)
    requires WorldSound(w) && SitesOk(w, e.state) && WitnessesOk(w, e.state.stations, e.store.receivers, tr)
    requires Tracks(e.store, e.state.stations) && SentOk(w, tr.sent + sent) && i < |e.state.stations|
    requires ReceiveAll(w, e.state.stations, StageReceptions(e.store, e.state.stations), sent) == Some(b)
    requires forall r <- b.records :: r.stationId in e.store.receivers
    ensures var st := e.state.stations[i];
            var next := ApplyReceptions(e.store, e.state.stations, b, now);
            && st.id in next.receivers && st.id in HearAllStations(w, e, tr, sent)
            && Listens(w, tr.sent + sent, |tr.sent + sent|, st, next.receivers[st.id], HearAllStations(w, e, tr, sent)[st.id])
  {
    hide Listens, ReceiveAll, ListenAll, WitnessAll, ApplyReceptions, SiteOk, WorldSound, SentOk, StageReceptions,
         SitesOk, DistinctIds, HearAll, OfStation, HearAllStations, Ids;
    var st := e.state.stations[i];
    SitesDistinct(w, e.state);
    HearsAt(w, e, tr, sent, i);
    AppliedReceiver(w, e, sent, b, now, i);
    ListensThrough(w, tr.sent, sent, |sent|, st, e.store.receivers[st.id], tr.witnesses[st.id]);
    assert sent[..|sent|] == sent;
  }

  lemma WitnessesHear(w: World, e: Engine, tr: Trace, sent: seq<Transmission>, b: Batch, now: int)
    requires WorldSound(w) && SitesOk(w, e.state) && WitnessesOk(w, e.state.stations, e.store.receivers, tr)
    requires Tracks(e.store, e.state.stations) && SentOk(w, tr.sent + sent)
    requires ReceiveAll(w, e.state.stations, StageReceptions(e.store, e.state.stations), sent) == Some(b)
    requires forall r <- b.records :: r.stationId in e.store.receivers
    ensures WitnessesOk(w, e.state.stations, ApplyReceptions(e.store, e.state.stations, b, now).receivers,
                        TraceSent(w, e, tr, sent))
  {
    hide Listens, ReceiveAll, ApplyReceptions, WorldSound, SentOk, StageReceptions, SitesOk, WitnessAll, FindStation, Ids,
         HearAllStations, NewRecords;
    HearKeys(w, e, tr, sent);
    ReceiverKeys(e, b, now);
    forall st | st in e.state.stations
      ensures Listens(w, tr.sent + sent, |tr.sent + sent|, st,
                      ApplyReceptions(e.store, e.state.stations, b, now).receivers[st.id],
                      HearAllStations(w, e, tr, sent)[st.id])
    {
      var i :| 0 <= i < |e.state.stations| && e.state.stations[i] == st;
      WitnessHears(w, e, tr, sent, b, now, i);
    }
  }

  lemma ReceiverKeys(e: Engine, b: Batch, now: int)
    requires Tracks(e.store, e.state.stations) && |b.stats| == |e.state.stations|
    requires forall r <- b.records :: r.stationId in e.store.receivers
    ensures ApplyReceptions(e.store, e.state.stations, b, now).receivers.Keys == e.store.receivers.Keys
  {
    var counted := SetStats(e.store.receivers, e.state.stations, b.stats, |e.state.stations|);
    ApplyRecordsTargets(Applying(counted, e.store.targets, 0), b.records);
  }

  lemma MemberIsLogged(w: World, stations: seq<Site>, receivers: map<string, Receiver>, tr: Trace, id: string, r: Reception)
    requires WitnessesOk(w, stations, receivers, tr) && id in tr.witnesses && r in tr.witnesses[id].log
    ensures Logged(tr.witnesses, r) && Genuine(tr.sent, r) && r.stationId == id
  {
    var st :| st in stations && st.id == id;
    assert Listens(w, tr.sent, |tr.sent|, st, receivers[st.id], tr.witnesses[st.id]);
    assert FromSite(st, r);
    var i :| 0 <= i < |tr.witnesses[id].log| && tr.witnesses[id].log[i] == r;
  }

  lemma StationsLog(w: World, e: Engine, tr: Trace, sent: seq<Transmission>, b: Batch, i: nat)
    requires SitesOk(w, e.state) && WitnessesOk(w, e.state.stations, e.store.receivers, tr)
    requires Tracks(e.store, e.state.stations) && i < |e.state.stations|
    requires ReceiveAll(w, e.state.stations, StageReceptions(e.store, e.state.stations), sent) == Some(b)
    ensures var id := e.state.stations[i].id;
            && id in tr.witnesses && id in TraceSent(w, e, tr, sent).witnesses
            && TraceSent(w, e, tr, sent).witnesses[id].log == tr.witnesses[id].log + OfStation(b.records, id)
  {
    hide ReceiveAll, HearAll, Listens, OfStation, SitesOk, SiteOk, DistinctIds, HearAllStations, Ids;
    var st := e.state.stations[i];
    SitesDistinct(w, e.state);
    HearsAt(w, e, tr, sent, i);
    ReceiveAllHears(w, e.state.stations, StageReceptions(e.store, e.state.stations), sent, i);
    NoRecords(st.id);
  }

  /** Every record of the batch is logged by its station afterwards, and what was logged stays logged. */
  lemma BatchIsLogged(w: World, e: Engine, tr: Trace, sent: seq<Transmission>, b: Batch, now: int)
    requires SitesOk(w, e.state) && WitnessesOk(w, e.state.stations, e.store.receivers, tr)
    requires Tracks(e.store, e.state.stations)
    requires ReceiveAll(w, e.state.stations, StageReceptions(e.store, e.state.stations), sent) == Some(b)
    requires forall r <- b.records :: exists st <- e.state.stations :: st.id == r.stationId
    requires WitnessesOk(w, e.state.stations, ApplyReceptions(e.store, e.state.stations, b, now).receivers,
                         TraceSent(w, e, tr, sent))
    ensures forall r <- b.records :: Logged(TraceSent(w, e, tr, sent).witnesses, r) && Genuine(tr.sent + sent, r)
    ensures forall r :: Logged(tr.witnesses, r) ==> Logged(TraceSent(w, e, tr, sent).witnesses, r)
  {
    hide ReceiveAll, ApplyReceptions, SitesOk, Genuine, OfStation, Listens, StageReceptions, Logged;
    forall r | r in b.records
      ensures Logged(TraceSent(w, e, tr, sent).witnesses, r) && Genuine(tr.sent + sent, r)
    {
      RecordIsLogged(w, e, tr, sent, b, now, r);
    }
    forall r | Logged(tr.witnesses, r)
      ensures Logged(TraceSent(w, e, tr, sent).witnesses, r)
    {
      LoggedStays(w, e, tr, sent, b, r);
    }
  }

  lemma RecordIsLogged(w: World, e: Engine, tr: Trace, sent: seq<Transmission>, b: Batch, now: int, r: Reception)
    requires SitesOk(w, e.state) && WitnessesOk(w, e.state.stations, e.store.receivers, tr)
    requires Tracks(e.store, e.state.stations)
    requires ReceiveAll(w, e.state.stations, StageReceptions(e.store, e.state.stations), sent) == Some(b)
    requires r in b.records && exists st <- e.state.stations :: st.id == r.stationId
    requires WitnessesOk(w, e.state.stations, ApplyReceptions(e.store, e.state.stations, b, now).receivers,
                         TraceSent(w, e, tr, sent))
    ensures Logged(TraceSent(w, e, tr, sent).witnesses, r) && Genuine(tr.sent + sent, r)
  {
    hide ReceiveAll, ApplyReceptions, SitesOk, Genuine, OfStation, Listens, StageReceptions, Logged, HearAllStations, NewRecords;
    var after := TraceSent(w, e, tr, sent);
    var st :| st in e.state.stations && st.id == r.stationId;
    var i :| 0 <= i < |e.state.stations| && e.state.stations[i] == st;
    StationsLog(w, e, tr, sent, b, i);
    RecordsComeFromStations(b.records, st.id);
    assert r in after.witnesses[st.id].log;
    MemberIsLogged(w, e.state.stations, ApplyReceptions(e.store, e.state.stations, b, now).receivers, after, st.id, r);
  }

  lemma LoggedStays(w: World, e: Engine, tr: Trace, sent: seq<Transmission>, b: Batch, r: Reception)
    requires SitesOk(w, e.state) && WitnessesOk(w, e.state.stations, e.store.receivers, tr)
    requires Tracks(e.store, e.state.stations)
    requires ReceiveAll(w, e.state.stations, StageReceptions(e.store, e.state.stations), sent) == Some(b)
    requires Logged(tr.witnesses, r)
    ensures Logged(TraceSent(w, e, tr, sent).witnesses, r)
  {
    hide ReceiveAll, SitesOk, Listens, StageReceptions;
    assert r.stationId in Ids(e.state.stations);
    var i :| 0 <= i < |e.state.stations| && e.state.stations[i].id == r.stationId;
    StationsLog(w, e, tr, sent, b, i);
  }

  /** Records follow emission in time. */
  lemma RecordsInTime(w: World, sent: seq<Transmission>, records: seq<Reception>, base: nat, from: int)
    requires SentOk(w, sent) && base <= |sent| && 0 < w.start
    requires forall r <- records :: Genuine(sent, r) && base < r.transmission
    requires forall i, j :: 0 <= i < j < |records| ==> records[i].transmission <= records[j].transmission
    requires forall k :: base <= k < |sent| ==> from <= sent[k].message.timestamp
    ensures TimeOrdered(records) && KeyOrdered(records)
    ensures forall r <- records :: from <= r.timestamp && 0 < r.timestamp
  {
    forall i, j | 0 <= i < j < |records|
      ensures records[i].timestamp < records[j].timestamp
           || (records[i].timestamp == records[j].timestamp && records[i].mmsi <= records[j].mmsi)
    {
      KeysFollowEmission(w, sent, records[i], records[j]);
    }
    forall r | r in records
      ensures from <= r.timestamp && 0 < r.timestamp
    {
      assert ReportOk(w, sent, r.transmission - 1);
    }
  }

  lemma KeysFollowEmission(w: World, sent: seq<Transmission>, a: Reception, b: Reception)
    requires SentOk(w, sent) && Genuine(sent, a) && Genuine(sent, b) && a.transmission <= b.transmission
    ensures a.timestamp < b.timestamp || (a.timestamp == b.timestamp && a.mmsi <= b.mmsi)
  {
    if a.transmission < b.transmission {
      assert Earlier(sent[a.transmission - 1].message, sent[b.transmission - 1].message);
    }
  }

  lemma TargetsHear(w: World, e: Engine, b: Batch, from: int, now: int)
    requires TargetsOk(e.store.targets) && Young(e.store.targets, from) && from <= now
    requires Tracks(e.store, e.state.stations) && |b.stats| == |e.state.stations|
    requires forall r <- b.records :: r.stationId in e.store.receivers && from <= r.timestamp <= now && 0 < r.timestamp
    requires TimeOrdered(b.records)
    ensures var next := ApplyReceptions(e.store, e.state.stations, b, now);
            && TargetsOk(next.targets) && Young(next.targets, now)
            && next.targets.evictions <= e.store.targets.evictions + |b.records|
            && Gained(next.targets.targets, e.store.targets.targets, b.records)
            && next.targets == Expire(RecordAll(Recording(e.store.targets, 0), b.records).targets, now)
  {
    hide TargetsOk, Young, RecordAll, ApplyRecords, Expire, SetStats;
    var counted := SetStats(e.store.receivers, e.state.stations, b.stats, |e.state.stations|);
    ApplyRecordsTargets(Applying(counted, e.store.targets, 0), b.records);
    RecordAllKeepsTargets(Recording(e.store.targets, 0), b.records, from);
    assert b.records != [] ==> b.records[|b.records| - 1] in b.records;
    ExpireKeeps(RecordAll(Recording(e.store.targets, 0), b.records).targets, LastTime(b.records, from), now);
  }

  lemma HeardGrows(sent: seq<Transmission>, more: seq<Transmission>, heard: seq<Reception>, records: seq<Reception>)
    requires HeardOk(sent, heard)
    requires forall r <- records :: Genuine(sent + more, r) && |sent| < r.transmission
    requires forall i, j :: 0 <= i < j < |records| ==> records[i].transmission <= records[j].transmission
    ensures HeardOk(sent + more, heard + records)
  {
    var all := heard + records;
    forall r | r in heard
      ensures Genuine(sent + more, r)
    {
      assert Genuine(sent, r);
    }
    hide SnapshotOk, Carries, RadioModel.LinkInRange;
    forall i, j | 0 <= i < j < |all|
      ensures all[i].transmission <= all[j].transmission
    {
      assert i < |heard| ==> all[i] in heard;
      assert j >= |heard| ==> all[j] == records[j - |heard|] && all[j] in records;
      assert i >= |heard| ==> all[i] == records[i - |heard|];
    }
  }

  /** What a committed emission does to the store, collected. */
  lemma CommitHears(w: World, e: Engine, tr: Trace, sent: seq<Transmission>, b: Batch, next: State)
    requires WorldSound(w) && Inv(w, e, tr) && NextOk(w, e, tr, sent, next)
    requires Tracks(e.store, e.state.stations)
    requires ReceiveAll(w, e.state.stations, StageReceptions(e.store, e.state.stations), sent) == Some(b)
    ensures BatchOk(b, e.state.stations, |tr.sent|, |tr.sent + sent|)
    ensures b.receptions == e.store.receptions + |b.records|
    ensures 0 <= b.receivedTransmissions - e.store.receivedTransmissions <= |sent|
    ensures b.receivedTransmissions - e.store.receivedTransmissions <= |b.records|
    ensures b.receivedTransmissions - e.store.receivedTransmissions == |HeardOf(b.records)|
    ensures forall r <- b.records :: r.stationId in e.store.receivers
  {
    hide ReceiveAll, SitesOk, TargetsOk, Young, HeardOk, Listens, FleetOk;
    var all := tr.sent + sent;
    forall i | 0 <= i < |sent|
      ensures sent[i].message.sequence == |tr.sent| + i + 1
    {
      assert all[|tr.sent| + i] == sent[i] && ReportOk(w, all, |tr.sent| + i);
    }
    hide SentOk, ClockOk;
    ReceiveAllKeepsBatch(w, e.state.stations, StageReceptions(e.store, e.state.stations), sent, |tr.sent|);
    ReceiveAllCounts(w, e.state.stations, StageReceptions(e.store, e.state.stations), sent, |tr.sent|);
    assert HeardOf([]) == {};
  }

  /** Nothing heard before is of a transmission heard now. */
  lemma HeardCounts(tr: Trace, b: Batch, stations: seq<Site>, s: nat)
    requires HeardOk(tr.sent, tr.heard) && BatchOk(b, stations, |tr.sent|, s)
    ensures |HeardOf(tr.heard + b.records)| == |HeardOf(tr.heard)| + |HeardOf(b.records)|
  {
    hide HeardOf, SnapshotOk, Carries, RadioModel.LinkInRange;
    forall r | r in tr.heard ensures r.transmission <= |tr.sent| {
      assert Genuine(tr.sent, r);
    }
    ReceivedConcat(tr.heard, b.records, |tr.sent|);
  }

  /** The records of a commit against the logs. */
  lemma CommitLogs(w: World, e: Engine, tr: Trace, sent: seq<Transmission>, b: Batch, next: State)
    requires WorldSound(w) && Inv(w, e, tr) && NextOk(w, e, tr, sent, next)
    requires Tracks(e.store, e.state.stations)
    requires ReceiveAll(w, e.state.stations, StageReceptions(e.store, e.state.stations), sent) == Some(b)
    ensures var after := TraceSent(w, e, tr, sent);
            && WitnessesOk(w, e.state.stations, ApplyReceptions(e.store, e.state.stations, b, Now(w, next)).receivers, after)
            && (forall r <- b.records :: Logged(after.witnesses, r) && Genuine(tr.sent + sent, r))
            && (forall r :: Logged(tr.witnesses, r) ==> Logged(after.witnesses, r))
  {
    hide ReceiveAll, ApplyReceptions, SentOk, FleetOk, SiteOk, Listens, TargetsOk, Young, TargetsLogged, HeardOk, TotalsOk,
         Genuine, StageReceptions, Logged, HearAllStations, WitnessesOk, SitesOk, ClockOk, WorldSound;
    CommitHears(w, e, tr, sent, b, next);
    WitnessesHear(w, e, tr, sent, b, Now(w, next));
    BatchIsLogged(w, e, tr, sent, b, Now(w, next));
  }

  /** The records of a commit in time: between the two instants, in the order of their transmissions. */
  lemma CommitTimes(w: World, e: Engine, tr: Trace, sent: seq<Transmission>, records: seq<Reception>, next: State)
    requires Inv(w, e, tr) && NextOk(w, e, tr, sent, next) && 0 < w.start
    requires forall r <- records :: Genuine(tr.sent + sent, r) && |tr.sent| < r.transmission
    requires forall i, j :: 0 <= i < j < |records| ==> records[i].transmission <= records[j].transmission
    ensures TimeOrdered(records) && KeyOrdered(records)
    ensures forall r <- records :: Now(w, e.state) <= r.timestamp <= Now(w, next) && 0 < r.timestamp
  {
    hide Inv, SentOk, FleetOk, ClockOk, Genuine, TimeOrdered, KeyOrdered;
    var all := tr.sent + sent;
    forall k | |tr.sent| <= k < |all|
      ensures Now(w, e.state) <= all[k].message.timestamp
    {
      assert all[k] == sent[k - |tr.sent|] && all[k] in sent;
    }
    RecordsInTime(w, all, records, |tr.sent|, Now(w, e.state));
    forall r | r in records
      ensures r.timestamp <= Now(w, next)
    {
      GenuineTime(all, r);
    }
  }

  /** The records of a commit: logged, in time between the two instants, and after everything heard before. */
  lemma CommitRecords(w: World, e: Engine, tr: Trace, sent: seq<Transmission>, b: Batch, next: State)
    requires WorldSound(w) && Inv(w, e, tr) && NextOk(w, e, tr, sent, next)
    requires Tracks(e.store, e.state.stations)
    requires ReceiveAll(w, e.state.stations, StageReceptions(e.store, e.state.stations), sent) == Some(b)
    ensures var after := TraceSent(w, e, tr, sent);
            && WitnessesOk(w, e.state.stations, ApplyReceptions(e.store, e.state.stations, b, Now(w, next)).receivers, after)
            && (forall r <- b.records :: Logged(after.witnesses, r) && Genuine(tr.sent + sent, r))
            && (forall r :: Logged(tr.witnesses, r) ==> Logged(after.witnesses, r))
    ensures TimeOrdered(b.records) && KeyOrdered(b.records)
    ensures forall r <- b.records :: Now(w, e.state) <= r.timestamp <= Now(w, next) && 0 < r.timestamp
    ensures HeardOk(tr.sent + sent, tr.heard + b.records)
  {
    hide Inv, NextOk, ReceiveAll, ApplyReceptions, WitnessesOk, Genuine, StageReceptions, Logged, HearAllStations, HeardOk,
         TimeOrdered, KeyOrdered, TraceSent;
    CommitHears(w, e, tr, sent, b, next);
    CommitLogs(w, e, tr, sent, b, next);
    BatchOrder(b, e.state.stations, |tr.sent|, |tr.sent + sent|);
    InvHeard(w, e, tr);
    CommitTimes(w, e, tr, sent, b.records, next);
    HeardGrows(tr.sent, sent, tr.heard, b.records);
  }

  lemma BatchOrder(b: Batch, stations: seq<Site>, base: nat, s: nat)
    requires BatchOk(b, stations, base, s)
    ensures forall r <- b.records :: base < r.transmission
    ensures forall i, j :: 0 <= i < j < |b.records| ==> b.records[i].transmission <= b.records[j].transmission
  {
  }

  lemma InvHeard(w: World, e: Engine, tr: Trace)
    requires Inv(w, e, tr)
    ensures HeardOk(tr.sent, tr.heard)
  {
    hide HeardOk;
  }

  lemma CommitTargets(w: World, e: Engine, tr: Trace, sent: seq<Transmission>, b: Batch, next: State)
    requires WorldSound(w) && Inv(w, e, tr) && NextOk(w, e, tr, sent, next)
    requires Tracks(e.store, e.state.stations)
    requires ReceiveAll(w, e.state.stations, StageReceptions(e.store, e.state.stations), sent) == Some(b)
    ensures var ts := ApplyReceptions(e.store, e.state.stations, b, Now(w, next)).targets;
            && TargetsOk(ts) && Young(ts, Now(w, next)) && TargetsLogged(ts, TraceSent(w, e, tr, sent).witnesses)
            && ts.evictions <= e.store.targets.evictions + |b.records|
  {
    hide ReceiveAll, ApplyReceptions, SentOk, FleetOk, SiteOk, Listens, TargetOk, YoungTarget, Genuine, StageReceptions,
         Logged, HearAllStations, HeardOk, SitesOk;
    var after := TraceSent(w, e, tr, sent);
    CommitHears(w, e, tr, sent, b, next);
    CommitRecords(w, e, tr, sent, b, next);
    TargetsHear(w, e, b, Now(w, e.state), Now(w, next));
    LoggedTargets(ApplyReceptions(e.store, e.state.stations, b, Now(w, next)).targets.targets,
                  e.store.targets.targets, b.records, tr.witnesses, after.witnesses);
  }

  /** Committing an emission keeps the invariant. */
  lemma CommitKeepsInv(w: World, e: Engine, tr: Trace, sent: seq<Transmission>, b: Batch, next: State)
    requires WorldSound(w) && Inv(w, e, tr) && NextOk(w, e, tr, sent, next)
    requires Tracks(e.store, e.state.stations)
    requires ReceiveAll(w, e.state.stations, StageReceptions(e.store, e.state.stations), sent) == Some(b)
    ensures Tracks(e.store, next.stations) && Inv(w, Commit(w, e, next, sent, b), TraceSent(w, e, tr, sent))
    ensures TraceSent(w, e, tr, sent).heard == tr.heard + b.records
  {
    hide ReceiveAll, ApplyReceptions, SentOk, FleetOk, TargetOk, YoungTarget, Genuine, StageReceptions,
         TargetsLogged, HearAllStations, HeardOk, SitesOk, TargetsOk, Young, WorldSound, Listens, HeardOf;
    CommitHears(w, e, tr, sent, b, next);
    HeardCounts(tr, b, e.state.stations, |tr.sent + sent|);
    CommitRecords(w, e, tr, sent, b, next);
    CommitTargets(w, e, tr, sent, b, next);
    NewestMessages(tr.sent, sent);
    SitesStay(w, e.state, next);
    TotalsApply(e, e.state.stations, b, Now(w, next));
    assert Commit(w, e, next, sent, b).store == ApplyReceptions(e.store, e.state.stations, b, Now(w, next));
  }

  lemma GenuineTime(sent: seq<Transmission>, r: Reception)
    requires Genuine(sent, r)
    ensures exists t :: t in sent && r.timestamp == t.message.timestamp
  {
    assert sent[r.transmission - 1] in sent;
  }

  lemma TotalsApply(e: Engine, stations: seq<Site>, b: Batch, now: int)
    requires Tracks(e.store, stations) && |b.stats| == |stations|
    ensures ApplyReceptions(e.store, stations, b, now).receptions == b.receptions
    ensures ApplyReceptions(e.store, stations, b, now).receivedTransmissions == b.receivedTransmissions
  {
  }

  lemma LoggedTargets(next: map<nat, Target>, before: map<nat, Target>, records: seq<Reception>,
                      a: map<string, Witness>, b: map<string, Witness>)
    requires Gained(next, before, records)
    requires forall m <- before :: forall r <- before[m].observations :: Logged(a, r)
    requires forall r <- records :: Logged(b, r)
    requires forall r :: Logged(a, r) ==> Logged(b, r)
    ensures forall m <- next :: forall r <- next[m].observations :: Logged(b, r)
  {
    hide Logged;
  }
}
