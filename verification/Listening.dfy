/** One station over a whole run: its counters, rate buckets and history ring against everything it ever heard
    (simulation/observation.go). */
module Listening {
  import opened Basics
  import opened Model
  import opened Worlds
  import opened Engine
  import opened Emission
  import opened RateWindow
  import opened HistoryRing
  import opened Receiving
  import opened Targets
  import RadioModel
  import Station

  /** The unbounded record of one station. */
  datatype Witness = Witness(events: seq<Hearing>, log: seq<Reception>)

  ghost predicate SnapshotOk(s: ReceiverSnapshot) {
    && Station.NameValid(s.name) && Station.ChannelValid(s.channel)
    && Station.SiteValid(s.latitude, s.longitude, s.height, s.gain, s.feederLoss) && s.longitude != 180.0
  }

  predicate Carries(r: Reception, t: Transmission) {
    && r.mmsi == t.message.mmsi && r.timestamp == t.message.timestamp && r.sentence == t.message.sentence
    && r.channel == t.channel && r.vesselName == t.name && r.vesselType == t.typeId
  }

  /** r carries exactly what transmission r.transmission sent, with valid diagnostics. */
  ghost predicate Genuine(sent: seq<Transmission>, r: Reception) {
    && 1 <= r.transmission <= |sent|
    && Carries(r, sent[r.transmission - 1])
    && SnapshotOk(r.receiver) && r.receiver.channel.enabled
    && RadioModel.LinkInRange(r.link)
  }

  function Snapshot(d: Definition, channel: Channel): ReceiverSnapshot {
    ReceiverSnapshot(d.name, d.latitude, d.longitude, d.height, d.gain, d.feederLoss, d.Receiver(channel))
  }

  /** r was received under an earlier or the current configuration of st; equal revisions mean equal configuration,
      up to the name for the RF revision. */
  ghost predicate FromSite(st: Site, r: Reception) {
    && r.stationId == st.id
    && 1 <= r.configRevision <= st.configRevision && 1 <= r.rfRevision <= st.rfRevision
    && (r.configRevision == st.configRevision ==> r.receiver == Snapshot(st.definition, r.channel))
    && (r.rfRevision == st.rfRevision ==> r.receiver.(name := "") == Snapshot(st.definition, r.channel).(name := ""))
  }

  ghost predicate LogOk(sent: seq<Transmission>, n: nat, st: Site, log: seq<Reception>) {
    && Contiguous(log)
    && (forall r <- log :: Genuine(sent, r) && FromSite(st, r) && r.transmission <= n)
    && (forall i, j :: 0 <= i < j < |log| ==> log[i].transmission < log[j].transmission)
  }

  function LastSecond(w: World, sent: seq<Transmission>, n: nat): int
    requires n <= |sent|
  {
    if n == 0 then 0 else SecondOf(w, sent[n - 1])
  }

  /** The receiver agrees with its witness after the first n transmissions of the run. */
  ghost predicate Listens(w: World, sent: seq<Transmission>, n: nat, st: Site, rc: Receiver, wit: Witness)
    requires n <= |sent|
  {
    && LogOk(sent, n, st, wit.log) && Retains(rc, wit.log)
    && rc.stats.last == |wit.log| == Heard(wit.events) && rc.stats.counters == Tally(wit.events)
    && BucketsOk(rc.stats.buckets, wit.events) && InOrder(wit.events, LastSecond(w, sent, n))
    && |wit.events| <= n
  }

  ghost predicate SiteOk(w: World, st: Site) {
    && Station.Canonical(st.definition) && 1 <= st.configRevision && 1 <= st.rfRevision
    && st.coverage == w.coverage(st.definition)
  }

  lemma NewStationListens(w: World, sent: seq<Transmission>, st: Site)
    requires SentOk(w, sent)
    ensures Listens(w, sent, |sent|, st, NewReceiver(), Witness([], []))
  {
    NoEvents();
    NothingRetained();
    if sent != [] {
      SecondsGrow(w, sent, |sent| - 1, |sent| - 1);
    }
  }

  /** Seconds follow emission order. */
  lemma SecondsGrow(w: World, sent: seq<Transmission>, i: nat, j: nat)
    requires SentOk(w, sent) && i <= j < |sent|
    ensures 0 <= SecondOf(w, sent[i]) <= SecondOf(w, sent[j])
  {
    assert ReportOk(w, sent, i) && ReportOk(w, sent, j);
    if i < j {
      assert Earlier(sent[i].message, sent[j].message);
    }
    DivMonotone(0, sent[i].message.timestamp - w.start);
    DivMonotone(sent[i].message.timestamp - w.start, sent[j].message.timestamp - w.start);
  }

  lemma DivMonotone(a: int, b: int)
    requires a <= b
    ensures a / SECOND <= b / SECOND
  {
  }

  /** More transmissions do not disturb what was heard before them. */
  lemma ListensLonger(w: World, sent: seq<Transmission>, more: seq<Transmission>, st: Site, rc: Receiver, wit: Witness)
    requires Listens(w, sent, |sent|, st, rc, wit)
    ensures Listens(w, sent + more, |sent|, st, rc, wit)
  {
    forall r | r in wit.log
      ensures Genuine(sent + more, r)
    {
      assert Genuine(sent, r);
    }
  }

  /** The receiver after one more transmission. */
  function Listen(w: World, st: Site, rc: Receiver, t: Transmission): Receiver {
    var ear := Hear(w, st, Ear(rc.stats, []), t);
    var counted := rc.(stats := ear.stats);
    if ear.records == [] then counted else Push(counted, ear.records[0])
  }

  function ListenTo(w: World, st: Site, wit: Witness, rc: Receiver, t: Transmission): Witness {
    Witness(wit.events + [HearingOf(w, st, t)], wit.log + Hear(w, st, Ear(rc.stats, []), t).records)
  }

  lemma NewReceptionIsGenuine(w: World, sent: seq<Transmission>, n: nat, st: Site, sequence: nat)
    requires WorldSound(w) && SiteOk(w, st) && SentOk(w, sent) && n < |sent|
    requires OutcomeOf(w, st, sent[n]) == Received
    ensures var r := NewReception(st, sequence, sent[n], LinkOf(w, st, sent[n]));
            Genuine(sent, r) && FromSite(st, r) && r.transmission == n + 1
  {
    assert ReportOk(w, sent, n);
    var t := sent[n];
    assert RadioModel.LinkInRange(w.link(t.latitude, t.longitude, st.definition, t.channel));
    hide ReportOk, SentOk;
  }

  lemma LogGrows(sent: seq<Transmission>, n: nat, st: Site, log: seq<Reception>, r: Reception)
    requires LogOk(sent, n, st, log) && Genuine(sent, r) && FromSite(st, r) && r.transmission == n + 1
    requires r.sequence == |log| + 1
    ensures LogOk(sent, n + 1, st, log + [r])
  {
    hide Genuine, FromSite;
    forall i, j | 0 <= i < j < |log + [r]|
      ensures (log + [r])[i].transmission < (log + [r])[j].transmission
    {
      assert log[i] in log;
    }
  }

  lemma EventsGrow(w: World, sent: seq<Transmission>, n: nat, events: seq<Hearing>, h: Hearing)
    requires SentOk(w, sent) && n < |sent| && InOrder(events, LastSecond(w, sent, n)) && h.second == SecondOf(w, sent[n])
    ensures InOrder(events, h.second) && 0 <= h.second
    ensures InOrder(events + [h], LastSecond(w, sent, n + 1))
  {
    SecondsGrow(w, sent, n, n);
    if n > 0 {
      SecondsGrow(w, sent, n - 1, n);
    }
  }

  lemma CountersGrow(stats: Stats, events: seq<Hearing>, h: Hearing)
    requires stats.counters == Tally(events)
    ensures CountHearing(stats, h).counters == Tally(events + [h])
    ensures Heard(events + [h]) == Heard(events) + if h.outcome == Received then 1 else 0
  {
    assert (events + [h])[..|events|] == events;
  }

  /** The parts of Listens that a received transmission extends. */
  lemma ReceivedOn(w: World, sent: seq<Transmission>, n: nat, st: Site, rc: Receiver, wit: Witness)
    requires WorldSound(w) && SiteOk(w, st) && SentOk(w, sent) && n < |sent| && Listens(w, sent, n, st, rc, wit)
    requires HearingOf(w, st, sent[n]).outcome == Received
    ensures var next, log := Listen(w, st, rc, sent[n]), ListenTo(w, st, wit, rc, sent[n]).log;
            LogOk(sent, n + 1, st, log) && Retains(next, log) && next.stats.last == |log| == |wit.log| + 1
  {
    hide Genuine, FromSite, BucketsOk, CountOutcome, CountBucket, OutcomeOf, NewReception, Retains, SentOk, WorldSound, SiteOk,
         InOrder, LogOk;
    var t := sent[n];
    var r := NewReception(st, rc.stats.last + 1, t, LinkOf(w, st, t));
    var counted := rc.(stats := Hear(w, st, Ear(rc.stats, []), t).stats);
    RetainsIgnoresStats(rc, counted, wit.log);
    NewReceptionIsGenuine(w, sent, n, st, rc.stats.last + 1);
    ReceptionSequence(st, rc.stats.last + 1, t, LinkOf(w, st, t));
    LogGrows(sent, n, st, wit.log, r);
    PushRetains(counted, wit.log, r);
    PushKeepsStats(counted, r);
    assert Listen(w, st, rc, t) == Push(counted, r);
    assert ListenTo(w, st, wit, rc, t).log == wit.log + [r];
  }

  /** One more transmission keeps receiver and witness in agreement. */
  lemma ListensOn(w: World, sent: seq<Transmission>, n: nat, st: Site, rc: Receiver, wit: Witness)
    requires WorldSound(w) && SiteOk(w, st) && SentOk(w, sent) && n < |sent| && Listens(w, sent, n, st, rc, wit)
    ensures Listens(w, sent, n + 1, st, Listen(w, st, rc, sent[n]), ListenTo(w, st, wit, rc, sent[n]))
  {
    hide Genuine, FromSite, BucketOk, CountOutcome, CountBucket, OutcomeOf, NewReception, Retains, SentOk, WorldSound, SiteOk;
    var t, h := sent[n], HearingOf(w, st, sent[n]);
    EventsGrow(w, sent, n, wit.events, h);
    BucketsCount(rc.stats.buckets, wit.events, h);
    CountersGrow(rc.stats, wit.events, h);
    if h.outcome == Received {
      ReceivedOn(w, sent, n, st, rc, wit);
      PushKeepsStats(rc.(stats := Hear(w, st, Ear(rc.stats, []), t).stats), NewReception(st, rc.stats.last + 1, t, LinkOf(w, st, t)));
    } else {
      RetainsIgnoresStats(rc, rc.(stats := Hear(w, st, Ear(rc.stats, []), t).stats), wit.log);
      assert wit.log + [] == wit.log;
    }
  }

  lemma ReceptionSequence(st: Site, sequence: nat, t: Transmission, l: Link)
    ensures NewReception(st, sequence, t, l).sequence == sequence
  {
  }

  lemma PushKeepsStats(rc: Receiver, r: Reception)
    ensures Push(rc, r).stats == rc.stats
  {
  }

  lemma RetainsIgnoresStats(a: Receiver, b: Receiver, log: seq<Reception>)
    requires Retains(a, log) && b == a.(stats := b.stats)
    ensures Retains(b, log)
  {
    assert Retained(a) == Retained(b);
  }

  function ListenAll(w: World, st: Site, rc: Receiver, sent: seq<Transmission>): Receiver {
    if sent == [] then rc
    else Listen(w, st, ListenAll(w, st, rc, sent[..|sent| - 1]), sent[|sent| - 1])
  }

  /** Staging counters and records and applying them later is listening. */
  lemma {:induction false} StagedListening(w: World, st: Site, rc: Receiver, sent: seq<Transmission>)
    ensures var ear := HearAll(w, st, Ear(rc.stats, []), sent);
            PushAll(rc.(stats := ear.stats), ear.records) == ListenAll(w, st, rc, sent)
  {
    hide CountHearing, OutcomeOf, NewReception;
    if sent != [] {
      var n := |sent| - 1;
      StagedListening(w, st, rc, sent[..n]);
      var before := HearAll(w, st, Ear(rc.stats, []), sent[..n]);
      var after := HearAll(w, st, Ear(rc.stats, []), sent);
      var mid := ListenAll(w, st, rc, sent[..n]);
      PushAllStats(rc, before.stats, before.records);
      PushAllStats(rc, after.stats, before.records);
      HearAppends(w, st, before, sent[n]);
      if after.records != before.records {
        assert after.records[..|before.records|] == before.records;
        PushCommutesWithStats(mid, after.stats, after.records[|before.records|]);
      }
    }
  }

  lemma HearAppends(w: World, st: Site, ear: Ear, t: Transmission)
    ensures var fresh', next := Hear(w, st, Ear(ear.stats, []), t), Hear(w, st, ear, t);
            next.stats == fresh'.stats && next.records == ear.records + fresh'.records && |fresh'.records| <= 1
  {
    hide CountHearing, OutcomeOf, NewReception;
  }

  lemma {:induction false} PushAllStats(rc: Receiver, stats: Stats, records: seq<Reception>)
    ensures PushAll(rc.(stats := stats), records) == PushAll(rc, records).(stats := stats)
    ensures PushAll(rc, records).stats == rc.stats
  {
    if records != [] {
      PushAllStats(rc, stats, records[..|records| - 1]);
      PushCommutesWithStats(PushAll(rc, records[..|records| - 1]), stats, records[|records| - 1]);
    }
  }

  lemma PushCommutesWithStats(rc: Receiver, stats: Stats, r: Reception)
    ensures Push(rc.(stats := stats), r) == Push(rc, r).(stats := stats)
    ensures Push(rc, r).stats == rc.stats
  {
  }

  /** The witness after a whole batch. */
  function WitnessAll(w: World, st: Site, wit: Witness, rc: Receiver, sent: seq<Transmission>): Witness {
    Witness(wit.events + Hearings(w, st, sent), wit.log + HearAll(w, st, Ear(rc.stats, []), sent).records)
  }

  /** A whole batch keeps receiver and witness in agreement. */
  lemma {:induction false} ListensThrough(w: World, before: seq<Transmission>, sent: seq<Transmission>, k: nat, st: Site,
                                          rc: Receiver, wit: Witness)
    requires WorldSound(w) && SiteOk(w, st) && SentOk(w, before + sent) && k <= |sent|
    requires Listens(w, before, |before|, st, rc, wit)
    ensures Listens(w, before + sent, |before| + k, st, ListenAll(w, st, rc, sent[..k]), WitnessAll(w, st, wit, rc, sent[..k]))
  {
    hide Listens, Listen, OutcomeOf, CountHearing, NewReception, SentOk, WorldSound, SiteOk;
    if k == 0 {
      ListensLonger(w, before, sent, st, rc, wit);
      assert sent[..0] == [] && wit.events + [] == wit.events && wit.log + [] == wit.log;
      assert HearAll(w, st, Ear(rc.stats, []), sent[..0]).records == [];
      assert WitnessAll(w, st, wit, rc, sent[..0]) == wit;
    } else {
      ListensThrough(w, before, sent, k - 1, st, rc, wit);
      var mid, t := ListenAll(w, st, rc, sent[..k - 1]), sent[k - 1];
      ListensOn(w, before + sent, |before| + k - 1, st, mid, WitnessAll(w, st, wit, rc, sent[..k - 1]));
      assert (before + sent)[|before| + k - 1] == t;
      assert sent[..k][..k - 1] == sent[..k - 1];
      WitnessStep(w, st, wit, rc, sent[..k]);
    }
  }

  lemma WitnessStep(w: World, st: Site, wit: Witness, rc: Receiver, sent: seq<Transmission>)
    requires sent != []
    ensures var n := |sent| - 1;
            var mid := ListenAll(w, st, rc, sent[..n]);
            WitnessAll(w, st, wit, rc, sent) == ListenTo(w, st, WitnessAll(w, st, wit, rc, sent[..n]), mid, sent[n])
  {
    hide CountHearing, OutcomeOf, NewReception, Hear;
    var n := |sent| - 1;
    var front := HearAll(w, st, Ear(rc.stats, []), sent[..n]);
    StagedListening(w, st, rc, sent[..n]);
    PushAllStats(rc.(stats := front.stats), front.stats, front.records);
    HearAppends(w, st, front, sent[n]);
    assert Hearings(w, st, sent) == Hearings(w, st, sent[..n]) + [HearingOf(w, st, sent[n])];
  }
}
