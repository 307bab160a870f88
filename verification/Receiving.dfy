/** One station's view of a batch: although every transmission is evaluated at all stations in turn, each station's
    counters and records depend on that station alone (simulation/observation.go). */
module Receiving {
  import opened Basics
  import opened Model
  import opened Worlds
  import opened Engine
  import opened RateWindow
  import RadioModel

  /** One station's staged counters and new records. */
  datatype Ear = Ear(stats: Stats, records: seq<Reception>)

  function HearingOf(w: World, st: Site, t: Transmission): Hearing {
    Hearing(OutcomeOf(w, st, t), t.channel, SecondOf(w, t))
  }

  function Hear(w: World, st: Site, ear: Ear, t: Transmission): Ear {
    var counted := CountHearing(ear.stats, HearingOf(w, st, t));
    if OutcomeOf(w, st, t) != Received then Ear(counted, ear.records)
    else
      var next := counted.(last := counted.last + 1);
      Ear(next, ear.records + [NewReception(st, next.last, t, LinkOf(w, st, t))])
  }

  function HearAll(w: World, st: Site, ear: Ear, sent: seq<Transmission>): Ear {
    if sent == [] then ear
    else Hear(w, st, HearAll(w, st, ear, sent[..|sent| - 1]), sent[|sent| - 1])
  }

  function Hearings(w: World, st: Site, sent: seq<Transmission>): (r: seq<Hearing>)
    ensures |r| == |sent|
  {
    seq(|sent|, i requires 0 <= i < |sent| => HearingOf(w, st, sent[i]))
  }

  /** The records of one station. */
  function OfStation(records: seq<Reception>, id: string): seq<Reception> {
    if records == [] then []
    else
      var front, r := OfStation(records[..|records| - 1], id), records[|records| - 1];
      if r.stationId == id then front + [r] else front
  }

  lemma OfStationAppend(records: seq<Reception>, r: Reception, id: string)
    ensures OfStation(records + [r], id) == OfStation(records, id) + if r.stationId == id then [r] else []
  {
    assert (records + [r])[..|records|] == records;
  }

  lemma {:induction false} OfStationConcat(a: seq<Reception>, b: seq<Reception>, id: string)
    ensures OfStation(a + b, id) == OfStation(a, id) + OfStation(b, id)
  {
    if b == [] {
      assert a + b == a;
    } else {
      OfStationConcat(a, b[..|b| - 1], id);
      assert a + b == (a + b[..|b| - 1]) + [b[|b| - 1]];
      OfStationAppend(a + b[..|b| - 1], b[|b| - 1], id);
    }
  }

  ghost predicate DistinctIds(stations: seq<Site>) {
    forall i, j :: 0 <= i < j < |stations| ==> stations[i].id != stations[j].id
  }

  /** Station i of a batch. */
  function EarOf(b: Batch, stations: seq<Site>, i: nat): Ear
    requires i < |stations| == |b.stats|
  {
    Ear(b.stats[i], OfStation(b.records, stations[i].id))
  }

  /** Evaluating t at station k changes that station's ear only. */
  lemma ReceiveAtHears(w: World, stations: seq<Site>, p: Partial, t: Transmission, k: nat, i: nat)
    requires |stations| == |p.batch.stats| && DistinctIds(stations) && k < |stations| && i < |stations|
    requires ReceiveAt(w, stations[k], p, k, t).Some?
    ensures EarOf(ReceiveAt(w, stations[k], p, k, t).value.batch, stations, i)
         == if i == k then Hear(w, stations[k], EarOf(p.batch, stations, k), t) else EarOf(p.batch, stations, i)
  {
    var st := stations[k];
    var stats := Count(p.batch.stats[k], OutcomeOf(w, st, t), t.channel, SecondOf(w, t));
    var r := NewReception(st, stats.last + 1, t, LinkOf(w, st, t));
    assert r.stationId == st.id;
    hide Count, NewReception, OutcomeOf, LinkOf;
    OfStationAppend(p.batch.records, r, stations[i].id);
    if i != k {
      assert stations[i].id != st.id;
    }
  }

  lemma {:induction false} ReceiveUpToHears(w: World, stations: seq<Site>, b: Batch, t: Transmission, k: nat, i: nat)
    requires |stations| == |b.stats| && DistinctIds(stations) && k <= |stations| && i < |stations|
    requires ReceiveUpTo(w, stations, b, t, k).Some?
    ensures EarOf(ReceiveUpTo(w, stations, b, t, k).value.batch, stations, i)
         == if i < k then Hear(w, stations[i], EarOf(b, stations, i), t) else EarOf(b, stations, i)
  {
    hide ReceiveAt, Hear, EarOf;
    if k > 0 {
      ReceiveUpToHears(w, stations, b, t, k - 1, i);
      ReceiveUpToHears(w, stations, b, t, k - 1, k - 1);
      ReceiveAtHears(w, stations, ReceiveUpTo(w, stations, b, t, k - 1).value, t, k - 1, i);
    }
  }

  /** The whole batch, station by station. */
  lemma {:induction false} ReceiveAllHears(w: World, stations: seq<Site>, b: Batch, sent: seq<Transmission>, i: nat)
    requires |stations| == |b.stats| && DistinctIds(stations) && i < |stations|
    requires ReceiveAll(w, stations, b, sent).Some?
    ensures EarOf(ReceiveAll(w, stations, b, sent).value, stations, i)
         == HearAll(w, stations[i], EarOf(b, stations, i), sent)
  {
    hide ReceiveUpTo, Hear;
    if sent != [] {
      var n := |sent| - 1;
      ReceiveAllHears(w, stations, b, sent[..n], i);
      var p := ReceiveAll(w, stations, b, sent[..n]).value;
      ReceiveUpToHears(w, stations, p, sent[n], |stations|, i);
    }
  }

  // ----- Totals and order of the batch -----

  /** Bookkeeping of a batch over transmissions base + 1 through s: totals count records, and records follow
      transmission order. */
  ghost predicate BatchOk(b: Batch, stations: seq<Site>, base: nat, s: nat) {
    && b.receptions <= MAX_UINT64
    && (forall i, j :: 0 <= i < j < |b.records| ==> b.records[i].transmission <= b.records[j].transmission)
    && (forall r <- b.records :: base < r.transmission <= s && exists st <- stations :: st.id == r.stationId)
  }

  /** The transmissions that some record is of. */
  function HeardOf(records: seq<Reception>): set<nat> {
    set r <- records :: r.transmission
  }

  lemma ReceivedAppend(records: seq<Reception>, r: Reception)
    ensures HeardOf(records + [r]) == HeardOf(records) + {r.transmission}
  {
    assert forall x :: x in records + [r] <==> x in records || x == r;
    assert r in records + [r];
  }

  lemma ReceivedConcat(a: seq<Reception>, b: seq<Reception>, n: nat)
    requires (forall r <- a :: r.transmission <= n) && (forall r <- b :: r.transmission > n)
    ensures |HeardOf(a + b)| == |HeardOf(a)| + |HeardOf(b)|
  {
    assert forall x :: x in a + b <==> x in a || x in b;
    assert HeardOf(a + b) == HeardOf(a) + HeardOf(b);
    assert HeardOf(a) !! HeardOf(b);
  }

  lemma ReceiveAtAdds(w: World, st: Site, p: Partial, i: nat, t: Transmission)
    requires i < |p.batch.stats| && ReceiveAt(w, st, p, i, t).Some?
    ensures var q := ReceiveAt(w, st, p, i, t).value;
            if OutcomeOf(w, st, t) == Received
            then q.received && HeardOf(q.batch.records) == HeardOf(p.batch.records) + {t.message.sequence}
            else q.received == p.received && q.batch.records == p.batch.records
  {
    hide Count, OutcomeOf, LinkOf, HeardOf;
    var r := NewReception(st, Count(p.batch.stats[i], OutcomeOf(w, st, t), t.channel, SecondOf(w, t)).last + 1, t, LinkOf(w, st, t));
    ReceivedAppend(p.batch.records, r);
  }

  /** The records ReceiveUpTo adds are all of t. */
  lemma {:induction false} ReceiveUpToAdds(w: World, stations: seq<Site>, b: Batch, t: Transmission, k: nat)
    requires |stations| == |b.stats| && k <= |stations| && ReceiveUpTo(w, stations, b, t, k).Some?
    ensures var p := ReceiveUpTo(w, stations, b, t, k).value;
            HeardOf(p.batch.records) == HeardOf(b.records) + if p.received then {t.message.sequence} else {}
  {
    hide ReceiveAt, HeardOf, OutcomeOf;
    if k > 0 {
      ReceiveUpToAdds(w, stations, b, t, k - 1);
      ReceiveAtAdds(w, stations[k - 1], ReceiveUpTo(w, stations, b, t, k - 1).value, k - 1, t);
    }
  }

  lemma {:induction false} ReceiveUpToKeepsBatch(w: World, stations: seq<Site>, b: Batch, t: Transmission, base: nat, k: nat)
    requires |stations| == |b.stats| && k <= |stations| && BatchOk(b, stations, base, t.message.sequence)
    requires base < t.message.sequence
    requires ReceiveUpTo(w, stations, b, t, k).Some?
    ensures var p := ReceiveUpTo(w, stations, b, t, k).value;
            && BatchOk(p.batch, stations, base, t.message.sequence)
            && p.batch.receivedTransmissions == b.receivedTransmissions
            && b.records <= p.batch.records
            && p.batch.receptions - b.receptions == |p.batch.records| - |b.records|
            && (p.received <==> |p.batch.records| > |b.records|)
  {
    hide Count, RadioModel.Decide;
    if k > 0 {
      ReceiveUpToKeepsBatch(w, stations, b, t, base, k - 1);
      assert stations[k - 1] in stations;
    }
  }

  /** Totals: receptions grow by the records, and received transmissions by the distinct transmissions among them. */
  lemma {:induction false} ReceiveAllCounts(w: World, stations: seq<Site>, b: Batch, sent: seq<Transmission>, base: nat)
    requires |stations| == |b.stats| && BatchOk(b, stations, base, base)
    requires forall i :: 0 <= i < |sent| ==> sent[i].message.sequence == base + i + 1
    requires ReceiveAll(w, stations, b, sent).Some?
    ensures var c := ReceiveAll(w, stations, b, sent).value;
            c.receivedTransmissions - b.receivedTransmissions == |HeardOf(c.records)| - |HeardOf(b.records)|
  {
    hide ReceiveUpTo, BatchOk, HeardOf;
    if sent != [] {
      var n := |sent| - 1;
      ReceiveAllCounts(w, stations, b, sent[..n], base);
      ReceiveAllKeepsBatch(w, stations, b, sent[..n], base);
      var p := ReceiveAll(w, stations, b, sent[..n]).value;
      ReceiveUpToAdds(w, stations, p, sent[n], |stations|);
      NotYetReceived(p, stations, base, base + n);
      BatchGrows(p, stations, base, base + n, base + n + 1);
      ReceiveUpToKeepsBatch(w, stations, p, sent[n], base, |stations|);
    }
  }

  lemma NotYetReceived(b: Batch, stations: seq<Site>, base: nat, s: nat)
    requires BatchOk(b, stations, base, s)
    ensures s + 1 !in HeardOf(b.records)
  {
  }

  /** Bounds that follow, and the order of the records. */
  lemma {:induction false} ReceiveAllKeepsBatch(w: World, stations: seq<Site>, b: Batch, sent: seq<Transmission>, base: nat)
    requires |stations| == |b.stats| && BatchOk(b, stations, base, base)
    requires forall i :: 0 <= i < |sent| ==> sent[i].message.sequence == base + i + 1
    requires ReceiveAll(w, stations, b, sent).Some?
    ensures var c := ReceiveAll(w, stations, b, sent).value;
            && BatchOk(c, stations, base, base + |sent|)
            && b.records <= c.records
            && c.receptions - b.receptions == |c.records| - |b.records|
            && 0 <= c.receivedTransmissions - b.receivedTransmissions <= |sent|
            && c.receivedTransmissions - b.receivedTransmissions <= |c.records| - |b.records|
  {
    hide ReceiveUpTo;
    if sent != [] {
      var n := |sent| - 1;
      ReceiveAllKeepsBatch(w, stations, b, sent[..n], base);
      var p := ReceiveAll(w, stations, b, sent[..n]).value;
      BatchGrows(p, stations, base, base + n, base + n + 1);
      ReceiveUpToKeepsBatch(w, stations, p, sent[n], base, |stations|);
    }
  }

  lemma BatchGrows(b: Batch, stations: seq<Site>, base: nat, s: nat, s': nat)
    requires BatchOk(b, stations, base, s) && s <= s'
    ensures BatchOk(b, stations, base, s')
  {
  }

  lemma {:induction false} RecordsComeFromStations(records: seq<Reception>, id: string)
    ensures forall r :: r in OfStation(records, id) <==> r in records && r.stationId == id
  {
    if records != [] {
      RecordsComeFromStations(records[..|records| - 1], id);
      assert records == records[..|records| - 1] + [records[|records| - 1]];
    }
  }
}
