/** Station definitions: validation, the canonical form, and shadow sectors (simulation/station.go). */
module Station {
  import opened Basics
  import opened Model
  import opened Sorting

  // ----- Shadow sectors -----

  /** The sector's half-open bearing interval, wrapping across north when start > end. */
  predicate Covers(s: Sector, bearing: real) {
    if s.start > s.end then bearing >= s.start || bearing < s.end
    else s.start <= bearing < s.end
  }

  predicate Bearing(b: real) {
    0.0 <= b < 360.0
  }

  predicate SectorInRange(s: Sector) {
    Bearing(s.start) && Bearing(s.end) && 0.0 <= s.loss <= 60.0
  }

  /** No bearing lies in two sectors. */
  ghost predicate Disjoint(sectors: seq<Sector>) {
    forall i, j, b: real :: 0 <= i < j < |sectors| && Bearing(b) && Covers(sectors[i], b) ==> !Covers(sectors[j], b)
  }

  ghost predicate SectorsValid(sectors: seq<Sector>) {
    && |sectors| <= MAX_SECTORS
    && (forall s <- sectors :: SectorInRange(s) && s.start != s.end)
    && Disjoint(sectors)
  }

  /** What a sector covers on one side of north: the bearings from start up to, not including, end. */
  datatype Span = Span(sector: nat, start: real, end: real)

  function SectorSpans(s: Sector, i: nat): seq<Span> {
    if s.start < s.end then [Span(i, s.start, s.end)]
    else [Span(i, s.start, 360.0), Span(i, 0.0, s.end)]
  }

  function Spans(sectors: seq<Sector>): seq<Span> {
    if sectors == [] then []
    else Spans(sectors[..|sectors| - 1]) + SectorSpans(sectors[|sectors| - 1], |sectors| - 1)
  }

  predicate Clash(a: Span, b: Span) {
    a.sector != b.sector && a.start < b.end && b.start < a.end
  }

  ghost predicate InSpan(spans: seq<Span>, p: nat, i: nat, b: real) {
    p < |spans| && spans[p].sector == i && spans[p].start <= b < spans[p].end
  }

  ghost predicate SpanCovers(spans: seq<Span>, i: nat, b: real) {
    exists p: nat :: InSpan(spans, p, i, b)
  }

  /** A sector covers a bearing exactly when one of its spans does. */
  lemma {:induction false} SpansCover(sectors: seq<Sector>, i: nat, b: real)
    requires forall s <- sectors :: SectorInRange(s) && s.start != s.end
    requires i < |sectors| && Bearing(b)
    ensures Covers(sectors[i], b) <==> SpanCovers(Spans(sectors), i, b)
  {
    var n := |sectors| - 1;
    var front, last := Spans(sectors[..n]), SectorSpans(sectors[n], n);
    var all := Spans(sectors);
    SpanSectors(sectors[..n]);
    if i < n {
      SpansCover(sectors[..n], i, b);
      if Covers(sectors[i], b) {
        var p: nat :| InSpan(front, p, i, b);
        assert InSpan(all, p, i, b);
      }
      if p: nat :| InSpan(all, p, i, b) {
        assert all == front + last;
        assert InSpan(front, p, i, b);
      }
    } else {
      if Covers(sectors[i], b) {
        var k: nat := if |last| == 2 && b < sectors[i].end then 1 else 0;
        assert InSpan(all, |front| + k, i, b);
      }
      if p: nat :| InSpan(all, p, i, b) {
        assert all == front + last;
        assert all[..|front|] == front && all[p] !in front;
        assert all[p] == last[p - |front|] && (all[p] == last[0] || all[p] == last[1]);
      }
    }
  }

  lemma {:induction false} SpanSectors(sectors: seq<Sector>)
    requires forall s <- sectors :: SectorInRange(s) && s.start != s.end
    ensures forall s <- Spans(sectors) :: s.sector < |sectors| && 0.0 <= s.start && s.end <= 360.0
    ensures forall s <- Spans(sectors) :: s.start < s.end || s.start == s.end == 0.0
  {
    if sectors != [] {
      SpanSectors(sectors[..|sectors| - 1]);
    }
  }

  ghost predicate NoClash(spans: seq<Span>) {
    forall p, q :: 0 <= p < q < |spans| ==> !Clash(spans[p], spans[q])
  }

  lemma ClashIsShared(sectors: seq<Sector>, p: nat, q: nat)
    requires forall s <- sectors :: SectorInRange(s) && s.start != s.end
    requires p < |Spans(sectors)| && q < |Spans(sectors)| && Clash(Spans(sectors)[p], Spans(sectors)[q])
    ensures !Disjoint(sectors)
  {
    var spans := Spans(sectors);
    SpanSectors(sectors);
    assert spans[p] in spans && spans[q] in spans;
    var b := if spans[p].start < spans[q].start then spans[q].start else spans[p].start;
    var i, j := spans[p].sector, spans[q].sector;
    assert InSpan(spans, p, i, b) && InSpan(spans, q, j, b);
    SpansCover(sectors, i, b);
    SpansCover(sectors, j, b);
  }

  lemma SharedIsClash(sectors: seq<Sector>, i: nat, j: nat, b: real)
    requires forall s <- sectors :: SectorInRange(s) && s.start != s.end
    requires i < j < |sectors| && Bearing(b) && Covers(sectors[i], b) && Covers(sectors[j], b)
    ensures !NoClash(Spans(sectors))
  {
    SpansCover(sectors, i, b);
    SpansCover(sectors, j, b);
    var p: nat :| InSpan(Spans(sectors), p, i, b);
    var q: nat :| InSpan(Spans(sectors), q, j, b);
    assert Clash(Spans(sectors)[p], Spans(sectors)[q]) && Clash(Spans(sectors)[q], Spans(sectors)[p]);
  }

  /** Two spans of different sectors clash exactly when some bearing lies in two sectors. */
  lemma ClashIffShared(sectors: seq<Sector>)
    requires forall s <- sectors :: SectorInRange(s) && s.start != s.end
    ensures NoClash(Spans(sectors)) <==> Disjoint(sectors)
  {
    if p, q :| 0 <= p < q < |Spans(sectors)| && Clash(Spans(sectors)[p], Spans(sectors)[q]) {
      ClashIsShared(sectors, p, q);
    } else if i, j, b: real :| 0 <= i < j < |sectors| && Bearing(b) && Covers(sectors[i], b) && Covers(sectors[j], b) {
      SharedIsClash(sectors, i, j, b);
    }
  }

  /** validateSectors accepts exactly the bounded, in-range, pairwise disjoint sectors. */
  method ValidateSectors(sectors: seq<Sector>) returns (ok: bool)
    ensures ok <==> SectorsValid(sectors)
  {
    if |sectors| > MAX_SECTORS {
      return false;
    }
    var spans: seq<Span> := [];
    for i := 0 to |sectors|
      invariant forall k :: 0 <= k < i ==> SectorInRange(sectors[k]) && sectors[k].start != sectors[k].end
      invariant spans == Spans(sectors[..i])
    {
      var sector := sectors[i];
      assert sectors[..i + 1][..i] == sectors[..i] && sector in sectors;
      if !SectorInRange(sector) || sector.start == sector.end {
        return false;
      }
      if sector.start < sector.end {
        spans := spans + [Span(i, sector.start, sector.end)];
      } else {
        spans := spans + [Span(i, sector.start, 360.0), Span(i, 0.0, sector.end)];
      }
    }
    assert sectors[..|sectors|] == sectors;
    ClashIffShared(sectors);
    for p := 0 to |spans|
      invariant forall x, y :: 0 <= x < p && x < y < |spans| ==> !Clash(spans[x], spans[y])
    {
      for q := p + 1 to |spans|
        invariant forall x, y :: 0 <= x < p && x < y < |spans| ==> !Clash(spans[x], spans[y])
        invariant forall y :: p < y < q ==> !Clash(spans[p], spans[y])
      {
        if Clash(spans[p], spans[q]) {
          return false;
        }
      }
    }
    ok := true;
  }

  /** The loss of the first sector covering the bearing, or 0. */
  function ShadowLoss(sectors: seq<Sector>, bearing: real): real {
    if sectors == [] then 0.0
    else if Covers(sectors[0], bearing) then sectors[0].loss
    else ShadowLoss(sectors[1..], bearing)
  }

  /** The loss does not depend on the order of disjoint sectors. */
  lemma {:induction false} ShadowLossIsTheCoveringLoss(sectors: seq<Sector>, bearing: real)
    requires Disjoint(sectors) && Bearing(bearing)
    ensures forall s <- sectors :: Covers(s, bearing) ==> ShadowLoss(sectors, bearing) == s.loss
    ensures (forall s <- sectors :: !Covers(s, bearing)) ==> ShadowLoss(sectors, bearing) == 0.0
  {
    if sectors != [] {
      forall i, j, b: real | 0 <= i < j < |sectors[1..]| && Bearing(b) && Covers(sectors[1..][i], b)
        ensures !Covers(sectors[1..][j], b)
      {
        assert sectors[1..][i] == sectors[i + 1] && sectors[1..][j] == sectors[j + 1];
      }
      ShadowLossIsTheCoveringLoss(sectors[1..], bearing);
      assert sectors == [sectors[0]] + sectors[1..];
    }
  }

  predicate StartsBefore(a: Sector, b: Sector) {
    a.start <= b.start
  }

  function SortSectors(sectors: seq<Sector>): seq<Sector> {
    Sort(sectors, StartsBefore)
  }

  /** Disjoint nonempty sectors have distinct starts: a start lies in its own sector. */
  lemma StartsDiffer(sectors: seq<Sector>, i: nat, j: nat)
    requires SectorsValid(sectors) && i < j < |sectors|
    ensures sectors[i].start != sectors[j].start
  {
    assert Covers(sectors[j], sectors[j].start) && Covers(sectors[i], sectors[i].start);
  }

  lemma ValidSectorsHaveDistinctStarts(sectors: seq<Sector>)
    requires SectorsValid(sectors)
    ensures DistinctKeys(sectors, StartsBefore)
  {
    forall x, y | x in sectors && y in sectors && x.start == y.start
      ensures x == y
    {
      var i :| 0 <= i < |sectors| && sectors[i] == x;
      var j :| 0 <= j < |sectors| && sectors[j] == y;
      if i < j {
        StartsDiffer(sectors, i, j);
      } else if j < i {
        StartsDiffer(sectors, j, i);
      }
    }
  }

  /** Validity does not depend on the order of the sectors. */
  lemma ValidityIsOrderFree(a: seq<Sector>, b: seq<Sector>)
    requires SectorsValid(a) && multiset(a) == multiset(b)
    ensures SectorsValid(b)
  {
    assert |multiset(a)| == |a| && |multiset(b)| == |b|;
    forall s | s in b
      ensures SectorInRange(s) && s.start != s.end
    {
      assert s in multiset(b);
    }
    forall i, j, x: real | 0 <= i < j < |b| && Bearing(x) && Covers(b[i], x)
      ensures !Covers(b[j], x)
    {
      TwoPlaces(a, b, i, j);
      var p, q :| 0 <= p < q < |a| && {a[p], a[q]} == {b[i], b[j]};
      assert Covers(a[p], x) ==> !Covers(a[q], x);
      assert a[p] == b[i] || a[q] == b[i];
      assert a[p] == b[j] || a[q] == b[j];
    }
  }

  /** The canonical sector list: idempotent, the same for every permutation, with the same shadow at every bearing. */
  lemma CanonicalSectors(sectors: seq<Sector>)
    requires SectorsValid(sectors)
    ensures SectorsValid(SortSectors(sectors))
    ensures SortSectors(SortSectors(sectors)) == SortSectors(sectors)
    ensures forall other :: multiset(other) == multiset(sectors) ==> SortSectors(other) == SortSectors(sectors)
    ensures forall b: real :: Bearing(b) ==> ShadowLoss(SortSectors(sectors), b) == ShadowLoss(sectors, b)
  {
    var sorted := SortSectors(sectors);
    ValidSectorsHaveDistinctStarts(sectors);
    SortCorrect(sectors, StartsBefore);
    ValidityIsOrderFree(sectors, sorted);
    ValidSectorsHaveDistinctStarts(sorted);
    SortOfSorted(sorted, StartsBefore);
    forall other | multiset(other) == multiset(sectors)
      ensures SortSectors(other) == sorted
    {
      SortOfPermutation(sectors, other, StartsBefore);
    }
    forall b: real | Bearing(b)
      ensures ShadowLoss(sorted, b) == ShadowLoss(sectors, b)
    {
      ShadowLossIsTheCoveringLoss(sectors, b);
      ShadowLossIsTheCoveringLoss(sorted, b);
      if s :| s in sectors && Covers(s, b) {
        assert s in sorted;
      }
    }
  }

  // ----- Definitions -----

  predicate Space(c: char) {
    || '\t' <= c <= '\r' || c in {' ', '\U{0085}', '\U{00A0}', '\U{1680}'}
    || '\U{2000}' <= c <= '\U{200A}' || c in {'\U{2028}', '\U{2029}', '\U{202F}', '\U{205F}', '\U{3000}'}
  }

  predicate NameValid(name: string) {
    (exists c <- name :: !Space(c)) && |name| <= MAX_NAME_RUNES
  }

  predicate ChannelValid(c: ReceiverChannel) {
    -125.0 <= c.sensitivity <= -80.0 && 0.0 <= c.noisePenalty <= 40.0 && 0.0 <= c.drop <= 1.0
  }

  predicate TransmitterValid(t: Transmitter) {
    && 0.0 < t.power <= 25.0 && 0.0 < t.height <= 100.0
    && -10.0 <= t.gain <= 20.0 && 0.0 <= t.feederLoss <= 30.0
  }

  predicate SiteValid(latitude: real, longitude: real, height: real, gain: real, feederLoss: real) {
    && -85.0 <= latitude <= 85.0 && -180.0 <= longitude <= 180.0 && 0.0 < height <= 500.0
    && -10.0 <= gain <= 20.0 && 0.0 <= feederLoss <= 30.0
  }

  ghost predicate DefinitionValid(d: Definition) {
    && NameValid(d.name)
    && SiteValid(d.latitude, d.longitude, d.height, d.gain, d.feederLoss)
    && ChannelValid(d.channelA) && ChannelValid(d.channelB)
    && SectorsValid(d.sectors)
  }

  /** canonicalStation of a valid definition: longitude 180 as -180, sectors sorted by start. */
  function CanonicalForm(d: Definition): Definition {
    d.(longitude := if d.longitude == 180.0 then -180.0 else d.longitude, sectors := SortSectors(d.sectors))
  }

  /** A stored definition. */
  ghost predicate Canonical(d: Definition) {
    DefinitionValid(d) && d.longitude != 180.0 && SortSectors(d.sectors) == d.sectors
  }

  lemma CanonicalFormIsCanonical(d: Definition)
    requires DefinitionValid(d)
    ensures Canonical(CanonicalForm(d))
    ensures CanonicalForm(CanonicalForm(d)) == CanonicalForm(d)
  {
    CanonicalSectors(d.sectors);
  }

  /** canonicalStation: the canonical form, or None for a rejected definition. */
  method CanonicalStation(d: Definition) returns (r: Option<Definition>)
    ensures r == if DefinitionValid(d) then Some(CanonicalForm(d)) else None
  {
    var sectorsOk := ValidateSectors(d.sectors);
    if NameValid(d.name) && SiteValid(d.latitude, d.longitude, d.height, d.gain, d.feederLoss)
       && ChannelValid(d.channelA) && ChannelValid(d.channelB) && sectorsOk {
      r := Some(CanonicalForm(d));
    } else {
      r := None;
    }
  }
}
