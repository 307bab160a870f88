/** What the display accepts: every check of one snapshot or history page, stated at once
    (display/project.go). */
module Projections {
  import opened Basics
  import opened Model
  import opened Sorting
  import opened Wire
  import opened Agreement
  import RadioModel

  /** What references of a snapshot are checked against. A history page has none of it. */
  datatype Context = Context(limits: Limits, startedAt: int, now: int, transmissions: nat,
                             stations: map<string, WireStation>, selected: set<string>)

  predicate IdentityAccepted(view: Option<Context>, id: string, sequence: nat, transmission: nat) {
    && id != "" && sequence > 0 && transmission > 0
    && (view.Some? ==>
          var c := view.value;
          && id in c.stations && id in c.selected
          && c.stations[id].latest.Some? && sequence <= c.stations[id].latest.value
          && transmission <= c.transmissions)
  }

  predicate InSnapshot(c: Context, at: int) {
    c.startedAt <= at <= c.now
  }

  function StatusName(limits: Limits, age: int): string {
    if age <= limits.freshMs * MILLISECOND then "fresh"
    else if age <= limits.staleMs * MILLISECOND then "stale"
    else "lost"
  }

  predicate AgeAccepted(c: Context, ageMs: int, status: string, at: int) {
    var age := c.now - at;
    age < c.limits.expiryMs * MILLISECOND && ageMs == Millis(age) && status == StatusName(c.limits, age)
  }

  function ChannelText(channel: Channel): string {
    if channel == ChannelA then "A" else "B"
  }

  /** The sentence decodes to the identity and channel it is reported under, in the second it was received. */
  predicate PayloadAccepted(report: Option<Report>, r: WireReception) {
    && report.Some?
    && report.value.mmsi == r.mmsi && ChannelText(report.value.channel) == r.channel
    && (report.value.second.Some? ==> report.value.second.value == UtcSecond(r.timestamp))
  }

  predicate ReceptionAccepted(view: Option<Context>, decode: string -> Option<Report>, r: WireReception) {
    && IdentityAccepted(view, r.stationId, r.sequence, r.transmission)
    && ChannelName(r.channel) && r.timestamp != 0 && r.configRevision > 0 && r.rfRevision > 0 && r.vesselType != ""
    && r.receiver.channel.enabled && ReceiverAccepted(r.receiver) && RadioModel.LinkInRange(r.link)
    && (view.Some? ==>
          var st := view.value.stations[r.stationId];
          && r.configRevision <= st.configRevision && r.rfRevision <= st.rfRevision
          && InSnapshot(view.value, r.timestamp))
    && PayloadAccepted(decode(r.sentence), r)
  }

  predicate ProvenanceAccepted(c: Context, t: WireTarget, s: WireProvenance) {
    && IdentityAccepted(Some(c), s.stationId, s.sequence, s.transmission)
    && ChannelName(s.channel)
    && s.transmission <= t.report.transmission && s.chosen == (s.transmission == t.report.transmission)
    && s.stationEnabled == c.stations[s.stationId].definition.enabled
    && 1 <= s.rfRevision <= c.stations[s.stationId].rfRevision
    && InSnapshot(c, s.timestamp) && AgeAccepted(c, s.ageMs, s.status, s.timestamp)
  }

  predicate TargetAccepted(c: Context, decode: string -> Option<Report>, t: WireTarget) {
    && ReceptionAccepted(Some(c), decode, t.report) && t.mmsi == t.report.mmsi
    && AgeAccepted(c, t.ageMs, t.status, t.report.timestamp)
    && (forall i, j :: 0 <= i < j < |t.stations| ==> t.stations[i].stationId != t.stations[j].stationId)
    && (forall s <- t.stations ::
          ProvenanceAccepted(c, t, s) && (s.stationId == t.report.stationId ==> s.sequence == t.report.sequence))
    && (exists s <- t.stations :: s.stationId == t.report.stationId)
  }

  // ----- References -----

  function ReceptionRefs(r: WireReception): (refs: seq<Ref>) {
    [Names(r.stationId, r.sequence, r.transmission),
     Carries(r.transmission, Known(r.mmsi, r.channel, r.timestamp, r.sentence))]
  }

  function ProvenanceRefs(mmsi: nat, s: WireProvenance): seq<Ref> {
    [Names(s.stationId, s.sequence, s.transmission), Carries(s.transmission, Known(mmsi, s.channel, s.timestamp, ""))]
  }

  function StationsRefs(mmsi: nat, stations: seq<WireProvenance>): seq<Ref> {
    if stations == [] then []
    else StationsRefs(mmsi, stations[..|stations| - 1]) + ProvenanceRefs(mmsi, stations[|stations| - 1])
  }

  function TargetRefs(t: WireTarget): seq<Ref> {
    ReceptionRefs(t.report) + StationsRefs(t.mmsi, t.stations)
  }

  function TargetsRefs(targets: seq<WireTarget>): seq<Ref> {
    if targets == [] then [] else TargetsRefs(targets[..|targets| - 1]) + TargetRefs(targets[|targets| - 1])
  }

  function ReceptionsRefs(receptions: seq<WireReception>): seq<Ref> {
    if receptions == [] then []
    else ReceptionsRefs(receptions[..|receptions| - 1]) + ReceptionRefs(receptions[|receptions| - 1])
  }

  // ----- Counts -----

  function Provenances(targets: seq<WireTarget>): seq<WireProvenance> {
    if targets == [] then [] else Provenances(targets[..|targets| - 1]) + targets[|targets| - 1].stations
  }

  function CountAt(ps: seq<WireProvenance>, id: string, lost: bool): nat {
    if ps == [] then 0
    else
      var s := ps[|ps| - 1];
      CountAt(ps[..|ps| - 1], id, lost) + if s.stationId == id && (s.status == "lost") == lost then 1 else 0
  }

  function CountTargets(targets: seq<WireTarget>, lost: bool): nat {
    if targets == [] then 0
    else CountTargets(targets[..|targets| - 1], lost) + if (targets[|targets| - 1].status == "lost") == lost then 1 else 0
  }

  // ----- The snapshot -----

  predicate StringAtMost(a: string, b: string) {
    !StringLess(b, a)
  }

  function SortIds(ids: seq<string>): seq<string> {
    Sort(ids, StringAtMost)
  }

  function StationIds(stations: seq<WireStation>): (ids: seq<string>)
    ensures |ids| == |stations|
  {
    seq(|stations|, i requires 0 <= i < |stations| => stations[i].id)
  }

  function StationsById(stations: seq<WireStation>): map<string, WireStation> {
    if stations == [] then map[]
    else StationsById(stations[..|stations| - 1])[stations[|stations| - 1].id := stations[|stations| - 1]]
  }

  predicate EarlierReception(a: WireReception, b: WireReception) {
    a.timestamp < b.timestamp
    || (a.timestamp == b.timestamp
        && (a.transmission < b.transmission || (a.transmission == b.transmission && StringLess(a.stationId, b.stationId))))
  }

  function ContextOf(o: WireSnapshot): Context {
    Context(o.limits, o.startedAt, o.clock.now, o.transmissions, StationsById(o.stations), set id <- o.selection)
  }

  predicate HeaderAccepted(o: WireSnapshot) {
    && ClockAccepted(o.clock, o.startedAt, o.limits)
    && o.stateRevision > 0 && o.stationSetRevision > 0 && o.snapshotAt == o.clock.now && o.recentIsSample
    && |o.stations| <= o.limits.maxStations && |o.targets| <= o.limits.targetLimit && |o.recent| <= o.limits.recentLimit
    && o.receivedTransmissions <= o.transmissions && o.receivedTransmissions <= o.receptions
  }

  ghost predicate StationsAccepted(o: WireSnapshot) {
    && (forall s <- o.stations :: StationAccepted(s, o.limits, o.startedAt, o.clock.now))
    && (forall i :: 1 <= i < |o.stations| ==> StringLess(o.stations[i - 1].id, o.stations[i].id))
  }

  predicate SelectionAccepted(requested: Option<seq<string>>, o: WireSnapshot) {
    o.selection == SortIds(if requested.None? then StationIds(o.stations) else requested.value)
  }

  ghost predicate TargetsAccepted(c: Context, decode: string -> Option<Report>, o: WireSnapshot) {
    && (forall t <- o.targets :: TargetAccepted(c, decode, t))
    && (forall i, j :: 0 <= i < j < |o.targets| ==> o.targets[i].mmsi != o.targets[j].mmsi)
    && o.currentTargets == CountTargets(o.targets, false) && o.lostTargets == CountTargets(o.targets, true)
    && (forall s <- o.stations :: s.id in c.selected ==>
          s.currentTargets == CountAt(Provenances(o.targets), s.id, false)
          && s.lostTargets == CountAt(Provenances(o.targets), s.id, true))
  }

  ghost predicate RecentsAccepted(c: Context, decode: string -> Option<Report>, recent: seq<WireReception>) {
    && (forall r <- recent :: ReceptionAccepted(Some(c), decode, r))
    && (forall i, j :: 0 <= i < j < |recent| ==> (recent[i].stationId, recent[i].sequence) != (recent[j].stationId, recent[j].sequence))
    && (forall i :: 1 <= i < |recent| ==> !EarlierReception(recent[i], recent[i - 1]))
  }

  /** The whole snapshot: each part on its own, and one explanation of all its references. */
  ghost predicate SnapshotAccepted(decode: string -> Option<Report>, requested: Option<seq<string>>, o: WireSnapshot) {
    var c := ContextOf(o);
    && HeaderAccepted(o) && StationsAccepted(o) && SelectionAccepted(requested, o)
    && TargetsAccepted(c, decode, o) && RecentsAccepted(c, decode, o.recent)
    && Explained(TargetsRefs(o.targets) + ReceptionsRefs(o.recent))
  }

  // ----- The page -----

  const DEFAULT_HISTORY_LIMIT := 100

  function PageLimit(req: HistoryRequest): int {
    if req.limit == 0 then DEFAULT_HISTORY_LIMIT else req.limit
  }

  predicate PageHeaderAccepted(stationId: string, req: HistoryRequest, p: WirePage) {
    && p.simulationId == req.simulationId && p.stationId == stationId && p.tail == req.after.None?
    && |p.receptions| <= PageLimit(req)
    && p.oldest.None? == p.latest.None? && (p.oldest.Some? ==> 0 < p.oldest.value <= p.latest.value)
    && p.truncatedBefore.Some? == (p.oldest.Some? && p.oldest.value > 1)
    && (p.truncatedBefore.Some? ==> p.truncatedBefore.value == p.oldest.value)
    && (p.receptions != [] ==> p.oldest.Some?)
    && (req.after.Some? ==> if p.latest.Some? then req.after.value <= p.latest.value else req.after.value == 0)
  }

  predicate Follows(a: WireReception, b: WireReception) {
    b.sequence == a.sequence + 1 && a.transmission < b.transmission && a.timestamp <= b.timestamp
  }

  ghost predicate PageReceptionsAccepted(decode: string -> Option<Report>, stationId: string, p: WirePage) {
    && (forall r <- p.receptions ::
          r.stationId == stationId && p.oldest.Some? && p.latest.Some? && p.oldest.value <= r.sequence <= p.latest.value
          && ReceptionAccepted(None, decode, r))
    && (forall i :: 1 <= i < |p.receptions| ==> Follows(p.receptions[i - 1], p.receptions[i]))
  }

  predicate PageCursorAccepted(req: HistoryRequest, p: WirePage) {
    var n := |p.receptions|;
    && p.nextAfter == (if n > 0 then p.receptions[n - 1].sequence else if req.after.Some? then req.after.value else 0)
    && (n > 0 && req.after.None? ==> p.latest == Some(p.receptions[n - 1].sequence))
    && (n > 0 && req.after.Some? ==> p.oldest.Some? && p.receptions[0].sequence == Max(req.after.value + 1, p.oldest.value))
    && (n == 0 && p.latest.Some? ==> req.after.Some? && p.latest.value <= req.after.value)
    && p.hasMore == (p.latest.Some? && p.nextAfter < p.latest.value)
    && p.gap == (req.after.Some? && p.oldest.Some? && req.after.value < p.oldest.value - 1)
  }

  ghost predicate PageAccepted(decode: string -> Option<Report>, stationId: string, req: HistoryRequest, p: WirePage) {
    && PageHeaderAccepted(stationId, req, p) && PageReceptionsAccepted(decode, stationId, p)
    && PageCursorAccepted(req, p) && Explained(ReceptionsRefs(p.receptions))
  }
}
