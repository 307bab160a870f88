/** The projector's incremental agreement check is global: references to transmissions and receptions pass it exactly if
    one assignment explains them all (display/project.go). */
module Agreement {
  import opened Basics

  /** The content that references naming the same transmission have in common. An empty sentence fits every sentence. */
  datatype Known = Known(mmsi: nat, channel: string, timestamp: int, sentence: string)

  /** A reference names the transmission of a reception, or says what a transmission carried. */
  datatype Ref = Names(stationId: string, sequence: nat, transmission: nat) | Carries(transmission: nat, known: Known)

  /** The maps filled in while checking. */
  datatype Table = Table(received: map<(string, nat), nat>, sent: map<nat, Known>)

  predicate Disagree(a: Known, b: Known) {
    a.mmsi != b.mmsi || a.channel != b.channel || a.timestamp != b.timestamp
    || (a.sentence != "" && b.sentence != "" && a.sentence != b.sentence)
  }

  /** One reference against the maps; None rejects it. */
  function Note(t: Table, r: Ref): Option<Table> {
    match r
    case Names(id, sequence, transmission) =>
      var key := (id, sequence);
      if key in t.received && t.received[key] != transmission then None
      else Some(t.(received := t.received[key := transmission]))
    case Carries(transmission, known) =>
      if transmission !in t.sent then Some(t.(sent := t.sent[transmission := known]))
      else
        var before := t.sent[transmission];
        if Disagree(before, known) then None
        else if before.sentence == "" then Some(t.(sent := t.sent[transmission := before.(sentence := known.sentence)]))
        else Some(t)
  }

  function NoteAll(refs: seq<Ref>): Option<Table> {
    if refs == [] then Some(Table(map[], map[]))
    else
      var t := NoteAll(refs[..|refs| - 1]);
      if t.None? then None else Note(t.value, refs[|refs| - 1])
  }

  // ----- The global meaning -----

  /** One transmission per reception and one content per transmission. */
  datatype Assignment = Assignment(transmissionOf: (string, nat) -> nat, content: nat -> Known)

  predicate Fits(k: Known, full: Known) {
    full.mmsi == k.mmsi && full.channel == k.channel && full.timestamp == k.timestamp
    && (k.sentence == "" || full.sentence == k.sentence)
  }

  predicate ExplainsOne(a: Assignment, r: Ref) {
    match r
    case Names(id, sequence, transmission) => a.transmissionOf(id, sequence) == transmission
    case Carries(transmission, known) => Fits(known, a.content(transmission))
  }

  ghost predicate Explains(a: Assignment, refs: seq<Ref>) {
    forall r <- refs :: ExplainsOne(a, r)
  }

  ghost predicate Explained(refs: seq<Ref>) {
    exists a: Assignment :: Explains(a, refs)
  }

  /** The maps are the least information every explanation contains. */
  ghost predicate Within(t: Table, a: Assignment) {
    && (forall k <- t.received :: a.transmissionOf(k.0, k.1) == t.received[k])
    && (forall k <- t.sent :: Fits(t.sent[k], a.content(k)))
  }

  /** The assignment read off the maps. */
  function Reading(t: Table): Assignment {
    Assignment((id, sequence) => if (id, sequence) in t.received then t.received[(id, sequence)] else 0,
               k => if k in t.sent then t.sent[k] else Known(0, "", 0, ""))
  }

  lemma NoteExplains(t: Table, r: Ref, x: Ref)
    requires Note(t, r).Some? && ((ExplainsOne(Reading(t), x) && Mentioned(t, x)) || x == r)
    ensures ExplainsOne(Reading(Note(t, r).value), x) && Mentioned(Note(t, r).value, x)
  {
  }

  predicate Mentioned(t: Table, r: Ref) {
    match r
    case Names(id, sequence, _) => (id, sequence) in t.received
    case Carries(transmission, _) => transmission in t.sent
  }

  /** Accepted references are explained by what the maps hold. */
  lemma {:induction false} AcceptedIsExplained(refs: seq<Ref>)
    requires NoteAll(refs).Some?
    ensures Explains(Reading(NoteAll(refs).value), refs)
    ensures forall r <- refs :: Mentioned(NoteAll(refs).value, r)
  {
    hide Note, ExplainsOne, Reading, Mentioned;
    if refs != [] {
      var n := |refs| - 1;
      AcceptedIsExplained(refs[..n]);
      var t := NoteAll(refs[..n]).value;
      forall x | x in refs
        ensures ExplainsOne(Reading(Note(t, refs[n]).value), x) && Mentioned(Note(t, refs[n]).value, x)
      {
        assert refs == refs[..n] + [refs[n]];
        NoteExplains(t, refs[n], x);
      }
    }
  }

  lemma NoteFollows(t: Table, r: Ref, a: Assignment)
    requires Within(t, a) && ExplainsOne(a, r)
    ensures Note(t, r).Some? && Within(Note(t, r).value, a)
  {
  }

  /** Explained references are accepted. */
  lemma {:induction false} ExplainedIsAccepted(refs: seq<Ref>, a: Assignment)
    requires Explains(a, refs)
    ensures NoteAll(refs).Some? && Within(NoteAll(refs).value, a)
  {
    hide Note, ExplainsOne;
    if refs != [] {
      var n := |refs| - 1;
      ExplainedIsAccepted(refs[..n], a);
      NoteFollows(NoteAll(refs[..n]).value, refs[n], a);
    }
  }

  /** Checking references one by one accepts them exactly if one assignment explains them all. */
  lemma AcceptedIffExplained(refs: seq<Ref>)
    ensures NoteAll(refs).Some? <==> Explained(refs)
  {
    hide NoteAll, Explains;
    if NoteAll(refs).Some? {
      AcceptedIsExplained(refs);
    }
    if a :| Explains(a, refs) {
      ExplainedIsAccepted(refs, a);
    }
  }

  /** Acceptance depends neither on the order of the references nor on repetitions. */
  lemma OrderIrrelevant(x: seq<Ref>, y: seq<Ref>)
    requires forall r :: r in x <==> r in y
    ensures NoteAll(x).Some? <==> NoteAll(y).Some?
  {
    hide NoteAll, ExplainsOne;
    AcceptedIffExplained(x);
    AcceptedIffExplained(y);
    if a :| Explains(a, x) {
      assert Explains(a, y);
    }
    if a :| Explains(a, y) {
      assert Explains(a, x);
    }
  }
}
