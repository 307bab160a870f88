/** The optimistic station editor: any number of browsers, polls and writes against one server that may restart
    (ui/internal/assets/static/js/stations.js, simulation/station.go, internal/simdriver/driver.go). */
module StationEditing {
  import opened Basics
  import opened Model
  import Station

  type Rows = map<string, Definition>

  /** A station set as served. at is its place among all sets the server ever had; no browser reads it. */
  datatype StationSet = StationSet(run: string, revision: nat, rows: Rows, at: nat)

  predicate SameVersion(a: StationSet, b: StationSet) {
    a.run == b.run && a.revision == b.revision
  }

  /** One change as sent: an ID to edit or none to add, and a definition or none to delete. base is the set of rows the
      change was computed from or reviewed against. */
  datatype Change = Change(run: string, revision: nat, id: Option<string>, value: Option<Definition>, base: Rows)

  datatype Draft = Draft(id: Option<string>, run: string, revision: nat, base: Rows)

  datatype Answer = Applied(result: StationSet) | Refused | Broken

  /** Where a save is between its awaits. */
  datatype Save = Idle | Sent(change: Change) | Answered(answer: Answer) | Reloading | Reloaded(current: Option<StationSet>)

  /** A poll of the station list: the generation it started under and its answer once the server gave one. */
  datatype Poll = NoPoll | Asked(started: nat) | Heard(started: nat, answer: StationSet)

  /** One mounted page. table holds the rows the buttons were rendered from; shown is what the conflict panel shows. */
  datatype Page = Page(snapshot: Option<StationSet>, table: Rows, draft: Option<Draft>, save: Save, generation: nat,
                       conflict: bool, shown: Rows, poll: Poll)

  function NewPage(): Page {
    Page(None, map[], None, Idle, 0, false, map[], NoPoll)
  }

  predicate Saving(p: Page) {
    !p.save.Idle?
  }

  // ----- Event handlers -----

  predicate DraftMatches(d: Draft, s: StationSet) {
    d.run == s.run && d.revision == s.revision
  }

  /** showConflict: the panel shows the current rows. */
  function ShowConflict(p: Page): Page
    requires p.snapshot.Some?
  {
    p.(conflict := true, shown := p.snapshot.value.rows)
  }

  /** accept: the table is rendered again only for another run or revision. */
  function Accept(p: Page, value: StationSet): Page {
    var changed := p.snapshot.None? || !SameVersion(value, p.snapshot.value);
    var taken := p.(snapshot := Some(value));
    var reviewed := if p.draft.Some? && !DraftMatches(p.draft.value, value) then ShowConflict(taken) else taken;
    if changed then reviewed.(table := value.rows) else reviewed
  }

  /** begin: a draft for a row of the table, or for a new station. */
  function Begin(p: Page, id: Option<string>): Page {
    if p.snapshot.None? || Saving(p) || p.draft.Some? then p
    else
      p.(draft := Some(Draft(id, p.snapshot.value.run, p.snapshot.value.revision, p.table)), conflict := false)
  }

  /** save up to its first await. */
  function StartSave(p: Page, change: Change): Page {
    if Saving(p) then p else p.(save := Sent(change), generation := p.generation + 1)
  }

  /** mutate: a row button applies its captured row under the current snapshot's identity. */
  function Mutate(p: Page, id: string, value: Option<Definition>): Page {
    if p.draft.Some? || p.snapshot.None? then p
    else StartSave(p, Change(p.snapshot.value.run, p.snapshot.value.revision, Some(id), value, p.table))
  }

  function Submit(p: Page, value: Definition): Page {
    if p.draft.None? || p.conflict then p
    else
      var d := p.draft.value;
      StartSave(p, Change(d.run, d.revision, d.id, Some(value), d.base))
  }

  function Cancel(p: Page): Page {
    p.(draft := None, conflict := false)
  }

  /** The rebase button: the draft, reviewed against what the panel shows, takes the current identity. */
  function Rebase(p: Page): Page {
    if p.draft.None? || Saving(p) || p.snapshot.None? then p
    else
      var d, s := p.draft.value, p.snapshot.value;
      var id := if d.run != s.run || d.id.None? || d.id.value !in s.rows then None else d.id;
      p.(draft := Some(Draft(id, s.run, s.revision, if DraftMatches(d, s) then d.base else p.shown)), conflict := false)
  }

  function EndSave(p: Page): Page {
    p.(save := Idle, generation := p.generation + 1)
  }

  /** The save after its first await. */
  function FinishSave(p: Page): Page {
    match p.save
    case Answered(Applied(result)) => EndSave(Accept(p.(draft := None, conflict := false), result))
    case Answered(Refused) => p.(save := Reloading)
    case Answered(Broken) => EndSave(p)
    case _ => p
  }

  /** The refused save after the station list was requested again; None if that failed. */
  function FinishReload(p: Page): Page {
    match p.save
    case Reloaded(current) =>
      var q := if current.Some? then Accept(p, current.value) else p;
      EndSave(if q.draft.Some? && q.snapshot.Some? then ShowConflict(q) else q)
    case _ => p
  }

  /** refresh after its await. */
  function FinishPoll(p: Page): Page {
    match p.poll
    case Heard(started, answer) =>
      var done := p.(poll := NoPoll);
      if started == p.generation && !Saving(p) then Accept(done, answer) else done
    case _ => p
  }

  // ----- The server -----

  /** The rows after a change: the new station's ID is given. None if the change is invalid or names no station. */
  ghost function Edited(rows: Rows, c: Change, newId: string): Option<Rows> {
    if c.id.Some? && c.id.value !in rows then None
    else if c.value.None? then if c.id.Some? then Some(rows - {c.id.value}) else None
    else if !Station.DefinitionValid(c.value.value) || (c.id.None? && newId in rows) then None
    else Some(rows[(if c.id.Some? then c.id.value else newId) := Station.CanonicalForm(c.value.value)])
  }

  /** A change the server applied, the rows it replaced and the rows it left. */
  datatype Commit = Commit(change: Change, newId: string, replaced: Rows, result: Rows)

  /** past is every set the server ever had, oldest first; the last is current. late holds requests whose page gave up
      waiting while the server may still take them. */
  datatype System = System(past: seq<StationSet>, pages: map<nat, Page>, late: multiset<Change>, applied: seq<Commit>)

  function Current(s: System): StationSet
    requires s.past != []
  {
    s.past[|s.past| - 1]
  }

  datatype Served = Served(system: System, answer: Answer)

  /** The server's answer to a change: a stale run or revision is refused; an effective change makes the next revision. */
  ghost function Serve(s: System, c: Change, newId: string): Served
    requires s.past != []
  {
    var now := Current(s);
    var rows := Edited(now.rows, c, newId);
    if c.run != now.run || c.revision != now.revision then Served(s, Refused)
    else if rows.None? then Served(s, Broken)
    else
      var log := s.applied + [Commit(c, newId, now.rows, rows.value)];
      if rows.value == now.rows then Served(s.(applied := log), Applied(now))
      else
        var result := StationSet(now.run, now.revision + 1, rows.value, |s.past|);
        Served(s.(past := s.past + [result], applied := log), Applied(result))
  }

  // ----- Steps -----

  /** What can happen: a page opens; its poll starts, is answered, lost or taken; a button is clicked; its change is
      served, fails, is given up or its answer lost, or the answer is taken; a request given up is served after all or
      fails; the reload after a refusal is served, lost or taken; the server restarts. */
  datatype Action = Open(page: nat)
                  | StartPoll(page: nat) | ServePoll(page: nat) | LosePoll(page: nat) | EndPoll(page: nat)
                  | ClickEdit(page: nat, row: Option<string>)
                  | ClickRow(page: nat, station: string, change: Option<Definition>)
                  | ClickSave(page: nat, form: Definition) | ClickCancel(page: nat) | ClickRebase(page: nat)
                  | ServeChange(page: nat, newId: string) | FailChange(page: nat) | LoseChange(page: nat) | EndChange(page: nat)
                  | ServeLate(request: Change, newId: string) | FailLate(request: Change)
                  | ServeReload(page: nat) | LoseReload(page: nat) | EndReload(page: nat)
                  | Restart(run: string, rows: Rows)

  /** The page's own part of a step, given the station set current at the server. */
  function OnPage(p: Page, a: Action, now: StationSet): Page {
    match a
    case StartPoll(_) => if p.poll.NoPoll? then p.(poll := Asked(p.generation)) else p
    case ServePoll(_) => if p.poll.Asked? then p.(poll := Heard(p.poll.started, now)) else p
    case LosePoll(_) => p.(poll := NoPoll)
    case EndPoll(_) => FinishPoll(p)
    case ClickEdit(_, row) => Begin(p, row)
    case ClickRow(_, station, change) => Mutate(p, station, change)
    case ClickSave(_, form) => Submit(p, form)
    case ClickCancel(_) => Cancel(p)
    case ClickRebase(_) => Rebase(p)
    case FailChange(_) => if p.save.Sent? then p.(save := Answered(Broken)) else p
    case LoseChange(_) => if p.save.Sent? || p.save.Answered? then p.(save := Answered(Broken)) else p
    case EndChange(_) => FinishSave(p)
    case ServeReload(_) => if p.save.Reloading? then p.(save := Reloaded(Some(now))) else p
    case LoseReload(_) => if p.save.Reloading? then p.(save := Reloaded(None)) else p
    case EndReload(_) => FinishReload(p)
    case _ => p
  }

  predicate RunUnused(s: System, run: string) {
    forall i :: 0 <= i < |s.past| ==> s.past[i].run != run
  }

  /** One step of one page or of the server. */
  ghost function Next(s: System, a: Action): (t: System)
    requires s.past != []
    ensures s.past <= t.past
  {
    match a
    case Restart(run, rows) =>
      if RunUnused(s, run) then s.(past := s.past + [StationSet(run, 1, rows, |s.past|)]) else s
    case Open(b) => if b in s.pages then s else s.(pages := s.pages[b := NewPage()])
    case ServeChange(b, newId) =>
      if b in s.pages && s.pages[b].save.Sent? then
        var served := Serve(s, s.pages[b].save.change, newId);
        served.system.(pages := s.pages[b := s.pages[b].(save := Answered(served.answer))])
      else s
    case ServeLate(c, newId) =>
      if c in s.late then Serve(s, c, newId).system.(late := s.late - multiset{c}) else s
    case FailLate(c) => s.(late := s.late - multiset{c})
    case LoseChange(b) =>
      if b !in s.pages then s
      else
        var p := s.pages[b];
        s.(pages := s.pages[b := OnPage(p, a, Current(s))], late := if p.save.Sent? then s.late + multiset{p.save.change} else s.late)
    case _ => if a.page in s.pages then s.(pages := s.pages[a.page := OnPage(s.pages[a.page], a, Current(s))]) else s
  }

  function Start(run: string, rows: Rows): System {
    System([StationSet(run, 1, rows, 0)], map[], multiset{}, [])
  }

  ghost function After(s: System, actions: seq<Action>): (t: System)
    requires s.past != []
    ensures t.past != []
    decreases |actions|
  {
    if actions == [] then s else Next(After(s, actions[..|actions| - 1]), actions[|actions| - 1])
  }

  // ----- What every reachable system keeps -----

  /** Versions are never used twice, and within a run later sets have later revisions. */
  ghost predicate PastOk(past: seq<StationSet>) {
    && past != []
    && (forall i :: 0 <= i < |past| ==> past[i].at == i)
    && (forall i, j :: 0 <= i < j < |past| && past[i].run == past[j].run ==> past[i].revision < past[j].revision)
  }

  predicate Known(past: seq<StationSet>, s: StationSet) {
    s.at < |past| && past[s.at] == s
  }

  /** The rows are those of the set the server had under this version. */
  ghost predicate Backed(past: seq<StationSet>, run: string, revision: nat, rows: Rows) {
    exists i :: 0 <= i < |past| && past[i].run == run && past[i].revision == revision && past[i].rows == rows
  }

  /** The table, an open draft and a sent change belong to the versions they name; a draft left behind is in conflict. */
  ghost predicate PageOk(past: seq<StationSet>, p: Page) {
    && (p.snapshot.Some? ==> Known(past, p.snapshot.value) && p.table == p.snapshot.value.rows)
    && (p.draft.Some? ==>
          && p.snapshot.Some?
          && Backed(past, p.draft.value.run, p.draft.value.revision, p.draft.value.base)
          && (!DraftMatches(p.draft.value, p.snapshot.value) ==> p.conflict && p.shown == p.snapshot.value.rows))
    && (p.save.Sent? ==> Backed(past, p.save.change.run, p.save.change.revision, p.save.change.base))
  }

  /** Every answer a page may still take is one the server gave, and none is older than what the page shows. */
  ghost predicate AnswersOk(past: seq<StationSet>, p: Page) {
    && (p.save.Answered? && p.save.answer.Applied? ==> Newer(past, p, p.save.answer.result))
    && (p.save.Reloaded? && p.save.current.Some? ==> Newer(past, p, p.save.current.value))
    && (!p.poll.NoPoll? ==> p.poll.started <= p.generation)
    && (p.poll.Heard? ==> Known(past, p.poll.answer)
                          && (p.poll.started == p.generation && !Saving(p) ==> Newer(past, p, p.poll.answer)))
  }

  ghost predicate Newer(past: seq<StationSet>, p: Page, s: StationSet) {
    Known(past, s) && (p.snapshot.Some? ==> p.snapshot.value.at <= s.at)
  }

  ghost predicate CommitOk(c: Commit) {
    c.replaced == c.change.base && Edited(c.change.base, c.change, c.newId) == Some(c.result)
  }

  ghost predicate ChangeBacked(past: seq<StationSet>, c: Change) {
    Backed(past, c.run, c.revision, c.base)
  }

  ghost predicate LateOk(past: seq<StationSet>, late: multiset<Change>) {
    forall c <- late :: ChangeBacked(past, c)
  }

  ghost predicate SystemOk(s: System) {
    && PastOk(s.past) && LateOk(s.past, s.late)
    && (forall b <- s.pages :: PageOk(s.past, s.pages[b]) && AnswersOk(s.past, s.pages[b]))
    && (forall i :: 0 <= i < |s.applied| ==> CommitOk(s.applied[i]))
  }

  lemma BackedLater(past: seq<StationSet>, next: StationSet, run: string, revision: nat, rows: Rows)
    requires Backed(past, run, revision, rows)
    ensures Backed(past + [next], run, revision, rows)
  {
    var i :| 0 <= i < |past| && past[i].run == run && past[i].revision == revision && past[i].rows == rows;
    assert (past + [next])[i] == past[i];
  }

  /** A page is not disturbed by what the server does next. */
  lemma PageLater(past: seq<StationSet>, next: StationSet, p: Page)
    requires PageOk(past, p) && AnswersOk(past, p)
    ensures PageOk(past + [next], p) && AnswersOk(past + [next], p)
  {
    if p.draft.Some? {
      BackedLater(past, next, p.draft.value.run, p.draft.value.revision, p.draft.value.base);
    }
    if p.save.Sent? {
      BackedLater(past, next, p.save.change.run, p.save.change.revision, p.save.change.base);
    }
  }

  lemma KnownIsBacked(past: seq<StationSet>, s: StationSet)
    requires Known(past, s)
    ensures Backed(past, s.run, s.revision, s.rows)
  {
  }

  lemma SameVersionSameSet(past: seq<StationSet>, a: StationSet, b: StationSet)
    requires PastOk(past) && Known(past, a) && Known(past, b) && SameVersion(a, b)
    ensures a == b
  {
  }

  lemma AcceptKeeps(past: seq<StationSet>, p: Page, value: StationSet)
    requires PastOk(past) && PageOk(past, p) && Known(past, value) && !p.save.Sent?
    ensures PageOk(past, Accept(p, value))
  {
    if p.snapshot.Some? && SameVersion(value, p.snapshot.value) {
      SameVersionSameSet(past, value, p.snapshot.value);
    }
  }

  lemma FinishPollKeeps(past: seq<StationSet>, p: Page)
    requires PastOk(past) && PageOk(past, p) && AnswersOk(past, p)
    ensures PageOk(past, FinishPoll(p)) && AnswersOk(past, FinishPoll(p))
  {
    if p.poll.Heard? && p.poll.started == p.generation && !Saving(p) {
      AcceptKeeps(past, p.(poll := NoPoll), p.poll.answer);
    }
  }

  lemma FinishSaveKeeps(past: seq<StationSet>, p: Page)
    requires PastOk(past) && PageOk(past, p) && AnswersOk(past, p)
    ensures PageOk(past, FinishSave(p)) && AnswersOk(past, FinishSave(p))
  {
    if p.save.Answered? && p.save.answer.Applied? {
      AcceptKeeps(past, p.(draft := None, conflict := false), p.save.answer.result);
    }
  }

  lemma FinishReloadKeeps(past: seq<StationSet>, p: Page)
    requires PastOk(past) && PageOk(past, p) && AnswersOk(past, p)
    ensures PageOk(past, FinishReload(p)) && AnswersOk(past, FinishReload(p))
  {
    if p.save.Reloaded? && p.save.current.Some? {
      AcceptKeeps(past, p, p.save.current.value);
    }
  }

  /** Buttons: what is drafted or sent was rendered from, or reviewed against, the version it names. */
  lemma ButtonsKeep(past: seq<StationSet>, p: Page, a: Action, now: StationSet)
    requires PastOk(past) && PageOk(past, p) && AnswersOk(past, p)
    requires a.ClickEdit? || a.ClickRow? || a.ClickSave? || a.ClickCancel? || a.ClickRebase?
    ensures PageOk(past, OnPage(p, a, now)) && AnswersOk(past, OnPage(p, a, now))
  {
    if p.snapshot.Some? {
      KnownIsBacked(past, p.snapshot.value);
    }
  }

  lemma OnPageKeeps(past: seq<StationSet>, p: Page, a: Action)
    requires PastOk(past) && PageOk(past, p) && AnswersOk(past, p)
    ensures var q := OnPage(p, a, past[|past| - 1]); PageOk(past, q) && AnswersOk(past, q)
  {
    hide FinishPoll, FinishSave, FinishReload, Begin, Mutate, Submit, Cancel, Rebase, Backed;
    match a
    case EndPoll(_) => FinishPollKeeps(past, p);
    case EndChange(_) => FinishSaveKeeps(past, p);
    case EndReload(_) => FinishReloadKeeps(past, p);
    case ClickEdit(_, _) => ButtonsKeep(past, p, a, past[|past| - 1]);
    case ClickRow(_, _, _) => ButtonsKeep(past, p, a, past[|past| - 1]);
    case ClickSave(_, _) => ButtonsKeep(past, p, a, past[|past| - 1]);
    case ClickCancel(_) => ButtonsKeep(past, p, a, past[|past| - 1]);
    case ClickRebase(_) => ButtonsKeep(past, p, a, past[|past| - 1]);
    case _ =>
  }

  /** A draft that matches the snapshot was made from, or reviewed against, the snapshot's rows. */
  lemma DraftIsCurrent(past: seq<StationSet>, p: Page)
    requires PastOk(past) && PageOk(past, p) && p.draft.Some? && DraftMatches(p.draft.value, p.snapshot.value)
    ensures p.draft.value.base == p.snapshot.value.rows
  {
    var d := p.draft.value;
    var i :| 0 <= i < |past| && past[i].run == d.run && past[i].revision == d.revision && past[i].rows == d.base;
    SameVersionSameSet(past, past[i], p.snapshot.value);
  }

  /** The heart of it: a change the server takes names the current version, so it was made from the current rows. */
  lemma TakenIsCurrent(past: seq<StationSet>, c: Change)
    requires PastOk(past) && Backed(past, c.run, c.revision, c.base)
    requires c.run == past[|past| - 1].run && c.revision == past[|past| - 1].revision
    ensures c.base == past[|past| - 1].rows
  {
    var i :| 0 <= i < |past| && past[i].run == c.run && past[i].revision == c.revision && past[i].rows == c.base;
    if i < |past| - 1 {
      assert false;
    }
  }

  lemma ServeKeeps(s: System, c: Change, newId: string)
    requires PastOk(s.past) && Backed(s.past, c.run, c.revision, c.base)
    requires forall i :: 0 <= i < |s.applied| ==> CommitOk(s.applied[i])
    ensures var t := Serve(s, c, newId).system;
            && PastOk(t.past) && t.pages == s.pages && t.late == s.late
            && (t.past == s.past || t.past == s.past + [Current(t)])
            && forall i :: 0 <= i < |t.applied| ==> CommitOk(t.applied[i])
    ensures var served := Serve(s, c, newId);
            served.answer.Applied? ==> served.answer.result == Current(served.system)
  {
    hide Edited, Backed;
    if c.run == Current(s).run && c.revision == Current(s).revision {
      TakenIsCurrent(s.past, c);
    }
  }

  lemma AnsweredOk(past: seq<StationSet>, p: Page, answer: Answer)
    requires PastOk(past) && PageOk(past, p) && AnswersOk(past, p) && p.save.Sent?
    requires answer.Applied? ==> answer.result == past[|past| - 1]
    ensures var q := p.(save := Answered(answer)); PageOk(past, q) && AnswersOk(past, q)
  {
    hide Backed;
  }

  /** Whatever the server does with a change, pages and requests given up stay as good as they were. */
  lemma ServedStays(s: System, c: Change, newId: string)
    requires SystemOk(s) && ChangeBacked(s.past, c)
    ensures SystemOk(Serve(s, c, newId).system)
    ensures Serve(s, c, newId).answer.Applied? ==> Serve(s, c, newId).answer.result == Current(Serve(s, c, newId).system)
  {
    hide Serve, PageOk, AnswersOk, CommitOk, Backed;
    ServeKeeps(s, c, newId);
    var t := Serve(s, c, newId).system;
    forall x | x in s.pages ensures PageOk(t.past, s.pages[x]) && AnswersOk(t.past, s.pages[x]) {
      if t.past != s.past {
        PageLater(s.past, Current(t), s.pages[x]);
      }
    }
    if t.past != s.past {
      LateLater(s.past, Current(t), s.late);
    }
  }

  lemma LateLater(past: seq<StationSet>, next: StationSet, late: multiset<Change>)
    requires LateOk(past, late)
    ensures LateOk(past + [next], late)
  {
    hide Backed;
    forall c | c in late ensures ChangeBacked(past + [next], c) {
      assert ChangeBacked(past, c);
      BackedLater(past, next, c.run, c.revision, c.base);
    }
  }

  lemma ServeChangeKeeps(s: System, b: nat, newId: string)
    requires SystemOk(s) && b in s.pages && s.pages[b].save.Sent?
    ensures SystemOk(Next(s, ServeChange(b, newId)))
  {
    hide Serve, PageOk, AnswersOk, CommitOk, Backed, LateOk;
    var p := s.pages[b];
    SentIsBacked(s.past, p);
    ServedStays(s, p.save.change, newId);
    ServePages(s, p.save.change, newId);
    AnsweredOk(Serve(s, p.save.change, newId).system.past, p, Serve(s, p.save.change, newId).answer);
  }

  lemma ServePages(s: System, c: Change, newId: string)
    requires s.past != []
    ensures Serve(s, c, newId).system.pages == s.pages && Serve(s, c, newId).system.late == s.late
  {
    hide Edited;
  }

  lemma LateKeeps(s: System, a: Action)
    requires SystemOk(s) && (a.ServeLate? || a.FailLate?)
    ensures SystemOk(Next(s, a))
  {
    hide Serve, PageOk, AnswersOk, CommitOk, Backed, ChangeBacked;
    if a.request in s.late {
      assert ChangeBacked(s.past, a.request);
      ServedStays(s, a.request, if a.ServeLate? then a.newId else "");
      ServePages(s, a.request, if a.ServeLate? then a.newId else "");
    }
  }

  lemma LoseChangeKeeps(s: System, b: nat)
    requires SystemOk(s) && b in s.pages
    ensures SystemOk(Next(s, LoseChange(b)))
  {
    hide PageOk, AnswersOk, PastOk, CommitOk, Backed, OnPage;
    OnPageKeeps(s.past, s.pages[b], LoseChange(b));
    if s.pages[b].save.Sent? {
      SentIsBacked(s.past, s.pages[b]);
    }
  }

  lemma SentIsBacked(past: seq<StationSet>, p: Page)
    requires PageOk(past, p) && p.save.Sent?
    ensures ChangeBacked(past, p.save.change)
  {
  }

  lemma RestartKeeps(s: System, run: string, rows: Rows)
    requires SystemOk(s) && RunUnused(s, run)
    ensures SystemOk(Next(s, Restart(run, rows)))
  {
    hide Edited, Backed;
    var next := StationSet(run, 1, rows, |s.past|);
    forall x | x in s.pages ensures PageOk(s.past + [next], s.pages[x]) && AnswersOk(s.past + [next], s.pages[x]) {
      PageLater(s.past, next, s.pages[x]);
    }
    LateLater(s.past, next, s.late);
  }

  lemma NextKeeps(s: System, a: Action)
    requires SystemOk(s)
    ensures SystemOk(Next(s, a))
  {
    hide Serve, OnPage, PageOk, AnswersOk, CommitOk, PastOk, LateOk;
    match a
    case Restart(run, rows) => if RunUnused(s, run) { RestartKeeps(s, run, rows); }
    case Open(b) => NewPageOk(s.past);
    case ServeChange(b, newId) => if b in s.pages && s.pages[b].save.Sent? { ServeChangeKeeps(s, b, newId); }
    case ServeLate(_, _) => LateKeeps(s, a);
    case FailLate(_) => LateKeeps(s, a);
    case LoseChange(b) => if b in s.pages { LoseChangeKeeps(s, b); }
    case _ => if a.page in s.pages { OnPageKeeps(s.past, s.pages[a.page], a); }
  }

  lemma NewPageOk(past: seq<StationSet>)
    ensures PageOk(past, NewPage()) && AnswersOk(past, NewPage())
  {
  }

  lemma {:induction false} ReachableOk(run: string, rows: Rows, actions: seq<Action>)
    ensures SystemOk(After(Start(run, rows), actions))
    decreases |actions|
  {
    hide Next;
    if actions != [] {
      ReachableOk(run, rows, actions[..|actions| - 1]);
      NextKeeps(After(Start(run, rows), actions[..|actions| - 1]), actions[|actions| - 1]);
    }
  }

  // ----- The promises -----

  /** No lost update: whatever the pages, polls, conflicts, rebases, losses, late arrivals and restarts, every change the server applied
      was computed from, or reviewed against, exactly the rows it replaced, and touched one row of them. */
  lemma NoLostUpdate(run: string, rows: Rows, actions: seq<Action>, i: nat)
    requires i < |After(Start(run, rows), actions).applied|
    ensures var c := After(Start(run, rows), actions).applied[i];
            && c.replaced == c.change.base
            && (forall id :: id != (if c.change.id.Some? then c.change.id.value else c.newId) ==>
                  (id in c.result <==> id in c.change.base) && (id in c.result ==> c.result[id] == c.change.base[id]))
  {
    hide Next, After, PastOk, PageOk, AnswersOk, LateOk;
    ReachableOk(run, rows, actions);
  }

  lemma AcceptShows(p: Page, value: StationSet)
    ensures Accept(p, value).snapshot == Some(value)
  {
  }

  lemma ButtonsKeepSnapshot(p: Page, a: Action, now: StationSet)
    requires !a.EndPoll? && !a.EndChange? && !a.EndReload?
    ensures OnPage(p, a, now).snapshot == p.snapshot
  {
  }

  /** A page only ever takes answers at least as new as what it shows. */
  lemma TakingMovesForward(past: seq<StationSet>, p: Page, q: Page)
    requires AnswersOk(past, p) && p.snapshot.Some? && q in {FinishPoll(p), FinishSave(p), FinishReload(p)}
    ensures q.snapshot.Some? && p.snapshot.value.at <= q.snapshot.value.at
  {
    hide Accept;
    match p.save
    case Answered(Applied(result)) => AcceptShows(p.(draft := None, conflict := false), result);
    case Reloaded(Some(current)) => AcceptShows(p, current);
    case _ =>
    if p.poll.Heard? {
      AcceptShows(p.(poll := NoPoll), p.poll.answer);
    }
  }

  predicate NotBefore(now: Option<StationSet>, earlier: Option<StationSet>) {
    earlier.Some? ==> now.Some? && earlier.value.at <= now.value.at
  }

  lemma TakesForward(past: seq<StationSet>, p: Page)
    requires AnswersOk(past, p)
    ensures NotBefore(FinishPoll(p).snapshot, p.snapshot) && NotBefore(FinishSave(p).snapshot, p.snapshot)
    ensures NotBefore(FinishReload(p).snapshot, p.snapshot)
  {
    hide AnswersOk, FinishPoll, FinishSave, FinishReload;
    if p.snapshot.Some? {
      TakingMovesForward(past, p, FinishPoll(p));
      TakingMovesForward(past, p, FinishSave(p));
      TakingMovesForward(past, p, FinishReload(p));
    }
  }

  lemma PageMovesForward(past: seq<StationSet>, p: Page, a: Action, now: StationSet)
    requires AnswersOk(past, p) && p.snapshot.Some?
    ensures OnPage(p, a, now).snapshot.Some? && p.snapshot.value.at <= OnPage(p, a, now).snapshot.value.at
  {
    hide AnswersOk, FinishPoll, FinishSave, FinishReload, Begin, Mutate, Submit, Cancel, Rebase;
    if a.EndPoll? || a.EndChange? || a.EndReload? {
      TakingMovesForward(past, p, OnPage(p, a, now));
    } else {
      ButtonsKeepSnapshot(p, a, now);
    }
  }

  lemma NextPage(s: System, a: Action, b: nat)
    requires s.past != [] && b in s.pages
    ensures b in Next(s, a).pages
    ensures var q := Next(s, a).pages[b];
            q == s.pages[b] || q == OnPage(s.pages[b], a, Current(s)) || q.snapshot == s.pages[b].snapshot
  {
    hide Serve, OnPage;
    match a
    case ServeChange(x, newId) => if x in s.pages && s.pages[x].save.Sent? { ServePages(s, s.pages[x].save.change, newId); }
    case ServeLate(c, newId) => ServePages(s, c, newId);
    case _ =>
  }

  /** No page ever shows an older set than it showed before, in this run or an earlier one. */
  lemma PagesMoveForward(run: string, rows: Rows, actions: seq<Action>, a: Action, b: nat)
    ensures var s := After(Start(run, rows), actions);
            b in s.pages ==> b in Next(s, a).pages
                             && (s.pages[b].snapshot.Some? ==>
                                   Next(s, a).pages[b].snapshot.Some?
                                   && s.pages[b].snapshot.value.at <= Next(s, a).pages[b].snapshot.value.at)
  {
    hide After, PastOk, PageOk, AnswersOk, LateOk, OnPage, Next, CommitOk;
    ReachableOk(run, rows, actions);
    var s := After(Start(run, rows), actions);
    if b in s.pages {
      NextPage(s, a, b);
      if s.pages[b].snapshot.Some? {
        PageMovesForward(s.past, s.pages[b], a, Current(s));
      }
    }
  }
}
