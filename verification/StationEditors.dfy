/** The station editor of one page as its event handlers update it in place: each handler keeps the page backed by what
    the server had, and refines its function in StationEditing (ui/internal/assets/static/js/stations.js). */
module StationEditors {
  import opened Basics
  import opened Model
  import Editing = StationEditing

  class Editor {
    var snapshot: Option<Editing.StationSet>
    var table: Editing.Rows
    var draft: Option<Editing.Draft>
    var save: Editing.Save
    var generation: nat
    var conflict: bool
    var shown: Editing.Rows
    var poll: Editing.Poll

    function View(): Editing.Page
      reads this
    {
      Editing.Page(snapshot, table, draft, save, generation, conflict, shown, poll)
    }

    /** The table, the draft and a sent change are those of versions the server had, and no answer still to be taken is
        older than the snapshot. past is every set the server ever had. */
    ghost predicate Valid(past: seq<Editing.StationSet>)
      reads this
    {
      Editing.PastOk(past) && Editing.PageOk(past, View()) && Editing.AnswersOk(past, View())
    }

    constructor (ghost past: seq<Editing.StationSet>)
      requires Editing.PastOk(past)
      ensures Valid(past) && View() == Editing.NewPage()
    {
      snapshot, table, draft, save, generation, conflict, shown, poll :=
        None, map[], None, Editing.Idle, 0, false, map[], Editing.NoPoll;
    }

    method ShowConflict()
      requires snapshot.Some?
      modifies this`conflict, this`shown
      ensures View() == Editing.ShowConflict(old(View()))
      ensures conflict && shown == snapshot.value.rows
    {
      conflict := true;
      shown := snapshot.value.rows;
    }

    /** Whatever set arrives, the buttons afterwards belong to it, and a draft of another version is in conflict with it. */
    method Accept(value: Editing.StationSet, ghost past: seq<Editing.StationSet>)
      requires Editing.PastOk(past) && Editing.PageOk(past, View()) && Editing.Known(past, value) && !save.Sent?
      modifies this`snapshot, this`conflict, this`shown, this`table
      ensures View() == Editing.Accept(old(View()), value) && Editing.PageOk(past, View())
      ensures snapshot == Some(value) && table == value.rows
      ensures draft.Some? && !Editing.DraftMatches(draft.value, value) ==> conflict && shown == value.rows
    {
      hide Editing.PageOk, Editing.PastOk, Editing.Known;
      Editing.AcceptKeeps(past, View(), value);
      TableIsSnapshots(past, Editing.Accept(View(), value));
      var changed := snapshot.None? || value.run != snapshot.value.run || value.revision != snapshot.value.revision;
      snapshot := Some(value);
      if draft.Some? && (draft.value.run != value.run || draft.value.revision != value.revision) {
        ShowConflict();
      }
      if changed {
        table := value.rows;
      }
    }

    /** Opens a draft backed by the rendered rows, unless there is one or a save is under way. */
    method Begin(id: Option<string>, ghost past: seq<Editing.StationSet>)
      requires Valid(past)
      modifies this`draft, this`conflict
      ensures Valid(past) && View() == Editing.Begin(old(View()), id)
      ensures old(draft).Some? || old(save) != Editing.Idle ==> draft == old(draft)
      ensures draft != old(draft) ==>
                draft.Some? && Editing.DraftMatches(draft.value, snapshot.value) && draft.value.base == snapshot.value.rows
    {
      Editing.ButtonsKeep(past, View(), Editing.ClickEdit(0, id), past[0]);
      TableIsSnapshots(past, View());
      hide Editing.PageOk;
      if snapshot.None? || !save.Idle? {
        return;
      }
      if draft.Some? {
        return;
      }
      draft := Some(Editing.Draft(id, snapshot.value.run, snapshot.value.revision, table));
      conflict := false;
    }

    /** save, up to its first await. */
    method StartSave(change: Editing.Change)
      modifies this`save, this`generation
      ensures View() == Editing.StartSave(old(View()), change)
      ensures if old(save).Idle? then save == Editing.Sent(change) && generation > old(generation)
              else save == old(save) && generation == old(generation)
    {
      if !save.Idle? {
        return;
      }
      save := Editing.Sent(change);
      generation := generation + 1;
    }

    /** What a row button sends is backed: the server had the captured rows under the identity it names. */
    method Mutate(id: string, value: Option<Definition>, ghost past: seq<Editing.StationSet>)
      requires Valid(past)
      modifies this`save, this`generation
      ensures Valid(past) && View() == Editing.Mutate(old(View()), id, value)
      ensures save != old(save) ==>
                save.Sent? && old(draft).None? && save.change.id == Some(id) && save.change.value == value
                && Editing.ChangeBacked(past, save.change) && save.change.base == snapshot.value.rows
    {
      Editing.ButtonsKeep(past, View(), Editing.ClickRow(0, id, value), past[0]);
      TableIsSnapshots(past, View());
      hide Editing.PageOk, Editing.Backed;
      if draft.Some? || snapshot.None? {
        return;
      }
      StartSave(Editing.Change(snapshot.value.run, snapshot.value.revision, Some(id), value, table));
      if save != old(save) {
        Editing.SentIsBacked(past, View());
      }
    }

    /** What the form sends is backed, and nothing is sent in conflict. */
    method Submit(value: Definition, ghost past: seq<Editing.StationSet>)
      requires Valid(past)
      modifies this`save, this`generation
      ensures Valid(past) && View() == Editing.Submit(old(View()), value)
      ensures save != old(save) ==>
                save.Sent? && !conflict && draft.Some? && save.change.id == draft.value.id
                && save.change.value == Some(value) && Editing.ChangeBacked(past, save.change)
    {
      Editing.ButtonsKeep(past, View(), Editing.ClickSave(0, value), past[0]);
      hide Editing.PageOk, Editing.Backed;
      if draft.Some? && !conflict {
        var d := draft.value;
        StartSave(Editing.Change(d.run, d.revision, d.id, Some(value), d.base));
        if save != old(save) {
          Editing.SentIsBacked(past, View());
        }
      }
    }

    method Cancel(ghost past: seq<Editing.StationSet>)
      requires Valid(past)
      modifies this`draft, this`conflict
      ensures Valid(past) && View() == Editing.Cancel(old(View()))
      ensures draft.None? && !conflict
    {
      draft := None;
      conflict := false;
    }

    /** Afterwards the draft counts as made from exactly the rows now shown, and edits a station among them or none. */
    method Rebase(ghost past: seq<Editing.StationSet>)
      requires Valid(past)
      modifies this`draft, this`conflict
      ensures Valid(past) && View() == Editing.Rebase(old(View()))
      ensures draft.Some? <==> old(draft).Some?
      ensures draft.Some? && save.Idle? ==>
                && !conflict && Editing.DraftMatches(draft.value, snapshot.value) && draft.value.base == snapshot.value.rows
                && (draft.value.id.Some? ==> draft.value.id.value in snapshot.value.rows)
    {
      Editing.ButtonsKeep(past, View(), Editing.ClickRebase(0), past[0]);
      DraftHasSnapshot(past, View());
      hide Editing.PageOk;
      if draft.None? || !save.Idle? || snapshot.None? {
        return;
      }
      var d, s := draft.value, snapshot.value;
      var id := d.id;
      if d.run != s.run || d.id.None? || d.id.value !in s.rows {
        id := None;
      }
      var base := d.base;
      if d.run != s.run || d.revision != s.revision {
        base := shown;
      }
      draft := Some(Editing.Draft(id, s.run, s.revision, base));
      conflict := false;
      Editing.DraftIsCurrent(past, View());
    }

    method EndSave()
      modifies this`save, this`generation
      ensures View() == Editing.EndSave(old(View()))
      ensures save.Idle? && generation > old(generation)
    {
      save := Editing.Idle;
      generation := generation + 1;
    }

    /** save, after its first await: an applied change leaves its result on the page and no draft; a refused one goes on to
        the reload with the draft untouched; a broken one leaves everything for another try. */
    method FinishSave(ghost past: seq<Editing.StationSet>)
      requires Valid(past) && save.Answered?
      modifies this
      ensures Valid(past) && View() == Editing.FinishSave(old(View()))
      ensures match old(save).answer
              case Applied(result) => save.Idle? && snapshot == Some(result) && table == result.rows && draft.None?
              case Refused => save.Reloading? && draft == old(draft) && snapshot == old(snapshot)
              case Broken => save.Idle? && draft == old(draft) && snapshot == old(snapshot) && conflict == old(conflict)
      ensures Editing.NotBefore(snapshot, old(snapshot))
    {
      Editing.FinishSaveKeeps(past, View());
      Editing.TakesForward(past, View());
      hide Editing.PageOk, Editing.AnswersOk;
      match save.answer
      case Applied(result) =>
        AnswerIsKnown(past, View());
        draft := None;
        conflict := false;
        DraftlessOk(past, old(View()));
        Accept(result, past);
        EndSave();
      case Refused =>
        save := Editing.Reloading;
      case Broken =>
        EndSave();
    }

    /** save, after the reload that follows a refusal: the reloaded set is shown if there is one, and an open draft must be
        reviewed against what is shown. */
    method FinishReload(ghost past: seq<Editing.StationSet>)
      requires Valid(past) && save.Reloaded?
      modifies this
      ensures Valid(past) && View() == Editing.FinishReload(old(View()))
      ensures save.Idle? && draft == old(draft) && (old(save).current.Some? ==> snapshot == old(save).current)
      ensures draft.Some? ==> snapshot.Some? && conflict && shown == snapshot.value.rows
      ensures Editing.NotBefore(snapshot, old(snapshot))
    {
      Editing.FinishReloadKeeps(past, View());
      Editing.TakesForward(past, View());
      DraftHasSnapshot(past, View());
      hide Editing.PageOk, Editing.AnswersOk;
      if save.current.Some? {
        AnswerIsKnown(past, View());
        Accept(save.current.value, past);
      }
      if draft.Some? && snapshot.Some? {
        ShowConflict();
      }
      EndSave();
    }

    /** refresh, after its await: taken only if no save began or ended since it was sent; it never touches the draft. */
    method FinishPoll(ghost past: seq<Editing.StationSet>)
      requires Valid(past) && poll.Heard?
      modifies this
      ensures Valid(past) && View() == Editing.FinishPoll(old(View()))
      ensures poll.NoPoll? && draft == old(draft) && save == old(save)
      ensures snapshot == if old(poll).started == generation && save.Idle? then Some(old(poll).answer) else old(snapshot)
      ensures Editing.NotBefore(snapshot, old(snapshot))
    {
      Editing.FinishPollKeeps(past, View());
      Editing.TakesForward(past, View());
      AnswerIsKnown(past, View());
      PolllessOk(past, View());
      hide Editing.PageOk, Editing.AnswersOk;
      var started, answer := poll.started, poll.answer;
      poll := Editing.NoPoll;
      if started == generation && save.Idle? {
        Accept(answer, past);
      }
    }
  }

  lemma TableIsSnapshots(past: seq<Editing.StationSet>, p: Editing.Page)
    requires Editing.PageOk(past, p)
    ensures p.snapshot.Some? ==> p.table == p.snapshot.value.rows
  {
  }

  lemma DraftHasSnapshot(past: seq<Editing.StationSet>, p: Editing.Page)
    requires Editing.PageOk(past, p)
    ensures p.draft.Some? ==> p.snapshot.Some?
  {
  }

  lemma AnswerIsKnown(past: seq<Editing.StationSet>, p: Editing.Page)
    requires Editing.AnswersOk(past, p)
    ensures p.save.Answered? && p.save.answer.Applied? ==> Editing.Known(past, p.save.answer.result)
    ensures p.save.Reloaded? && p.save.current.Some? ==> Editing.Known(past, p.save.current.value)
    ensures p.poll.Heard? ==> Editing.Known(past, p.poll.answer)
  {
  }

  lemma DraftlessOk(past: seq<Editing.StationSet>, p: Editing.Page)
    requires Editing.PageOk(past, p)
    ensures Editing.PageOk(past, p.(draft := None, conflict := false))
  {
  }

  lemma PolllessOk(past: seq<Editing.StationSet>, p: Editing.Page)
    requires Editing.PageOk(past, p)
    ensures Editing.PageOk(past, p.(poll := Editing.NoPoll))
  {
  }
}
