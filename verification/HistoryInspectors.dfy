/** The history inspector as the display's handlers update it in place: each keeps the rows one block of the station's log
    that ends at the cursor, and refines its function in HistoryInspecting (ui/internal/assets/static/js/display.js). */
module HistoryInspectors {
  import opened Basics
  import opened Wire
  import Inspecting = HistoryInspecting

  class HistoryInspector {
    var snapshot: Option<Inspecting.Snap>
    var selected: bool
    var generation: nat
    var waiting: bool
    var paused: bool
    var station: Option<string>
    var historyGeneration: nat
    var rows: seq<WireReception>
    var cursor: Option<nat>
    var blocked: bool
    var request: Option<Inspecting.Request>
    var fetch: Inspecting.Fetch

    function View(): Inspecting.Inspector
      reads this
    {
      Inspecting.Inspector(snapshot, selected, generation, waiting, paused, station, historyGeneration, rows, cursor,
                           blocked, request, fetch)
    }

    /** The rows of an inspected station are a block of its log at the server ending at the cursor, and the reply in
        flight, if it may still be taken, belongs to that cursor. */
    ghost predicate Valid(server: Inspecting.Server)
      reads this
    {
      Inspecting.LogsOk(server) && Inspecting.RowsOk(server, View()) && Inspecting.RequestOk(server, View())
    }

    /** No reply in flight will be taken. */
    ghost predicate RepliesVoid()
      reads this
    {
      request.Some? ==> !Inspecting.IsCurrent(View(), request.value)
    }

    constructor (ghost server: Inspecting.Server)
      requires Inspecting.LogsOk(server)
      ensures Valid(server) && View() == Inspecting.NewInspector()
    {
      snapshot, selected, generation, waiting, paused := None, false, 0, false, false;
      station, historyGeneration, rows, cursor, blocked := None, 0, [], None, false;
      request, fetch := None, Inspecting.NotFetching;
    }

    /** Whatever was shown or under way before, the inspector starts again. */
    method ResetHistory(id: Option<string>, ghost server: Inspecting.Server)
      requires Inspecting.LogsOk(server) && Inspecting.RequestOk(server, View())
      modifies this`historyGeneration, this`station, this`rows, this`cursor, this`blocked
      ensures Valid(server) && View() == Inspecting.ResetHistory(old(View()), id)
      ensures rows == [] && cursor.None? && station == id && RepliesVoid()
    {
      hide Inspecting.LogsOk, Inspecting.RowsOk, Inspecting.RequestOk;
      Inspecting.ResetKeeps(server, View(), id);
      Inspecting.OldTokens(server, View());
      historyGeneration := historyGeneration + 1;
      station, rows, cursor, blocked := id, [], None, false;
    }

    method Choose(ids: set<string>, single: Option<string>, ghost server: Inspecting.Server)
      requires Valid(server)
      modifies this
      ensures Valid(server) && View() == Inspecting.Choose(old(View()), ids, single)
      ensures rows == [] && cursor.None? && waiting && RepliesVoid() && (station.Some? ==> ids == {station.value})
    {
      hide Inspecting.LogsOk, Inspecting.RowsOk, Inspecting.ResetHistory;
      var one := if ids != {} && single.Some? && ids == {single.value} then single else None;
      selected := ids != {};
      generation := generation + 1;
      waiting := true;
      ResetHistory(one, server);
    }

    /** Only without an inspected station are the rows those of the snapshot. */
    method Render()
      modifies this`rows
      ensures View() == Inspecting.Render(old(View()))
      ensures rows == if snapshot.Some? && station.None? && !paused then Inspecting.LastRows(snapshot.value.recent) else old(rows)
    {
      hide Inspecting.LastRows;
      if snapshot.None? {
        return;
      }
      if station.None? && !paused {
        rows := Inspecting.LastRows(snapshot.value.recent);
      }
    }

    method Inspect(id: Option<string>, ghost server: Inspecting.Server)
      requires Valid(server)
      modifies this`historyGeneration, this`station, this`rows, this`cursor, this`blocked
      ensures Valid(server) && View() == Inspecting.Inspect(old(View()), id)
      ensures station == id && cursor.None? && RepliesVoid() && (id.Some? ==> rows == [])
    {
      hide Inspecting.LogsOk, Inspecting.RowsOk, Inspecting.RequestOk, Inspecting.LastRows;
      ResetHistory(id, server);
      Inspecting.RenderKeeps(server, View());
      Render();
    }

    /** Pausing keeps what is loaded, but voids the reply under way. */
    method Pause(checked: bool, ghost server: Inspecting.Server)
      requires Valid(server)
      modifies this`historyGeneration, this`paused, this`rows
      ensures Valid(server) && View() == Inspecting.Pause(old(View()), checked)
      ensures RepliesVoid() && cursor == old(cursor) && (station.Some? ==> rows == old(rows))
    {
      hide Inspecting.LogsOk, Inspecting.RowsOk, Inspecting.RequestOk, Inspecting.LastRows, Inspecting.Render;
      Inspecting.OldTokens(server, View());
      Inspecting.PauseKeeps(server, View(), checked);
      historyGeneration := historyGeneration + 1;
      paused := checked;
      if !checked {
        Render();
      }
    }

    /** A snapshot of another run arrived. */
    method ClearRun(ghost server: Inspecting.Server)
      requires Valid(server)
      modifies this
      ensures Valid(server) && View() == Inspecting.ClearRun(old(View()))
      ensures snapshot.None? && station.None? && rows == [] && cursor.None? && RepliesVoid()
    {
      hide Inspecting.LogsOk, Inspecting.RowsOk;
      Inspecting.ClearKeeps(server, View());
      ResetHistory(None, server);
      snapshot := None;
      selected := false;
    }

    method DropGone(stations: set<string>, ghost server: Inspecting.Server)
      requires Valid(server)
      modifies this`historyGeneration, this`station, this`rows, this`cursor, this`blocked
      ensures Valid(server) && View() == Inspecting.WithoutGone(old(View()), stations)
      ensures station.Some? ==> station.value in stations
    {
      hide Inspecting.LogsOk, Inspecting.RowsOk, Inspecting.RequestOk, Inspecting.IsCurrent;
      if station.Some? && station.value !in stations {
        ResetHistory(None, server);
      }
    }

    /** Afterwards an inspected station is one of the snapshot's; its rows and cursor are those it had. */
    method ShowSnapshot(next: Inspecting.Snap, ghost server: Inspecting.Server)
      requires Valid(server) && (cursor.Some? ==> snapshot.Some? && snapshot.value.run == next.run)
      modifies this
      ensures Valid(server) && View() == Inspecting.ShowSnapshot(old(View()), next)
      ensures snapshot == Some(next) && !waiting && !blocked
      ensures station.Some? ==> station.value in next.stations && station == old(station) && cursor == old(cursor) && rows == old(rows)
    {
      hide Inspecting.LogsOk, Inspecting.RowsOk, Inspecting.RequestOk, Inspecting.WithoutGone, Inspecting.Render, Inspecting.LastRows;
      Inspecting.ShowKeeps(server, View(), next);
      ShownFacts(View(), next);
      DropGone(next.stations, server);
      snapshot := Some(next);
      blocked := false;
      waiting := false;
      Render();
    }

    /** refresh, after its await: a reply to an older selection changes nothing; otherwise an inspected station stays only
        with the rows and cursor it had, and only if the run and the station are still there. */
    method EndFetch(token: nat, outcome: Inspecting.FetchReply, ghost server: Inspecting.Server)
      requires Valid(server)
      modifies this
      ensures Valid(server) && View() == Inspecting.EndFetch(old(View()), token, outcome)
      ensures token != old(generation) ==> View() == old(View()).(fetch := Inspecting.NotFetching)
      ensures station.Some? ==> station == old(station) && cursor == old(cursor) && rows == old(rows)
      ensures station.Some? && token == old(generation) && outcome.Observed? ==>
                snapshot == Some(outcome.snap) && station.value in outcome.snap.stations
                && (old(snapshot).Some? ==> old(snapshot).value.run == outcome.snap.run)
    {
      hide Inspecting.Choose, Inspecting.ShowSnapshot, Inspecting.IsCurrent, Inspecting.LogsOk, Inspecting.RowsOk, Inspecting.RequestOk;
      Inspecting.EndFetchKeeps(server, View(), token, outcome);
      Inspecting.CursorHasSnapshot(server, View());
      Refetched(server, View());
      fetch := Inspecting.NotFetching;
      if token != generation {
        return;
      }
      match outcome
      case SelectionGone =>
        if selected {
          Choose({}, None, server);
        } else {
          waiting := true;
        }
      case FetchFailed =>
        waiting := true;
      case Observed(next) =>
        if snapshot.Some? && snapshot.value.run != next.run {
          var hadSelection := selected;
          ClearRun(server);
          if hadSelection {
            generation := generation + 1;
            return;
          }
        }
        ShowSnapshot(next, server);
    }

    /** refreshHistory, up to its await: what is asked is what is shown, after its cursor. */
    method Ask(ghost server: Inspecting.Server)
      requires Valid(server)
      modifies this`request
      ensures Valid(server) && View() == Inspecting.Ask(old(View()))
      ensures request != old(request) ==>
                request.Some? && Inspecting.IsCurrent(View(), request.value) && request.value.after == cursor
    {
      hide Inspecting.LogsOk, Inspecting.RowsOk, Inspecting.RequestOk;
      Inspecting.AskKeeps(server, View());
      if request.Some? || snapshot.None? || station.None? || blocked || paused || waiting {
        return;
      }
      request := Some(Inspecting.Request(historyGeneration, generation, snapshot.value.run, station.value, cursor, None));
    }

    /** The rows by sequence, a later row replacing an earlier one in its place. */
    static method Merge(more: seq<WireReception>) returns (unique: seq<WireReception>)
      ensures unique == Inspecting.ByNumber(more)
    {
      unique := [];
      for i := 0 to |more|
        invariant unique == Inspecting.ByNumber(more[..i])
      {
        var at := Inspecting.IndexOf(unique, more[i].sequence);
        if at < |unique| {
          unique := unique[at := more[i]];
        } else {
          unique := unique + [more[i]];
        }
        assert more[..i + 1][..i] == more[..i];
      }
      assert more[..|more|] == more;
    }

    /** refreshHistory, after its await: a page that still belongs to what is shown continues the rows, which end at the new
        cursor; a refusal starts them again; anything else leaves them. */
    method TakeReply(ghost server: Inspecting.Server)
      requires Valid(server) && request.Some? && request.value.reply.Some?
      modifies this
      ensures Valid(server) && View() == Inspecting.TakeReply(old(View())) && request.None?
      ensures Inspecting.TakesPage(old(View())) ==>
                Inspecting.Continues(View(), old(View()), old(request).value.reply.value.page)
      ensures !Inspecting.TakesPage(old(View())) ==>
                (rows == old(rows) && cursor == old(cursor)) || (rows == [] && cursor.None? && blocked)
      ensures station.Some? && cursor.Some? ==>
                && snapshot.Some? && Inspecting.Key(snapshot.value.run, station.value) in server.logs
                && Inspecting.IsBlock(server.logs[Inspecting.Key(snapshot.value.run, station.value)], rows, cursor.value)
    {
      hide Inspecting.ByNumber, Inspecting.LastRows, Inspecting.LogsOk, Inspecting.RowsOk, Inspecting.RequestOk,
           Inspecting.Continues, Inspecting.IsBlock;
      ghost var x := View();
      Inspecting.TakeReplyKeeps(server, x);
      if Inspecting.TakesPage(x) {
        Inspecting.TakenPageContinues(server, x);
      }
      BlockShown(server, Inspecting.TakeReply(x));
      Unrequested(server, x);
      var r := request.value;
      var current := r.token == historyGeneration && r.selection == generation && snapshot.Some?
                     && r.run == snapshot.value.run && station == Some(r.id) && !paused && !waiting;
      request := None;
      if !current {
        return;
      }
      match r.reply.value
      case Failed =>
      case Gone =>
        ResetHistory(Some(r.id), server);
        blocked := true;
      case GotPage(page) =>
        if page.simulationId != r.run || page.stationId != r.id {
          ResetHistory(Some(r.id), server);
          blocked := true;
          return;
        }
        if page.gap {
          rows := [];
        }
        var unique := Merge(rows + page.receptions);
        rows := Inspecting.LastRows(unique);
        cursor := Some(page.nextAfter);
    }
  }

  lemma BlockShown(server: Inspecting.Server, x: Inspecting.Inspector)
    requires Inspecting.RowsOk(server, x)
    ensures x.station.Some? && x.cursor.Some? ==>
              && x.snapshot.Some? && Inspecting.Key(x.snapshot.value.run, x.station.value) in server.logs
              && Inspecting.IsBlock(server.logs[Inspecting.Key(x.snapshot.value.run, x.station.value)], x.rows, x.cursor.value)
  {
    hide Inspecting.IsBlock;
  }

  lemma Unrequested(server: Inspecting.Server, x: Inspecting.Inspector)
    requires Inspecting.RequestOk(server, x)
    ensures Inspecting.RequestOk(server, x.(request := None))
  {
  }

  lemma Refetched(server: Inspecting.Server, x: Inspecting.Inspector)
    requires Inspecting.RowsOk(server, x) && Inspecting.RequestOk(server, x)
    ensures var y := x.(fetch := Inspecting.NotFetching); Inspecting.RowsOk(server, y) && Inspecting.RequestOk(server, y)
  {
    hide Inspecting.IsBlock, Inspecting.ServedFrom;
  }

  lemma ShownFacts(x: Inspecting.Inspector, next: Inspecting.Snap)
    ensures var y := Inspecting.ShowSnapshot(x, next);
            && y.snapshot == Some(next) && !y.waiting && !y.blocked
            && (y.station.Some? ==> y.station.value in next.stations && y.station == x.station && y.cursor == x.cursor && y.rows == x.rows)
  {
  }
}
