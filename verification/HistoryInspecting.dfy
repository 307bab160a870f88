/** The history inspector of the display: its cursor, its rows and its guards against late replies, against a server
    whose stations log, come and go, and which may restart (ui/internal/assets/static/js/display.js). */
module HistoryInspecting {
  import opened Basics
  import opened Model
  import opened Wire
  import opened Snapshots
  import opened HistoryLogs

  const ROW_LIMIT: nat := 200

  // ----- The server -----

  datatype Key = Key(run: string, station: string)

  /** logs holds every log there ever was, of this run and of earlier ones. */
  datatype Server = Server(run: string, stations: set<string>, logs: map<Key, seq<Reception>>)

  datatype Reply = GotPage(page: WirePage) | Gone | Failed

  function Serve(s: Server, run: string, id: string, after: Option<nat>): Reply {
    if run != s.run || id !in s.stations || Key(run, id) !in s.logs then Gone
    else if after.Some? && after.value > |s.logs[Key(run, id)]| then Failed
    else GotPage(PageFor(run, id, s.logs[Key(run, id)], after, ROW_LIMIT))
  }

  // ----- The inspector -----

  /** An observation snapshot, as far as the inspector uses it. */
  datatype Snap = Snap(run: string, stations: set<string>, recent: seq<WireReception>)

  /** A history request: what the page looked like when it was sent, and its reply once the server gave one. */
  datatype Request = Request(token: nat, selection: nat, run: string, id: string, after: Option<nat>, reply: Option<Reply>)

  /** How an observation read ended: a removed selected station is answered as not found. */
  datatype FetchReply = Observed(snap: Snap) | SelectionGone | FetchFailed

  datatype Fetch = NotFetching | Fetching(token: nat) | Fetched(token: nat, outcome: FetchReply)

  /** selected is whether single stations are selected; waiting whether the view is pending or stale. */
  datatype Inspector = Inspector(snapshot: Option<Snap>, selected: bool, generation: nat, waiting: bool, paused: bool,
                                 station: Option<string>, historyGeneration: nat, rows: seq<WireReception>,
                                 cursor: Option<nat>, blocked: bool, request: Option<Request>, fetch: Fetch)

  function NewInspector(): Inspector {
    Inspector(None, false, 0, false, false, None, 0, [], None, false, None, NotFetching)
  }

  function LastRows(rows: seq<WireReception>): seq<WireReception> {
    Newest(ROW_LIMIT, rows)
  }

  function ResetHistory(x: Inspector, id: Option<string>): Inspector {
    x.(historyGeneration := x.historyGeneration + 1, station := id, rows := [], cursor := None, blocked := false)
  }

  /** choose: another selection of stations; a single one is inspected. */
  function Choose(x: Inspector, ids: set<string>, single: Option<string>): Inspector {
    ResetHistory(x.(selected := ids != {}, generation := x.generation + 1, waiting := true),
                 if ids != {} && single.Some? && ids == {single.value} then single else None)
  }

  /** render's part for the inspector: without a station it shows the recent receptions. */
  function Render(x: Inspector): Inspector {
    if x.snapshot.Some? && x.station.None? && !x.paused then x.(rows := LastRows(x.snapshot.value.recent)) else x
  }

  /** The page's own history selector. */
  function Inspect(x: Inspector, id: Option<string>): Inspector {
    Render(ResetHistory(x, id))
  }

  /** The pause box: loaded rows stay, a reply in flight is void. */
  function Pause(x: Inspector, paused: bool): Inspector {
    var next := x.(historyGeneration := x.historyGeneration + 1, paused := paused);
    if paused then next else Render(next)
  }

  /** refresh, once a snapshot of another run arrived: everything of the old run goes. */
  function ClearRun(x: Inspector): Inspector {
    ResetHistory(x, None).(snapshot := None, selected := false)
  }

  /** A station that is gone is inspected no longer. */
  function WithoutGone(x: Inspector, stations: set<string>): Inspector {
    if x.station.Some? && x.station.value !in stations then ResetHistory(x, None) else x
  }

  function ShowSnapshot(x: Inspector, next: Snap): Inspector {
    Render(WithoutGone(x, next.stations).(snapshot := Some(next), blocked := false, waiting := false))
  }

  /** refresh after its await, for the token it started with. */
  function EndFetch(x: Inspector, token: nat, outcome: FetchReply): Inspector {
    var done := x.(fetch := NotFetching);
    if token != x.generation then done
    else
      match outcome
      case FetchFailed => done.(waiting := true)
      case SelectionGone => if x.selected then Choose(done, {}, None) else done.(waiting := true)
      case Observed(next) =>
        if x.snapshot.None? || x.snapshot.value.run == next.run then ShowSnapshot(done, next)
        else if x.selected then ClearRun(done).(generation := x.generation + 1)
        else ShowSnapshot(ClearRun(done), next)
  }

  /** refreshHistory up to its await. */
  function Ask(x: Inspector): Inspector {
    if x.request.Some? || x.snapshot.None? || x.station.None? || x.blocked || x.paused || x.waiting then x
    else
      x.(request := Some(Request(x.historyGeneration, x.generation, x.snapshot.value.run, x.station.value, x.cursor, None)))
  }

  /** Whether the reply still belongs to what is shown. */
  predicate IsCurrent(x: Inspector, r: Request) {
    && r.token == x.historyGeneration && r.selection == x.generation
    && x.snapshot.Some? && r.run == x.snapshot.value.run && x.station == Some(r.id) && !x.paused && !x.waiting
  }

  /** The index of the row with a sequence, or the number of rows. */
  function IndexOf(rows: seq<WireReception>, sequence: nat): (i: nat)
    ensures i <= |rows|
    ensures i < |rows| ==> rows[i].sequence == sequence
    ensures forall k :: 0 <= k < i ==> rows[k].sequence != sequence
  {
    if rows == [] || rows[0].sequence == sequence then 0 else 1 + IndexOf(rows[1..], sequence)
  }

  /** Setting one entry of a map that keeps insertion order. */
  function Put(rows: seq<WireReception>, r: WireReception): seq<WireReception> {
    var i := IndexOf(rows, r.sequence);
    if i < |rows| then rows[i := r] else rows + [r]
  }

  /** Rows by sequence in order of first appearance. */
  function ByNumber(rows: seq<WireReception>): seq<WireReception> {
    if rows == [] then [] else Put(ByNumber(rows[..|rows| - 1]), rows[|rows| - 1])
  }

  /** refreshHistory after its await. */
  function TakeReply(x: Inspector): Inspector {
    if x.request.None? || x.request.value.reply.None? then x
    else
      var r := x.request.value;
      var done := x.(request := None);
      if !IsCurrent(x, r) then done
      else
        match r.reply.value
        case Failed => done
        case Gone => ResetHistory(done, Some(r.id)).(blocked := true)
        case GotPage(page) =>
          if page.simulationId != r.run || page.stationId != r.id then ResetHistory(done, Some(r.id)).(blocked := true)
          else
            var base := if page.gap then [] else x.rows;
            done.(rows := LastRows(ByNumber(base + page.receptions)), cursor := Some(page.nextAfter))
  }

  // ----- Steps -----

  datatype System = System(server: Server, page: Inspector)

  datatype Action = Log(station: string, reception: Reception) | AddStation(id: string) | RemoveStation(id: string)
                  | Restart(run: string, stations: set<string>)
                  | ClickStations(ids: set<string>, single: Option<string>) | SelectHistory(chosen: Option<string>)
                  | ClickPause(paused: bool)
                  | StartFetch | ServeFetch(recent: seq<WireReception>, missing: bool) | LoseFetch | FinishFetch
                  | StartRequest | ServeRequest | LoseRequest | EndRequest

  predicate RunUnused(s: Server, run: string) {
    run != s.run && forall k <- s.logs :: k.run != run
  }

  function EmptyLogs(run: string, stations: set<string>): map<Key, seq<Reception>> {
    map id <- stations :: Key(run, id) := []
  }

  function ServerNext(s: Server, a: Action): Server {
    match a
    case Log(station, r) =>
      var k := Key(s.run, station);
      if station in s.stations && k in s.logs then s.(logs := s.logs[k := s.logs[k] + [r.(sequence := |s.logs[k]| + 1)]]) else s
    case AddStation(id) =>
      if Key(s.run, id) in s.logs then s
      else s.(stations := s.stations + {id}, logs := s.logs[Key(s.run, id) := []])
    case RemoveStation(id) => s.(stations := s.stations - {id})
    case Restart(run, stations) =>
      if RunUnused(s, run) then Server(run, stations, s.logs + EmptyLogs(run, stations)) else s
    case _ => s
  }

  function PageNext(s: Server, x: Inspector, a: Action): Inspector {
    match a
    case ClickStations(ids, single) => Choose(x, ids, single)
    case SelectHistory(chosen) => Inspect(x, chosen)
    case ClickPause(paused) => Pause(x, paused)
    case StartFetch => if x.fetch.NotFetching? then x.(fetch := Fetching(x.generation)) else x
    case ServeFetch(recent, missing) =>
      if !x.fetch.Fetching? then x
      else
        x.(fetch := Fetched(x.fetch.token, if missing then SelectionGone else Observed(Snap(s.run, s.stations, recent))))
    case LoseFetch => if x.fetch.NotFetching? then x else x.(fetch := Fetched(x.fetch.token, FetchFailed))
    case FinishFetch => if x.fetch.Fetched? then EndFetch(x, x.fetch.token, x.fetch.outcome) else x
    case StartRequest => Ask(x)
    case ServeRequest =>
      if x.request.Some? && x.request.value.reply.None? then
        var r := x.request.value;
        x.(request := Some(r.(reply := Some(Serve(s, r.run, r.id, r.after)))))
      else x
    case LoseRequest => if x.request.Some? then x.(request := Some(x.request.value.(reply := Some(Failed)))) else x
    case EndRequest => TakeReply(x)
    case _ => x
  }

  function Next(s: System, a: Action): System {
    System(ServerNext(s.server, a), PageNext(s.server, s.page, a))
  }

  function After(s: System, actions: seq<Action>): System
    decreases |actions|
  {
    if actions == [] then s else Next(After(s, actions[..|actions| - 1]), actions[|actions| - 1])
  }

  function Start(run: string, stations: set<string>): System {
    System(Server(run, stations, EmptyLogs(run, stations)), NewInspector())
  }

  // ----- What every reachable system keeps -----

  ghost predicate LogsOk(s: Server) {
    forall k <- s.logs :: Numbered(s.logs[k])
  }

  ghost predicate Numbered(log: seq<Reception>) {
    forall i :: 0 <= i < |log| ==> log[i].sequence == i + 1
  }

  /** The rows are the log's records up to the cursor, without a hole. */
  ghost predicate IsBlock(log: seq<Reception>, rows: seq<WireReception>, cursor: nat) {
    |rows| <= cursor <= |log| && rows == AllToWire(log[cursor - |rows|..cursor])
  }

  ghost predicate RowsOk(s: Server, x: Inspector) {
    && |x.rows| <= ROW_LIMIT
    && (x.station.None? ==> x.cursor.None?)
    && (x.station.Some? && x.cursor.None? ==> x.rows == [])
    && (x.station.Some? && x.cursor.Some? ==>
          && x.snapshot.Some?
          && Key(x.snapshot.value.run, x.station.value) in s.logs
          && IsBlock(s.logs[Key(x.snapshot.value.run, x.station.value)], x.rows, x.cursor.value))
  }

  /** The page answers the request from some earlier state of the log. */
  ghost predicate ServedFrom(log: seq<Reception>, r: Request, page: WirePage) {
    exists n: nat :: ServedAt(log, n, r, page)
  }

  predicate ServedAt(log: seq<Reception>, n: nat, r: Request, page: WirePage) {
    n <= |log| && (r.after.Some? ==> r.after.value <= n) && page == PageFor(r.run, r.id, log[..n], r.after, ROW_LIMIT)
  }

  ghost predicate RequestOk(s: Server, x: Inspector) {
    x.request.Some? ==>
      var r := x.request.value;
      && r.token <= x.historyGeneration
      && (r.token == x.historyGeneration ==> r.after == x.cursor && x.station == Some(r.id))
      && (r.reply.Some? && r.reply.value.GotPage? ==>
            Key(r.run, r.id) in s.logs && ServedFrom(s.logs[Key(r.run, r.id)], r, r.reply.value.page))
  }

  ghost predicate Ok(s: System) {
    LogsOk(s.server) && RowsOk(s.server, s.page) && RequestOk(s.server, s.page)
  }

  // ----- Merging rows -----

  lemma {:induction false} NumberedRowsMerge(rows: seq<WireReception>)
    requires forall i, j :: 0 <= i < j < |rows| ==> rows[i].sequence != rows[j].sequence
    ensures ByNumber(rows) == rows
  {
    if rows != [] {
      NumberedRowsMerge(rows[..|rows| - 1]);
      var i := IndexOf(rows[..|rows| - 1], rows[|rows| - 1].sequence);
    }
  }

  lemma BlockRows(log: seq<Reception>, from: nat, to: nat)
    requires Numbered(log) && from <= to <= |log|
    ensures ByNumber(AllToWire(log[from..to])) == AllToWire(log[from..to])
  {
    var rows := AllToWire(log[from..to]);
    forall i | 0 <= i < |rows| ensures rows[i].sequence == from + i + 1 {
    }
    NumberedRowsMerge(rows);
  }

  lemma LastOfBlock(log: seq<Reception>, from: nat, to: nat)
    requires from <= to <= |log|
    ensures IsBlock(log, LastRows(AllToWire(log[from..to])), to)
  {
    var rows := LastRows(AllToWire(log[from..to]));
    assert rows == AllToWire(log[to - |rows|..to]);
  }

  // ----- The server only appends -----

  lemma BlockLater(log: seq<Reception>, longer: seq<Reception>, rows: seq<WireReception>, cursor: nat)
    requires IsBlock(log, rows, cursor) && Extends(longer, log)
    ensures IsBlock(longer, rows, cursor)
  {
    SliceOfPrefix(longer, |log|, cursor - |rows|, cursor);
  }

  lemma ServedLater(log: seq<Reception>, longer: seq<Reception>, r: Request, page: WirePage)
    requires ServedFrom(log, r, page) && Extends(longer, log)
    ensures ServedFrom(longer, r, page)
  {
    hide PageFor;
    var n: nat :| ServedAt(log, n, r, page);
    SliceOfPrefix(longer, |log|, 0, n);
    assert longer[..n] == log[..n] && ServedAt(longer, n, r, page);
  }

  lemma ServerAppends(s: Server, a: Action, k: Key)
    requires LogsOk(s) && k in s.logs
    ensures k in ServerNext(s, a).logs && Extends(ServerNext(s, a).logs[k], s.logs[k])
    ensures LogsOk(ServerNext(s, a))
  {
  }

  lemma ServerKeeps(s: Server, x: Inspector, a: Action)
    requires LogsOk(s) && RowsOk(s, x) && RequestOk(s, x)
    ensures LogsOk(ServerNext(s, a)) && RowsOk(ServerNext(s, a), x) && RequestOk(ServerNext(s, a), x)
  {
    hide ServerNext, LogsOk, IsBlock, ServedFrom, Extends;
    var t := ServerNext(s, a);
    ServerStaysNumbered(s, a);
    if x.station.Some? && x.cursor.Some? {
      var k := Key(x.snapshot.value.run, x.station.value);
      ServerAppends(s, a, k);
      BlockLater(s.logs[k], t.logs[k], x.rows, x.cursor.value);
    }
    if x.request.Some? && x.request.value.reply.Some? && x.request.value.reply.value.GotPage? {
      var r := x.request.value;
      ServerAppends(s, a, Key(r.run, r.id));
      ServedLater(s.logs[Key(r.run, r.id)], t.logs[Key(r.run, r.id)], r, r.reply.value.page);
    }
  }

  lemma ServerStaysNumbered(s: Server, a: Action)
    requires LogsOk(s)
    ensures LogsOk(ServerNext(s, a))
  {
  }

  // ----- The page's own steps -----

  lemma ServeKeeps(s: Server, x: Inspector)
    requires RequestOk(s, x) && RowsOk(s, x)
    ensures RequestOk(s, PageNext(s, x, ServeRequest)) && RowsOk(s, PageNext(s, x, ServeRequest))
  {
    hide PageFor, IsBlock;
    if x.request.Some? && x.request.value.reply.None? && Serve(s, x.request.value.run, x.request.value.id, x.request.value.after).GotPage? {
      var r := x.request.value;
      var log := s.logs[Key(r.run, r.id)];
      assert log[..|log|] == log;
      assert ServedAt(log, |log|, r.(reply := Some(GotPage(PageFor(r.run, r.id, log, r.after, ROW_LIMIT)))),
                      PageFor(r.run, r.id, log, r.after, ROW_LIMIT));
    }
  }

  /** The reply to the current cursor continues the rows, or starts them again where it is marked as a gap. */
  lemma PageContinues(log: seq<Reception>, x: Inspector, r: Request, page: WirePage)
    requires Numbered(log) && ServedFrom(log, r, page) && r.after == x.cursor
    requires x.cursor.None? ==> x.rows == []
    requires x.cursor.Some? ==> IsBlock(log, x.rows, x.cursor.value)
    ensures var rows := (if page.gap then [] else x.rows) + page.receptions;
            && ByNumber(rows) == rows && IsBlock(log, LastRows(rows), page.nextAfter)
            && (x.cursor.Some? ==> x.cursor.value <= page.nextAfter)
  {
    hide ByNumber, IsBlock, AllToWire;
    var n: nat :| ServedAt(log, n, r, page);
    PageForFits(r.run, r.id, log[..n], r.after, ROW_LIMIT);
    var to, from := page.nextAfter, page.nextAfter - |page.receptions|;
    SliceOfPrefix(log, n, from, to);
    assert page.receptions == AllToWire(log[from..to]);
    var first := from;
    if x.cursor.Some? && !page.gap {
      assert from == x.cursor.value;
      first := BlockStart(log, x.rows, from);
      WireBlocks(log, first, from, to);
    }
    assert (if page.gap then [] else x.rows) + page.receptions == AllToWire(log[first..to]);
    BlockRows(log, first, to);
    LastOfBlock(log, first, to);
  }

  lemma BlockStart(log: seq<Reception>, rows: seq<WireReception>, cursor: nat) returns (first: nat)
    requires IsBlock(log, rows, cursor)
    ensures first <= cursor <= |log| && rows == AllToWire(log[first..cursor])
  {
    first := cursor - |rows|;
  }

  lemma TakeReplyKeeps(s: Server, x: Inspector)
    requires LogsOk(s) && RowsOk(s, x) && RequestOk(s, x)
    ensures RowsOk(s, TakeReply(x)) && RequestOk(s, TakeReply(x))
  {
    hide ByNumber, IsBlock, ServedFrom, Numbered;
    if x.request.Some? && x.request.value.reply.Some? && x.request.value.reply.value.GotPage? && IsCurrent(x, x.request.value) {
      var r := x.request.value;
      PageContinues(s.logs[Key(r.run, r.id)], x, r, r.reply.value.page);
    }
  }

  lemma ResetKeeps(s: Server, x: Inspector, id: Option<string>)
    requires RequestOk(s, x)
    ensures RowsOk(s, ResetHistory(x, id)) && RequestOk(s, ResetHistory(x, id))
    ensures ResetHistory(x, id).cursor.None?
  {
    hide IsBlock, ServedFrom;
  }

  lemma RenderKeeps(s: Server, x: Inspector)
    requires RowsOk(s, x) && RequestOk(s, x)
    ensures RowsOk(s, Render(x)) && RequestOk(s, Render(x))
  {
    hide IsBlock, ServedFrom;
  }

  lemma ShowKeeps(s: Server, x: Inspector, next: Snap)
    requires RowsOk(s, x) && RequestOk(s, x)
    requires x.cursor.Some? ==> x.snapshot.Some? && x.snapshot.value.run == next.run
    ensures RowsOk(s, ShowSnapshot(x, next)) && RequestOk(s, ShowSnapshot(x, next))
  {
    hide IsBlock, ServedFrom, Render;
    ResetKeeps(s, x, None);
    RenderKeeps(s, WithoutGone(x, next.stations).(snapshot := Some(next), blocked := false, waiting := false));
  }

  lemma EndFetchKeeps(s: Server, x: Inspector, token: nat, outcome: FetchReply)
    requires RowsOk(s, x) && RequestOk(s, x)
    ensures RowsOk(s, EndFetch(x, token, outcome)) && RequestOk(s, EndFetch(x, token, outcome))
  {
    hide IsBlock, ServedFrom, ShowSnapshot;
    var done := x.(fetch := NotFetching);
    ResetKeeps(s, done, None);
    if outcome.Observed? {
      if x.snapshot.None? || x.snapshot.value.run == outcome.snap.run {
        ShowKeeps(s, done, outcome.snap);
      } else {
        ShowKeeps(s, ClearRun(done), outcome.snap);
      }
    }
  }

  lemma OldTokens(s: Server, x: Inspector)
    requires RequestOk(s, x)
    ensures x.request.Some? ==> x.request.value.token <= x.historyGeneration
  {
  }

  lemma CursorHasSnapshot(s: Server, x: Inspector)
    requires RowsOk(s, x)
    ensures x.cursor.Some? ==> x.snapshot.Some? && x.station.Some?
  {
    hide IsBlock;
  }

  lemma PauseKeeps(s: Server, x: Inspector, paused: bool)
    requires RowsOk(s, x) && RequestOk(s, x)
    ensures var y := x.(historyGeneration := x.historyGeneration + 1, paused := paused); RowsOk(s, y) && RequestOk(s, y)
    ensures RowsOk(s, Pause(x, paused)) && RequestOk(s, Pause(x, paused))
  {
    hide IsBlock, ServedFrom, Render;
    RenderKeeps(s, x.(historyGeneration := x.historyGeneration + 1, paused := paused));
  }

  lemma ClearKeeps(s: Server, x: Inspector)
    requires RequestOk(s, x)
    ensures RowsOk(s, ClearRun(x)) && RequestOk(s, ClearRun(x))
  {
    hide IsBlock, ServedFrom;
  }

  lemma ClicksKeep(s: Server, x: Inspector, a: Action)
    requires RowsOk(s, x) && RequestOk(s, x) && (a.ClickStations? || a.SelectHistory? || a.ClickPause?)
    ensures RowsOk(s, PageNext(s, x, a)) && RequestOk(s, PageNext(s, x, a))
  {
    hide IsBlock, ServedFrom, ResetHistory, Render;
    match a
    case ClickStations(ids, single) =>
      ResetKeeps(s, x.(selected := ids != {}, generation := x.generation + 1, waiting := true),
                 if ids != {} && single.Some? && ids == {single.value} then single else None);
    case SelectHistory(chosen) =>
      ResetKeeps(s, x, chosen);
      RenderKeeps(s, ResetHistory(x, chosen));
    case ClickPause(paused) =>
      RenderKeeps(s, x.(historyGeneration := x.historyGeneration + 1, paused := paused));
  }

  lemma AskKeeps(s: Server, x: Inspector)
    requires RowsOk(s, x) && RequestOk(s, x)
    ensures RowsOk(s, Ask(x)) && RequestOk(s, Ask(x))
  {
    hide IsBlock;
  }

  lemma PageKeeps(s: Server, x: Inspector, a: Action)
    requires LogsOk(s) && RowsOk(s, x) && RequestOk(s, x)
    ensures RowsOk(s, PageNext(s, x, a)) && RequestOk(s, PageNext(s, x, a))
  {
    hide IsBlock, ServedFrom, TakeReply, EndFetch, Serve, LogsOk, Choose, Inspect, Pause;
    match a
    case ServeRequest => ServeKeeps(s, x);
    case EndRequest => TakeReplyKeeps(s, x);
    case FinishFetch => if x.fetch.Fetched? { EndFetchKeeps(s, x, x.fetch.token, x.fetch.outcome); }
    case ClickStations(_, _) => ClicksKeep(s, x, a);
    case SelectHistory(_) => ClicksKeep(s, x, a);
    case ClickPause(_) => ClicksKeep(s, x, a);
    case _ =>
  }

  lemma NextKeeps(s: System, a: Action)
    requires Ok(s)
    ensures Ok(Next(s, a))
  {
    hide ServerNext, PageNext, LogsOk, RowsOk, RequestOk;
    PageKeeps(s.server, s.page, a);
    ServerKeeps(s.server, PageNext(s.server, s.page, a), a);
  }

  lemma StartOk(run: string, stations: set<string>)
    ensures Ok(Start(run, stations))
  {
  }

  lemma {:induction false} ReachableOk(run: string, stations: set<string>, actions: seq<Action>)
    ensures Ok(After(Start(run, stations), actions))
    decreases |actions|
  {
    hide Next, Ok, Start;
    if actions == [] {
      StartOk(run, stations);
    } else {
      ReachableOk(run, stations, actions[..|actions| - 1]);
      NextKeeps(After(Start(run, stations), actions[..|actions| - 1]), actions[|actions| - 1]);
    }
  }

  // ----- The promises -----

  /** Whatever the server and the page do in between: the rows of an inspected station are always one block of at most
      200 consecutive records of its log, ending at the cursor. */
  lemma RowsAreABlock(run: string, stations: set<string>, actions: seq<Action>)
    ensures var s := After(Start(run, stations), actions);
            var x := s.page;
            |x.rows| <= ROW_LIMIT && (x.station.Some? && x.rows != [] ==> x.cursor.Some?)
            && (x.station.Some? && x.cursor.Some? ==>
                  && x.snapshot.Some? && Key(x.snapshot.value.run, x.station.value) in s.server.logs
                  && IsBlock(s.server.logs[Key(x.snapshot.value.run, x.station.value)], x.rows, x.cursor.value))
  {
    hide After, Start, IsBlock;
    ReachableOk(run, stations, actions);
  }

  /** The effect of a page that is taken: the cursor moves on, and the rows follow or start again at a gap. */
  ghost predicate Continues(y: Inspector, x: Inspector, page: WirePage) {
    && y.cursor == Some(page.nextAfter) && (x.cursor.Some? ==> x.cursor.value <= page.nextAfter)
    && y.rows == LastRows((if page.gap then [] else x.rows) + page.receptions)
  }

  /** Whether the reply is a page, still belongs to what is shown, and is of the right run and station. */
  predicate TakesPage(x: Inspector) {
    && x.request.Some? && x.request.value.reply.Some? && x.request.value.reply.value.GotPage?
    && IsCurrent(x, x.request.value)
    && x.request.value.reply.value.page.simulationId == x.request.value.run
    && x.request.value.reply.value.page.stationId == x.request.value.id
  }

  lemma TakenPageContinues(s: Server, x: Inspector)
    requires LogsOk(s) && RowsOk(s, x) && RequestOk(s, x) && TakesPage(x)
    ensures Continues(TakeReply(x), x, x.request.value.reply.value.page)
  {
    hide IsBlock, ServedFrom, ByNumber, Numbered;
    var r := x.request.value;
    PageContinues(s.logs[Key(r.run, r.id)], x, r, r.reply.value.page);
  }

  /** A reply the page takes never moves the cursor back, and unless it is marked as a gap the rows it brings follow the
      rows there were. */
  lemma RepliesContinueRows(run: string, stations: set<string>, actions: seq<Action>)
    ensures var x := After(Start(run, stations), actions).page;
            TakesPage(x) ==> Continues(TakeReply(x), x, x.request.value.reply.value.page)
  {
    hide After, Start, LogsOk, RowsOk, RequestOk, TakesPage, Continues;
    ReachableOk(run, stations, actions);
    var s := After(Start(run, stations), actions);
    if TakesPage(s.page) {
      TakenPageContinues(s.server, s.page);
    }
  }
}
