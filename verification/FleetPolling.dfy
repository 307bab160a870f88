/** The fleet page: polls of three reads and two kinds of write in flight at once, against a server that commits and
    restarts between them (ui/internal/assets/static/js/manager.js). */
module FleetPolling {
  import opened Basics

  /** What the server would answer at one moment; at counts its commits over all its runs. */
  datatype Moment = Moment(run: string, count: int, speed: int, at: nat)

  datatype Kind = CountKind | SpeedKind

  /** One kind of write between its awaits. sentAt is the server's moment when it was sent, known to no page; rendered is
      what polls have shown of this kind since then. */
  datatype Write = Ready
                 | Sent(value: int, sentAt: nat, rendered: seq<Moment>)
                 | Answered(answer: Option<Moment>, sentAt: nat, rendered: seq<Moment>)

  datatype Read = Fleet | History | Metadata

  /** A poll: the generation it started under, the moment it started, known to no page, and the answers so far. */
  datatype Poll = NoPoll | Asked(started: nat, since: nat, answers: map<Read, Moment>)

  datatype Field = Field(value: int, dirty: bool, write: Write)

  datatype Page = Page(run: Option<string>, generation: nat, count: Field, speed: Field, poll: Poll,
                       fleet: Option<Moment>, clock: Option<Moment>, messages: Option<Moment>)
  {
    function Of(kind: Kind): Field {
      if kind == CountKind then count else speed
    }

    function With(kind: Kind, f: Field): Page {
      if kind == CountKind then this.(count := f) else this.(speed := f)
    }
  }

  function NewPage(): Page {
    Page(None, 0, Field(0, false, Ready), Field(0, false, Ready), NoPoll, None, None, None)
  }

  function Served(m: Moment, kind: Kind): int {
    if kind == CountKind then m.count else m.speed
  }

  // ----- Event handlers -----

  function Edit(p: Page, kind: Kind, value: int): Page {
    p.With(kind, p.Of(kind).(value := value, dirty := true))
  }

  /** write up to its await. */
  function StartWrite(p: Page, kind: Kind, now: nat): Page {
    var f := p.Of(kind);
    if !f.write.Ready? then p
    else p.With(kind, f.(write := Sent(f.value, now, []))).(generation := p.generation + 1)
  }

  predicate Confirms(p: Page, w: Write) {
    w.Answered? && w.answer.Some? && p.run == Some(w.answer.value.run)
  }

  /** write after its await: a confirmed answer of the shown run is rendered and replaces the user's edit. */
  function EndWrite(p: Page, kind: Kind): Page {
    var f := p.Of(kind);
    if !f.write.Answered? then p
    else
      var done := p.(generation := p.generation + 1);
      if !Confirms(p, f.write) then done.With(kind, f.(write := Ready))
      else
        var m := f.write.answer.value;
        var shown := done.With(kind, Field(Served(m, kind), false, Ready));
        if kind == CountKind then shown.(fleet := Some(m)) else shown.(clock := Some(m))
  }

  function StartPoll(p: Page, now: nat): Page {
    if p.poll.NoPoll? then p.(poll := Asked(p.generation, now, map[])) else p
  }

  predicate AllAnswered(poll: Poll) {
    poll.Asked? && Fleet in poll.answers && History in poll.answers && Metadata in poll.answers
  }

  /** Whether refresh renders: no write started or finished meanwhile, and the reads are of one run. */
  predicate Takes(p: Page) {
    && AllAnswered(p.poll) && p.poll.started == p.generation
    && p.poll.answers[Fleet].run == p.poll.answers[Metadata].run == p.poll.answers[History].run
  }

  /** A write in flight sees what a poll shows of its kind. */
  function Seen(w: Write, m: Moment): Write {
    if w.Ready? then w else w.(rendered := w.rendered + [m])
  }

  /** showValue: an edited field and one being saved are left alone; so may be one with the focus. */
  function Refreshed(f: Field, value: int, focused: bool): Field {
    if f.dirty || !f.write.Ready? || focused then f else f.(value := value)
  }

  /** What refresh renders of three reads of one run; another run than the one shown starts the form afresh. */
  function Render(p: Page, fleet: Moment, history: Moment, metadata: Moment, focus: Option<Kind>): Page {
    var newRun := p.run != Some(metadata.run);
    var c := if newRun then p.count.(dirty := false, value := fleet.count) else p.count;
    var s := if newRun then p.speed.(dirty := false, value := metadata.speed) else p.speed;
    p.(run := Some(metadata.run), poll := NoPoll,
       count := Refreshed(c, fleet.count, focus == Some(CountKind)).(write := Seen(c.write, fleet)),
       speed := Refreshed(s, metadata.speed, focus == Some(SpeedKind)).(write := Seen(s.write, metadata)),
       fleet := Some(fleet), clock := Some(metadata), messages := Some(history))
  }

  /** refresh after its await. focus is the field with the focus, if any. */
  function EndPoll(p: Page, focus: Option<Kind>): Page {
    if !AllAnswered(p.poll) then p
    else if !Takes(p) then p.(poll := NoPoll)
    else Render(p, p.poll.answers[Fleet], p.poll.answers[History], p.poll.answers[Metadata], focus)
  }

  /** A user's edit within the run shown. */
  predicate EditKept(p: Page, q: Page, kind: Kind) {
    p.run == q.run && q.Of(kind).dirty ==> p.Of(kind).dirty && p.Of(kind).value == q.Of(kind).value
  }

  // ----- Steps -----

  /** confirmed holds the server's commits of the writes that the page has shown as done. */
  datatype System = System(now: Moment, page: Page, confirmed: seq<Moment>)

  datatype Action = Commit(count: int, speed: int) | Restart(run: string, count: int, speed: int)
                  | Type(kind: Kind, value: int) | Submit(kind: Kind)
                  | ServeWrite(kind: Kind) | LoseWrite(kind: Kind) | FinishWrite(kind: Kind)
                  | BeginPoll | ServeRead(read: Read) | LosePoll | FinishPoll(focus: Option<Kind>)

  /** The server after a write: its count or speed is the one sent. */
  function Written(now: Moment, kind: Kind, value: int): Moment {
    if kind == CountKind then now.(count := value, at := now.at + 1) else now.(speed := value, at := now.at + 1)
  }

  function Next(s: System, a: Action): System
  {
    var p, now := s.page, s.now;
    match a
    case Commit(count, speed) => s.(now := Moment(now.run, count, speed, now.at + 1))
    case Restart(run, count, speed) => s.(now := Moment(run, count, speed, now.at + 1))
    case Type(kind, value) => s.(page := Edit(p, kind, value))
    case Submit(kind) => s.(page := StartWrite(p, kind, now.at))
    case ServeWrite(kind) =>
      var f := p.Of(kind);
      if !f.write.Sent? then s
      else
        var m := Written(now, kind, f.write.value);
        s.(now := m, page := p.With(kind, f.(write := Answered(Some(m), f.write.sentAt, f.write.rendered))))
    case LoseWrite(kind) =>
      var f := p.Of(kind);
      if f.write.Ready? then s else s.(page := p.With(kind, f.(write := Answered(None, f.write.sentAt, f.write.rendered))))
    case FinishWrite(kind) =>
      var w := p.Of(kind).write;
      System(now, EndWrite(p, kind), if Confirms(p, w) then s.confirmed + [w.answer.value] else s.confirmed)
    case BeginPoll => s.(page := StartPoll(p, now.at))
    case ServeRead(read) =>
      if p.poll.Asked? && read !in p.poll.answers then s.(page := p.(poll := p.poll.(answers := p.poll.answers[read := now])))
      else s
    case LosePoll => s.(page := p.(poll := NoPoll))
    case FinishPoll(focus) => s.(page := EndPoll(p, focus))
  }

  function After(s: System, actions: seq<Action>): System
    decreases |actions|
  {
    if actions == [] then s
    else Next(After(s, actions[..|actions| - 1]), actions[|actions| - 1])
  }

  function Start(now: Moment): System {
    System(now, NewPage(), [])
  }

  // ----- What every reachable system keeps -----

  predicate NotAfter(m: Option<Moment>, at: nat) {
    m.Some? ==> m.value.at <= at
  }

  predicate OfRun(m: Option<Moment>, run: Option<string>) {
    m.Some? ==> run == Some(m.value.run)
  }

  /** A live poll started no earlier than any confirmed write and anything shown. */
  ghost predicate PollOk(s: System) {
    var poll := s.page.poll;
    poll.Asked? ==>
      && poll.started <= s.page.generation && poll.since <= s.now.at
      && (forall read <- poll.answers :: poll.since <= poll.answers[read].at <= s.now.at)
      && NotAfter(s.page.messages, poll.since)
      && (poll.started == s.page.generation ==>
            && (forall i :: 0 <= i < |s.confirmed| ==> s.confirmed[i].at <= poll.since)
            && NotAfter(s.page.fleet, poll.since) && NotAfter(s.page.clock, poll.since))
  }

  /** A write in flight commits after it was sent. */
  predicate WriteOk(s: System, kind: Kind) {
    var w := s.page.Of(kind).write;
    && (!w.Ready? ==> w.sentAt <= s.now.at)
    && (w.Answered? && w.answer.Some? ==> w.sentAt < w.answer.value.at <= s.now.at)
  }

  ghost predicate DisplayOk(s: System) {
    && OfRun(s.page.fleet, s.page.run) && OfRun(s.page.clock, s.page.run) && OfRun(s.page.messages, s.page.run)
    && NotAfter(s.page.fleet, s.now.at) && NotAfter(s.page.clock, s.now.at) && NotAfter(s.page.messages, s.now.at)
    && (forall i :: 0 <= i < |s.confirmed| ==> s.confirmed[i].at <= s.now.at)
  }

  /** Where writes of a kind show their answer, as polls do. */
  function Display(p: Page, kind: Kind): Option<Moment> {
    if kind == CountKind then p.fleet else p.clock
  }

  /** While a write is in flight the display is what it was when the write was sent, or the last poll rendered since, and
      polls do not go back. */
  ghost predicate RenderedOk(s: System, kind: Kind) {
    var w := s.page.Of(kind).write;
    !w.Ready? ==>
      if w.rendered == [] then NotAfter(Display(s.page, kind), w.sentAt)
      else
        var last := w.rendered[|w.rendered| - 1];
        Display(s.page, kind) == Some(last) && forall i :: 0 <= i < |w.rendered| ==> w.rendered[i].at <= last.at
  }

  ghost predicate Ok(s: System) {
    && PollOk(s) && DisplayOk(s)
    && WriteOk(s, CountKind) && WriteOk(s, SpeedKind) && RenderedOk(s, CountKind) && RenderedOk(s, SpeedKind)
  }

  lemma NextKeepsPoll(s: System, a: Action)
    requires PollOk(s) && DisplayOk(s)
    ensures PollOk(Next(s, a))
  {
    hide OfRun, Takes;
  }

  lemma NextKeepsWrites(s: System, a: Action, kind: Kind)
    requires WriteOk(s, kind)
    ensures WriteOk(Next(s, a), kind)
  {
    hide Takes;
  }

  lemma PollKeepsDisplay(s: System, focus: Option<Kind>)
    requires PollOk(s) && DisplayOk(s)
    ensures DisplayOk(Next(s, FinishPoll(focus)))
  {
    hide Refreshed, Seen;
  }

  lemma WriteKeepsDisplay(s: System, kind: Kind)
    requires WriteOk(s, kind) && DisplayOk(s)
    ensures DisplayOk(Next(s, FinishWrite(kind)))
  {
  }

  lemma NextKeepsDisplay(s: System, a: Action)
    requires Ok(s)
    ensures DisplayOk(Next(s, a))
  {
    hide PollOk, RenderedOk, EndPoll, EndWrite, Takes, Confirms;
    match a
    case FinishPoll(focus) => PollKeepsDisplay(s, focus);
    case FinishWrite(kind) =>
      assert WriteOk(s, kind);
      WriteKeepsDisplay(s, kind);
    case _ =>
  }

  lemma PollKeepsRendered(s: System, focus: Option<Kind>, kind: Kind)
    requires PollOk(s) && RenderedOk(s, kind)
    ensures RenderedOk(Next(s, FinishPoll(focus)), kind)
  {
    if Takes(s.page) {
      var read := if kind == CountKind then Fleet else Metadata;
      assert s.page.poll.since <= s.page.poll.answers[read].at;
    }
  }

  lemma NextKeepsRendered(s: System, a: Action, kind: Kind)
    requires PollOk(s) && DisplayOk(s) && RenderedOk(s, kind)
    ensures RenderedOk(Next(s, a), kind)
  {
    hide PollOk, EndPoll, Takes;
    if a.FinishPoll? {
      hide RenderedOk;
      PollKeepsRendered(s, a.focus, kind);
    }
  }

  lemma NextKeeps(s: System, a: Action)
    requires Ok(s)
    ensures Ok(Next(s, a))
  {
    NextKeepsPoll(s, a);
    NextKeepsWrites(s, a, CountKind);
    NextKeepsWrites(s, a, SpeedKind);
    NextKeepsRendered(s, a, CountKind);
    NextKeepsRendered(s, a, SpeedKind);
    NextKeepsDisplay(s, a);
    hide Next, PollOk, WriteOk, DisplayOk, RenderedOk;
  }

  lemma {:induction false} ReachableOk(now: Moment, actions: seq<Action>)
    ensures Ok(After(Start(now), actions))
    decreases |actions|
  {
    hide Next, Ok;
    if actions == [] {
      StartOk(now);
    } else {
      ReachableOk(now, actions[..|actions| - 1]);
      NextKeeps(After(Start(now), actions[..|actions| - 1]), actions[|actions| - 1]);
    }
  }

  lemma StartOk(now: Moment)
    ensures Ok(Start(now))
  {
  }

  lemma OkPoll(s: System)
    requires Ok(s)
    ensures PollOk(s)
  {
  }

  lemma OkGeneration(s: System)
    requires Ok(s)
    ensures s.page.poll.Asked? ==> s.page.poll.started <= s.page.generation
  {
  }

  // ----- The promises -----

  predicate NotOlder(m: Option<Moment>, than: Option<Moment>) {
    than.Some? ==> m.Some? && than.value.at <= m.value.at
  }

  /** What p shows after a poll: three reads of one run, none older than a confirmed write nor than what q showed. */
  ghost predicate FreshlyShown(p: Page, q: Page, confirmed: seq<Moment>) {
    && p.fleet.Some? && p.clock.Some? && p.messages.Some?
    && p.run == Some(p.fleet.value.run) == Some(p.clock.value.run) == Some(p.messages.value.run)
    && (forall i :: 0 <= i < |confirmed| ==>
          confirmed[i].at <= p.fleet.value.at && confirmed[i].at <= p.clock.value.at
          && confirmed[i].at <= p.messages.value.at)
    && NotOlder(p.fleet, q.fleet) && NotOlder(p.clock, q.clock) && NotOlder(p.messages, q.messages)
  }

  lemma PollKeepsEdits(p: Page, focus: Option<Kind>, kind: Kind)
    ensures EditKept(EndPoll(p, focus), p, kind)
  {
  }

  lemma TakenPollIsFresh(s: System, focus: Option<Kind>)
    requires PollOk(s) && Takes(s.page)
    ensures FreshlyShown(EndPoll(s.page, focus), s.page, s.confirmed)
  {
  }

  /** Whatever the interleaving of polls, both kinds of write, other clients and restarts: a poll the page renders has
      three reads of one run, none older than any write the page has shown as confirmed, nor than anything on display. */
  lemma PollsNeverShowStale(now: Moment, actions: seq<Action>, focus: Option<Kind>)
    ensures var s := After(Start(now), actions);
            Takes(s.page) ==> FreshlyShown(Next(s, FinishPoll(focus)).page, s.page, s.confirmed)
  {
    hide After, FreshlyShown, PollOk, WriteOk, RenderedOk, DisplayOk, Takes, EndPoll;
    ReachableOk(now, actions);
    var s := After(Start(now), actions);
    if Takes(s.page) {
      TakenPollIsFresh(s, focus);
    }
  }

  /** Everything on display is of the run shown, and within a run a poll leaves a user's edit alone. */
  lemma DisplayIsOfOneRun(now: Moment, actions: seq<Action>, kind: Kind, focus: Option<Kind>)
    ensures var s := After(Start(now), actions);
            var q := Next(s, FinishPoll(focus)).page;
            && OfRun(s.page.fleet, s.page.run) && OfRun(s.page.clock, s.page.run) && OfRun(s.page.messages, s.page.run)
            && EditKept(q, s.page, kind)
  {
    hide After, WriteOk, RenderedOk, PollOk;
    ReachableOk(now, actions);
  }

  /** The state after a confirmed answer against the state before. */
  ghost predicate ShowsAnswer(p: Page, q: Page, kind: Kind)
    requires Confirms(q, q.Of(kind).write)
  {
    var w := q.Of(kind).write;
    && Display(p, kind) == w.answer && !p.Of(kind).dirty && p.Of(kind).write.Ready?
    && (NotOlder(w.answer, Display(q, kind)) <==> forall i :: 0 <= i < |w.rendered| ==> w.rendered[i].at <= w.answer.value.at)
    && (w.rendered == [] ==> NotOlder(w.answer, Display(q, kind)))
  }

  lemma AnswerIsShown(s: System, kind: Kind)
    requires WriteOk(s, kind) && RenderedOk(s, kind) && Confirms(s.page, s.page.Of(kind).write)
    ensures ShowsAnswer(EndWrite(s.page, kind), s.page, kind)
  {
  }

  lemma EndWriteKeeps(s: System, kind: Kind)
    requires Ok(s) && s.page.Of(kind).write.Answered?
    ensures var q, w := EndWrite(s.page, kind), s.page.Of(kind).write;
            && !Takes(q)
            && if Confirms(s.page, w)
               then Ok(System(s.now, q, s.confirmed + [w.answer.value])) && ShowsAnswer(q, s.page, kind)
               else Ok(System(s.now, q, s.confirmed)) && q.Of(kind) == s.page.Of(kind).(write := Ready)
                    && q.fleet == s.page.fleet && q.clock == s.page.clock
  {
    hide PollOk, DisplayOk, ShowsAnswer;
    NextKeeps(s, FinishWrite(kind));
    OkGeneration(s);
    if Confirms(s.page, s.page.Of(kind).write) {
      assert WriteOk(s, kind) && RenderedOk(s, kind);
      AnswerIsShown(s, kind);
    }
    hide Ok, WriteOk, RenderedOk;
  }

  /** Exactly when a write's own answer takes the display back: when a poll rendered since the write was sent was read after
      the server's next commit following the write's. If no poll was rendered meanwhile, it never does. */
  lemma AnswersShowOlderExactly(now: Moment, actions: seq<Action>, kind: Kind)
    ensures var s := After(Start(now), actions);
            var w := s.page.Of(kind).write;
            Confirms(s.page, w) ==>
              var shown := Display(Next(s, FinishWrite(kind)).page, kind);
              && shown == w.answer
              && (NotOlder(shown, Display(s.page, kind))
                  <==> forall i :: 0 <= i < |w.rendered| ==> w.rendered[i].at <= w.answer.value.at)
              && (w.rendered == [] ==> NotOlder(shown, Display(s.page, kind)))
  {
    hide After, PollOk, DisplayOk, WriteOk, RenderedOk, EndWrite, Confirms;
    ReachableOk(now, actions);
    var s := After(Start(now), actions);
    if Confirms(s.page, s.page.Of(kind).write) {
      assert WriteOk(s, kind) && RenderedOk(s, kind);
      AnswerIsShown(s, kind);
    }
  }

  const POLL_STEPS := [BeginPoll, ServeRead(Fleet), ServeRead(History), ServeRead(Metadata), FinishPoll(None)]

  /** A poll with nothing in between. */
  lemma CalmPoll(s: System)
    requires s.page.poll.NoPoll?
    ensures var asked := Asked(s.page.generation, s.now.at, map[Fleet := s.now, History := s.now, Metadata := s.now]);
            After(s, POLL_STEPS) == s.(page := EndPoll(s.page.(poll := asked), None))
  {
    hide EndPoll;
    Then5(s, POLL_STEPS);
    assert map[Fleet := s.now][History := s.now][Metadata := s.now] == map[Fleet := s.now, History := s.now, Metadata := s.now];
  }

  /** A run in which it does: the poll started after the write was sent, read after a later commit and arrived before the
      write's answer. */
  lemma AnswersMayShowOlder(run: string)
    ensures var actions := POLL_STEPS + [Submit(CountKind), ServeWrite(CountKind), Commit(7, 100)] + POLL_STEPS;
            var s := After(Start(Moment(run, 3, 100, 0)), actions);
            && s.page.fleet == Some(Moment(run, 7, 100, 2))
            && Next(s, FinishWrite(CountKind)).page.fleet == Some(Moment(run, 3, 100, 1))
  {
    hide After;
    var m := Moment(run, 3, 100, 0);
    var write := [Submit(CountKind), ServeWrite(CountKind), Commit(7, 100)];
    FirstPoll(m);
    CommittedMeanwhile(m);
    var t2 := After(Shown(m), write);
    CalmPoll(t2);
    AfterConcat(Start(m), POLL_STEPS, write);
    AfterConcat(Start(m), POLL_STEPS + write, POLL_STEPS);
  }

  /** The page after its first poll, with nothing in flight. */
  function Shown(m: Moment): System {
    System(m, Page(Some(m.run), 0, Field(m.count, false, Ready), Field(m.speed, false, Ready), NoPoll, Some(m), Some(m), Some(m)), [])
  }

  lemma FirstPoll(m: Moment)
    ensures After(Start(m), POLL_STEPS) == Shown(m)
  {
    hide After;
    CalmPoll(Start(m));
  }

  lemma CommittedMeanwhile(m: Moment)
    ensures var count := Field(m.count, false, Answered(Some(m.(at := m.at + 1)), m.at, []));
            After(Shown(m), [Submit(CountKind), ServeWrite(CountKind), Commit(7, 100)])
            == System(Moment(m.run, 7, 100, m.at + 2), Shown(m).page.(generation := 1, count := count), [])
  {
    hide After;
    Then3(Shown(m), [Submit(CountKind), ServeWrite(CountKind), Commit(7, 100)]);
  }

  lemma {:induction false} AfterConcat(s: System, a: seq<Action>, b: seq<Action>)
    ensures After(s, a + b) == After(After(s, a), b)
    decreases |b|
  {
    hide Next;
    if b == [] {
      assert a + b == a;
    } else {
      AfterConcat(s, a, b[..|b| - 1]);
      assert (a + b)[..|a + b| - 1] == a + b[..|b| - 1];
    }
  }

  lemma Then3(s: System, a: seq<Action>)
    requires |a| == 3
    ensures After(s, a) == Next(Next(Next(s, a[0]), a[1]), a[2])
  {
    hide Next;
    assert a[..2][..1] == a[..1] && a[..1][..0] == [];
    assert After(s, a[..1]) == Next(s, a[0]);
    assert After(s, a[..2]) == Next(Next(s, a[0]), a[1]);
  }

  lemma Then5(s: System, a: seq<Action>)
    requires |a| == 5
    ensures After(s, a) == Next(Next(Next(Next(Next(s, a[0]), a[1]), a[2]), a[3]), a[4])
  {
    hide Next;
    Then3(s, a[..3]);
    assert a[..4][..3] == a[..3];
    assert After(s, a[..4]) == Next(After(s, a[..3]), a[3]);
  }
}
