/** The fleet page as its event handlers update it in place: each handler refines its function in FleetPolling
    (ui/internal/assets/static/js/manager.js). */
module FleetPages {
  import opened Basics
  import Polling = FleetPolling

  class FleetPage {
    var run: Option<string>
    var generation: nat
    var count: Polling.Field
    var speed: Polling.Field
    var poll: Polling.Poll
    var fleet: Option<Polling.Moment>
    var clock: Option<Polling.Moment>
    var messages: Option<Polling.Moment>

    function View(): Polling.Page
      reads this
    {
      Polling.Page(run, generation, count, speed, poll, fleet, clock, messages)
    }

    /** The page is in a state the protocol can reach: now is the server's moment and confirmed the commits of the writes
        shown as done. */
    ghost predicate Valid(now: Polling.Moment, confirmed: seq<Polling.Moment>)
      reads this
    {
      Polling.Ok(Polling.System(now, View(), confirmed))
    }

    constructor (ghost now: Polling.Moment)
      ensures View() == Polling.NewPage() && Valid(now, [])
    {
      run, generation, poll, fleet, clock, messages := None, 0, Polling.NoPoll, None, None, None;
      count, speed := Polling.Field(0, false, Polling.Ready), Polling.Field(0, false, Polling.Ready);
      new;
      Polling.StartOk(now);
    }

    method SetField(kind: Polling.Kind, f: Polling.Field)
      modifies this`count, this`speed
      ensures View() == old(View()).With(kind, f)
    {
      if kind == Polling.CountKind {
        count := f;
      } else {
        speed := f;
      }
    }

    /** An input event: the edit is kept until a write of it is confirmed or the run changes. */
    method Edit(kind: Polling.Kind, value: int, ghost now: Polling.Moment, ghost confirmed: seq<Polling.Moment>)
      requires Valid(now, confirmed)
      modifies this`count, this`speed
      ensures Valid(now, confirmed) && View() == Polling.Edit(old(View()), kind, value)
      ensures View().Of(kind).dirty && View().Of(kind).value == value
    {
      hide Polling.Ok;
      Polling.NextKeeps(Polling.System(now, View(), confirmed), Polling.Type(kind, value));
      SetField(kind, View().Of(kind).(value := value, dirty := true));
    }

    /** write, up to its await: one write of a kind at a time, and no poll in flight will be rendered any more. */
    method StartWrite(kind: Polling.Kind, now: Polling.Moment, ghost confirmed: seq<Polling.Moment>)
      requires Valid(now, confirmed)
      modifies this
      ensures Valid(now, confirmed) && View() == Polling.StartWrite(old(View()), kind, now.at)
      ensures old(View()).Of(kind).write.Ready? ==> View().Of(kind).write.Sent? && !Polling.Takes(View())
      ensures !old(View()).Of(kind).write.Ready? ==> View() == old(View())
    {
      ghost var s := Polling.System(now, View(), confirmed);
      Polling.NextKeeps(s, Polling.Submit(kind));
      Polling.OkGeneration(s);
      hide Polling.Ok;
      var f := View().Of(kind);
      if !f.write.Ready? {
        return;
      }
      SetField(kind, f.(write := Polling.Sent(f.value, now.at, [])));
      generation := generation + 1;
    }

    /** write, after its await: a confirmed answer is shown and ends the edit, and takes the display back only behind a
        poll that was rendered while the write was in flight; any other answer leaves edit and display alone. */
    method EndWrite(kind: Polling.Kind, ghost now: Polling.Moment, ghost confirmed: seq<Polling.Moment>)
      requires Valid(now, confirmed) && View().Of(kind).write.Answered?
      modifies this
      ensures View() == Polling.EndWrite(old(View()), kind) && !Polling.Takes(View())
      ensures var w := old(View()).Of(kind).write;
              if Polling.Confirms(old(View()), w)
              then Valid(now, confirmed + [w.answer.value]) && Polling.ShowsAnswer(View(), old(View()), kind)
              else Valid(now, confirmed) && View().Of(kind) == old(View()).Of(kind).(write := Polling.Ready)
                   && fleet == old(fleet) && clock == old(clock)
    {
      hide Polling.Ok, Polling.ShowsAnswer, Polling.Takes;
      Polling.EndWriteKeeps(Polling.System(now, View(), confirmed), kind);
      var f := View().Of(kind);
      var answer := f.write.answer;
      if answer.Some? && run == Some(answer.value.run) {
        var m := answer.value;
        f := f.(dirty := false);
        if kind == Polling.CountKind {
          f := f.(value := m.count);
          fleet := Some(m);
        } else {
          f := f.(value := m.speed);
          clock := Some(m);
        }
      }
      SetField(kind, f.(write := Polling.Ready));
      generation := generation + 1;
    }

    method StartPoll(now: Polling.Moment, ghost confirmed: seq<Polling.Moment>)
      requires Valid(now, confirmed)
      modifies this`poll
      ensures Valid(now, confirmed) && View() == Polling.StartPoll(old(View()), now.at)
    {
      hide Polling.Ok;
      Polling.NextKeeps(Polling.System(now, View(), confirmed), Polling.BeginPoll);
      if poll.NoPoll? {
        poll := Polling.Asked(generation, now.at, map[]);
      }
    }

    /** showValue for both inputs. */
    method ShowValues(newFleet: Polling.Moment, metadata: Polling.Moment, focus: Option<Polling.Kind>)
      modifies this`count, this`speed
      ensures count == Polling.Refreshed(old(count), newFleet.count, focus == Some(Polling.CountKind))
                       .(write := Polling.Seen(old(count).write, newFleet))
      ensures speed == Polling.Refreshed(old(speed), metadata.speed, focus == Some(Polling.SpeedKind))
                       .(write := Polling.Seen(old(speed).write, metadata))
    {
      if !count.dirty && count.write.Ready? && focus != Some(Polling.CountKind) {
        count := count.(value := newFleet.count);
      }
      if !speed.dirty && speed.write.Ready? && focus != Some(Polling.SpeedKind) {
        speed := speed.(value := metadata.speed);
      }
      count := count.(write := Polling.Seen(count.write, newFleet));
      speed := speed.(write := Polling.Seen(speed.write, metadata));
    }

    /** refresh, once it is to render. */
    method Render(newFleet: Polling.Moment, history: Polling.Moment, metadata: Polling.Moment, focus: Option<Polling.Kind>)
      modifies this
      ensures View() == Polling.Render(old(View()), newFleet, history, metadata, focus)
    {
      hide Polling.Refreshed, Polling.Seen;
      poll := Polling.NoPoll;
      if run != Some(metadata.run) {
        run := Some(metadata.run);
        count := count.(dirty := false, value := newFleet.count);
        speed := speed.(dirty := false, value := metadata.speed);
      }
      clock, fleet := Some(metadata), Some(newFleet);
      ShowValues(newFleet, metadata, focus);
      messages := Some(history);
    }

    /** refresh, after its three reads were answered: it renders one run, nothing stale, and leaves edits of that run alone;
        or it leaves everything but itself as it was. */
    method EndPoll(focus: Option<Polling.Kind>, ghost now: Polling.Moment, ghost confirmed: seq<Polling.Moment>)
      requires Valid(now, confirmed) && Polling.AllAnswered(poll)
      modifies this
      ensures Valid(now, confirmed) && View() == Polling.EndPoll(old(View()), focus)
      ensures Polling.EditKept(View(), old(View()), Polling.CountKind) && Polling.EditKept(View(), old(View()), Polling.SpeedKind)
      ensures if Polling.Takes(old(View())) then Polling.FreshlyShown(View(), old(View()), confirmed)
              else View() == old(View()).(poll := Polling.NoPoll)
    {
      hide Polling.Ok, Polling.FreshlyShown, Polling.EditKept, Polling.Render;
      ghost var s := Polling.System(now, View(), confirmed);
      Polling.NextKeeps(s, Polling.FinishPoll(focus));
      Polling.PollKeepsEdits(View(), focus, Polling.CountKind);
      Polling.PollKeepsEdits(View(), focus, Polling.SpeedKind);
      Polling.OkPoll(s);
      if Polling.Takes(View()) {
        Polling.TakenPollIsFresh(s, focus);
      }
      var newFleet, history, metadata := poll.answers[Polling.Fleet], poll.answers[Polling.History], poll.answers[Polling.Metadata];
      if poll.started != generation {
        poll := Polling.NoPoll;
        return;
      }
      if newFleet.run != metadata.run || history.run != metadata.run {
        poll := Polling.NoPoll;
        return;
      }
      Render(newFleet, history, metadata, focus);
    }
  }
}
