/** The recent receptions of a snapshot: picked from the newest records of each ring, they are the newest of everything
    the selected stations ever logged (simulation/observation.go). */
module Recents {
  import opened Basics
  import opened Model
  import opened Sorting
  import opened Worlds
  import opened Engine
  import opened Emission
  import opened HistoryRing
  import opened Receiving
  import opened Targets
  import opened Listening
  import opened Runs
  import opened Snapshots
  import HistoryLogs
  import HonestRuns

  // ----- The newest of a sorted sequence -----

  ghost predicate Strict<T>(s: seq<T>, le: (T, T) -> bool) {
    forall i, j :: 0 <= i < j < |s| ==> le(s[i], s[j]) && !le(s[j], s[i])
  }

  lemma {:induction false} StrictUnique<T(!new)>(a: seq<T>, b: seq<T>, le: (T, T) -> bool)
    requires TotalOrder(le) && Strict(a, le) && Strict(b, le) && forall x :: x in a <==> x in b
    ensures a == b
    decreases |a|
  {
    if a == [] {
      NoneIn(b);
    } else {
      assert a[0] in b && b[0] in a;
      var i :| 0 <= i < |b| && b[i] == a[0];
      var j :| 0 <= j < |a| && a[j] == b[0];
      assert i == 0 && a[0] == b[0];
      forall x
        ensures x in a[1..] <==> x in b[1..]
      {
        StrictTail(a, x, le);
        StrictTail(b, x, le);
      }
      StrictUnique(a[1..], b[1..], le);
    }
  }

  lemma NoneIn<T(!new)>(s: seq<T>)
    ensures s == [] || exists x :: x in s
  {
    assert s == [] || s[0] in s;
  }

  lemma StrictTail<T(!new)>(a: seq<T>, x: T, le: (T, T) -> bool)
    requires Strict(a, le) && a != []
    ensures x in a[1..] <==> x in a && x != a[0]
  {
    assert a == [a[0]] + a[1..];
  }

  lemma SizeOfMembers<T>(g: set<T>, s: seq<T>)
    requires forall x <- g :: x in s
    ensures |g| <= |s|
  {
    if s != [] {
      var rest := g - {s[0]};
      forall x | x in rest ensures x in s[1..] {
        assert s == [s[0]] + s[1..];
      }
      SizeOfMembers(rest, s[1..]);
      assert g <= rest + {s[0]};
      SubsetSize(g, rest + {s[0]});
    } else {
      assert g == {};
    }
  }

  /** At least n elements of s lie above y. */
  ghost predicate HasAbove<T(!new)>(s: seq<T>, y: T, n: nat, le: (T, T) -> bool) {
    exists g: set<T> :: |g| >= n && AllAbove(s, y, g, le)
  }

  ghost predicate AllAbove<T>(s: seq<T>, y: T, g: set<T>, le: (T, T) -> bool) {
    forall x <- g :: x in s && le(y, x) && !le(x, y)
  }

  lemma BelowPivot<T(!new)>(c: seq<T>, y: T, n: nat, le: (T, T) -> bool)
    requires TotalOrder(le) && Strict(c, le) && 0 < n <= |c| && HasAbove(c, y, n, le)
    ensures !le(c[|c| - n], y)
  {
    var pivot := c[|c| - n];
    var g: set<T> :| |g| >= n && AllAbove(c, y, g, le);
    if le(pivot, y) {
      forall x | x in g
        ensures x in c[|c| - n + 1..]
      {
        var j :| 0 <= j < |c| && c[j] == x;
        assert j > |c| - n;
      }
      SizeOfMembers(g, c[|c| - n + 1..]);
    }
  }

  /** Leaving out elements that n kept ones exceed does not change the newest n. */
  lemma NewestAgree<T(!new)>(a: seq<T>, c: seq<T>, n: nat, le: (T, T) -> bool)
    requires TotalOrder(le) && Strict(a, le) && Strict(c, le) && n > 0
    requires forall x <- c :: x in a
    requires forall y <- a :: y in c || HasAbove(c, y, n, le)
    ensures Newest(n, a) == Newest(n, c)
  {
    if |c| < n {
      forall y | y in a
        ensures y in c
      {
        if g: set<T> :| |g| >= n && AllAbove(c, y, g, le) {
          SizeOfMembers(g, c);
        }
      }
      StrictUnique(a, c, le);
    } else {
      var top := c[|c| - n..];
      assert c[|c| - n] in c;
      var i :| 0 <= i < |a| && a[i] == c[|c| - n];
      forall x
        ensures x in a[i..] <==> x in top
      {
        TopMember(a, c, n, i, x, le);
      }
      StrictUnique(a[i..], top, le);
    }
  }

  lemma TopMember<T(!new)>(a: seq<T>, c: seq<T>, n: nat, i: nat, x: T, le: (T, T) -> bool)
    requires TotalOrder(le) && Strict(a, le) && Strict(c, le) && 0 < n <= |c| && i < |a| && a[i] == c[|c| - n]
    requires forall x <- c :: x in a
    requires forall y <- a :: y in c || HasAbove(c, y, n, le)
    ensures x in a[i..] <==> x in c[|c| - n..]
  {
    if x in c[|c| - n..] {
      var j :| |c| - n <= j < |c| && c[j] == x;
      assert x in c;
      var k :| 0 <= k < |a| && a[k] == x;
      assert k >= i;
    }
    if x in a[i..] {
      var k :| i <= k < |a| && a[k] == x;
      assert le(c[|c| - n], x);
      if x !in c {
        BelowPivot(c, x, n, le);
      } else {
        var j :| 0 <= j < |c| && c[j] == x;
        assert j >= |c| - n;
      }
    }
  }

  // ----- Everything the selected stations logged -----

  /** A station's whole log, ranked. */
  function RankedLog(log: seq<Reception>, station: nat): (r: seq<Ranked>)
    ensures |r| == |log|
  {
    seq(|log|, i requires 0 <= i < |log| => Ranked(log[i], station))
  }

  function LoggedBy(stations: seq<Site>, logs: map<string, Witness>, selected: seq<bool>, k: nat): seq<Ranked>
    requires k <= |stations| == |selected| && forall st <- stations :: st.id in logs
  {
    if k == 0 then []
    else
      LoggedBy(stations, logs, selected, k - 1)
      + if selected[k - 1] then RankedLog(logs[stations[k - 1].id].log, k - 1) else []
  }

  /** x is record i of selected station k. */
  predicate Entry(stations: seq<Site>, logs: map<string, Witness>, selected: seq<bool>, n: nat, x: Ranked, i: nat)
    requires n <= |stations| == |selected| && forall st <- stations :: st.id in logs
  {
    && x.station < n && selected[x.station] && i < |logs[stations[x.station].id].log|
    && x.reception == logs[stations[x.station].id].log[i]
  }

  lemma {:induction false} LoggedAre(stations: seq<Site>, logs: map<string, Witness>, selected: seq<bool>, n: nat, x: Ranked)
    requires n <= |stations| == |selected| && forall st <- stations :: st.id in logs
    ensures x in LoggedBy(stations, logs, selected, n) <==> exists i: nat :: Entry(stations, logs, selected, n, x, i)
  {
    if n > 0 {
      LoggedAre(stations, logs, selected, n - 1, x);
      var log := logs[stations[n - 1].id].log;
      if x in RankedLog(log, n - 1) && selected[n - 1] {
        var i :| 0 <= i < |log| && RankedLog(log, n - 1)[i] == x;
        assert Entry(stations, logs, selected, n, x, i);
      }
      if x in LoggedBy(stations, logs, selected, n - 1) {
        var i: nat :| Entry(stations, logs, selected, n - 1, x, i);
        assert Entry(stations, logs, selected, n, x, i);
      }
      if i: nat :| Entry(stations, logs, selected, n, x, i) {
        if x.station == n - 1 {
          assert RankedLog(log, n - 1)[i] == x;
        } else {
          assert Entry(stations, logs, selected, n - 1, x, i);
        }
      }
    }
  }

  /** Logs in the order of their transmissions, and so in time order. */
  ghost predicate RankedInOrder(log: seq<Reception>) {
    forall i, j :: 0 <= i < j < |log| ==>
      log[i].transmission < log[j].transmission && log[i].timestamp <= log[j].timestamp
  }

  ghost predicate LogsInOrder(stations: seq<Site>, logs: map<string, Witness>) {
    forall st <- stations :: st.id in logs && RankedInOrder(logs[st.id].log)
  }

  ghost predicate DistinctRanks(s: seq<Ranked>) {
    forall i, j :: 0 <= i < j < |s| ==> s[i].station != s[j].station || s[i].reception.transmission != s[j].reception.transmission
  }

  lemma {:induction false} LoggedDistinct(stations: seq<Site>, logs: map<string, Witness>, selected: seq<bool>, n: nat)
    requires n <= |stations| == |selected| && LogsInOrder(stations, logs)
    ensures DistinctRanks(LoggedBy(stations, logs, selected, n))
    ensures forall x <- LoggedBy(stations, logs, selected, n) :: x.station < n
  {
    hide RankedLog;
    if n > 0 {
      LoggedDistinct(stations, logs, selected, n - 1);
      if selected[n - 1] {
        assert stations[n - 1] in stations;
        OneLogDistinct(logs[stations[n - 1].id].log, n - 1);
        JoinDistinct(LoggedBy(stations, logs, selected, n - 1), RankedLog(logs[stations[n - 1].id].log, n - 1), n - 1);
      } else {
        assert LoggedBy(stations, logs, selected, n) == LoggedBy(stations, logs, selected, n - 1);
      }
    }
  }

  lemma OneLogDistinct(log: seq<Reception>, station: nat)
    requires RankedInOrder(log)
    ensures DistinctRanks(RankedLog(log, station)) && forall x <- RankedLog(log, station) :: x.station == station
  {
  }

  lemma JoinDistinct(a: seq<Ranked>, b: seq<Ranked>, n: nat)
    requires DistinctRanks(a) && DistinctRanks(b) && (forall x <- a :: x.station < n) && (forall x <- b :: x.station == n)
    ensures DistinctRanks(a + b) && forall x <- a + b :: x.station < n + 1
  {
    var s := a + b;
    forall i, j | 0 <= i < j < |s|
      ensures s[i].station != s[j].station || s[i].reception.transmission != s[j].reception.transmission
    {
      if i < |a| <= j {
        assert s[i] in a && s[j] in b;
      }
    }
  }

  function RankOf(x: Ranked): (nat, nat) {
    (x.station, x.reception.transmission)
  }

  lemma SortedIsStrict(s: seq<Ranked>)
    requires DistinctRanks(s)
    ensures Strict(Sort(s, RankAtMost), RankAtMost)
    ensures forall x :: x in Sort(s, RankAtMost) <==> x in s
  {
    hide Sort;
    HonestRuns.RankOrder();
    SortCorrect(s, RankAtMost);
    assert forall i, j :: 0 <= i < j < |s| ==> RankOf(s[i]) != RankOf(s[j]);
    SortKeepsDistinct(s, RankAtMost, RankOf);
    var t := Sort(s, RankAtMost);
    forall i, j | 0 <= i < j < |t|
      ensures RankAtMost(t[i], t[j]) && !RankAtMost(t[j], t[i])
    {
      assert RankOf(t[i]) != RankOf(t[j]);
    }
  }

  // ----- What the rings still hold of it -----

  function Trimmed(logs: map<string, Witness>): map<string, Witness> {
    map id <- logs :: logs[id].(log := Newest(RECENT_LIMIT, logs[id].log))
  }

  lemma TailIs(rc: Receiver, log: seq<Reception>, station: nat)
    requires Retains(rc, log) && Contiguous(log)
    ensures Tail(rc, station) == RankedLog(Newest(RECENT_LIMIT, log), station)
  {
    hide Retains, HistoryRing.At, Contiguous;
    RetainedSequences(rc, log);
    var a, b := Tail(rc, station), RankedLog(Newest(RECENT_LIMIT, log), station);
    var from := |rc.history| - Min(RECENT_LIMIT, |rc.history|);
    forall i | 0 <= i < |a|
      ensures a[i] == b[i]
    {
      assert HistoryRing.At(rc, from + i) == log[|log| - |rc.history| + (from + i)];
    }
  }

  lemma StationLog(w: World, e: Engine, tr: Trace, st: Site)
    requires Inv(w, e, tr) && st in e.state.stations
    ensures st.id in tr.witnesses && st.id in e.store.receivers
    ensures Retains(e.store.receivers[st.id], tr.witnesses[st.id].log) && Contiguous(tr.witnesses[st.id].log)
    ensures RankedInOrder(tr.witnesses[st.id].log)
  {
    hide SentOk, FleetOk, TargetsOk, Young, TargetsLogged, HeardOk, SiteOk, Allocated, Genuine, Retains, RankedInOrder;
    assert st.id in Ids(e.state.stations);
    HistoryLogs.StationRetains(w, e, tr, st.id);
    assert Listens(w, tr.sent, |tr.sent|, st, e.store.receivers[st.id], tr.witnesses[st.id]);
    LogInOrder(w, tr.sent, st, tr.witnesses[st.id].log);
  }

  lemma LogInOrder(w: World, sent: seq<Transmission>, st: Site, log: seq<Reception>)
    requires SentOk(w, sent) && LogOk(sent, |sent|, st, log)
    ensures RankedInOrder(log)
  {
    hide SentOk, Genuine, FromSite;
    forall i, j | 0 <= i < j < |log|
      ensures log[i].transmission < log[j].transmission && log[i].timestamp <= log[j].timestamp
    {
      assert log[i] in log && log[j] in log;
      KeysFollowEmission(w, sent, log[i], log[j]);
    }
  }

  lemma AllInOrder(w: World, e: Engine, tr: Trace)
    requires Inv(w, e, tr)
    ensures LogsInOrder(e.state.stations, tr.witnesses) && LogsInOrder(e.state.stations, Trimmed(tr.witnesses))
  {
    hide Inv, RankedInOrder;
    forall st | st in e.state.stations
      ensures st.id in tr.witnesses && RankedInOrder(tr.witnesses[st.id].log)
      ensures RankedInOrder(Newest(RECENT_LIMIT, tr.witnesses[st.id].log))
    {
      StationLog(w, e, tr, st);
      NewestInOrder(tr.witnesses[st.id].log);
    }
  }

  lemma NewestInOrder(log: seq<Reception>)
    requires RankedInOrder(log)
    ensures RankedInOrder(Newest(RECENT_LIMIT, log))
  {
  }

  /** Each ring contributes the newest 50 records of its station's log. */
  lemma {:induction false} CandidatesAre(w: World, e: Engine, tr: Trace, selected: seq<bool>, n: nat)
    requires Inv(w, e, tr) && n <= |e.state.stations| == |selected|
    ensures Tracks(e.store, e.state.stations) && forall st <- e.state.stations :: st.id in Trimmed(tr.witnesses)
    ensures Candidates(e, selected, n) == LoggedBy(e.state.stations, Trimmed(tr.witnesses), selected, n)
  {
    hide Inv, Tail, RankedLog, RankedInOrder, Retains, Contiguous;
    InvReady(w, e, tr);
    AllInOrder(w, e, tr);
    if n > 0 {
      CandidatesAre(w, e, tr, selected, n - 1);
      var st := e.state.stations[n - 1];
      StationLog(w, e, tr, st);
      TailIs(e.store.receivers[st.id], tr.witnesses[st.id].log, n - 1);
    }
  }

  lemma {:induction false} DistinctSize<T>(s: seq<T>)
    requires forall i, j :: 0 <= i < j < |s| ==> s[i] != s[j]
    ensures |set x | x in s| == |s|
  {
    if s != [] {
      var n := |s| - 1;
      DistinctSize(s[..n]);
      assert s == s[..n] + [s[n]];
      assert (set x | x in s) == (set x | x in s[..n]) + {s[n]};
      assert s[n] !in s[..n];
    }
  }

  lemma KeptAreLogged(stations: seq<Site>, logs: map<string, Witness>, selected: seq<bool>, x: Ranked)
    requires |stations| == |selected| && LogsInOrder(stations, logs) && LogsInOrder(stations, Trimmed(logs))
    requires x in LoggedBy(stations, Trimmed(logs), selected, |stations|)
    ensures x in LoggedBy(stations, logs, selected, |stations|)
  {
    hide LoggedBy, RankedInOrder;
    LoggedAre(stations, Trimmed(logs), selected, |stations|, x);
    LoggedAre(stations, logs, selected, |stations|, x);
    var i: nat :| Entry(stations, Trimmed(logs), selected, |stations|, x, i);
    assert stations[x.station] in stations;
    var log := logs[stations[x.station].id].log;
    assert Entry(stations, logs, selected, |stations|, x, |log| - |Newest(RECENT_LIMIT, log)| + i);
  }

  lemma NewerRanks(log: seq<Reception>, station: nat, i: nat)
    requires RankedInOrder(log) && i < |log| - RECENT_LIMIT
    ensures |set y | y in RankedLog(Newest(RECENT_LIMIT, log), station)| == RECENT_LIMIT
    ensures forall y <- RankedLog(Newest(RECENT_LIMIT, log), station) ::
              RankAtMost(Ranked(log[i], station), y) && !RankAtMost(y, Ranked(log[i], station))
  {
    var kept := Newest(RECENT_LIMIT, log);
    var above := RankedLog(kept, station);
    NewestInOrder(log);
    OneLogDistinct(kept, station);
    DistinctSize(above);
    forall y | y in above
      ensures RankAtMost(Ranked(log[i], station), y) && !RankAtMost(y, Ranked(log[i], station))
    {
      var j :| 0 <= j < |above| && above[j] == y;
      assert y.reception == log[|log| - |kept| + j];
    }
  }

  lemma KeptEntry(stations: seq<Site>, logs: map<string, Witness>, selected: seq<bool>, k: nat, y: Ranked)
    requires |stations| == |selected| && k < |stations| && selected[k] && forall st <- stations :: st.id in logs
    requires y in RankedLog(logs[stations[k].id].log, k)
    ensures y in LoggedBy(stations, logs, selected, |stations|)
  {
    hide LoggedBy;
    var above := RankedLog(logs[stations[k].id].log, k);
    var j :| 0 <= j < |above| && above[j] == y;
    LoggedAre(stations, logs, selected, |stations|, y);
    assert Entry(stations, logs, selected, |stations|, y, j);
  }

  lemma RecentIsKept(stations: seq<Site>, logs: map<string, Witness>, selected: seq<bool>, x: Ranked, i: nat)
    requires |stations| == |selected| && forall st <- stations :: st.id in logs && st.id in Trimmed(logs)
    requires Entry(stations, logs, selected, |stations|, x, i)
    requires var log := logs[stations[x.station].id].log; i >= |log| - |Newest(RECENT_LIMIT, log)|
    ensures x in LoggedBy(stations, Trimmed(logs), selected, |stations|)
  {
    hide LoggedBy;
    var log := logs[stations[x.station].id].log;
    LoggedAre(stations, Trimmed(logs), selected, |stations|, x);
    assert Entry(stations, Trimmed(logs), selected, |stations|, x, i - (|log| - |Newest(RECENT_LIMIT, log)|));
  }

  /** A record that is not kept has 50 kept ones of its own station above it. */
  lemma DroppedAreBelow(stations: seq<Site>, logs: map<string, Witness>, selected: seq<bool>, x: Ranked)
    requires |stations| == |selected| && LogsInOrder(stations, logs) && LogsInOrder(stations, Trimmed(logs))
    requires x in LoggedBy(stations, logs, selected, |stations|)
    requires x !in LoggedBy(stations, Trimmed(logs), selected, |stations|)
    ensures HasAbove(LoggedBy(stations, Trimmed(logs), selected, |stations|), x, RECENT_LIMIT, RankAtMost)
  {
    hide LoggedBy, RankedInOrder, RankAtMost, RankedLog;
    var n := |stations|;
    LoggedAre(stations, logs, selected, n, x);
    var i: nat :| Entry(stations, logs, selected, n, x, i);
    assert stations[x.station] in stations;
    var log := logs[stations[x.station].id].log;
    var kept := Newest(RECENT_LIMIT, log);
    if i >= |log| - |kept| {
      RecentIsKept(stations, logs, selected, x, i);
    }
    var g := set y | y in RankedLog(kept, x.station);
    NewerRanks(log, x.station, i);
    forall y | y in g
      ensures y in LoggedBy(stations, Trimmed(logs), selected, n)
    {
      KeptEntry(stations, Trimmed(logs), selected, x.station, y);
    }
    assert AllAbove(LoggedBy(stations, Trimmed(logs), selected, n), x, g, RankAtMost);
  }

  lemma AboveIgnoresOrder(a: seq<Ranked>, b: seq<Ranked>, x: Ranked)
    requires HasAbove(a, x, RECENT_LIMIT, RankAtMost) && forall y :: y in a <==> y in b
    ensures HasAbove(b, x, RECENT_LIMIT, RankAtMost)
  {
    var g: set<Ranked> :| |g| >= RECENT_LIMIT && AllAbove(a, x, g, RankAtMost);
    assert AllAbove(b, x, g, RankAtMost);
  }

  /** In every reachable state the recent receptions are the newest 50 of everything the selected stations ever logged,
      although only the newest 50 of each ring are looked at. */
  lemma RecentsAreNewest(w: World, e: Engine, tr: Trace, selected: seq<bool>)
    requires Inv(w, e, tr) && |selected| == |e.state.stations|
    ensures Tracks(e.store, e.state.stations) && forall st <- e.state.stations :: st.id in tr.witnesses
    ensures RecentOfAll(e, selected)
         == Receptions(Newest(RECENT_LIMIT, Sort(LoggedBy(e.state.stations, tr.witnesses, selected, |selected|), RankAtMost)))
  {
    hide Inv, LoggedBy, Candidates, Sort, RankAtMost, Strict, DistinctRanks, HasAbove, RankedInOrder, Receptions, Trimmed;
    var stations, n := e.state.stations, |selected|;
    AllInOrder(w, e, tr);
    CandidatesAre(w, e, tr, selected, n);
    var all, kept := LoggedBy(stations, tr.witnesses, selected, n), LoggedBy(stations, Trimmed(tr.witnesses), selected, n);
    LoggedDistinct(stations, tr.witnesses, selected, n);
    LoggedDistinct(stations, Trimmed(tr.witnesses), selected, n);
    SortedIsStrict(all);
    SortedIsStrict(kept);
    HonestRuns.RankOrder();
    forall x | x in Sort(kept, RankAtMost)
      ensures x in Sort(all, RankAtMost)
    {
      KeptAreLogged(stations, tr.witnesses, selected, x);
    }
    forall x | x in Sort(all, RankAtMost)
      ensures x in Sort(kept, RankAtMost) || HasAbove(Sort(kept, RankAtMost), x, RECENT_LIMIT, RankAtMost)
    {
      if x !in kept {
        DroppedAreBelow(stations, tr.witnesses, selected, x);
        AboveIgnoresOrder(kept, Sort(kept, RankAtMost), x);
      }
    }
    NewestAgree(Sort(all, RankAtMost), Sort(kept, RankAtMost), RECENT_LIMIT, RankAtMost);
  }

  /** recentReceptions: collects the newest records of each selected ring, sorts them and keeps the newest. */
  method RecentReceptions(e: Engine, selected: seq<bool>) returns (result: seq<Reception>)
    requires |selected| == |e.state.stations| && Tracks(e.store, e.state.stations)
    ensures result == RecentOfAll(e, selected)
  {
    hide HistoryRing.At, RankAtMost, Sort;
    var candidates: seq<Ranked> := [];
    for i := 0 to |e.state.stations|
      invariant candidates == Candidates(e, selected, i)
    {
      if selected[i] {
        assert e.state.stations[i] in e.state.stations;
        var rc := e.store.receivers[e.state.stations[i].id];
        var from := Max(|rc.history| - RECENT_LIMIT, 0);
        ghost var before := candidates;
        for j := from to |rc.history|
          invariant candidates == before + Tail(rc, i)[..j - from]
        {
          candidates := candidates + [Ranked(HistoryRing.At(rc, j), i)];
        }
        assert Tail(rc, i)[..|rc.history| - from] == Tail(rc, i);
      } else {
        assert candidates == candidates + [];
      }
    }
    var sorted := Sort(candidates, RankAtMost);
    result := [];
    for i := Max(|sorted| - RECENT_LIMIT, 0) to |sorted|
      invariant result == Receptions(sorted[Max(|sorted| - RECENT_LIMIT, 0)..i])
    {
      result := result + [sorted[i].reception];
    }
    assert sorted[Max(|sorted| - RECENT_LIMIT, 0)..] == Newest(RECENT_LIMIT, sorted);
    assert sorted[Max(|sorted| - RECENT_LIMIT, 0)..|sorted|] == Newest(RECENT_LIMIT, sorted);
  }
}
