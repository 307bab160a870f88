/** The display's coverage layers, cached by station and RF revision (ui/internal/assets/static/js/display.js). */
module CoverageCache {
  import opened Basics
  import opened Model
  import opened Worlds
  import opened Engine
  import opened Runs
  import opened Reachable
  import Versions

  datatype Entry = Entry(revision: nat, contours: seq<Coverage>)

  type Cache = map<string, Entry>

  /** renderMap's part for one station: an entry of another revision is replaced. */
  function Drawn(cache: Cache, st: Site): Cache {
    if st.id in cache && cache[st.id].revision == st.rfRevision then cache
    else cache[st.id := Entry(st.rfRevision, st.coverage)]
  }

  function DrawnAll(cache: Cache, stations: seq<Site>): Cache {
    if stations == [] then cache else Drawn(DrawnAll(cache, stations[..|stations| - 1]), stations[|stations| - 1])
  }

  /** renderMap: the layers of stations that are gone go first. */
  function Redrawn(cache: Cache, stations: seq<Site>): Cache {
    DrawnAll(map id <- cache | id in Ids(stations) :: cache[id], stations)
  }

  /** The stations a snapshot shows after the first k commands of a run. */
  ghost function StationsAt(w: World, e: Engine, tr: Trace, commands: seq<Command>, k: nat): seq<Site>
    requires WorldSound(w) && Inv(w, e, tr) && k <= |commands|
  {
    Run(w, e, tr, commands[..k]).0.state.stations
  }

  /** The cache after snapshots of these moments of the run, in the order they arrived. */
  ghost function Cached(w: World, e: Engine, tr: Trace, commands: seq<Command>, moments: seq<nat>): Cache
    requires WorldSound(w) && Inv(w, e, tr) && forall i :: 0 <= i < |moments| ==> moments[i] <= |commands|
    decreases |moments|
  {
    if moments == [] then map[]
    else
      var n := |moments| - 1;
      Redrawn(Cached(w, e, tr, commands, moments[..n]), StationsAt(w, e, tr, commands, moments[n]))
  }

  /** Every entry is what some moment of the run showed for that station and revision. */
  ghost predicate Truthful(w: World, e: Engine, tr: Trace, commands: seq<Command>, cache: Cache)
    requires WorldSound(w) && Inv(w, e, tr)
  {
    forall id <- cache :: Shown(w, e, tr, commands, id, cache[id])
  }

  ghost predicate Shown(w: World, e: Engine, tr: Trace, commands: seq<Command>, id: string, entry: Entry)
    requires WorldSound(w) && Inv(w, e, tr)
  {
    exists k: nat, i: nat :: ShownAt(w, e, tr, commands, id, entry, k, i)
  }

  ghost predicate ShownAt(w: World, e: Engine, tr: Trace, commands: seq<Command>, id: string, entry: Entry, k: nat, i: nat)
    requires WorldSound(w) && Inv(w, e, tr)
  {
    && k <= |commands| && i < |StationsAt(w, e, tr, commands, k)|
    && var st := StationsAt(w, e, tr, commands, k)[i]; st.id == id && entry == Entry(st.rfRevision, st.coverage)
  }

  /** Between any two moments of a run, in either order, one RF revision of a station means one coverage. */
  lemma SameCoverage(w: World, e: Engine, tr: Trace, commands: seq<Command>, j: nat, k: nat, a: Site, b: Site)
    requires WorldSound(w) && Inv(w, e, tr) && j <= |commands| && k <= |commands|
    requires a in StationsAt(w, e, tr, commands, j) && b in StationsAt(w, e, tr, commands, k)
    requires a.id == b.id && a.rfRevision == b.rfRevision
    ensures a.coverage == b.coverage
  {
    hide Inv, WorldSound, Run, Versions.Evolves;
    var early, late := Min(j, k), Max(j, k);
    Versions.RunsEvolve(w, e, tr, commands[..late], early);
    assert commands[..late][..early] == commands[..early];
    EvolvedCoverage(Run(w, e, tr, commands[..early]).0.state, Run(w, e, tr, commands[..late]).0.state,
                    if j <= k then a else b, if j <= k then b else a);
  }

  lemma EvolvedCoverage(e: State, f: State, a: Site, b: Site)
    requires Versions.Evolves(e, f) && a in e.stations && b in f.stations && a.id == b.id && a.rfRevision == b.rfRevision
    ensures a.coverage == b.coverage
  {
    assert Versions.SameVersions(a, b);
  }

  lemma DrawingIsTruthful(w: World, e: Engine, tr: Trace, commands: seq<Command>, cache: Cache, k: nat, n: nat)
    requires WorldSound(w) && Inv(w, e, tr) && k <= |commands| && n <= |StationsAt(w, e, tr, commands, k)|
    requires Truthful(w, e, tr, commands, cache)
    ensures Truthful(w, e, tr, commands, DrawnAll(cache, StationsAt(w, e, tr, commands, k)[..n]))
    decreases n
  {
    hide Inv, WorldSound, StationsAt;
    if n > 0 {
      var stations := StationsAt(w, e, tr, commands, k);
      DrawingIsTruthful(w, e, tr, commands, cache, k, n - 1);
      assert stations[..n][..n - 1] == stations[..n - 1];
      var st := stations[n - 1];
      assert ShownAt(w, e, tr, commands, st.id, Entry(st.rfRevision, st.coverage), k, n - 1);
    }
  }

  lemma {:induction false} CachedIsTruthful(w: World, e: Engine, tr: Trace, commands: seq<Command>, moments: seq<nat>)
    requires WorldSound(w) && Inv(w, e, tr) && forall i :: 0 <= i < |moments| ==> moments[i] <= |commands|
    ensures Truthful(w, e, tr, commands, Cached(w, e, tr, commands, moments))
    decreases |moments|
  {
    hide Inv, WorldSound, StationsAt, DrawnAll, Shown;
    if moments == [] {
      NothingCached(w, e, tr, commands);
    } else {
      var n := |moments| - 1;
      CachedIsTruthful(w, e, tr, commands, moments[..n]);
      var stations := StationsAt(w, e, tr, commands, moments[n]);
      var before := Cached(w, e, tr, commands, moments[..n]);
      DrawingIsTruthful(w, e, tr, commands, map id <- before | id in Ids(stations) :: before[id], moments[n], |stations|);
      assert stations[..|stations|] == stations;
    }
  }

  lemma NothingCached(w: World, e: Engine, tr: Trace, commands: seq<Command>)
    requires WorldSound(w) && Inv(w, e, tr)
    ensures Truthful(w, e, tr, commands, map[])
  {
  }

  lemma {:induction false} DrawnHasAll(cache: Cache, stations: seq<Site>, i: nat)
    requires i < |stations| && forall a, b :: 0 <= a < b < |stations| ==> stations[a].id != stations[b].id
    ensures stations[i].id in DrawnAll(cache, stations)
    ensures DrawnAll(cache, stations)[stations[i].id].revision == stations[i].rfRevision
    decreases |stations|
  {
    var n := |stations| - 1;
    if i < n {
      DrawnHasAll(cache, stations[..n], i);
      assert stations[n].id != stations[i].id;
    }
  }

  lemma {:induction false} DrawnKeys(cache: Cache, stations: seq<Site>)
    ensures DrawnAll(cache, stations).Keys == cache.Keys + Ids(stations)
    decreases |stations|
  {
    if stations != [] {
      DrawnKeys(cache, stations[..|stations| - 1]);
      assert stations == stations[..|stations| - 1] + [stations[|stations| - 1]];
    }
  }

  /** Whichever moments of a run the display has drawn, and in whatever order, after drawing a snapshot the layer of each
      of its stations shows that station's own coverage, and there is no other layer. */
  lemma LayersAreNeverStale(w: World, e: Engine, tr: Trace, commands: seq<Command>, moments: seq<nat>, i: nat)
    requires WorldSound(w) && Inv(w, e, tr) && moments != []
    requires forall k :: 0 <= k < |moments| ==> moments[k] <= |commands|
    requires i < |StationsAt(w, e, tr, commands, moments[|moments| - 1])|
    ensures var st := StationsAt(w, e, tr, commands, moments[|moments| - 1])[i];
            var cache := Cached(w, e, tr, commands, moments);
            && st.id in cache && cache[st.id].contours == st.coverage
            && cache.Keys == Ids(StationsAt(w, e, tr, commands, moments[|moments| - 1]))
  {
    hide Inv, WorldSound, DrawnAll, StationsAt, Run;
    var k := moments[|moments| - 1];
    var stations := StationsAt(w, e, tr, commands, k);
    DistinctAt(w, e, tr, commands, k);
    var before := Cached(w, e, tr, commands, moments[..|moments| - 1]);
    var kept := map id <- before | id in Ids(stations) :: before[id];
    DrawnHasAll(kept, stations, i);
    DrawnKeys(kept, stations);
    CachedIsTruthful(w, e, tr, commands, moments);
    var cache := Cached(w, e, tr, commands, moments);
    assert Shown(w, e, tr, commands, stations[i].id, cache[stations[i].id]);
    var j: nat, x: nat :| ShownAt(w, e, tr, commands, stations[i].id, cache[stations[i].id], j, x);
    SameCoverage(w, e, tr, commands, j, k, StationsAt(w, e, tr, commands, j)[x], stations[i]);
  }

  lemma DistinctAt(w: World, e: Engine, tr: Trace, commands: seq<Command>, k: nat)
    requires WorldSound(w) && Inv(w, e, tr) && k <= |commands|
    ensures var stations := StationsAt(w, e, tr, commands, k);
            forall a, b :: 0 <= a < b < |stations| ==> stations[a].id != stations[b].id
  {
    hide Inv, WorldSound, Run;
    var (f, ft) := Run(w, e, tr, commands[..k]);
    Versions.InvAllocated(w, f, ft);
  }
}
