/** A run in which two loaders share a cache file but not a Codex home, and each pays for its own discovery. */
module TwoHomes {
  import opened Types
  import opened Catalog
  import opened CatalogSafety
  import C = Capabilities

  lemma Prepend(codec: Codec, w: World, s: Step, rest: seq<Step>)
    requires Enabled(codec, w, s) && IsRun(codec, Next(codec, w, s), rest)
    ensures IsRun(codec, w, [s] + rest)
    ensures After(codec, w, [s] + rest) == After(codec, Next(codec, w, s), rest)
  {
    assert ([s] + rest)[1..] == rest;
  }

  lemma {:induction false} RunsConcatenate(codec: Codec, w: World, xs: seq<Step>, ys: seq<Step>)
    requires IsRun(codec, w, xs) && IsRun(codec, After(codec, w, xs), ys)
    ensures IsRun(codec, w, xs + ys) && After(codec, w, xs + ys) == After(codec, After(codec, w, xs), ys)
    decreases |xs|
  {
    if xs == [] {
      assert xs + ys == ys;
    } else {
      RunsConcatenate(codec, Next(codec, w, xs[0]), xs[1..], ys);
      Prepend(codec, w, xs[0], xs[1..] + ys);
      assert [xs[0]] + (xs[1..] + ys) == xs + ys;
    }
  }

  /** A world in which this loader is the only one at work, with its locks, temporary files and own state. */
  function With(w: World, i: nat, refresh: bool, write: bool, temporaries: map<string, seq<bv8>>, loader: Loader): World
    requires i < |w.loaders|
  {
    World(w.file, if refresh then Some(i) else None, if write then Some(i) else None, temporaries, w.clock,
          w.loaders[i := loader])
  }

  predicate AllQuiet(w: World) { w.refreshLock.None? && w.writeLock.None? && w.temporaries == map[] }

  function FoundAt(w: World, models: seq<C.Model>): ModelCatalog {
    ModelCatalog(models, DebugModels, false, w.clock, None, "1", NoNotice)
  }

  lemma Probes(codec: Codec, w: World, i: nat, models: seq<C.Model>, l: Loader)
    requires i < |w.loaders| && l.pc.Versioning? && OrdinaryRequest(l.request) && models != []
    ensures var start, steps := With(w, i, true, false, map[], l),
        [Version(i, false, Some("1")), Probe(i, Some(models))];
      && IsRun(codec, start, steps)
      && After(codec, start, steps)
         == With(w, i, true, false, map[],
             Loader(l.request, Storing(FoundAt(w, models)), l.first, l.probes + 1, l.wrote))
  {
    var w3 := With(w, i, true, false, map[], l.(pc := Primary("1")));
    Prepend(codec, w3, Probe(i, Some(models)), []);
    Prepend(codec, With(w, i, true, false, map[], l), Version(i, false, Some("1")), [Probe(i, Some(models))]);
  }

  /** A loader that waits, and whose second read finds nothing it may use, discovers a catalog. */
  lemma Discovers(codec: Codec, w: World, i: nat, models: seq<C.Model>)
    requires AllQuiet(w) && i < |w.loaders| && w.loaders[i].pc.Waiting? && OrdinaryRequest(w.loaders[i].request)
    requires !ReadCache(codec, w.file, w.loaders[i].request, w.clock).Found? && models != []
    ensures var steps := [TakeLock(i), Reload(i), Version(i, false, Some("1")), Probe(i, Some(models))];
      var l := w.loaders[i];
      && IsRun(codec, w, steps)
      && After(codec, w, steps)
         == With(w, i, true, false, map[],
             Loader(l.request, Storing(FoundAt(w, models)), l.first, l.probes + 1, l.wrote))
  {
    var l := w.loaders[i];
    var w1 := With(w, i, true, false, map[], l.(pc := Reloading));
    var w2 := With(w, i, true, false, map[], l.(pc := Versioning));
    Probes(codec, w, i, models, l.(pc := Versioning));
    assert Next(codec, w1, Reload(i)) == w2;
    Prepend(codec, w1, Reload(i), [Version(i, false, Some("1")), Probe(i, Some(models))]);
    assert Next(codec, w, TakeLock(i)) == w1;
    Prepend(codec, w, TakeLock(i), [Reload(i), Version(i, false, Some("1")), Probe(i, Some(models))]);
  }

  function Written(codec: Codec, w: World, i: nat, l: Loader): World
    requires i < |w.loaders| && l.pc.Storing?
  {
    var bytes := Bytes(codec, l, l.pc.found);
    With(w, i, true, true, map["t" := bytes], l.(pc := Writing(l.pc.found, "t", |bytes|)))
  }

  /** The temporary file is written and replaces the cache file. */
  lemma Replaces(codec: Codec, w: World, i: nat, l: Loader)
    requires i < |w.loaders| && l.pc.Storing?
    ensures var bytes, start, steps := Bytes(codec, l, l.pc.found), Written(codec, w, i, l), [Rename(i), Return(i)];
      && IsRun(codec, start, steps)
      && After(codec, start, steps)
         == With(w.(file := Some(bytes)), i, false, false, map[], l.(pc := Done(Loaded(l.pc.found)), wrote := true))
  {
    var bytes := Bytes(codec, l, l.pc.found);
    var w4 := With(w.(file := Some(bytes)), i, true, true, map[], l.(pc := Renamed(l.pc.found), wrote := true));
    Prepend(codec, w4, Return(i), []);
    assert Written(codec, w, i, l).temporaries - {"t"} == map[];
    assert Next(codec, Written(codec, w, i, l), Rename(i)) == w4;
    Prepend(codec, Written(codec, w, i, l), Rename(i), [Return(i)]);
  }

  function StoreSteps(i: nat, size: nat): seq<Step> {
    [TakeWriteLock(i), Create(i, "t"), Append(i, size), Rename(i), Return(i)]
  }

  /** A loader that holds a discovery replaces the file and returns. */
  lemma Stores(codec: Codec, w: World, i: nat, l: Loader)
    requires i < |w.loaders| && l.pc.Storing?
    ensures var bytes := Bytes(codec, l, l.pc.found);
      var start, steps := With(w, i, true, false, map[], l), StoreSteps(i, |bytes|);
      && IsRun(codec, start, steps)
      && After(codec, start, steps)
         == With(w.(file := Some(bytes)), i, false, false, map[], l.(pc := Done(Loaded(l.pc.found)), wrote := true))
  {
    var found, bytes := l.pc.found, Bytes(codec, l, l.pc.found);
    var w1 := With(w, i, true, true, map[], l.(pc := Opening(found)));
    var w2 := With(w, i, true, true, map["t" := []], l.(pc := Writing(found, "t", 0)));
    Replaces(codec, w, i, l);
    assert bytes[..|bytes|] == bytes && w2.temporaries["t" := bytes] == map["t" := bytes];
    assert Next(codec, w2, Append(i, |bytes|)) == Written(codec, w, i, l);
    Prepend(codec, w2, Append(i, |bytes|), [Rename(i), Return(i)]);
    assert Next(codec, w1, Create(i, "t")) == w2;
    Prepend(codec, w1, Create(i, "t"), [Append(i, |bytes|), Rename(i), Return(i)]);
    assert Next(codec, With(w, i, true, false, map[], l), TakeWriteLock(i)) == w1;
    Prepend(codec, With(w, i, true, false, map[], l), TakeWriteLock(i),
            [Create(i, "t"), Append(i, |bytes|), Rename(i), Return(i)]);
  }

  /** What a loader's whole refresh leaves behind. */
  function Refreshed(codec: Codec, w: World, i: nat, models: seq<C.Model>): World
    requires i < |w.loaders|
  {
    var l, found := w.loaders[i], FoundAt(w, models);
    With(w.(file := Some(codec.encode(codec.Seal(l.request, found)))), i, false, false, map[],
         Loader(l.request, Done(Loaded(found)), l.first, l.probes + 1, true))
  }

  lemma Refreshes(codec: Codec, w: World, i: nat, models: seq<C.Model>)
    requires AllQuiet(w) && i < |w.loaders| && w.loaders[i].pc.Waiting? && OrdinaryRequest(w.loaders[i].request)
    requires !ReadCache(codec, w.file, w.loaders[i].request, w.clock).Found? && models != []
    ensures exists steps :: IsRun(codec, w, steps) && After(codec, w, steps) == Refreshed(codec, w, i, models)
  {
    var l, found := w.loaders[i], FoundAt(w, models);
    var storing := Loader(l.request, Storing(found), l.first, l.probes + 1, l.wrote);
    var first := [TakeLock(i), Reload(i), Version(i, false, Some("1")), Probe(i, Some(models))];
    var second := StoreSteps(i, |Bytes(codec, storing, found)|);
    Discovers(codec, w, i, models);
    Stores(codec, w, i, storing);
    RunsConcatenate(codec, w, first, second);
    assert IsRun(codec, w, first + second) && After(codec, w, first + second) == Refreshed(codec, w, i, models);
  }

  function Home(name: string): Request { Request(Installation("binary", name, None), 3600, false, false) }

  /** Two loaders, one for each home, that have both missed an absent cache. */
  const MISSED := World(None, None, None, map[], 0,
                        [Loader(Home("a"), Waiting, None, 0, false), Loader(Home("b"), Waiting, None, 0, false)])

  lemma BothMiss(codec: Codec)
    ensures var start := World(None, None, None, map[], 0, []);
      var steps := [Arrive(Home("a")), Arrive(Home("b")), Read(0), Read(1)];
      IsRun(codec, start, steps) && After(codec, start, steps) == MISSED
  {
    var start := World(None, None, None, map[], 0, []);
    var a, b := Loader(Home("a"), Reading, None, 0, false), Loader(Home("b"), Reading, None, 0, false);
    var w1, w2 := start.(loaders := [a]), start.(loaders := [a, b]);
    var w3 := start.(loaders := [a.(pc := Waiting), b]);
    assert Next(codec, w3, Read(1)) == MISSED;
    Prepend(codec, w3, Read(1), []);
    assert Next(codec, w2, Read(0)) == w3;
    Prepend(codec, w2, Read(0), [Read(1)]);
    assert Next(codec, w1, Arrive(Home("b"))) == w2;
    Prepend(codec, w1, Arrive(Home("b")), [Read(0), Read(1)]);
    assert Next(codec, start, Arrive(Home("a"))) == w1;
    Prepend(codec, start, Arrive(Home("a")), [Arrive(Home("b")), Read(0), Read(1)]);
  }

  predicate BothDiscovered(w: World) {
    && |w.loaders| == 2
    && w.loaders[0].wrote && Probed(w.loaders[0])
    && w.loaders[1].wrote && Probed(w.loaders[1])
  }

  /** Two concurrent misses with two successful writes, at one time: neither home is served by the other's discovery. */
  lemma TwoHomesDiscoverTwice(codec: Codec, models: seq<C.Model>)
    requires codec.RoundTrips() && models != []
    ensures exists steps ::
      IsRun(codec, World(None, None, None, map[], 0, []), steps)
      && BothDiscovered(After(codec, World(None, None, None, map[], 0, []), steps))
  {
    var start, arrive := World(None, None, None, map[], 0, []),
        [Arrive(Home("a")), Arrive(Home("b")), Read(0), Read(1)];
    BothMiss(codec);
    Refreshes(codec, MISSED, 0, models);
    var first :| IsRun(codec, MISSED, first) && After(codec, MISSED, first) == Refreshed(codec, MISSED, 0, models);
    var between := Refreshed(codec, MISSED, 0, models);
    OtherHomeMisses(codec, models);
    Refreshes(codec, between, 1, models);
    var second :| IsRun(codec, between, second) && After(codec, between, second)
        == Refreshed(codec, between, 1, models);
    RunsConcatenate(codec, MISSED, first, second);
    RunsConcatenate(codec, start, arrive, first + second);
    assert BothDiscovered(After(codec, start, arrive + (first + second)));
  }

  lemma OtherHomeMisses(codec: Codec, models: seq<C.Model>)
    requires codec.RoundTrips()
    ensures var between := Refreshed(codec, MISSED, 0, models);
      && AllQuiet(between)
      && !ReadCache(codec, between.file, between.loaders[1].request, between.clock).Found?
  {
    var sealed := codec.Seal(Home("a"), FoundAt(MISSED, models));
    assert codec.decode(codec.encode(sealed)) == Some(sealed);
    assert "a"[0] != "b"[0];
  }
}
