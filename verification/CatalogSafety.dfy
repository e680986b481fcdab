/** What the catalog refresh protocol keeps over every interleaving of loaders, crashes and failed writes. */
module CatalogSafety {
  import opened Types
  import opened Catalog
  import C = Capabilities
  import L = Log

  // ---------- Locks ----------

  /** A loader holds a lock exactly while its program counter says so. */
  predicate Locks(w: World) {
    && (w.refreshLock.Some? ==> w.refreshLock.value < |w.loaders|)
    && (w.writeLock.Some? ==> w.writeLock.value < |w.loaders|)
    && forall i | 0 <= i < |w.loaders| ::
         && (w.loaders[i].pc.HoldsRefreshLock() <==> w.refreshLock == Some(i))
         && (w.loaders[i].pc.HoldsWriteLock() <==> w.writeLock == Some(i))
  }

  /** The loader that a step belongs to. */
  function Mover(s: Step): Option<nat> {
    match s
    case Arrive(_) => None
    case SetClock(_) => None
    case Crash(i) => Some(i)
    case Read(i) => Some(i)
    case TakeLock(i) => Some(i)
    case GiveUpLock(i) => Some(i)
    case BreakLock(i) => Some(i)
    case Reload(i) => Some(i)
    case Version(i, _, _) => Some(i)
    case Probe(i, _) => Some(i)
    case TakeWriteLock(i) => Some(i)
    case Create(i, _) => Some(i)
    case Append(i, _) => Some(i)
    case Rename(i) => Some(i)
    case FailWrite(i) => Some(i)
    case Return(i) => Some(i)
  }

  predicate MovesOne(w: World, after: World, k: nat) {
    k < |w.loaders| && |after.loaders| == |w.loaders| && after.loaders == w.loaders[k := after.loaders[k]]
  }

  /** A step moves its own loader only. */
  lemma StepMovesOne(codec: Codec, w: World, s: Step)
    requires Enabled(codec, w, s)
    ensures var after := Next(codec, w, s);
      match Mover(s)
      case Some(i) => MovesOne(w, after, i)
      case None =>
        && after.refreshLock == w.refreshLock && after.writeLock == w.writeLock
        && (if s.Arrive? then after.loaders == w.loaders + [Loader(s.request, Reading, None, 0, false)]
            else after.loaders == w.loaders)
  {
  }

  /** A lock is taken or released only by its own loader. */
  predicate LockMoves(before: Option<nat>, after: Option<nat>, i: nat, holds: bool) {
    (after == before || (before in [None, Some(i)] && after in [None, Some(i)])) && (holds <==> after == Some(i))
  }

  /** The steps of a loader that has made its discovery. */
  predicate Storing(s: Step) {
    s.TakeWriteLock? || s.Create? || s.Append? || s.Rename? || s.FailWrite? || s.Return?
  }

  /** The locks move with their loader's program counter. */
  predicate LocksMove(w: World, after: World, i: nat) {
    && MovesOne(w, after, i)
    && LockMoves(w.refreshLock, after.refreshLock, i, after.loaders[i].pc.HoldsRefreshLock())
    && LockMoves(w.writeLock, after.writeLock, i, after.loaders[i].pc.HoldsWriteLock())
  }

  lemma LoadingMovesLocks(codec: Codec, w: World, s: Step)
    requires Locks(w) && Enabled(codec, w, s) && Mover(s).Some? && !Storing(s)
    ensures LocksMove(w, Next(codec, w, s), Mover(s).value)
  {
  }

  lemma StoringMovesLocks(codec: Codec, w: World, s: Step)
    requires Locks(w) && Enabled(codec, w, s) && Storing(s)
    ensures LocksMove(w, Next(codec, w, s), Mover(s).value)
  {
  }

  lemma StepKeepsLocks(codec: Codec, w: World, s: Step)
    requires Locks(w) && Enabled(codec, w, s)
    ensures Locks(Next(codec, w, s))
  {
    StepMovesOne(codec, w, s);
    if Mover(s).Some? {
      if Storing(s) { StoringMovesLocks(codec, w, s); } else { LoadingMovesLocks(codec, w, s); }
      MovedLocks(w, Next(codec, w, s), Mover(s).value);
    }
  }

  lemma MovedLocks(w: World, after: World, i: nat)
    requires Locks(w) && LocksMove(w, after, i)
    ensures Locks(after)
  {
    forall j | 0 <= j < |after.loaders|
      ensures after.loaders[j].pc.HoldsRefreshLock() <==> after.refreshLock == Some(j)
      ensures after.loaders[j].pc.HoldsWriteLock() <==> after.writeLock == Some(j)
    {
      assert j != i ==> after.loaders[j] == w.loaders[j];
    }
  }

  /** At most one loader is between taking the refresh lock and returning, and the writer's lock is never contended. */
  lemma AtMostOneRefreshes(w: World, i: nat, j: nat)
    requires Locks(w) && i < |w.loaders| && j < |w.loaders|
    requires w.loaders[i].pc.HoldsRefreshLock() && w.loaders[j].pc.HoldsRefreshLock()
    ensures i == j
    ensures w.loaders[i].pc.Storing? ==> w.writeLock.None?
  {
    if w.writeLock.Some? {
      assert w.loaders[w.writeLock.value].pc.HoldsWriteLock();
      assert w.refreshLock == w.writeLock;
    }
  }

  /** Only the holder of the refresh lock replaces the cache file, and only by a rename. */
  lemma OnlyTheHolderReplaces(codec: Codec, w: World, s: Step)
    requires Locks(w) && Enabled(codec, w, s) && Next(codec, w, s).file != w.file
    ensures s.Rename? && w.refreshLock == Some(s.i)
  {
  }

  // ---------- The file ----------

  /** A discovered catalog sealed under its own digest; the built-in fallback never qualifies. */
  predicate Whole(codec: Codec, e: Envelope) {
    && e.schema == 1
    && e.digest == codec.digest(e.catalog)
    && (e.catalog.source == DebugModels || e.catalog.source == Bundled)
    && e.catalog.models != []
    && e.fetchedAt == e.catalog.fetchedAt && e.version == e.catalog.version
  }

  predicate Discovered(found: ModelCatalog) {
    (found.source == DebugModels || found.source == Bundled) && found.models != []
  }

  /** The cache file is absent or the complete serialisation of one whole envelope. */
  ghost predicate Complete(codec: Codec, file: Option<seq<bv8>>) {
    file.Some? ==> exists e :: Whole(codec, e) && file.value == codec.encode(e)
  }

  function FoundBy(pc: Pc): Option<ModelCatalog> {
    match pc
    case Storing(found) => Some(found)
    case Opening(found) => Some(found)
    case Writing(found, _, _) => Some(found)
    case Renamed(found) => Some(found)
    case _ => None
  }

  /** What a loader carries is a discovery, and its temporary file holds what it has written so far. */
  predicate CarriesDiscovery(codec: Codec, w: World, loader: Loader) {
    && (FoundBy(loader.pc).Some? ==> Discovered(FoundBy(loader.pc).value))
    && (loader.pc.Writing? ==>
          && loader.pc.written <= |Bytes(codec, loader, loader.pc.found)|
          && loader.pc.temporary in w.temporaries
          && w.temporaries[loader.pc.temporary] == Bytes(codec, loader, loader.pc.found)[..loader.pc.written])
  }

  ghost predicate Sound(codec: Codec, w: World) {
    && Locks(w)
    && Complete(codec, w.file)
    && forall i | 0 <= i < |w.loaders| :: CarriesDiscovery(codec, w, w.loaders[i])
  }

  /** A step leaves every other loader, and the temporary file of any other writer, alone. */
  lemma OthersKeepTheirDiscovery(codec: Codec, w: World, s: Step, j: nat)
    requires Sound(codec, w) && Enabled(codec, w, s) && j < |w.loaders| && Mover(s) != Some(j)
    requires Next(codec, w, s).loaders[j] == w.loaders[j]
    ensures CarriesDiscovery(codec, Next(codec, w, s), w.loaders[j])
  {
    assert CarriesDiscovery(codec, w, w.loaders[j]);
  }

  lemma LoadingKeepsDiscovery(codec: Codec, w: World, s: Step)
    requires Enabled(codec, w, s) && Mover(s).Some? && !Storing(s)
    requires CarriesDiscovery(codec, w, w.loaders[Mover(s).value])
    ensures CarriesDiscovery(codec, Next(codec, w, s), Next(codec, w, s).loaders[Mover(s).value])
  {
  }

  lemma StoringKeepsDiscovery(codec: Codec, w: World, s: Step)
    requires Enabled(codec, w, s) && Storing(s) && CarriesDiscovery(codec, w, w.loaders[Mover(s).value])
    ensures CarriesDiscovery(codec, Next(codec, w, s), Next(codec, w, s).loaders[Mover(s).value])
  {
  }

  lemma MoverKeepsItsDiscovery(codec: Codec, w: World, s: Step)
    requires Sound(codec, w) && Enabled(codec, w, s) && Mover(s).Some?
    ensures CarriesDiscovery(codec, Next(codec, w, s), Next(codec, w, s).loaders[Mover(s).value])
  {
    assert CarriesDiscovery(codec, w, w.loaders[Mover(s).value]);
    if Storing(s) { StoringKeepsDiscovery(codec, w, s); } else { LoadingKeepsDiscovery(codec, w, s); }
  }

  lemma StepKeepsFileComplete(codec: Codec, w: World, s: Step)
    requires Sound(codec, w) && Enabled(codec, w, s)
    ensures Complete(codec, Next(codec, w, s).file)
  {
    if s.Rename? {
      var loader := w.loaders[s.i];
      assert CarriesDiscovery(codec, w, loader);
      var bytes := Bytes(codec, loader, loader.pc.found);
      assert bytes[..|bytes|] == bytes;
      assert Whole(codec, codec.Seal(loader.request, loader.pc.found));
    }
  }

  lemma DiscoveriesAreKept(codec: Codec, w: World, s: Step, i: nat)
    requires Sound(codec, w) && Enabled(codec, w, s) && i < |Next(codec, w, s).loaders|
    ensures CarriesDiscovery(codec, Next(codec, w, s), Next(codec, w, s).loaders[i])
  {
    StepMovesOne(codec, w, s);
    if Mover(s) == Some(i) {
      MoverKeepsItsDiscovery(codec, w, s);
    } else if i < |w.loaders| {
      OthersKeepTheirDiscovery(codec, w, s, i);
    }
  }

  lemma StepKeepsSound(codec: Codec, w: World, s: Step)
    requires Sound(codec, w) && Enabled(codec, w, s)
    ensures Sound(codec, Next(codec, w, s))
  {
    StepKeepsLocks(codec, w, s);
    StepKeepsFileComplete(codec, w, s);
    forall i | 0 <= i < |Next(codec, w, s).loaders|
      ensures CarriesDiscovery(codec, Next(codec, w, s), Next(codec, w, s).loaders[i])
    {
      DiscoveriesAreKept(codec, w, s, i);
    }
  }

  lemma {:induction false} RunsStaySound(codec: Codec, w: World, steps: seq<Step>)
    requires Sound(codec, w) && IsRun(codec, w, steps)
    ensures Sound(codec, After(codec, w, steps))
    decreases |steps|
  {
    if steps != [] {
      StepKeepsSound(codec, w, steps[0]);
      RunsStaySound(codec, Next(codec, w, steps[0]), steps[1..]);
    }
  }

  /** Whatever the interleaving, no reader ever finds a torn or corrupt file, and what it finds was discovered. */
  lemma ReadersNeverSeeCorruption(codec: Codec, w: World, steps: seq<Step>, request: Request, now: nat)
    requires codec.RoundTrips() && Sound(codec, w) && IsRun(codec, w, steps)
    ensures var cached := ReadCache(codec, After(codec, w, steps).file, request, now);
      && !cached.Corrupt?
      && (cached.Found? ==> exists e ::
            && Whole(codec, e) && e.installation == request.installation
            && cached.catalog == e.catalog.(source := Cache, stale := cached.catalog.stale, age := cached.catalog.age))
  {
    RunsStaySound(codec, w, steps);
    var file := After(codec, w, steps).file;
    if file.Some? {
      var e :| Whole(codec, e) && file.value == codec.encode(e);
      assert codec.decode(codec.encode(e)) == Some(e);
    }
  }

  // ---------- What a read finds ----------

  /**
   * A read finds a catalog if and only if the file is there, decodes, has the supported schema, belongs
   * to the same installation and carries the digest of its own payload; it is stale when it is older
   * than the request allows, and never when the clock has gone back behind it.
   */
  lemma ReadAcceptsExactlyWhen(codec: Codec, file: Option<seq<bv8>>, request: Request, now: nat)
    ensures var cached := ReadCache(codec, file, request, now);
      && (cached.Found? <==>
            && file.Some? && codec.decode(file.value).Some?
            && codec.decode(file.value).value.schema == 1
            && codec.decode(file.value).value.installation == request.installation
            && codec.decode(file.value).value.digest == codec.digest(codec.decode(file.value).value.catalog))
      && (cached.Found? ==>
            var e := codec.decode(file.value).value;
            && (cached.catalog.stale <==> now > e.fetchedAt + request.maxAge)
            && cached.catalog.age == Some(if now > e.fetchedAt then now - e.fetchedAt else 0)
            && cached.catalog.models == e.catalog.models && cached.catalog.version == e.version
            && cached.catalog.fetchedAt == e.catalog.fetchedAt && cached.catalog.source.Cache?)
      && (cached.Absent? <==> file.None?)
  {
  }

  /**
   * The first read returns if and only if the request is neither forced nor bundled-only and the file
   * holds a catalog of the same installation that is still current; every other file makes it wait.
   */
  lemma FirstReadReturnsExactlyWhen(codec: Codec, w: World, i: nat, e: Envelope)
    requires codec.RoundTrips() && Whole(codec, e) && w.file == Some(codec.encode(e))
    requires Enabled(codec, w, Read(i))
    ensures var loader, after := w.loaders[i], Next(codec, w, Read(i)).loaders[i];
      && (after.pc.Done? <==>
            && !loader.request.refresh && !loader.request.bundledOnly
            && e.installation == loader.request.installation
            && w.clock <= e.fetchedAt + loader.request.maxAge)
      && (after.pc.Done? ==> after.pc.outcome.Loaded? && after.pc.outcome.catalog.models == e.catalog.models)
      && (!after.pc.Done? ==> after.pc.Waiting?)
      && (after.first.Some? <==> e.installation == loader.request.installation)
      && (after.first.Some? ==> after.first.value.models == e.catalog.models)
  {
    assert codec.decode(codec.encode(e)) == Some(e);
  }

  /** A read that finds no catalog waits, and remembers that it found none. */
  lemma FirstReadWaitsWithoutCache(codec: Codec, w: World, i: nat)
    requires Enabled(codec, w, Read(i)) && !ReadCache(codec, w.file, w.loaders[i].request, w.clock).Found?
    ensures var after := Next(codec, w, Read(i)).loaders[i]; after.pc.Waiting? && after.first.None?
  {
  }

  // ---------- What a loader returns ----------

  /** What may be returned: a current or a discovered catalog as it is, a stale or incomplete one only with a notice. */
  predicate ReturnsHonestly(loader: Loader) {
    && (loader.first.Some? ==> loader.first.value.source.Cache?)
    && (FoundBy(loader.pc).Some? ==>
          && !FoundBy(loader.pc).value.stale
          && FoundBy(loader.pc).value.notice in [NoNotice, LiveFailed]
          && (FoundBy(loader.pc).value.source.Bundled? ==>
                loader.request.bundledOnly || FoundBy(loader.pc).value.notice.LiveFailed?)
          && (FoundBy(loader.pc).value.source.DebugModels? ==> !loader.request.bundledOnly)
          && Discovered(FoundBy(loader.pc).value))
    && (loader.pc.Renamed? ==> loader.wrote)
    && (loader.wrote ==> loader.pc.Renamed? || loader.pc.Done? || loader.pc.Crashed?)
    && (loader.pc.Secondary? ==> !loader.request.bundledOnly)
    && (loader.pc.Done? && loader.pc.outcome.Loaded? ==> Honest(loader, loader.pc.outcome.catalog))
  }

  predicate Honest(loader: Loader, c: ModelCatalog) {
    && (OrdinaryRequest(loader.request) && c.stale ==> c.notice != NoNotice)
    && (c.source.Cache? && c.stale && OrdinaryRequest(loader.request) ==>
          loader.first.Some? && c.models == loader.first.value.models)
    && (c.source.DebugModels? || c.source.Bundled? ==> loader.wrote != c.notice.WriteFailed?)
    && (c.source.Bundled? ==> loader.request.bundledOnly || c.notice.LiveFailed? || c.notice.WriteFailed?)
    && (c.source.DebugModels? ==> !loader.request.bundledOnly)
    && (c.source.Fallback? ==> c.notice != NoNotice && !c.stale && |c.models| == 3)
    && (loader.wrote ==> c.source.DebugModels? || c.source.Bundled?)
  }

  lemma ReadingReturnsHonestly(codec: Codec, w: World, s: Step)
    requires Enabled(codec, w, s) && (s.Read? || s.Reload?) && ReturnsHonestly(w.loaders[Mover(s).value])
    ensures ReturnsHonestly(Next(codec, w, s).loaders[Mover(s).value])
  {
  }

  lemma WaitingReturnsHonestly(codec: Codec, w: World, s: Step)
    requires Enabled(codec, w, s) && (s.Crash? || s.TakeLock? || s.GiveUpLock? || s.BreakLock?)
    requires ReturnsHonestly(w.loaders[Mover(s).value])
    ensures ReturnsHonestly(Next(codec, w, s).loaders[Mover(s).value])
  {
  }

  lemma DiscoveringReturnsHonestly(codec: Codec, w: World, s: Step)
    requires Enabled(codec, w, s) && (s.Version? || s.Probe?) && ReturnsHonestly(w.loaders[Mover(s).value])
    ensures ReturnsHonestly(Next(codec, w, s).loaders[Mover(s).value])
  {
  }

  lemma StoringReturnsHonestly(codec: Codec, w: World, s: Step)
    requires Enabled(codec, w, s) && Storing(s) && ReturnsHonestly(w.loaders[Mover(s).value])
    ensures ReturnsHonestly(Next(codec, w, s).loaders[Mover(s).value])
  {
  }

  lemma MoverReturnsHonestly(codec: Codec, w: World, s: Step)
    requires Enabled(codec, w, s) && Mover(s).Some? && ReturnsHonestly(w.loaders[Mover(s).value])
    ensures ReturnsHonestly(Next(codec, w, s).loaders[Mover(s).value])
  {
    if Storing(s) {
      StoringReturnsHonestly(codec, w, s);
    } else if s.Read? || s.Reload? {
      ReadingReturnsHonestly(codec, w, s);
    } else if s.Version? || s.Probe? {
      DiscoveringReturnsHonestly(codec, w, s);
    } else {
      WaitingReturnsHonestly(codec, w, s);
    }
  }

  predicate AllReturnHonestly(w: World) { forall i | 0 <= i < |w.loaders| :: ReturnsHonestly(w.loaders[i]) }

  /**
   * Over every run an ordinary loader returns a stale catalog only with a notice, and then the one it
   * first read; a discovered catalog was written or says that it was not; a bundled one was asked for
   * or says that the live one failed.
   */
  lemma {:induction false} LoadersReturnHonestly(codec: Codec, w: World, steps: seq<Step>)
    requires IsRun(codec, w, steps) && AllReturnHonestly(w)
    ensures AllReturnHonestly(After(codec, w, steps))
    decreases |steps|
  {
    if steps != [] {
      StepMovesOne(codec, w, steps[0]);
      if Mover(steps[0]).Some? { MoverReturnsHonestly(codec, w, steps[0]); }
      LoadersReturnHonestly(codec, Next(codec, w, steps[0]), steps[1..]);
    }
  }

  /** The built-in catalog or an error is returned only by a loader whose first read found nothing. */
  predicate FallsBackOnlyBlind(loader: Loader) {
    && (loader.pc.Done? && (loader.pc.outcome.Failed? || loader.pc.outcome.catalog.source.Fallback?)
        ==> loader.first.None?)
    && (loader.first.Some? ==> loader.first.value.source.Cache?)
    && (FoundBy(loader.pc).Some? ==> Discovered(FoundBy(loader.pc).value))
  }

  predicate AllFallBackOnlyBlind(w: World) { forall i | 0 <= i < |w.loaders| :: FallsBackOnlyBlind(w.loaders[i]) }

  lemma LoadingFallsBackOnlyBlind(codec: Codec, w: World, s: Step)
    requires Enabled(codec, w, s) && Mover(s).Some? && !Storing(s) && FallsBackOnlyBlind(w.loaders[Mover(s).value])
    ensures FallsBackOnlyBlind(Next(codec, w, s).loaders[Mover(s).value])
  {
  }

  lemma StoringFallsBackOnlyBlind(codec: Codec, w: World, s: Step)
    requires Enabled(codec, w, s) && Storing(s) && FallsBackOnlyBlind(w.loaders[Mover(s).value])
    ensures FallsBackOnlyBlind(Next(codec, w, s).loaders[Mover(s).value])
  {
  }

  lemma MoverFallsBackOnlyBlind(codec: Codec, w: World, s: Step)
    requires Enabled(codec, w, s) && Mover(s).Some? && FallsBackOnlyBlind(w.loaders[Mover(s).value])
    ensures FallsBackOnlyBlind(Next(codec, w, s).loaders[Mover(s).value])
  {
    if Storing(s) { StoringFallsBackOnlyBlind(codec, w, s); } else { LoadingFallsBackOnlyBlind(codec, w, s); }
  }

  lemma {:induction false} LoadersFallBackOnlyBlind(codec: Codec, w: World, steps: seq<Step>)
    requires IsRun(codec, w, steps) && AllFallBackOnlyBlind(w)
    ensures AllFallBackOnlyBlind(After(codec, w, steps))
    decreases |steps|
  {
    if steps != [] {
      StepMovesOne(codec, w, steps[0]);
      if Mover(steps[0]).Some? { MoverFallsBackOnlyBlind(codec, w, steps[0]); }
      LoadersFallBackOnlyBlind(codec, Next(codec, w, steps[0]), steps[1..]);
    }
  }

  // ---------- Double-checked reading ----------

  /** A reader of this file at this time finds a compatible catalog that is not stale. */
  predicate Current(codec: Codec, file: Option<seq<bv8>>, request: Request, now: nat) {
    var cached := ReadCache(codec, file, request, now);
    cached.Found? && !cached.catalog.stale
  }

  /** Every time the clock is set, the file would still be current. */
  predicate StaysCurrent(codec: Codec, file: Option<seq<bv8>>, request: Request, steps: seq<Step>) {
    forall s | s in steps && s.SetClock? :: Current(codec, file, request, s.now)
  }

  predicate OrdinaryRequest(request: Request) { !request.refresh && !request.bundledOnly }

  /**
   * A loader holding the lock over a current file: still before its second read, returned with the
   * file's models, or dead.
   */
  predicate Served(codec: Codec, w: World, i: nat, file: Option<seq<bv8>>, request: Request, probes: nat) {
    && i < |w.loaders| && w.loaders[i].request == request && w.loaders[i].probes == probes
    && match w.loaders[i].pc
       case Reloading => w.file == file && Current(codec, file, request, w.clock)
       case Done(outcome) => outcome.Loaded? && !outcome.catalog.stale && outcome.catalog.source.Cache?
                             && file.Some? && codec.decode(file.value).Some?
                             && outcome.catalog.models == codec.decode(file.value).value.catalog.models
       case Crashed => true
       case _ => false
  }

  /** The served loader itself can only read again or die. */
  lemma OwnStepKeepsServed(codec: Codec, w: World, s: Step, i: nat, file: Option<seq<bv8>>, request: Request,
        probes: nat)
    requires Enabled(codec, w, s) && OrdinaryRequest(request) && Mover(s) == Some(i)
    requires Served(codec, w, i, file, request, probes)
    ensures Served(codec, Next(codec, w, s), i, file, request, probes)
  {
    assert s.Reload? || s.Crash?;
  }

  /** A step of anybody else replaces no file while the served loader holds the lock. */
  lemma OtherStepKeepsServed(codec: Codec, w: World, s: Step, i: nat, file: Option<seq<bv8>>, request: Request,
        probes: nat)
    requires Locks(w) && Enabled(codec, w, s) && Mover(s) != Some(i)
    requires Served(codec, w, i, file, request, probes)
    requires s.SetClock? ==> Current(codec, file, request, s.now)
    ensures Served(codec, Next(codec, w, s), i, file, request, probes)
  {
    StepMovesOne(codec, w, s);
    ClockMovesOnlyWhenSet(codec, w, s);
    if Next(codec, w, s).file != w.file {
      OnlyTheHolderReplaces(codec, w, s);
    }
  }

  lemma ClockMovesOnlyWhenSet(codec: Codec, w: World, s: Step)
    requires Enabled(codec, w, s)
    ensures Next(codec, w, s).clock == if s.SetClock? then s.now else w.clock
  {
  }

  lemma StepKeepsServed(codec: Codec, w: World, s: Step, i: nat, file: Option<seq<bv8>>, request: Request, probes: nat)
    requires Locks(w) && Enabled(codec, w, s) && OrdinaryRequest(request)
    requires Served(codec, w, i, file, request, probes)
    requires s.SetClock? ==> Current(codec, file, request, s.now)
    ensures Served(codec, Next(codec, w, s), i, file, request, probes)
  {
    if Mover(s) == Some(i) {
      OwnStepKeepsServed(codec, w, s, i, file, request, probes);
    } else {
      OtherStepKeepsServed(codec, w, s, i, file, request, probes);
    }
  }

  /**
   * A loader without --refresh or --bundled that gets the lock while a compatible, current cache
   * exists starts no child process, whatever the other loaders do meanwhile: it can only return that
   * cache.
   */
  lemma {:induction false} LockedLoaderStartsNoProbe(codec: Codec, w: World, steps: seq<Step>, i: nat,
                                                    file: Option<seq<bv8>>, request: Request, probes: nat)
    requires Locks(w) && OrdinaryRequest(request) && IsRun(codec, w, steps)
    requires Served(codec, w, i, file, request, probes) && StaysCurrent(codec, file, request, steps)
    ensures Served(codec, After(codec, w, steps), i, file, request, probes)
    decreases |steps|
  {
    if steps != [] {
      StepKeepsLocks(codec, w, steps[0]);
      StepKeepsServed(codec, w, steps[0], i, file, request, probes);
      assert forall s | s in steps[1..] :: s in steps;
      LockedLoaderStartsNoProbe(codec, Next(codec, w, steps[0]), steps[1..], i, file, request, probes);
    }
  }

  /**
   * The second read returns exactly when another loader of the same installation has left a catalog
   * that is current, or for a forced refresh newer than the first read; a file of another
   * installation, or a bundled-only request, always goes on to discovery.
   */
  lemma SecondReadReturnsExactlyWhen(codec: Codec, w: World, i: nat, e: Envelope)
    requires codec.RoundTrips() && Whole(codec, e) && w.file == Some(codec.encode(e))
    requires Enabled(codec, w, Reload(i))
    ensures var loader := w.loaders[i];
      Next(codec, w, Reload(i)).loaders[i].pc.Done? <==>
        && !loader.request.bundledOnly
        && e.installation == loader.request.installation
        && (if loader.request.refresh
            then e.fetchedAt > (if loader.first.Some? then loader.first.value.fetchedAt else 0)
            else w.clock <= e.fetchedAt + loader.request.maxAge)
  {
    assert codec.decode(codec.encode(e)) == Some(e);
  }

  // ---------- One discovery ----------

  predicate Busy(pc: Pc) { pc.HoldsRefreshLock() && !pc.Reloading? }

  /** A loader that ran a child process, and one that did so in vain. */
  predicate Probed(loader: Loader) { loader.probes > 0 }

  predicate Lost(loader: Loader) { Probed(loader) && !loader.wrote && (loader.pc.Done? || loader.pc.Crashed?) }

  /** The file holds a catalog of the installation fetched no earlier than `start`. */
  predicate Settled(codec: Codec, file: Option<seq<bv8>>, installation: Installation, start: nat) {
    && file.Some? && codec.decode(file.value).Some?
    && var e := codec.decode(file.value).value;
       e.schema == 1 && e.installation == installation && e.digest == codec.digest(e.catalog) && e.fetchedAt >= start
  }

  predicate MemberOk(loader: Loader, request: Request, start: nat) {
    && loader.request == request
    && (FoundBy(loader.pc).Some? ==> FoundBy(loader.pc).value.fetchedAt >= start)
    && (loader.wrote ==> loader.pc.Renamed? || loader.pc.Done? || loader.pc.Crashed?)
    && (Probed(loader) ==> Busy(loader.pc) || loader.pc.Done? || loader.pc.Crashed?)
    && (loader.pc.Renamed? ==> loader.wrote)
  }

  /** Loaders that all make the same ordinary request, within one cache lifetime. */
  ghost predicate Crowd(codec: Codec, w: World, request: Request, start: nat) {
    && Sound(codec, w)
    && start <= w.clock <= start + request.maxAge
    && (forall i | 0 <= i < |w.loaders| :: MemberOk(w.loaders[i], request, start))
    && (forall i | 0 <= i < |w.loaders| && w.loaders[i].wrote :: Settled(codec, w.file, request.installation, start))
    && WriterAlone(w)
  }

  predicate CrowdStep(s: Step, request: Request, start: nat) {
    && (s.Arrive? ==> s.request == request)
    && (s.SetClock? ==> start <= s.now <= start + request.maxAge)
  }

  lemma MoverStaysOk(codec: Codec, w: World, s: Step, request: Request, start: nat)
    requires Enabled(codec, w, s) && Mover(s).Some? && start <= w.clock
    requires MemberOk(w.loaders[Mover(s).value], request, start)
    ensures MemberOk(Next(codec, w, s).loaders[Mover(s).value], request, start)
  {
  }

  lemma MembersStayOk(codec: Codec, w: World, s: Step, request: Request, start: nat)
    requires Crowd(codec, w, request, start) && Enabled(codec, w, s) && CrowdStep(s, request, start)
    ensures forall i | 0 <= i < |Next(codec, w, s).loaders| :: MemberOk(Next(codec, w, s).loaders[i], request, start)
  {
    StepMovesOne(codec, w, s);
    if Mover(s).Some? {
      assert MemberOk(w.loaders[Mover(s).value], request, start);
      MoverStaysOk(codec, w, s, request, start);
    }
  }

  /** A rename settles the file; before it no other loader had written. */
  lemma RenameSettles(codec: Codec, w: World, i: nat, request: Request, start: nat)
    requires codec.RoundTrips() && Crowd(codec, w, request, start) && Enabled(codec, w, Rename(i))
    ensures Settled(codec, Next(codec, w, Rename(i)).file, request.installation, start)
    ensures forall j | 0 <= j < |w.loaders| :: !w.loaders[j].wrote
  {
    var loader := w.loaders[i];
    assert CarriesDiscovery(codec, w, loader) && MemberOk(loader, request, start);
    var bytes := Bytes(codec, loader, loader.pc.found);
    assert bytes[..|bytes|] == bytes;
    assert codec.decode(bytes) == Some(codec.Seal(loader.request, loader.pc.found));
    assert Busy(loader.pc);
  }

  /** Once the file is settled, the second read of an ordinary loader returns. */
  lemma SettledIsCurrent(codec: Codec, file: Option<seq<bv8>>, request: Request, start: nat, now: nat)
    requires Settled(codec, file, request.installation, start) && now <= start + request.maxAge
    ensures Current(codec, file, request, now)
  {
  }

  lemma FileStaysSettled(codec: Codec, w: World, s: Step, request: Request, start: nat)
    requires codec.RoundTrips() && Crowd(codec, w, request, start) && Enabled(codec, w, s)
        && CrowdStep(s, request, start)
    ensures var after := Next(codec, w, s);
      forall i | 0 <= i < |after.loaders| && after.loaders[i].wrote
          :: Settled(codec, after.file, request.installation, start)
  {
    if s.Rename? {
      RenameSettles(codec, w, s.i, request, start);
    }
  }

  /** Outside a rename and a second read, no loader becomes a writer or gets busy. */
  lemma OnlyReloadMakesBusy(codec: Codec, w: World, s: Step)
    requires Enabled(codec, w, s) && Mover(s).Some? && !s.Rename? && !s.Reload?
    ensures var before, after := w.loaders[Mover(s).value], Next(codec, w, s).loaders[Mover(s).value];
      after.wrote == before.wrote && (Busy(after.pc) ==> Busy(before.pc))
  {
  }

  /** Once somebody wrote, a second read returns. */
  lemma ReloadAfterWriteReturns(codec: Codec, w: World, i: nat, j: nat, request: Request, start: nat)
    requires OrdinaryRequest(request) && Crowd(codec, w, request, start) && Enabled(codec, w, Reload(i))
    requires j < |w.loaders| && w.loaders[j].wrote
    ensures Next(codec, w, Reload(i)).loaders[i].pc.Done?
  {
    SettledIsCurrent(codec, w.file, request, start, w.clock);
    assert MemberOk(w.loaders[i], request, start);
  }

  ghost predicate WriterAlone(w: World) {
    forall i, j | 0 <= i < |w.loaders| && 0 <= j < |w.loaders| && w.loaders[i].wrote
                  && (w.loaders[j].wrote || Busy(w.loaders[j].pc)) :: i == j
  }

  lemma QuietMoveKeepsWriterAlone(w: World, after: World, k: nat)
    requires WriterAlone(w) && MovesOne(w, after, k)
    requires after.loaders[k].wrote == w.loaders[k].wrote && (Busy(after.loaders[k].pc) ==> Busy(w.loaders[k].pc))
    ensures WriterAlone(after)
  {
  }

  lemma FirstWriteLeavesWriterAlone(w: World, after: World, k: nat)
    requires MovesOne(w, after, k)
    requires forall j | 0 <= j < |w.loaders| :: !w.loaders[j].wrote && (j != k ==> !Busy(w.loaders[j].pc))
    ensures WriterAlone(after)
  {
  }

  lemma RenameLeavesWriterAlone(codec: Codec, w: World, i: nat, request: Request, start: nat)
    requires codec.RoundTrips() && Crowd(codec, w, request, start) && Enabled(codec, w, Rename(i))
    ensures WriterAlone(Next(codec, w, Rename(i)))
  {
    RenameSettles(codec, w, i, request, start);
    StepMovesOne(codec, w, Rename(i));
    assert w.refreshLock == Some(i);
    FirstWriteLeavesWriterAlone(w, Next(codec, w, Rename(i)), i);
  }

  lemma ReloadLeavesWriterAlone(codec: Codec, w: World, i: nat, request: Request, start: nat)
    requires OrdinaryRequest(request) && Crowd(codec, w, request, start) && Enabled(codec, w, Reload(i))
    ensures WriterAlone(Next(codec, w, Reload(i)))
  {
    StepMovesOne(codec, w, Reload(i));
    if j :| 0 <= j < |w.loaders| && w.loaders[j].wrote {
      ReloadAfterWriteReturns(codec, w, i, j, request, start);
      QuietMoveKeepsWriterAlone(w, Next(codec, w, Reload(i)), i);
    }
  }

  lemma WriterStaysAlone(codec: Codec, w: World, s: Step, request: Request, start: nat)
    requires codec.RoundTrips() && OrdinaryRequest(request)
    requires Crowd(codec, w, request, start) && Enabled(codec, w, s)
    ensures WriterAlone(Next(codec, w, s))
  {
    if s.Rename? {
      RenameLeavesWriterAlone(codec, w, s.i, request, start);
    } else if s.Reload? {
      ReloadLeavesWriterAlone(codec, w, s.i, request, start);
    } else {
      StepMovesOne(codec, w, s);
      if Mover(s).Some? {
        OnlyReloadMakesBusy(codec, w, s);
        QuietMoveKeepsWriterAlone(w, Next(codec, w, s), Mover(s).value);
      }
    }
  }

  lemma StepKeepsCrowd(codec: Codec, w: World, s: Step, request: Request, start: nat)
    requires codec.RoundTrips() && OrdinaryRequest(request)
    requires Crowd(codec, w, request, start) && Enabled(codec, w, s) && CrowdStep(s, request, start)
    ensures Crowd(codec, Next(codec, w, s), request, start)
  {
    StepKeepsSound(codec, w, s);
    MembersStayOk(codec, w, s, request, start);
    FileStaysSettled(codec, w, s, request, start);
    WriterStaysAlone(codec, w, s, request, start);
  }

  lemma {:induction false} RunsKeepCrowd(codec: Codec, w: World, steps: seq<Step>, request: Request, start: nat)
    requires codec.RoundTrips() && OrdinaryRequest(request)
    requires Crowd(codec, w, request, start) && IsRun(codec, w, steps)
    requires forall s | s in steps :: CrowdStep(s, request, start)
    ensures Crowd(codec, After(codec, w, steps), request, start)
    decreases |steps|
  {
    if steps != [] {
      StepKeepsCrowd(codec, w, steps[0], request, start);
      RunsKeepCrowd(codec, Next(codec, w, steps[0]), steps[1..], request, start);
    }
  }

  /** If at most one position is accepted by `a` and not by `b`, then `a` accepts at most one more than `b`. */
  lemma {:induction false} AtMostOneMore<T>(xs: seq<T>, a: T -> bool, b: T -> bool)
    requires forall i, j | 0 <= i < |xs| && 0 <= j < |xs| && a(xs[i]) && !b(xs[i]) && a(xs[j]) && !b(xs[j]) :: i == j
    ensures L.Count(xs, a) <= L.Count(xs, b) + 1
    ensures (forall i | 0 <= i < |xs| :: a(xs[i]) ==> b(xs[i])) ==> L.Count(xs, a) <= L.Count(xs, b)
  {
    if xs != [] {
      var front := xs[..|xs| - 1];
      assert forall i | 0 <= i < |front| :: front[i] == xs[i];
      AtMostOneMore(front, a, b);
    }
  }

  /**
   * However many loaders miss the cache at once, at most one more of them runs a child process than
   * fails or dies after running one: with a successful write and no failure, N concurrent misses cost
   * one discovery.
   */
  lemma MissesShareOneDiscovery(codec: Codec, file: Option<seq<bv8>>, clock: nat, steps: seq<Step>, request: Request)
    requires codec.RoundTrips() && Complete(codec, file) && OrdinaryRequest(request)
    requires IsRun(codec, World(file, None, None, map[], clock, []), steps)
    requires forall s | s in steps :: CrowdStep(s, request, clock)
    ensures var w := After(codec, World(file, None, None, map[], clock, []), steps);
      L.Count(w.loaders, Probed) <= L.Count(w.loaders, Lost) + 1
  {
    var start := World(file, None, None, map[], clock, []);
    RunsKeepCrowd(codec, start, steps, request, clock);
    var w := After(codec, start, steps);
    forall i, j | 0 <= i < |w.loaders| && 0 <= j < |w.loaders| && Probed(w.loaders[i]) && !Lost(w.loaders[i])
                  && Probed(w.loaders[j]) && !Lost(w.loaders[j])
      ensures i == j
    {
      assert MemberOk(w.loaders[i], request, clock) && MemberOk(w.loaders[j], request, clock);
    }
    AtMostOneMore(w.loaders, Probed, Lost);
  }

  // ---------- What a failure leaves the caller with ----------

  /** The step ends the loader's attempt: somebody else is refreshing, the version or the last probe failed. */
  predicate GivesUp(w: World, s: Step) {
    || s.GiveUpLock?
    || (s.Version? && s.version.None?)
    || (s.Probe? && (s.models.None? || s.models.value == [])
        && s.i < |w.loaders| && (w.loaders[s.i].pc.Secondary? || w.loaders[s.i].request.bundledOnly))
  }

  /**
   * A loader that gives up returns what its first read found, marked stale and with a notice, and
   * without such a read the built-in models of the three families.
   */
  lemma GivingUpReturnsFirstRead(codec: Codec, w: World, s: Step)
    requires Enabled(codec, w, s) && GivesUp(w, s)
    ensures var before, after := w.loaders[Mover(s).value], Next(codec, w, s).loaders[Mover(s).value];
      && after.pc.Done? && after.pc.outcome.Loaded?
      && var c := after.pc.outcome.catalog;
         && c.notice == (if s.GiveUpLock? then BusyRefreshing
                         else if s.Version? then VersionFailed else DiscoveryFailed)
         && (before.first.Some? ==> c == before.first.value.(stale := true, notice := c.notice))
         && (before.first.None? ==>
               && c.source.Fallback? && !c.stale && c.version == "unknown" && |c.models| == 3
               && c.models[0].family == Sol && c.models[1].family == Terra && c.models[2].family == Luna
               && forall m | m in c.models :: !m.hidden && m.interactive && m.exec
                                              && m.efforts == ["low", "medium", "high", "xhigh"])
  {
  }

  /** A lock that cannot be taken at all serves the first read, marked stale, and is an error without one. */
  lemma BrokenLockReturnsFirstRead(codec: Codec, w: World, i: nat)
    requires Enabled(codec, w, BreakLock(i))
    ensures Next(codec, w, BreakLock(i)).loaders[i].pc
         == Done(if w.loaders[i].first.Some?
                 then Loaded(w.loaders[i].first.value.(stale := true, notice := LockBroken)) else Failed)
  {
  }

  /** A waiting loader gives up only while another one refreshes, and takes the lock only while none does. */
  lemma OnlyABusyLockIsGivenUp(codec: Codec, w: World, i: nat)
    requires Locks(w) && i < |w.loaders| && w.loaders[i].pc.Waiting?
    ensures Enabled(codec, w, GiveUpLock(i)) <==>
      exists j | 0 <= j < |w.loaders| :: j != i && w.loaders[j].pc.HoldsRefreshLock()
    ensures Enabled(codec, w, TakeLock(i)) <==> !Enabled(codec, w, GiveUpLock(i))
  {
    if w.refreshLock.Some? {
      assert w.loaders[w.refreshLock.value].pc.HoldsRefreshLock();
    }
  }

  /** The version comes from a child process for a forced refresh and whenever it fails; otherwise it may be known. */
  lemma VersionIsProbedExactlyWhen(codec: Codec, w: World, i: nat, probed: bool, version: Option<string>)
    requires i < |w.loaders| && w.loaders[i].pc.Versioning?
    ensures Enabled(codec, w, Version(i, probed, version))
       <==> probed || (!w.loaders[i].request.refresh && version.Some?)
    ensures Enabled(codec, w, Version(i, probed, version)) ==>
      var after := Next(codec, w, Version(i, probed, version)).loaders[i];
      && after.probes == w.loaders[i].probes + (if probed then 1 else 0)
      && (version.Some? ==> after.pc == Primary(version.value))
  {
  }

  /**
   * The live catalog is asked for first and the bundled one after it has failed, unless only the bundled
   * one may be; what is found is stored under its own source and the version that was read.
   */
  lemma ProbeIsExact(codec: Codec, w: World, i: nat, models: Option<seq<C.Model>>)
    requires Enabled(codec, w, Probe(i, models))
    ensures var before, after := w.loaders[i], Next(codec, w, Probe(i, models)).loaders[i];
      var found := models.Some? && models.value != [];
      && after.probes == before.probes + 1
      && (found <==> after.pc.Storing?)
      && (!found && before.pc.Primary? && !before.request.bundledOnly ==> after.pc == Secondary(before.pc.version))
      && (!found && (before.pc.Secondary? || before.request.bundledOnly) ==> after.pc.Done?)
      && (found ==>
            && after.pc.found.models == models.value && after.pc.found.version == before.pc.version
            && after.pc.found.fetchedAt == w.clock && !after.pc.found.stale
            && (after.pc.found.source == DebugModels <==> before.pc.Primary? && !before.request.bundledOnly)
            && (after.pc.found.source == DebugModels || after.pc.found.source == Bundled)
            && (after.pc.found.notice == LiveFailed <==> before.pc.Secondary?))
  {
  }

  // ---------- Temporary files ----------

  predicate Writes(w: World, i: nat, temporary: string) {
    i < |w.loaders| && w.loaders[i].pc.Writing? && w.loaders[i].pc.temporary == temporary
  }

  /** Every temporary file is one that some loader is still writing. */
  ghost predicate TemporariesAreOwned(w: World) {
    forall t | t in w.temporaries :: exists i: nat :: Writes(w, i, t)
  }

  /** A step takes a temporary file away together with its writer, and adds one together with one. */
  lemma TemporariesFollowWriters(codec: Codec, w: World, s: Step, t: string, i: nat)
    requires Enabled(codec, w, s) && !s.Crash? && t in Next(codec, w, s).temporaries
    requires t in w.temporaries ==> Writes(w, i, t)
    ensures Writes(Next(codec, w, s), if t in w.temporaries then i else s.i, t)
  {
  }

  /** Over every run without a crash a loader that is done, or failed to write, leaves no temporary file behind. */
  lemma {:induction false} NoTemporaryIsLeft(codec: Codec, w: World, steps: seq<Step>)
    requires IsRun(codec, w, steps) && TemporariesAreOwned(w) && forall s | s in steps :: !s.Crash?
    ensures TemporariesAreOwned(After(codec, w, steps))
    decreases |steps|
  {
    if steps != [] {
      var s := steps[0];
      var after := Next(codec, w, s);
      assert s in steps;
      forall t | t in after.temporaries ensures exists i: nat :: Writes(after, i, t) {
        var i: nat :| t in w.temporaries ==> Writes(w, i, t);
        TemporariesFollowWriters(codec, w, s, t, i);
      }
      assert forall s' | s' in steps[1..] :: s' in steps;
      NoTemporaryIsLeft(codec, after, steps[1..]);
    }
  }
}
