/**
 * The catalog refresh protocol: any number of loaders share a cache file, a refresh lock and the
 * writer's own lock. One step is one system call or one child process of one loader.
 */
module Catalog {
  import opened Types
  import C = Capabilities

  datatype Source = DebugModels | Bundled | Cache | Fallback

  datatype Notice = NoNotice | LockBroken | BusyRefreshing | VersionFailed | DiscoveryFailed | LiveFailed | WriteFailed

  datatype ModelCatalog = ModelCatalog(
    models: seq<C.Model>,
    source: Source,
    stale: bool,
    fetchedAt: nat,
    age: Option<nat>,
    version: string,
    notice: Notice)

  /** What identifies the installed binary; loaders that share a file may still differ here. */
  datatype Installation = Installation(fingerprint: string, homeHash: string, profile: Option<string>)

  datatype Request = Request(installation: Installation, maxAge: nat, refresh: bool, bundledOnly: bool)

  datatype Envelope = Envelope(
    schema: nat,
    version: string,
    installation: Installation,
    fetchedAt: nat,
    digest: string,
    catalog: ModelCatalog)

  /** The serialised form of an envelope and the digest of a payload. */
  datatype Codec = Codec(
    encode: Envelope -> seq<bv8>,
    decode: seq<bv8> -> Option<Envelope>,
    digest: ModelCatalog -> string)
  {
    ghost predicate RoundTrips() { forall e :: decode(encode(e)) == Some(e) }

    function Seal(request: Request, found: ModelCatalog): Envelope {
      Envelope(1, found.version, request.installation, found.fetchedAt, digest(found), found)
    }
  }

  // ---------- Reading the cache ----------

  datatype Cached = Found(catalog: ModelCatalog) | Absent | Incompatible | Corrupt

  function ReadCache(codec: Codec, file: Option<seq<bv8>>, request: Request, now: nat): Cached {
    if file.None? then Absent
    else match codec.decode(file.value)
      case None => Corrupt
      case Some(e) =>
        if e.schema != 1 then Incompatible
        else if e.installation != request.installation then Incompatible
        else if e.digest != codec.digest(e.catalog) then Corrupt
        else
          var age := if now < e.fetchedAt then 0 else now - e.fetchedAt;
          Found(e.catalog.(source := Cache, stale := age > request.maxAge, age := Some(age), version := e.version))
  }

  function Usable(cached: Cached): Option<ModelCatalog> {
    if cached.Found? then Some(cached.catalog) else None
  }

  // ---------- One loader ----------

  datatype Outcome = Loaded(catalog: ModelCatalog) | Failed

  /** Where a loader stands, up to its return. */
  datatype Pc =
    | Reading
    | Waiting
    | Reloading
    | Versioning
    | Primary(version: string)
    | Secondary(version: string)
    | Storing(found: ModelCatalog)
    | Opening(found: ModelCatalog)
    | Writing(found: ModelCatalog, temporary: string, written: nat)
    | Renamed(found: ModelCatalog)
    | Done(outcome: Outcome)
    | Crashed
  {
    predicate HoldsRefreshLock() { !Reading? && !Waiting? && !Done? && !Crashed? }

    predicate HoldsWriteLock() { Opening? || Writing? || Renamed? }
  }

  /** `first` is what the loader's first read found; `probes` counts its child processes, `wrote` its rename. */
  datatype Loader = Loader(request: Request, pc: Pc, first: Option<ModelCatalog>, probes: nat, wrote: bool)

  const FALLBACK_EFFORTS := ["low", "medium", "high", "xhigh"]

  function FallbackModel(id: string, family: ModelFamily): C.Model {
    C.Model(id, family, FALLBACK_EFFORTS, [], [], false, true, true)
  }

  function FallbackCatalog(now: nat, notice: Notice): ModelCatalog {
    ModelCatalog(
      [FallbackModel("gpt-5.6-sol", Sol), FallbackModel("gpt-5.6-terra", Terra), FallbackModel("gpt-5.6-luna", Luna)],
      Fallback, false, now, None, "unknown", notice)
  }

  /** A loader that could not refresh returns its stale cache, or the built-in catalog when it read none. */
  function StaleOrFallback(loader: Loader, now: nat, notice: Notice): Outcome {
    match loader.first
    case Some(c) => Loaded(c.(stale := true, notice := notice))
    case None => Loaded(FallbackCatalog(now, notice))
  }

  /** After the second read a loader returns what another process refreshed in the meantime. */
  predicate RefreshedMeanwhile(loader: Loader, reloaded: ModelCatalog) {
    var before := if loader.first.Some? then loader.first.value.fetchedAt else 0;
    || (!loader.request.refresh && !reloaded.stale)
    || (loader.request.refresh && reloaded.fetchedAt > before)
  }

  // ---------- The shared world ----------

  datatype World = World(
    file: Option<seq<bv8>>,
    refreshLock: Option<nat>,
    writeLock: Option<nat>,
    temporaries: map<string, seq<bv8>>,
    clock: nat,
    loaders: seq<Loader>)

  datatype Step =
    | Arrive(request: Request)
    | SetClock(now: nat)
    | Crash(i: nat)
    | Read(i: nat)
    | TakeLock(i: nat)
    | GiveUpLock(i: nat)
    | BreakLock(i: nat)
    | Reload(i: nat)
    | Version(i: nat, probed: bool, version: Option<string>)
    | Probe(i: nat, models: Option<seq<C.Model>>)
    | TakeWriteLock(i: nat)
    | Create(i: nat, temporary: string)
    | Append(i: nat, upTo: nat)
    | Rename(i: nat)
    | FailWrite(i: nat)
    | Return(i: nat)

  function Bytes(codec: Codec, loader: Loader, found: ModelCatalog): seq<bv8> {
    codec.encode(codec.Seal(loader.request, found))
  }

  predicate At(w: World, i: nat, at: Pc -> bool) { i < |w.loaders| && at(w.loaders[i].pc) }

  /** When a step can happen. A forced refresh always runs the version probe; a crash can happen at any time. */
  predicate Enabled(codec: Codec, w: World, s: Step) {
    match s
    case Arrive(_) => true
    case SetClock(_) => true
    case Crash(i) => At(w, i, (pc: Pc) => !pc.Done? && !pc.Crashed?)
    case Read(i) => At(w, i, (pc: Pc) => pc.Reading?)
    case TakeLock(i) => At(w, i, (pc: Pc) => pc.Waiting?) && w.refreshLock.None?
    case GiveUpLock(i) => At(w, i, (pc: Pc) => pc.Waiting?) && w.refreshLock.Some?
    case BreakLock(i) => At(w, i, (pc: Pc) => pc.Waiting?)
    case Reload(i) => At(w, i, (pc: Pc) => pc.Reloading?)
    case Version(i, probed, version) =>
      && At(w, i, (pc: Pc) => pc.Versioning?)
      && (w.loaders[i].request.refresh || version.None? ==> probed)
    case Probe(i, _) => At(w, i, (pc: Pc) => pc.Primary? || pc.Secondary?)
    case TakeWriteLock(i) => At(w, i, (pc: Pc) => pc.Storing?) && w.writeLock.None?
    case Create(i, temporary) => At(w, i, (pc: Pc) => pc.Opening?) && temporary !in w.temporaries
    case Append(i, upTo) =>
      && At(w, i, (pc: Pc) => pc.Writing? && pc.written <= upTo)
      && upTo <= |Bytes(codec, w.loaders[i], w.loaders[i].pc.found)|
    case Rename(i) =>
      && At(w, i, (pc: Pc) => pc.Writing? && pc.temporary in w.temporaries)
      && w.loaders[i].pc.written == |Bytes(codec, w.loaders[i], w.loaders[i].pc.found)|
    case FailWrite(i) => At(w, i, (pc: Pc) => pc.Storing? || pc.Opening? || pc.Writing?)
    case Return(i) => At(w, i, (pc: Pc) => pc.Renamed?)
  }

  function Goes(w: World, i: nat, pc: Pc): World
    requires i < |w.loaders|
  {
    w.(loaders := w.loaders[i := w.loaders[i].(pc := pc)])
  }

  /** The operating system releases what a loader held when it returns or dies. */
  function Leaves(w: World, i: nat, pc: Pc): World
    requires i < |w.loaders|
  {
    World(
      w.file,
      if w.refreshLock == Some(i) then None else w.refreshLock,
      if w.writeLock == Some(i) then None else w.writeLock,
      w.temporaries, w.clock,
      w.loaders[i := w.loaders[i].(pc := pc)])
  }

  /** A child process of this loader has run. */
  function Counted(w: World, i: nat): World
    requires i < |w.loaders|
  {
    w.(loaders := w.loaders[i := w.loaders[i].(probes := w.loaders[i].probes + 1)])
  }

  function AfterRead(codec: Codec, w: World, i: nat): World
    requires i < |w.loaders|
  {
    var loader := w.loaders[i];
    var cached := Usable(ReadCache(codec, w.file, loader.request, w.clock));
    var isCurrent := !loader.request.refresh && !loader.request.bundledOnly && cached.Some? && !cached.value.stale;
    var pc := if isCurrent then Done(Loaded(cached.value)) else Waiting;
    w.(loaders := w.loaders[i := loader.(first := cached, pc := pc)])
  }

  function AfterReload(codec: Codec, w: World, i: nat): World
    requires i < |w.loaders|
  {
    var loader := w.loaders[i];
    var reloaded := Usable(ReadCache(codec, w.file, loader.request, w.clock));
    if !loader.request.bundledOnly && reloaded.Some? && RefreshedMeanwhile(loader, reloaded.value)
    then Leaves(w, i, Done(Loaded(reloaded.value)))
    else Goes(w, i, Versioning)
  }

  /** A live catalog that fails is replaced by the bundled one; a failed or empty last resort ends the refresh. */
  function AfterProbe(w: World, i: nat, models: Option<seq<C.Model>>): World
    requires At(w, i, (pc: Pc) => pc.Primary? || pc.Secondary?)
  {
    var loader := w.loaders[i];
    var bundled := loader.pc.Secondary? || loader.request.bundledOnly;
    var counted := Counted(w, i);
    if models.Some? && models.value != [] then
      Goes(counted, i, Storing(ModelCatalog(
        models.value, if bundled then Bundled else DebugModels, false, w.clock, None, loader.pc.version,
        if loader.pc.Secondary? then LiveFailed else NoNotice)))
    else if bundled then Leaves(counted, i, Done(StaleOrFallback(loader, w.clock, DiscoveryFailed)))
    else Goes(counted, i, Secondary(loader.pc.version))
  }

  function Next(codec: Codec, w: World, s: Step): World
    requires Enabled(codec, w, s)
  {
    match s
    case Arrive(request) => w.(loaders := w.loaders + [Loader(request, Reading, None, 0, false)])
    case SetClock(now) => w.(clock := now)
    case Crash(i) => Leaves(w, i, Crashed)
    case Read(i) => AfterRead(codec, w, i)
    case TakeLock(i) => Goes(w, i, Reloading).(refreshLock := Some(i))
    case GiveUpLock(i) => Goes(w, i, Done(StaleOrFallback(w.loaders[i], w.clock, BusyRefreshing)))
    case BreakLock(i) =>
      Goes(w, i, Done(match w.loaders[i].first
        case Some(c) => Loaded(c.(stale := true, notice := LockBroken))
        case None => Failed))
    case Reload(i) => AfterReload(codec, w, i)
    case Version(i, probed, version) =>
      var counted := if probed then Counted(w, i) else w;
      (match version
       case Some(v) => Goes(counted, i, Primary(v))
       case None => Leaves(counted, i, Done(StaleOrFallback(w.loaders[i], w.clock, VersionFailed))))
    case Probe(i, models) => AfterProbe(w, i, models)
    case TakeWriteLock(i) => Goes(w, i, Opening(w.loaders[i].pc.found)).(writeLock := Some(i))
    case Create(i, temporary) =>
      Goes(w, i, Writing(w.loaders[i].pc.found, temporary, 0)).(temporaries := w.temporaries[temporary := []])
    case Append(i, upTo) =>
      var pc := w.loaders[i].pc;
      Goes(w, i, Writing(pc.found, pc.temporary, upTo))
        .(temporaries := w.temporaries[pc.temporary := Bytes(codec, w.loaders[i], pc.found)[..upTo]])
    case Rename(i) =>
      var pc := w.loaders[i].pc;
      w.(file := Some(w.temporaries[pc.temporary]), temporaries := w.temporaries - {pc.temporary},
         loaders := w.loaders[i := w.loaders[i].(pc := Renamed(pc.found), wrote := true)])
    case FailWrite(i) =>
      var pc := w.loaders[i].pc;
      Leaves(w, i, Done(Loaded(pc.found.(notice := WriteFailed))))
        .(temporaries := if pc.Writing? then w.temporaries - {pc.temporary} else w.temporaries)
    case Return(i) => Leaves(w, i, Done(Loaded(w.loaders[i].pc.found)))
  }

  predicate IsRun(codec: Codec, w: World, steps: seq<Step>)
    decreases |steps|
  {
    steps == [] || (Enabled(codec, w, steps[0]) && IsRun(codec, Next(codec, w, steps[0]), steps[1..]))
  }

  function After(codec: Codec, w: World, steps: seq<Step>): World
    requires IsRun(codec, w, steps)
    decreases |steps|
  {
    if steps == [] then w else After(codec, Next(codec, w, steps[0]), steps[1..])
  }
}
