/**
 * Watching the configured image sources: planning one watch per resolved
 * source at setup, and keeping every output's image queue in step with the
 * create and remove events that arrive for its source.
 */
module ImgSource {
  import opened Wrappers
  import opened Paths
  import opened BgConfig
  import opened ImageQueue

  // ---------------------------------------------------------------------------
  // The event handler
  // ---------------------------------------------------------------------------

  /** The kinds of filesystem event; the handler ignores each kind's detail. */
  datatype EventKind = Any | Access | Create | Modify | Remove | Other

  /** One filesystem event and the paths it concerns, in the order reported. */
  datatype Event = Event(kind: EventKind, paths: seq<PathBuf>)

  /** The part of an output's runtime record the handler reads and writes. */
  datatype Wallpaper = Wallpaper(source: CosmicBgImgSource, imageQueue: seq<PathBuf>)

  /**
   * An output's image queue after an event for its source: for a Create the
   * insertion loop followed by the retain, which comes to the same queue as
   * a Remove of the event's paths; for other kinds, the queue as it was.
   */
  function QueueAfter(q: seq<PathBuf>, ev: Event): (r: seq<PathBuf>)
    ensures ev.kind.Create? || ev.kind.Remove? ==> r == Retain(q, ev.paths) && |r| <= |q|
    ensures !ev.kind.Create? && !ev.kind.Remove? ==> r == q
  {
    RetainAfterPushFront(q, ev.paths, ev.paths);
    match ev.kind
    case Create => Retain(PushFrontMissing(q, ev.paths), ev.paths)
    case Remove => Retain(q, ev.paths)
    case _ => q
  }

  /** A record after an event tagged with `source`: only a matching record changes. */
  function WallpaperAfter(w: Wallpaper, source: CosmicBgImgSource, ev: Event): (r: Wallpaper)
    ensures r.source == w.source
    ensures w.source != source ==> r == w
    ensures w.source == source ==> r.imageQueue == QueueAfter(w.imageQueue, ev)
  {
    if ImgSourceEq(w.source, source) then w.(imageQueue := QueueAfter(w.imageQueue, ev)) else w
  }

  /**
   * All records after an event tagged with `source`. The list keeps its
   * length, order and sources; records of other sources are untouched.
   */
  function Handled(ws: seq<Wallpaper>, source: CosmicBgImgSource, ev: Event): (r: seq<Wallpaper>)
    ensures |r| == |ws|
    ensures forall k :: 0 <= k < |ws| ==> r[k].source == ws[k].source
    ensures forall k :: 0 <= k < |ws| && ws[k].source != source ==> r[k] == ws[k]
    ensures forall k :: 0 <= k < |ws| && ws[k].source == source ==>
      r[k].imageQueue == QueueAfter(ws[k].imageQueue, ev)
  {
    seq(|ws|, k requires 0 <= k < |ws| => WallpaperAfter(ws[k], source, ev))
  }

  /**
   * The handler registered for each source's channel, for a message carrying
   * `ev` tagged with `source`. For a Create event each matching record's
   * queue gets every new path pushed to its front, after which every path of
   * the event is retained out again; a Remove event retains the event's paths
   * out; other kinds change nothing.
   */
  method HandleEvent(wallpapers: array<Wallpaper>, source: CosmicBgImgSource, ev: Event)
    modifies wallpapers
    ensures wallpapers[..] == Handled(old(wallpapers[..]), source, ev)
  {
    match ev.kind {
      case Create =>
        for i := 0 to wallpapers.Length
          invariant forall k :: 0 <= k < i ==> wallpapers[k] == WallpaperAfter(old(wallpapers[k]), source, ev)
          invariant forall k :: i <= k < wallpapers.Length ==> wallpapers[k] == old(wallpapers[k])
        {
          if ImgSourceEq(wallpapers[i].source, source) {
            ghost var original := wallpapers[i].imageQueue;
            for j := 0 to |ev.paths|
              invariant wallpapers[i] == old(wallpapers[i]).(imageQueue := wallpapers[i].imageQueue)
              invariant PushFrontMissing(wallpapers[i].imageQueue, ev.paths[j..]) == PushFrontMissing(original, ev.paths)
              invariant forall k :: 0 <= k < i ==> wallpapers[k] == WallpaperAfter(old(wallpapers[k]), source, ev)
              invariant forall k :: i < k < wallpapers.Length ==> wallpapers[k] == old(wallpapers[k])
            {
              var p := ev.paths[j];
              assert ev.paths[j..][1..] == ev.paths[j + 1..];
              if p !in wallpapers[i].imageQueue {
                wallpapers[i] := wallpapers[i].(imageQueue := [p] + wallpapers[i].imageQueue);
              }
            }
            assert ev.paths[|ev.paths|..] == [];
            assert wallpapers[i].imageQueue == PushFrontMissing(old(wallpapers[i]).imageQueue, ev.paths);
            wallpapers[i] := wallpapers[i].(imageQueue := Retain(wallpapers[i].imageQueue, ev.paths));
          }
        }
      case Remove =>
        for i := 0 to wallpapers.Length
          invariant forall k :: 0 <= k < i ==> wallpapers[k] == WallpaperAfter(old(wallpapers[k]), source, ev)
          invariant forall k :: i <= k < wallpapers.Length ==> wallpapers[k] == old(wallpapers[k])
        {
          if ImgSourceEq(wallpapers[i].source, source) {
            wallpapers[i] := wallpapers[i].(imageQueue := Retain(wallpapers[i].imageQueue, ev.paths));
          }
        }
      case _ =>
    }
  }

  /** A Create event leaves every queue exactly as a Remove of the same paths would. */
  lemma CreateSameAsRemove(ws: seq<Wallpaper>, source: CosmicBgImgSource, paths: seq<PathBuf>)
    ensures Handled(ws, source, Event(Create, paths)) == Handled(ws, source, Event(Remove, paths))
  {
    var created := Handled(ws, source, Event(Create, paths));
    var removed := Handled(ws, source, Event(Remove, paths));
    forall k | 0 <= k < |ws| ensures created[k] == removed[k] {
      if ws[k].source == source {
        RetainAfterPushFront(ws[k].imageQueue, paths, paths);
        assert created[k].imageQueue == removed[k].imageQueue;
      }
    }
  }

  /**
   * After a Create or Remove event a matching queue holds exactly its old
   * entries that the event does not name, each as often as before, in their
   * old order.
   */
  lemma {:induction false} NamedPathsRemoved(ws: seq<Wallpaper>, source: CosmicBgImgSource, ev: Event, k: nat)
    requires ev.kind.Create? || ev.kind.Remove?
    requires k < |ws| && ws[k].source == source
    ensures Handled(ws, source, ev)[k].imageQueue == Retain(ws[k].imageQueue, ev.paths)
    ensures forall x :: x in ev.paths ==> multiset(Handled(ws, source, ev)[k].imageQueue)[x] == 0
    ensures forall x :: x !in ev.paths ==>
      multiset(Handled(ws, source, ev)[k].imageQueue)[x] == multiset(ws[k].imageQueue)[x]
  {
    var q := ws[k].imageQueue;
    if ev.kind.Create? {
      RetainAfterPushFront(q, ev.paths, ev.paths);
    }
    forall x {
      RetainCount(q, ev.paths, x);
    }
  }

  /** No event makes any queue longer. */
  lemma HandledNeverGrows(ws: seq<Wallpaper>, source: CosmicBgImgSource, ev: Event)
    ensures forall k :: 0 <= k < |ws| ==>
      |Handled(ws, source, ev)[k].imageQueue| <= |ws[k].imageQueue|
  {
    forall k | 0 <= k < |ws|
      ensures |Handled(ws, source, ev)[k].imageQueue| <= |ws[k].imageQueue|
    {
      if ws[k].source == source && (ev.kind.Create? || ev.kind.Remove?) {
        if ev.kind.Create? {
          RetainAfterPushFront(ws[k].imageQueue, ev.paths, ev.paths);
        }
        RetainMembers(ws[k].imageQueue, ev.paths);
      }
    }
  }

  /** Delivering the same event twice leaves the records as delivering it once. */
  lemma HandledIdempotent(ws: seq<Wallpaper>, source: CosmicBgImgSource, ev: Event)
    ensures Handled(Handled(ws, source, ev), source, ev) == Handled(ws, source, ev)
  {
    var once := Handled(ws, source, ev);
    var twice := Handled(once, source, ev);
    forall k | 0 <= k < |ws| ensures twice[k] == once[k] {
      if ws[k].source == source && (ev.kind.Create? || ev.kind.Remove?) {
        var q := ws[k].imageQueue;
        if ev.kind.Create? {
          RetainAfterPushFront(q, ev.paths, ev.paths);
          RetainAfterPushFront(Retain(q, ev.paths), ev.paths, ev.paths);
        }
        RetainIdempotent(q, ev.paths);
      }
    }
  }

  /** Rename, modify, access and the other kinds leave the whole state as it was. */
  lemma OtherKindsChangeNothing(ws: seq<Wallpaper>, source: CosmicBgImgSource, ev: Event)
    requires !ev.kind.Create? && !ev.kind.Remove?
    ensures Handled(ws, source, ev) == ws
  {
  }

  /**
   * A Create event for paths [a, b] on an empty queue: the insertion loop
   * builds [b, a], and the retain that follows empties the queue again.
   */
  lemma CreateOnEmptyQueue(a: PathBuf, b: PathBuf)
    requires a != b
    ensures PushFrontMissing([], [a, b]) == [b, a]
    ensures Handled([Wallpaper(Wallpapers, [])], Wallpapers, Event(Create, [a, b])) ==
      [Wallpaper(Wallpapers, [])]
  {
    PushFrontMissingFresh([], [a, b]);
    assert [a, b][1..] == [b];
    var created := Handled([Wallpaper(Wallpapers, [])], Wallpapers, Event(Create, [a, b]));
    RetainAfterPushFront([], [a, b], [a, b]);
    assert created[0].imageQueue == [];
  }

  // ---------------------------------------------------------------------------
  // Setting up the watches
  // ---------------------------------------------------------------------------

  /** What fs::metadata reports for a path, symbolic links followed. */
  datatype FileKind = Directory | RegularFile | OtherKind | MetadataError

  /** How a resolved path is watched. */
  datatype WatchMode = Recursive | NonRecursive | Unwatched

  /**
   * One pass of the setup loop: a watcher whose events are tagged with `tag`,
   * watching `path` as `mode` says, and its channel inserted into the event
   * loop with HandleEvent as the handler.
   */
  datatype Registration = Registration(tag: CosmicBgImgSource, path: PathBuf, mode: WatchMode)

  /** The two ways setup fails: "Nothing to watch" and "Failed to create the watcher". */
  datatype SetupError = NothingToWatch | WatcherCreationFailed

  /**
   * The sources' paths, in order, skipping every source that does not resolve
   * (`resolve` stands for the conversion of a source into a PathBuf).
   */
  function ResolvedPaths(bgSources: seq<CosmicBgImgSource>, resolve: CosmicBgImgSource -> Option<PathBuf>): (r: seq<PathBuf>)
    ensures |r| <= |bgSources|
    ensures r == [] <==> forall k :: 0 <= k < |bgSources| ==> resolve(bgSources[k]).None?
    ensures (forall k :: 0 <= k < |bgSources| ==> resolve(bgSources[k]).Some?) ==> |r| == |bgSources|
  {
    if bgSources == [] then []
    else
      (match resolve(bgSources[0]) case Some(p) => [p] case None => []) + ResolvedPaths(bgSources[1..], resolve)
  }

  /**
   * The positions, from `from` on and in increasing order, of the sources
   * that resolve.
   */
  function ResolvingIndices(bgSources: seq<CosmicBgImgSource>, resolve: CosmicBgImgSource -> Option<PathBuf>,
                            from: nat): (ix: seq<nat>)
    requires from <= |bgSources|
    ensures |ix| <= |bgSources| - from
    decreases |bgSources| - from
  {
    if from == |bgSources| then []
    else (if resolve(bgSources[from]).Some? then [from] else []) + ResolvingIndices(bgSources, resolve, from + 1)
  }

  /** Every resolving index lies from `from` on and names a source that resolves. */
  lemma {:induction false} ResolvingIndicesResolve(bgSources: seq<CosmicBgImgSource>,
                                                   resolve: CosmicBgImgSource -> Option<PathBuf>, from: nat)
    requires from <= |bgSources|
    ensures forall i :: 0 <= i < |ResolvingIndices(bgSources, resolve, from)| ==>
      && from <= ResolvingIndices(bgSources, resolve, from)[i] < |bgSources|
      && resolve(bgSources[ResolvingIndices(bgSources, resolve, from)[i]]).Some?
    decreases |bgSources| - from
  {
    if from < |bgSources| {
      ResolvingIndicesResolve(bgSources, resolve, from + 1);
      var restIx := ResolvingIndices(bgSources, resolve, from + 1);
      var ix := ResolvingIndices(bgSources, resolve, from);
      if resolve(bgSources[from]).Some? {
        assert ix == [from] + restIx;
        forall i | 0 < i < |ix|
          ensures from <= ix[i] < |bgSources| && resolve(bgSources[ix[i]]).Some?
        {
          assert ix[i] == restIx[i - 1];
        }
      } else {
        assert ix == restIx;
      }
    }
  }

  predicate StrictlyIncreasing(ix: seq<nat>) {
    forall i, j :: 0 <= i < j < |ix| ==> ix[i] < ix[j]
  }

  /** Putting an index below all others in front of an increasing sequence keeps it increasing. */
  lemma IncreasingCons(first: nat, rest: seq<nat>)
    requires forall j :: 0 <= j < |rest| ==> first < rest[j]
    requires StrictlyIncreasing(rest)
    ensures StrictlyIncreasing([first] + rest)
  {
    var ix := [first] + rest;
    forall i, j | 0 <= i < j < |ix| ensures ix[i] < ix[j] {
      assert ix[j] == rest[j - 1];
      if i > 0 {
        assert ix[i] == rest[i - 1];
      }
    }
  }

  /** The resolving indices are strictly increasing: source order, each source once. */
  lemma {:induction false} ResolvingIndicesIncreasing(bgSources: seq<CosmicBgImgSource>,
                                                      resolve: CosmicBgImgSource -> Option<PathBuf>, from: nat)
    requires from <= |bgSources|
    ensures StrictlyIncreasing(ResolvingIndices(bgSources, resolve, from))
    decreases |bgSources| - from
  {
    if from < |bgSources| {
      ResolvingIndicesIncreasing(bgSources, resolve, from + 1);
      if resolve(bgSources[from]).Some? {
        ResolvingIndicesResolve(bgSources, resolve, from + 1);
        IncreasingCons(from, ResolvingIndices(bgSources, resolve, from + 1));
      }
    }
  }

  /** Every source from `from` on that resolves has its index among the resolving indices. */
  lemma {:induction false} ResolvingIndicesComplete(bgSources: seq<CosmicBgImgSource>,
                                                    resolve: CosmicBgImgSource -> Option<PathBuf>, from: nat)
    requires from <= |bgSources|
    ensures forall k :: from <= k < |bgSources| && resolve(bgSources[k]).Some? ==>
      k in ResolvingIndices(bgSources, resolve, from)
    decreases |bgSources| - from
  {
    if from < |bgSources| {
      ResolvingIndicesComplete(bgSources, resolve, from + 1);
      var restIx := ResolvingIndices(bgSources, resolve, from + 1);
      var ix := ResolvingIndices(bgSources, resolve, from);
      if resolve(bgSources[from]).Some? {
        assert ix == [from] + restIx;
      } else {
        assert ix == restIx;
      }
    }
  }

  /**
   * The filter-map keeps one path per resolving source, in source order:
   * path i is the path of the i-th source that resolves.
   */
  lemma {:induction false} ResolvedPathsInSourceOrder(bgSources: seq<CosmicBgImgSource>,
                                                      resolve: CosmicBgImgSource -> Option<PathBuf>)
    ensures |ResolvedPaths(bgSources, resolve)| == |ResolvingIndices(bgSources, resolve, 0)|
    ensures forall i :: 0 <= i < |ResolvingIndices(bgSources, resolve, 0)| ==>
      && ResolvingIndices(bgSources, resolve, 0)[i] < |bgSources|
      && resolve(bgSources[ResolvingIndices(bgSources, resolve, 0)[i]]).Some?
      && ResolvedPaths(bgSources, resolve)[i] == resolve(bgSources[ResolvingIndices(bgSources, resolve, 0)[i]]).value
  {
    ResolvedSuffixInSourceOrder(bgSources, resolve, 0);
    assert bgSources[0..] == bgSources;
  }

  lemma {:induction false} ResolvedSuffixInSourceOrder(bgSources: seq<CosmicBgImgSource>,
                                                       resolve: CosmicBgImgSource -> Option<PathBuf>, from: nat)
    requires from <= |bgSources|
    ensures |ResolvedPaths(bgSources[from..], resolve)| == |ResolvingIndices(bgSources, resolve, from)|
    ensures forall i :: 0 <= i < |ResolvingIndices(bgSources, resolve, from)| ==>
      && ResolvingIndices(bgSources, resolve, from)[i] < |bgSources|
      && resolve(bgSources[ResolvingIndices(bgSources, resolve, from)[i]]).Some?
      && ResolvedPaths(bgSources[from..], resolve)[i] == resolve(bgSources[ResolvingIndices(bgSources, resolve, from)[i]]).value
    decreases |bgSources| - from
  {
    if from < |bgSources| {
      ResolvedSuffixInSourceOrder(bgSources, resolve, from + 1);
      var tail := bgSources[from..];
      assert tail[0] == bgSources[from] && tail[1..] == bgSources[from + 1..];
      var rest := ResolvedPaths(bgSources[from + 1..], resolve);
      var restIx := ResolvingIndices(bgSources, resolve, from + 1);
      if resolve(bgSources[from]).Some? {
        var p := resolve(bgSources[from]).value;
        assert ResolvedPaths(tail, resolve) == [p] + rest;
        assert ResolvingIndices(bgSources, resolve, from) == [from] + restIx;
      } else {
        assert ResolvedPaths(tail, resolve) == rest;
        assert ResolvingIndices(bgSources, resolve, from) == restIx;
      }
    }
  }

  /** A directory is watched recursively, a regular file on its own; anything else is not watched. */
  function WatchModeFor(kind: FileKind): (m: WatchMode)
    ensures m == Recursive <==> kind == Directory
    ensures m == NonRecursive <==> kind == RegularFile
    ensures m == Unwatched <==> kind == OtherKind || kind == MetadataError
  {
    match kind
    case Directory => Recursive
    case RegularFile => NonRecursive
    case _ => Unwatched
  }

  /**
   * What the setup loop registers when nothing fails: the sources zipped with
   * the resolved paths by position (the zip stops at the shorter list), each
   * pair with the watch mode its path's metadata calls for.
   */
  function Plan(bgSources: seq<CosmicBgImgSource>, resolve: CosmicBgImgSource -> Option<PathBuf>,
                meta: PathBuf -> FileKind): (plan: seq<Registration>)
    ensures |plan| == |ResolvedPaths(bgSources, resolve)|
    ensures forall i :: 0 <= i < |plan| ==>
      plan[i].tag == bgSources[i] && plan[i].path == ResolvedPaths(bgSources, resolve)[i]
    ensures forall i :: 0 <= i < |plan| ==>
      && (plan[i].mode == Recursive <==> meta(plan[i].path) == Directory)
      && (plan[i].mode == NonRecursive <==> meta(plan[i].path) == RegularFile)
  {
    var paths := ResolvedPaths(bgSources, resolve);
    var n := if |bgSources| < |paths| then |bgSources| else |paths|;
    seq(n, i requires 0 <= i < n => Registration(bgSources[i], paths[i], WatchModeFor(meta(paths[i]))))
  }

  /**
   * The first pass, from `from` on, whose watcher cannot be created, or `n`
   * when every pass below `n` gets one (`watcherOk(i)` says whether the
   * watcher of pass i is created).
   */
  function FirstFailure(watcherOk: nat -> bool, from: nat, n: nat): (k: nat)
    requires from <= n
    ensures from <= k <= n
    ensures forall j :: from <= j < k ==> watcherOk(j)
    ensures k < n ==> !watcherOk(k)
    decreases n - from
  {
    if from == n then n
    else if !watcherOk(from) then from
    else FirstFailure(watcherOk, from + 1, n)
  }

  /** The verdict of setup; the paths' metadata plays no part in it. */
  function SetupOutcome(bgSources: seq<CosmicBgImgSource>, resolve: CosmicBgImgSource -> Option<PathBuf>,
                        watcherOk: nat -> bool): (r: Result<(), SetupError>)
    ensures r == Failure(NothingToWatch) <==>
      forall k :: 0 <= k < |bgSources| ==> resolve(bgSources[k]).None?
    ensures r.Success? ==>
      forall j :: 0 <= j < |ResolvedPaths(bgSources, resolve)| ==> watcherOk(j)
    ensures r == Failure(WatcherCreationFailed) ==>
      exists j :: 0 <= j < |ResolvedPaths(bgSources, resolve)| && !watcherOk(j)
  {
    var paths := ResolvedPaths(bgSources, resolve);
    if paths == [] then Failure(NothingToWatch)
    else if FirstFailure(watcherOk, 0, |paths|) < |paths| then Failure(WatcherCreationFailed)
    else Success(())
  }

  /**
   * img_source: resolves the sources, refuses an empty result, then for each
   * (source, path) pair creates a watcher (stopping with an error at the
   * first that cannot be created), watches the path as its metadata calls
   * for, and registers the channel. `registered` lists the registrations made,
   * which stay in the event loop when a later pass fails.
   */
  method SetupWatches(bgSources: seq<CosmicBgImgSource>, resolve: CosmicBgImgSource -> Option<PathBuf>,
                      meta: PathBuf -> FileKind, watcherOk: nat -> bool)
    returns (result: Result<(), SetupError>, registered: seq<Registration>)
    ensures result == SetupOutcome(bgSources, resolve, watcherOk)
    ensures var plan := Plan(bgSources, resolve, meta);
      registered == plan[..FirstFailure(watcherOk, 0, |plan|)]
  {
    var sources := ResolvedPaths(bgSources, resolve);
    if sources == [] {
      return Failure(NothingToWatch), [];
    }
    registered := [];
    var n := if |bgSources| < |sources| then |bgSources| else |sources|;
    for i := 0 to n
      invariant registered == Plan(bgSources, resolve, meta)[..i]
      invariant forall j :: 0 <= j < i ==> watcherOk(j)
    {
      if !watcherOk(i) {
        return Failure(WatcherCreationFailed), registered;
      }
      var mode := WatchModeFor(meta(sources[i]));
      registered := registered + [Registration(bgSources[i], sources[i], mode)];
    }
    return Success(()), registered;
  }

  /**
   * Setup fails with "Nothing to watch" exactly when there is nothing to
   * register, and then no watcher is attempted: which watchers could be
   * created makes no difference to that verdict.
   */
  lemma NothingToWatchIff(bgSources: seq<CosmicBgImgSource>, resolve: CosmicBgImgSource -> Option<PathBuf>,
                          meta: PathBuf -> FileKind, watcherOk: nat -> bool, otherOk: nat -> bool)
    ensures SetupOutcome(bgSources, resolve, watcherOk) == Failure(NothingToWatch) <==>
      Plan(bgSources, resolve, meta) == []
    ensures SetupOutcome(bgSources, resolve, watcherOk) == Failure(NothingToWatch) <==>
      SetupOutcome(bgSources, resolve, otherOk) == Failure(NothingToWatch)
  {
  }

  /**
   * Setup succeeds exactly when some source resolves and every pass gets its
   * watcher, and then registers one watch per resolved path; it fails with
   * "Failed to create the watcher" exactly when some pass does not.
   */
  lemma SetupOutcomeByPass(bgSources: seq<CosmicBgImgSource>, resolve: CosmicBgImgSource -> Option<PathBuf>,
                           meta: PathBuf -> FileKind, watcherOk: nat -> bool)
    ensures var plan := Plan(bgSources, resolve, meta);
      var k := FirstFailure(watcherOk, 0, |plan|);
      && (SetupOutcome(bgSources, resolve, watcherOk).Success? <==>
            plan != [] && forall j :: 0 <= j < |plan| ==> watcherOk(j))
      && (SetupOutcome(bgSources, resolve, watcherOk) == Failure(WatcherCreationFailed) <==> k < |plan|)
      && (SetupOutcome(bgSources, resolve, watcherOk).Success? ==> plan[..k] == plan)
  {
  }

  /** When every source resolves, each registration watches its own source's path. */
  lemma PlanAlignedWhenAllResolve(bgSources: seq<CosmicBgImgSource>,
                                      resolve: CosmicBgImgSource -> Option<PathBuf>,
                                      meta: PathBuf -> FileKind)
    requires forall k :: 0 <= k < |bgSources| ==> resolve(bgSources[k]).Some?
    ensures var plan := Plan(bgSources, resolve, meta);
      |plan| == |bgSources| &&
      forall i :: 0 <= i < |plan| ==> plan[i].path == resolve(plan[i].tag).value
  {
    ResolvedPathsAllResolve(bgSources, resolve);
  }

  lemma {:induction false} ResolvedPathsAllResolve(bgSources: seq<CosmicBgImgSource>,
                                                   resolve: CosmicBgImgSource -> Option<PathBuf>)
    requires forall k :: 0 <= k < |bgSources| ==> resolve(bgSources[k]).Some?
    ensures var paths := ResolvedPaths(bgSources, resolve);
      |paths| == |bgSources| &&
      forall i :: 0 <= i < |paths| ==> paths[i] == resolve(bgSources[i]).value
  {
    if bgSources != [] {
      assert resolve(bgSources[0]).Some?;
      ResolvedPathsAllResolve(bgSources[1..], resolve);
    }
  }

  /**
   * When the first source does not resolve and the second does, the first
   * registration carries the first source's tag but watches the second
   * source's path: the zip pairs by position, not by origin.
   */
  lemma PlanMisaligned(bgSources: seq<CosmicBgImgSource>, resolve: CosmicBgImgSource -> Option<PathBuf>,
                       meta: PathBuf -> FileKind)
    requires |bgSources| >= 2
    requires resolve(bgSources[0]).None? && resolve(bgSources[1]).Some?
    ensures var plan := Plan(bgSources, resolve, meta);
      |plan| >= 1 && plan[0].tag == bgSources[0] && plan[0].path == resolve(bgSources[1]).value
  {
    assert ResolvedPaths(bgSources, resolve) == ResolvedPaths(bgSources[1..], resolve);
    assert bgSources[1..][0] == bgSources[1];
  }
}
