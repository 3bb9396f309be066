# cosmic-bg: image sources and queue synchronisation, in Dafny

This project models the core of cosmic-bg, the COSMIC desktop's background
service, and proves properties of the model. The core has two parts.

- **The background configuration** (`bg_config.dfy`, module `BgConfig`).
  It defines the entry record and its enums (`CosmicBgOutput`,
  `CosmicBgImgSource`, `FilterMethod`, `SamplingMethod`, `ScalingMode`) and
  the defaults of the last three. It also models `CosmicBgEntry::source_path`,
  which resolves an entry's image source to a path. The `XDG_PICTURES_DIR`
  variable and the user-directories lookup of the pictures folder are inputs.
  Paths are the text a `PathBuf` holds, and `Paths.Push` follows Unix
  `PathBuf::push`.
- **Watching the image sources** (`img_source.dfy`, module `ImgSource`, with
  the queue operations in `image_queue.dfy`, module `ImageQueue`).
  - `SetupWatches` is the setup loop of `img_source`. It resolves the sources,
    fails with "Nothing to watch" when none resolves, and zips sources with
    paths by position. It chooses the watch mode from the path's metadata and
    stops at the first watcher that cannot be created. The source-to-path
    conversion, `fs::metadata` and watcher creation are function inputs.
  - `HandleEvent` is the channel handler. It updates, in place, the image
    queue of every runtime record whose source equals the event's source.
    The records are an array of `(source, image_queue)` values.

The model follows the code as written, including behaviours that look
unintended:

- A Create event pushes each new path to the front of the queue, and the
  `retain` that follows removes every path the event names. So a Create
  leaves exactly the queue a Remove of the same paths leaves, and no created
  path stays queued (`CreateSameAsRemove`, `CreateOnEmptyQueue`).
- The setup loop zips the full source list with the list of paths that
  resolved. When an earlier source does not resolve, later paths are watched
  under the wrong source's tag (`PlanMisaligned`). Setup aborts at the first
  watcher it cannot create. Passes that already ran keep their registrations.
  Metadata errors and unusual file kinds only leave a path unwatched.
- `PathBuf::from_str` cannot fail, so a `Path(p)` source always resolves to
  `p`. The default `/usr/share/backgrounds/pop/` is reached only from a
  `Wallpapers` source that finds no pictures directory.

## Model

| member | source | states |
|---|---|---|
| `BgConfig.ImgSourceEq` | cosmic-bg-config/src/lib.rs:19-26 | The derived equality of image sources is structural equality: `Wallpapers` never equals `Path(_)`, and `Path(a)` equals `Path(b)` exactly when `a == b`. |
| `BgConfig.EntryFromDocument` | cosmic-bg-config/src/lib.rs:28-82 | An entry is built exactly when output, source, filter_by_theme and rotation_frequency are all given. If one is missing, the first missing field is reported. Given fields are kept. An omitted filter method, scaling mode or sampling method becomes `Lanczos`, `Zoom` or `Alphanumeric`. |
| `Paths.Push` | cosmic-bg-config/src/lib.rs:92-95 | An absolute component replaces the path. Otherwise the result is the base followed by the component, with exactly one separator between them when the base is non-empty and does not already end with one, and none otherwise. |
| `BgConfig.PicturesDir` | cosmic-bg-config/src/lib.rs:91 | A failing pictures-directory lookup counts as "no directory". A successful lookup gives its answer. |
| `BgConfig.SourcePath` | cosmic-bg-config/src/lib.rs:84-99 | `Path(p)` yields `p`. For `Wallpapers`, a set variable `s` yields `s` with "Wallpapers" pushed. Otherwise a pictures directory `d` yields `d/Wallpapers`. With neither, the result is `/usr/share/backgrounds/pop/`. The function is total. |
| `BgConfig.PushedWallpapersIsNotDefault` | cosmic-bg-config/src/lib.rs:92-98 | A directory with "Wallpapers" pushed onto it never equals the default path. |
| `BgConfig.FallbackOnlyWithoutPicturesDir` | cosmic-bg-config/src/lib.rs:85-99 | The default path is returned exactly when a `Wallpapers` source has neither the variable nor a pictures directory, or when the source is `Path` of the default path itself. |
| `BgConfig.EnvOverridesPictures` | cosmic-bg-config/src/lib.rs:88-91 | Once `XDG_PICTURES_DIR` is set, the user-directories lookup does not affect the result. A `Wallpapers` source then never falls back to the default. |
| `BgConfig.LookupErrorIsAbsence` | cosmic-bg-config/src/lib.rs:91 | A failing user-directories lookup resolves like a lookup that finds no directory. |
| `BgConfig.PathSourceIgnoresEnvironment` | cosmic-bg-config/src/lib.rs:96 | A `Path(p)` source resolves to `p` whatever the variable and the lookup say. |
| `ImageQueue.Retain` | src/img_source.rs:62 | The queue's `retain` that drops the event's paths never lengthens the queue, and an event without paths leaves the queue unchanged. What it keeps and in which order are stated by the lemmas below. |
| `ImageQueue.PushFrontMissing` | src/img_source.rs:57-61 | The insertion loop never shortens the queue and adds at most one entry per path of the event. That it removes nothing and keeps the old queue at the back is stated by `PushFrontMissingSuffix`, and which entries it adds by `PushFrontMissingMembers`. |
| `ImageQueue.RetainMembers` | src/img_source.rs:67 | The retain keeps exactly the queued paths the event does not name. It never lengthens the queue. |
| `ImageQueue.RetainConcat` | src/img_source.rs:67 | The retain keeps relative order: retaining from `a + b` gives the retained part of `a` followed by that of `b`. |
| `ImageQueue.RetainCount` | src/img_source.rs:67 | A named path has no copies left. Every other path keeps its number of copies. |
| `ImageQueue.RetainIdempotent` | src/img_source.rs:67 | Retaining the same paths out twice equals doing it once. |
| `ImageQueue.RetainNothingNamed` | src/img_source.rs:67 | A queue that holds none of the named paths is left as it is. |
| `ImageQueue.PushFrontMissingMembers` | src/img_source.rs:57-61 | After the insertion loop the queue holds every path of the event and its old entries, and nothing else. |
| `ImageQueue.PushFrontMissingSuffix` | src/img_source.rs:57-61 | The insertion loop only pushes to the front. The old queue is the back part of the result, and at most one entry is added per path of the event. |
| `ImageQueue.PushFrontMissingCount` | src/img_source.rs:57-61 | A path already queued keeps its number of copies. A new path appears exactly once, however often the event repeats it. |
| `ImageQueue.PushFrontMissingNoDuplicates` | src/img_source.rs:57-61 | A queue without duplicates gets none from the insertion loop. |
| `ImageQueue.PushFrontMissingFresh` | src/img_source.rs:57-61 | With distinct paths that are not yet queued, the loop puts them before the old queue in reverse event order, so the last path ends up at the front. |
| `ImageQueue.RetainAfterPushFront` | src/img_source.rs:57-62 | Retaining the event's paths out after the insertion loop equals retaining them out of the original queue. |
| `ImgSource.QueueAfter` | src/img_source.rs:54-70 | After a Create or a Remove, a queue is its old queue with the event's paths retained out, and never longer. For a Create this holds even though the insertion loop runs first. Every other kind leaves the queue as it was. |
| `ImgSource.WallpaperAfter` | src/img_source.rs:56-67 | A record keeps its source. A record whose source differs from the event's is unchanged, and a matching record's queue is updated as `QueueAfter` says. |
| `ImgSource.Handled` | src/img_source.rs:54-71 | An event keeps the record list's length, order and sources. Records with another source are unchanged. A matching record's queue is updated according to the event kind. |
| `ImgSource.HandleEvent` | src/img_source.rs:51-71 | The handler's nested loops leave the array equal to `Handled` of the old array. |
| `ImgSource.CreateSameAsRemove` | src/img_source.rs:55-68 | A Create event leaves every record exactly as a Remove of the same paths does. |
| `ImgSource.NamedPathsRemoved` | src/img_source.rs:55-68 | After a Create or Remove event, a matching queue is its old queue with the event's paths filtered out. Named paths have no copies left, and every other path keeps its count. |
| `ImgSource.HandledNeverGrows` | src/img_source.rs:55-68 | No event makes any queue longer. |
| `ImgSource.HandledIdempotent` | src/img_source.rs:55-68 | Handling the same event twice gives the same records as handling it once. |
| `ImgSource.OtherKindsChangeNothing` | src/img_source.rs:70 | Events other than Create and Remove leave the whole state unchanged. |
| `ImgSource.CreateOnEmptyQueue` | src/img_source.rs:57-62 | For a Create of distinct paths `[a, b]` on an empty queue, the insertion loop builds `[b, a]` and the retain empties the queue again. |
| `ImgSource.ResolvedPaths` | src/img_source.rs:17-21 | The resolved paths are never more numerous than the sources. The list is empty exactly when no source resolves, and has one path per source when all resolve. Which paths it holds in general is stated by `ResolvedPathsInSourceOrder`. |
| `ImgSource.ResolvingIndices` | src/img_source.rs:17-21 | A reference list of the positions, from a given one on, of the sources that resolve. There is at most one position per source. Its exact contents are stated by the three lemmas below. |
| `ImgSource.ResolvingIndicesResolve` | src/img_source.rs:17-21 | Every listed position is in range, lies from the starting position on, and names a source that resolves. |
| `ImgSource.ResolvingIndicesIncreasing` | src/img_source.rs:17-21 | The positions are strictly increasing: they follow source order and list each source at most once. |
| `ImgSource.ResolvingIndicesComplete` | src/img_source.rs:17-21 | Every source from the starting position on that resolves has its position in the list. |
| `ImgSource.ResolvedPathsInSourceOrder` | src/img_source.rs:17-21 | For any mix of resolving and failing sources, the list has one path per resolving source, in source order: path `i` is the path of the `i`-th source that resolves, and that source resolves. |
| `ImgSource.ResolvedSuffixInSourceOrder` | src/img_source.rs:17-21 | The same holds for the sources from any position on: their resolved paths are those of the resolving sources from that position, in order. |
| `ImgSource.WatchModeFor` | src/img_source.rs:42-48 | A directory is watched recursively and a regular file non-recursively. Any other file kind or a metadata error gets no watch. |
| `ImgSource.Plan` | src/img_source.rs:27-48 | Registration `i` pairs source `i` with resolved path `i`, and there are as many registrations as resolved paths. A directory is watched recursively and a regular file non-recursively. Any other kind or a metadata error is not watched. |
| `ImgSource.FirstFailure` | src/img_source.rs:30-40 | This is the first pass whose watcher cannot be created: every earlier pass got one. |
| `ImgSource.SetupOutcome` | src/img_source.rs:23-40 | The result is "Nothing to watch" exactly when no source resolves. Success means every pass got its watcher. "Failed to create the watcher" means some pass did not. Metadata is not an input. |
| `ImgSource.SetupWatches` | src/img_source.rs:12-79 | The result depends only on the sources, the resolution and watcher creation, never on metadata. The registrations made are the plan up to the first failing pass. |
| `ImgSource.SetupOutcomeByPass` | src/img_source.rs:23-40 | Setup succeeds exactly when some source resolves and every pass gets its watcher, and then all planned watches are registered. It fails with "Failed to create the watcher" exactly when some pass does not. |
| `ImgSource.NothingToWatchIff` | src/img_source.rs:17-27 | Setup fails with "Nothing to watch" exactly when the plan of registrations is empty. Which watchers could be created makes no difference to that verdict. |
| `ImgSource.ResolvedPathsAllResolve` | src/img_source.rs:17-21 | When every source resolves, path `i` is source `i`'s own path. |
| `ImgSource.PlanAlignedWhenAllResolve` | src/img_source.rs:17-27 | When every source resolves, every registration watches the path of the source it is tagged with. |
| `ImgSource.PlanMisaligned` | src/img_source.rs:17-27 | When the first source does not resolve and the second does, the first registration has the first source's tag but watches the second source's path. |

## Left out

- `CosmicBgConfig::load` and `CosmicBgConfig::write` (cosmic-bg-config/src/lib.rs:118-152): they do file I/O, XDG base-directory lookup and ron (de)serialisation.
- `Default for CosmicBgConfig` (cosmic-bg-config/src/lib.rs:109-113): it parses a bundled `config.ron`, which is not part of this model.
- The text format: rejection of unknown fields and the serialisation round trip. `EntryFromDocument` models only which fields are required and which take defaults.
- `ScalingMode::Fit`: its three `f32` colour components are kept as raw bit patterns and never interpreted.
- The conversion of an image source into a `PathBuf` used by setup is not part of this model. It is the `resolve` input and is not assumed to agree with `SourcePath`.
- `fs::metadata`, `env::var("XDG_PICTURES_DIR")` and `xdg_user::pictures()` are inputs (`meta`, `env`, `pictures`).
- Watcher creation is the `watcherOk` input, one answer per pass of the setup loop.
- The notify watcher thread, the callback's channel send and the calloop registration are not modelled. Each is represented only by a `Registration` record.
- Errors from `watcher.watch` and `insert_source` are discarded by the code. The model records the registration either way.
- The watcher is a local of the setup loop's body, so it is dropped at the end of each pass. The model does not track object lifetimes, so it says nothing about events after that point.
- `channel::Event::Closed`: the handler panics with `todo!()`, and only messages are modelled.
- Rust compares paths component by component, so `a//b` equals `a/b`. The model's `contains` and `retain` compare the path text.
- The runtime wallpaper record has more fields than its source and image queue. The handler touches only those two, and the other fields are not modelled.
