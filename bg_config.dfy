/**
 * The background configuration: which outputs get a background, where the
 * images come from, how they are scaled, filtered and sampled, and how an
 * entry's image source is resolved to a directory or file.
 */
module BgConfig {
  import opened Wrappers
  import opened Paths

  /** Rust's u64, the type of the rotation frequency. */
  newtype u64 = x: int | 0 <= x < 0x1_0000_0000_0000_0000

  /** The outputs an entry applies to. */
  datatype CosmicBgOutput = All | MakeModel(make: string, model: string)

  /** Where an entry's images come from. */
  datatype CosmicBgImgSource =
    | Wallpapers          // the "Wallpapers" folder of the user's pictures directory
    | Path(path: string)  // an explicit directory or file

  /** Filter used when an image is scaled. */
  datatype FilterMethod = Nearest | Linear | Lanczos

  /** Order in which the images of a source are shown. */
  datatype SamplingMethod = Alphanumeric | Random

  /** The three f32 colour components of Fit, kept as raw bit patterns and never interpreted. */
  datatype FillColor = FillColor(red: bv32, green: bv32, blue: bv32)

  /** How an image is fitted to the output. */
  datatype ScalingMode = Fit(color: FillColor) | Stretch | Zoom

  /** One configured background. */
  datatype CosmicBgEntry = CosmicBgEntry(
    output: CosmicBgOutput,
    source: CosmicBgImgSource,
    filterByTheme: bool,
    rotationFrequency: u64,  // seconds
    filterMethod: FilterMethod,
    scalingMode: ScalingMode,
    samplingMethod: SamplingMethod)

  /** The whole configuration: the entries in the order they are written. */
  datatype CosmicBgConfig = CosmicBgConfig(backgrounds: seq<CosmicBgEntry>)

  // The #[default] variants of the three enums.
  const DefaultFilterMethod: FilterMethod := Lanczos
  const DefaultSamplingMethod: SamplingMethod := Alphanumeric
  const DefaultScalingMode: ScalingMode := Zoom

  /**
   * The derived PartialEq of CosmicBgImgSource: equal variants with equal
   * payloads. This is the equality the queue synchroniser matches records by.
   */
  predicate ImgSourceEq(a: CosmicBgImgSource, b: CosmicBgImgSource)
    ensures ImgSourceEq(a, b) <==> a == b
    ensures a.Wallpapers? && b.Path? ==> !ImgSourceEq(a, b)
  {
    match (a, b)
    case (Wallpapers, Wallpapers) => true
    case (Path(p), Path(q)) => p == q
    case _ => false
  }

  /**
   * The fields an entry document states, None for a field it leaves out.
   * Only the decoding of the fields is modelled, not the text format.
   */
  datatype EntryDocument = EntryDocument(
    output: Option<CosmicBgOutput>,
    source: Option<CosmicBgImgSource>,
    filterByTheme: Option<bool>,
    rotationFrequency: Option<u64>,
    filterMethod: Option<FilterMethod>,
    scalingMode: Option<ScalingMode>,
    samplingMethod: Option<SamplingMethod>)

  /** A document that leaves out a field without a default names that field. */
  datatype DocumentError = MissingField(field: string)

  function OrDefault<T>(o: Option<T>, default: T): T {
    match o
    case Some(v) => v
    case None => default
  }

  /**
   * Builds an entry from a document: the four fields without #[serde(default)]
   * must be present (the first one missing, in declaration order, is
   * reported); the filter method, scaling mode and sampling method take their
   * default variant when left out.
   */
  function EntryFromDocument(d: EntryDocument): (r: Result<CosmicBgEntry, DocumentError>)
    ensures r.Success? <==>
      d.output.Some? && d.source.Some? && d.filterByTheme.Some? && d.rotationFrequency.Some?
    ensures r.Success? ==>
      && r.value.output == d.output.value
      && r.value.source == d.source.value
      && r.value.filterByTheme == d.filterByTheme.value
      && r.value.rotationFrequency == d.rotationFrequency.value
    ensures r.Success? ==>
      && (d.filterMethod.None? ==> r.value.filterMethod == Lanczos)
      && (d.scalingMode.None? ==> r.value.scalingMode == Zoom)
      && (d.samplingMethod.None? ==> r.value.samplingMethod == Alphanumeric)
      && (d.filterMethod.Some? ==> r.value.filterMethod == d.filterMethod.value)
      && (d.scalingMode.Some? ==> r.value.scalingMode == d.scalingMode.value)
      && (d.samplingMethod.Some? ==> r.value.samplingMethod == d.samplingMethod.value)
    ensures d.output.None? ==> r == Failure(MissingField("output"))
    ensures d.output.Some? && d.source.None? ==> r == Failure(MissingField("source"))
    ensures d.output.Some? && d.source.Some? && d.filterByTheme.None? ==>
      r == Failure(MissingField("filter_by_theme"))
    ensures d.output.Some? && d.source.Some? && d.filterByTheme.Some? && d.rotationFrequency.None? ==>
      r == Failure(MissingField("rotation_frequency"))
  {
    if d.output.None? then Failure(MissingField("output"))
    else if d.source.None? then Failure(MissingField("source"))
    else if d.filterByTheme.None? then Failure(MissingField("filter_by_theme"))
    else if d.rotationFrequency.None? then Failure(MissingField("rotation_frequency"))
    else Success(CosmicBgEntry(
      d.output.value, d.source.value, d.filterByTheme.value, d.rotationFrequency.value,
      OrDefault(d.filterMethod, DefaultFilterMethod),
      OrDefault(d.scalingMode, DefaultScalingMode),
      OrDefault(d.samplingMethod, DefaultSamplingMethod)))
  }

  /** Used when an entry's source cannot be resolved. */
  const DefaultSourcePath: PathBuf := "/usr/share/backgrounds/pop/"

  /** The folder of the pictures directory that holds the wallpapers. */
  const WallpapersFolder: PathBuf := "Wallpapers"

  /** What the user-directories lookup of the pictures directory answers. */
  datatype PicturesLookup = LookupError | Pictures(dir: Option<PathBuf>)

  /** The lookup with an error read as "no pictures directory". */
  function PicturesDir(lookup: PicturesLookup): (r: Option<PathBuf>)
    ensures lookup.LookupError? ==> r.None?
    ensures lookup.Pictures? ==> r == lookup.dir
  {
    match lookup
    case LookupError => None
    case Pictures(d) => d
  }

  /**
   * CosmicBgEntry::source_path. `env` is the XDG_PICTURES_DIR environment
   * variable (None when unset or not valid Unicode) and `pictures` the
   * user-directories lookup. For Wallpapers the variable wins over the lookup
   * and "Wallpapers" is pushed onto whichever is found; PathBuf::from_str
   * cannot fail, so Path(p) always yields p. Only a Wallpapers source with
   * neither a variable nor a pictures directory falls back to the default.
   */
  function SourcePath(entry: CosmicBgEntry, env: Option<string>, pictures: PicturesLookup): (r: PathBuf)
    ensures entry.source.Path? ==> r == entry.source.path
    ensures entry.source.Wallpapers? && env.Some? ==> r == Push(env.value, WallpapersFolder)
    ensures entry.source.Wallpapers? && env.None? && PicturesDir(pictures).Some? ==>
      r == Push(PicturesDir(pictures).value, WallpapersFolder)
    ensures entry.source.Wallpapers? && env.None? && PicturesDir(pictures).None? ==>
      r == DefaultSourcePath
  {
    var resolved: Option<PathBuf> :=
      match entry.source
      case Wallpapers =>
        var picsDir := if env.Some? then Some(env.value) else PicturesDir(pictures);
        if picsDir.Some? then Some(Push(picsDir.value, WallpapersFolder)) else None
      case Path(p) => Some(p);
    OrDefault(resolved, DefaultSourcePath)
  }

  /** A path with "Wallpapers" pushed onto it is never the default path. */
  lemma PushedWallpapersIsNotDefault(dir: PathBuf)
    ensures Push(dir, WallpapersFolder) != DefaultSourcePath
  {
  }

  /**
   * The default path is the answer exactly when a Wallpapers source finds no
   * directory, or when a Path source names the default path itself.
   */
  lemma FallbackOnlyWithoutPicturesDir(entry: CosmicBgEntry, env: Option<string>, pictures: PicturesLookup)
    ensures SourcePath(entry, env, pictures) == DefaultSourcePath <==>
      || (entry.source.Wallpapers? && env.None? && PicturesDir(pictures).None?)
      || entry.source == Path(DefaultSourcePath)
  {
  }

  /** With XDG_PICTURES_DIR set, the user-directories lookup has no influence. */
  lemma EnvOverridesPictures(entry: CosmicBgEntry, s: string, p1: PicturesLookup, p2: PicturesLookup)
    ensures SourcePath(entry, Some(s), p1) == SourcePath(entry, Some(s), p2)
    ensures entry.source.Wallpapers? ==> SourcePath(entry, Some(s), p1) != DefaultSourcePath
  {
  }

  /** A failing user-directories lookup is treated like one that finds nothing. */
  lemma LookupErrorIsAbsence(entry: CosmicBgEntry, env: Option<string>)
    ensures SourcePath(entry, env, LookupError) == SourcePath(entry, env, Pictures(None))
  {
  }

  /** A Path source resolves to its own text, whatever the environment says. */
  lemma PathSourceIgnoresEnvironment(entry: CosmicBgEntry, env1: Option<string>, env2: Option<string>,
                                     p1: PicturesLookup, p2: PicturesLookup)
    requires entry.source.Path?
    ensures SourcePath(entry, env1, p1) == SourcePath(entry, env2, p2) == entry.source.path
  {
  }
}
