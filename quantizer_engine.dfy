/**
 * The quantizer engine: from an algorithm name to a quantizer, the option
 * lists each algorithm offers, and the rendering procedure that validates
 * the settings, wires the chosen colour cache and ditherer, runs the
 * quantization and merges the source's transparency back in.
 *
 * The quantizers, colour caches and ditherers themselves are outside this
 * model. What the engine learns from them (whether a quantizer allows
 * parallel work, whether it takes a colour cache), the settings validator
 * and the quantization run are parameters, bundled in `Collaborators`.
 */
module QuantizerEngine {
  import opened Wrappers
  import opened Drawing
  import opened IntMath

  /** The eight quantizer classes the engine can instantiate. */
  datatype QuantizerKind =
    | DistinctSelection | MedianCut | Neural | Octree | OptimalPalette | Popularity | Uniform | WuColor

  /** The algorithm names, one per quantizer (values of the `QuantizerAlgorithm` constants). */
  const HSL_DISTINCT_SELECTION: string := "HslDistinctSelection"
  const MEDIAN_CUT: string := "MedianCut"
  const NEURAL: string := "Neural"
  const OCTREE: string := "Octree"
  const OPTIMAL_PALETTE: string := "OptimalPalette"
  const POPULARITY: string := "Popularity"
  const UNIFORM_QUANTIZER: string := "UniformQuantizer"
  const WU_COLOR: string := "WuColor"

  const ALGORITHM_NAMES: seq<string> :=
    [HSL_DISTINCT_SELECTION, MEDIAN_CUT, NEURAL, OCTREE, OPTIMAL_PALETTE, POPULARITY, UNIFORM_QUANTIZER, WU_COLOR]

  /** What the engine asks of a quantizer object. */
  datatype Capabilities = Capabilities(allowParallel: bool, cacheBased: bool)

  datatype ColorCacheKind = EuclideanDistance | LocalitySensitiveHash | OctreeSearch

  datatype DithererKind =
    | Bayer4 | Bayer8 | ClusteredDot | DotHalfTone
    | Fan | Shiau | Sierra | Stucki | Burkes | Atkinson | TwoRowSierra | FloydSteinberg | JarvisJudiceNinke

  /** The legal choices for one algorithm; a list is None where the source leaves the field null. */
  datatype QuantizerAlgorithmOptions = QuantizerAlgorithmOptions(
    colorCacheList: Option<seq<(string, ColorCacheKind)>>,
    dithererList: Option<seq<(string, Option<DithererKind>)>>,
    maxParallelProcessesList: Option<seq<int>>,
    maxColorCountsList: Option<seq<int>>)

  /** The caller's choices. A null algorithm name is None. */
  datatype QuantizerSettings = QuantizerSettings(
    algorithm: Option<string>,
    colorCache: string,
    ditherAlgorithm: string,
    maxParallelProcesses: int,
    maxColorCount: int)

  /** The exceptions the engine raises or lets through. */
  datatype EngineError =
    | ArgumentNull                        // null or empty algorithm name
    | ArgumentOutOfRange(algo: string)    // a name outside the supported list
    | InvalidSettings                     // `settings.IsValid` said no
    | NullList                            // indexing an option list that is null
    | KeyNotFound(key: string)            // a choice missing from its option list
    | QuantizationFailed                  // the quantizer run threw
    | SizeMismatch                        // the quantized image cannot be merged with the source
    | Cancelled                           // the operation was cancelled

  const COLOR_CACHES: seq<(string, ColorCacheKind)> := [
    ("Euclidean distance", EuclideanDistance),
    ("Locality-sensitive hash", LocalitySensitiveHash),
    ("Octree search", OctreeSearch)
  ]

  const DITHERERS: seq<(string, Option<DithererKind>)> := [
    ("No dithering", None),
    ("Bayer dithering (4x4)", Some(Bayer4)),
    ("Bayer dithering (8x8)", Some(Bayer8)),
    ("Clustered dot (4x4)", Some(ClusteredDot)),
    ("Dot halftoning (8x8)", Some(DotHalfTone)),
    ("--[ Error diffusion ]--", None),
    ("Fan dithering (7x3)", Some(Fan)),
    ("Shiau dithering (5x3)", Some(Shiau)),
    ("Sierra dithering (5x3)", Some(Sierra)),
    ("Stucki dithering (5x5)", Some(Stucki)),
    ("Burkes dithering (5x3)", Some(Burkes)),
    ("Atkinson dithering (5x5)", Some(Atkinson)),
    ("Two-row Sierra dithering (5x3)", Some(TwoRowSierra)),
    ("Floyd–Steinberg dithering (3x3)", Some(FloydSteinberg)),
    ("Jarvis-Judice-Ninke dithering (5x5)", Some(JarvisJudiceNinke))
  ]

  const PARALLELISM_LEVELS: seq<int> := [1, 2, 4, 8, 16, 32, 64]

  const COLOR_COUNTS: seq<int> := [2, 4, 8, 16, 32, 64, 128, 256]

  /** The name that selects a quantizer: the inverse of `GetQuantizerByAlgorithmName`. */
  function AlgorithmName(q: QuantizerKind): string {
    match q
    case DistinctSelection => HSL_DISTINCT_SELECTION
    case MedianCut => MEDIAN_CUT
    case Neural => NEURAL
    case Octree => OCTREE
    case OptimalPalette => OPTIMAL_PALETTE
    case Popularity => POPULARITY
    case Uniform => UNIFORM_QUANTIZER
    case WuColor => WU_COLOR
  }

  /**
   * `GetQuantizerByAlgorithmName`: a null or empty name is an
   * `ArgumentNullException`, a name outside the eight an
   * `ArgumentOutOfRangeException`; each of the eight selects the quantizer
   * it names.
   */
  function GetQuantizerByAlgorithmName(algo: Option<string>): (r: Result<QuantizerKind, EngineError>)
    ensures (algo.None? || algo == Some("")) ==> r == Err(ArgumentNull)
    ensures algo.Some? && algo.value != "" && algo.value !in ALGORITHM_NAMES ==> r == Err(ArgumentOutOfRange(algo.value))
    ensures r.Ok? <==> algo.Some? && algo.value in ALGORITHM_NAMES
    ensures r.Ok? ==> AlgorithmName(r.value) == algo.value
  {
    if algo.None? || algo.value == "" then Err(ArgumentNull)
    else if algo.value == HSL_DISTINCT_SELECTION then Ok(DistinctSelection)
    else if algo.value == MEDIAN_CUT then Ok(MedianCut)
    else if algo.value == NEURAL then Ok(Neural)
    else if algo.value == OCTREE then Ok(Octree)
    else if algo.value == OPTIMAL_PALETTE then Ok(OptimalPalette)
    else if algo.value == POPULARITY then Ok(Popularity)
    else if algo.value == UNIFORM_QUANTIZER then Ok(Uniform)
    else if algo.value == WU_COLOR then Ok(WuColor)
    else Err(ArgumentOutOfRange(algo.value))
  }

  /** Every quantizer is reached by its own name, and by no other. */
  lemma AlgorithmNameRoundTrip(q: QuantizerKind, name: string)
    ensures GetQuantizerByAlgorithmName(Some(AlgorithmName(q))) == Ok(q)
    ensures GetQuantizerByAlgorithmName(Some(name)) == Ok(q) ==> name == AlgorithmName(q)
  {
  }

  /** Whether an algorithm exposes a colour-count cap. */
  predicate OffersColorCounts(q: QuantizerKind) {
    !(q == Uniform || q == Neural || q == OptimalPalette)
  }

  /**
   * `GetQuantizerAlgorithmOptions`: starts from an options object whose
   * lists are all null and fills in the colour caches for a cache-based
   * quantizer, the ditherers for any quantizer but Wu's, the parallelism
   * levels for a quantizer that allows parallel work and the colour counts
   * for any quantizer but Uniform, Neural and OptimalPalette. An unknown
   * name fails as `GetQuantizerByAlgorithmName` does.
   */
  function GetQuantizerAlgorithmOptions(algo: Option<string>, capabilities: QuantizerKind -> Capabilities): (r: Result<QuantizerAlgorithmOptions, EngineError>)
    ensures GetQuantizerByAlgorithmName(algo).Err? ==> r == Err(GetQuantizerByAlgorithmName(algo).error)
    ensures r.Ok? <==> GetQuantizerByAlgorithmName(algo).Ok?
    ensures r.Ok? ==>
      var q := GetQuantizerByAlgorithmName(algo).value;
      var caps := capabilities(q);
      (r.value.colorCacheList == if caps.cacheBased then Some(COLOR_CACHES) else None)
      && (r.value.dithererList == if q != WuColor then Some(DITHERERS) else None)
      && (r.value.maxParallelProcessesList == if caps.allowParallel then Some(PARALLELISM_LEVELS) else None)
      && (r.value.maxColorCountsList == if OffersColorCounts(q) then Some(COLOR_COUNTS) else None)
  {
    var quantizer := GetQuantizerByAlgorithmName(algo);
    if quantizer.Err? then Err(quantizer.error)
    else
      var q := quantizer.value;
      var opts := QuantizerAlgorithmOptions(None, None, None, None);
      var opts := if capabilities(q).cacheBased then opts.(colorCacheList := Some(COLOR_CACHES)) else opts;
      var opts := if q != WuColor then opts.(dithererList := Some(DITHERERS)) else opts;
      var opts := if capabilities(q).allowParallel then opts.(maxParallelProcessesList := Some(PARALLELISM_LEVELS)) else opts;
      var opts := if OffersColorCounts(q) then opts.(maxColorCountsList := Some(COLOR_COUNTS)) else opts;
      Ok(opts)
  }


  /** The colour caches, in the order Euclidean, LSH, octree. */
  lemma ColorCacheListContents()
    ensures |COLOR_CACHES| == 3
    ensures COLOR_CACHES[0].1 == EuclideanDistance && COLOR_CACHES[1].1 == LocalitySensitiveHash && COLOR_CACHES[2].1 == OctreeSearch
  {
  }

  /** The positions of an option list whose entry chooses no ditherer. */
  function NoDithererPositions(list: seq<(string, Option<DithererKind>)>): set<int> {
    set i | 0 <= i < |list| && list[i].1.None?
  }

  /**
   * Fifteen ditherer entries, of which exactly two, "No dithering" and the
   * error-diffusion separator, choose no ditherer.
   */
  lemma DithererListContents()
    ensures |DITHERERS| == 15
    ensures DITHERERS[0].0 == "No dithering" && DITHERERS[5].0 == "--[ Error diffusion ]--"
    ensures NoDithererPositions(DITHERERS) == {0, 5} && |NoDithererPositions(DITHERERS)| == 2
  {
    var d := DITHERERS;
    forall i | 0 <= i < |d|
      ensures d[i].1.None? <==> i == 0 || i == 5
    {
    }
  }

  /** The parallelism levels are 2^0 .. 2^6. */
  lemma ParallelismLevelsArePowersOfTwo()
    ensures |PARALLELISM_LEVELS| == 7 && forall i :: 0 <= i < 7 ==> PARALLELISM_LEVELS[i] == Pow2(i)
  {
    assert Pow2(6) == 64;
  }

  /** The colour counts are 2^1 .. 2^8. */
  lemma ColorCountsArePowersOfTwo()
    ensures |COLOR_COUNTS| == 8 && forall i :: 0 <= i < 8 ==> COLOR_COUNTS[i] == Pow2(i + 1)
  {
    assert Pow2(8) == 256;
  }

  /** `list[key]` on an ordered dictionary: null is a null reference, a missing key a lookup failure. */
  function LookupOption<V>(list: Option<seq<(string, V)>>, key: string): (r: Result<V, EngineError>)
    ensures list.None? ==> r == Err(NullList)
    ensures list.Some? ==> (r.Ok? <==> exists i :: 0 <= i < |list.value| && list.value[i].0 == key)
    ensures r.Ok? ==> exists i :: 0 <= i < |list.value| && list.value[i] == (key, r.value)
    ensures r.Err? && list.Some? ==> r.error == KeyNotFound(key)
  {
    if list.None? then Err(NullList)
    else FindKey(list.value, key)
  }

  /** The value of the first entry with `key`. */
  function FindKey<V>(entries: seq<(string, V)>, key: string): (r: Result<V, EngineError>)
    ensures r.Ok? <==> exists i :: 0 <= i < |entries| && entries[i].0 == key
    ensures r.Ok? ==> exists i :: 0 <= i < |entries| && entries[i] == (key, r.value)
    ensures r.Err? ==> r.error == KeyNotFound(key)
  {
    if entries == [] then Err(KeyNotFound(key))
    else if entries[0].0 == key then Ok(entries[0].1)
    else
      var r := FindKey(entries[1..], key);
      assert forall i :: 0 < i < |entries| ==> entries[i] == entries[1..][i - 1];
      r
  }

  /** The worker count: the requested parallelism when the quantizer allows it, one otherwise. */
  function WorkerCount(allowParallel: bool, requested: int): int {
    if allowParallel then requested else 1
  }

  /** What the engine hands the quantizer run. */
  datatype QuantizePlan = QuantizePlan(
    quantizer: QuantizerKind,
    colorCache: Option<ColorCacheKind>,
    ditherer: Option<DithererKind>,
    colorCount: int,
    workerCount: int)

  datatype QuantizeOutcome = Quantized(image: PxBitmap) | QuantizeFailed

  /**
   * The code the engine calls but this model does not contain: each
   * quantizer's flags, `settings.IsValid(opts, strict)`, the developer-mode
   * switch, and `ImageBuffer.QuantizeImage` followed by `To32bppBitmap`.
   */
  datatype Collaborators = Collaborators(
    capabilities: QuantizerKind -> Capabilities,
    isValid: (QuantizerSettings, QuantizerAlgorithmOptions, bool) -> bool,
    isDevMode: bool,
    quantize: (PxBitmap, QuantizePlan) -> QuantizeOutcome)

  /** `opts ??= GetQuantizerAlgorithmOptions(settings.Algorithm)`. */
  function ResolveOptions(settings: QuantizerSettings, opts: Option<QuantizerAlgorithmOptions>, env: Collaborators): Result<QuantizerAlgorithmOptions, EngineError> {
    if opts.Some? then Ok(opts.value) else GetQuantizerAlgorithmOptions(settings.algorithm, env.capabilities)
  }

  /**
   * The preparation steps of `RenderImage`, everything before the
   * quantizer runs: resolve the options, validate the settings against them
   * (strictly unless in developer mode), instantiate the quantizer, look up
   * its colour cache if it takes one, look up the ditherer, and fix the
   * worker and colour counts.
   */
  function PrepareQuantization(settings: QuantizerSettings, opts: Option<QuantizerAlgorithmOptions>, env: Collaborators): (r: Result<QuantizePlan, EngineError>)
    ensures ResolveOptions(settings, opts, env).Err? ==> r == Err(ResolveOptions(settings, opts, env).error)
    ensures (ResolveOptions(settings, opts, env).Ok?
      && !env.isValid(settings, ResolveOptions(settings, opts, env).value, !env.isDevMode)) ==> r == Err(InvalidSettings)
    ensures r.Ok? ==>
      ResolveOptions(settings, opts, env).Ok?
      && env.isValid(settings, ResolveOptions(settings, opts, env).value, !env.isDevMode)
      && GetQuantizerByAlgorithmName(settings.algorithm) == Ok(r.value.quantizer)
    ensures r.Ok? ==>
      var caps := env.capabilities(r.value.quantizer);
      var o := ResolveOptions(settings, opts, env).value;
      (r.value.colorCache.Some? <==> caps.cacheBased)
      && (caps.cacheBased ==> LookupOption(o.colorCacheList, settings.colorCache) == Ok(r.value.colorCache.value))
      && LookupOption(o.dithererList, settings.ditherAlgorithm) == Ok(r.value.ditherer)
      && r.value.workerCount == (if caps.allowParallel then settings.maxParallelProcesses else 1)
      && r.value.colorCount == settings.maxColorCount
    // past validation, each later step's failure is the result, and when none fails there is a plan
    ensures ResolveOptions(settings, opts, env).Ok? && env.isValid(settings, ResolveOptions(settings, opts, env).value, !env.isDevMode) ==>
      var o := ResolveOptions(settings, opts, env).value;
      var quantizer := GetQuantizerByAlgorithmName(settings.algorithm);
      (quantizer.Err? ==> r == Err(quantizer.error))
      && (quantizer.Ok? ==>
            var cacheBased := env.capabilities(quantizer.value).cacheBased;
            var cache := LookupOption(o.colorCacheList, settings.colorCache);
            var ditherer := LookupOption(o.dithererList, settings.ditherAlgorithm);
            (cacheBased && cache.Err? ==> r == Err(cache.error))
            && ((!cacheBased || cache.Ok?) && ditherer.Err? ==> r == Err(ditherer.error))
            && ((!cacheBased || cache.Ok?) && ditherer.Ok? ==> r.Ok?))
  {
    var resolved := ResolveOptions(settings, opts, env);
    if resolved.Err? then Err(resolved.error)
    else if !env.isValid(settings, resolved.value, !env.isDevMode) then Err(InvalidSettings)
    else
      var quantizer := GetQuantizerByAlgorithmName(settings.algorithm);
      if quantizer.Err? then Err(quantizer.error)
      else
        var caps := env.capabilities(quantizer.value);
        var cache: Result<Option<ColorCacheKind>, EngineError> :=
          if caps.cacheBased then
            var c := LookupOption(resolved.value.colorCacheList, settings.colorCache);
            if c.Err? then Err(c.error) else Ok(Some(c.value))
          else Ok(None);
        if cache.Err? then Err(cache.error)
        else
          var ditherer := LookupOption(resolved.value.dithererList, settings.ditherAlgorithm);
          if ditherer.Err? then Err(ditherer.error)
          else Ok(QuantizePlan(quantizer.value, cache.value, ditherer.value, settings.maxColorCount,
                               WorkerCount(caps.allowParallel, settings.maxParallelProcesses)))
  }

  /** The merge callback: a source pixel below the alpha threshold becomes transparent, any other takes the quantized pixel. */
  function MergePixel(original: PxColor, quantized: PxColor): PxColor {
    if IsTransparent(original) then TRANSPARENT else quantized
  }

  /** `sourceImage.ToMergeStream(quantized, ...)` with `MergePixel`, pixel by pixel at the same coordinates. */
  function MergeAlpha(source: PxBitmap, quantized: PxBitmap): (r: PxBitmap)
    requires SameShape(source, quantized)
    ensures SameShape(r, source)
    ensures forall y, x :: 0 <= y < |source| && 0 <= x < |source[y]| ==>
      (IsTransparent(source[y][x]) ==> r[y][x] == TRANSPARENT)
      && (!IsTransparent(source[y][x]) ==> r[y][x] == quantized[y][x])
  {
    seq(|source|, y requires 0 <= y < |source| =>
      seq(|source[y]|, x requires 0 <= x < |source[y]| => MergePixel(source[y][x], quantized[y][x])))
  }

  /**
   * When the quantizer emits only opaque pixels, an output pixel is
   * transparent exactly where the source pixel is.
   */
  lemma MergedTransparencyFollowsSource(source: PxBitmap, quantized: PxBitmap)
    requires SameShape(source, quantized)
    requires forall y, x :: 0 <= y < |quantized| && 0 <= x < |quantized[y]| ==> !IsTransparent(quantized[y][x])
    ensures var r := MergeAlpha(source, quantized);
      forall y, x :: 0 <= y < |source| && 0 <= x < |source[y]| ==> (IsTransparent(r[y][x]) <==> IsTransparent(source[y][x]))
  {
    var r := MergeAlpha(source, quantized);
    forall y, x | 0 <= y < |source| && 0 <= x < |source[y]|
      ensures IsTransparent(r[y][x]) <==> IsTransparent(source[y][x])
    {
      assert x < |quantized[y]|;
    }
  }

  /**
   * `RenderImage`. Preparation failures surface unchanged, before any
   * quantization. Once the quantizer is under way, any failure (of the
   * quantizer run or of the merge) is reported as a cancellation when
   * cancellation was requested and as itself otherwise; a success is the
   * source's transparency merged onto the quantized image.
   */
  function RenderImage(cancellationRequested: bool, source: PxBitmap, settings: QuantizerSettings,
                       opts: Option<QuantizerAlgorithmOptions>, env: Collaborators): (r: Result<PxBitmap, EngineError>)
    ensures PrepareQuantization(settings, opts, env).Err? ==> r == Err(PrepareQuantization(settings, opts, env).error)
    ensures PrepareQuantization(settings, opts, env).Ok? && cancellationRequested ==> r == Err(Cancelled)
    ensures r.Ok? ==>
      var plan := PrepareQuantization(settings, opts, env);
      plan.Ok? && env.quantize(source, plan.value).Quantized?
      && SameShape(source, env.quantize(source, plan.value).image)
      && SameShape(r.value, source)
      && forall y, x :: 0 <= y < |source| && 0 <= x < |source[y]| ==>
        r.value[y][x] == (if IsTransparent(source[y][x]) then TRANSPARENT else env.quantize(source, plan.value).image[y][x])
    ensures r.Err? && r.error == Cancelled ==> cancellationRequested
    // without cancellation, a failure of the quantizer run or of the merge is reported as itself
    ensures PrepareQuantization(settings, opts, env).Ok? && !cancellationRequested ==>
      var outcome := env.quantize(source, PrepareQuantization(settings, opts, env).value);
      (outcome.QuantizeFailed? ==> r == Err(QuantizationFailed))
      && (outcome.Quantized? && !SameShape(source, outcome.image) ==> r == Err(SizeMismatch))
      && (outcome.Quantized? && SameShape(source, outcome.image) ==> r.Ok?)
  {
    var plan := PrepareQuantization(settings, opts, env);
    if plan.Err? then Err(plan.error)
    else
      var outcome := env.quantize(source, plan.value);
      var attempt: Result<PxBitmap, EngineError> :=
        if outcome.QuantizeFailed? then Err(QuantizationFailed)
        else if !SameShape(source, outcome.image) then Err(SizeMismatch)
        else if cancellationRequested then Err(Cancelled)
        else Ok(MergeAlpha(source, outcome.image));
      if attempt.Err? && cancellationRequested then Err(Cancelled) else attempt
  }

  /**
   * Invalid settings are rejected before anything is quantized: the result
   * does not depend on the quantizer run at all.
   */
  lemma InvalidSettingsNeverQuantize(cancellationRequested: bool, source: PxBitmap, settings: QuantizerSettings,
                                     opts: Option<QuantizerAlgorithmOptions>, env: Collaborators,
                                     other: (PxBitmap, QuantizePlan) -> QuantizeOutcome)
    requires ResolveOptions(settings, opts, env).Ok?
    requires !env.isValid(settings, ResolveOptions(settings, opts, env).value, !env.isDevMode)
    ensures RenderImage(cancellationRequested, source, settings, opts, env) == Err(InvalidSettings)
    ensures RenderImage(cancellationRequested, source, settings, opts, env.(quantize := other)) == Err(InvalidSettings)
  {
    assert ResolveOptions(settings, opts, env.(quantize := other)) == ResolveOptions(settings, opts, env);
  }

  /**
   * With the options the engine derives itself, a quantizer that does not
   * allow parallel work always runs on one worker, and one that does runs
   * on the requested count, which validation can check against the
   * offered levels.
   */
  lemma PlannedWorkerCount(settings: QuantizerSettings, env: Collaborators)
    requires PrepareQuantization(settings, None, env).Ok?
    ensures var plan := PrepareQuantization(settings, None, env).value;
      var o := GetQuantizerAlgorithmOptions(settings.algorithm, env.capabilities).value;
      (!env.capabilities(plan.quantizer).allowParallel ==> plan.workerCount == 1 && o.maxParallelProcessesList.None?)
      && (env.capabilities(plan.quantizer).allowParallel ==>
            plan.workerCount == settings.maxParallelProcesses && o.maxParallelProcessesList == Some(PARALLELISM_LEVELS))
  {
  }

  /**
   * Wu's algorithm offers no ditherer list, and `RenderImage` indexes the
   * ditherer list unconditionally: with the options the engine derives,
   * rendering with Wu fails on that lookup once the settings pass validation.
   */
  lemma WuWithDerivedOptionsHasNoDithererList(settings: QuantizerSettings, env: Collaborators)
    requires settings.algorithm == Some(WU_COLOR)
    requires ResolveOptions(settings, None, env).Ok?
    requires env.isValid(settings, ResolveOptions(settings, None, env).value, !env.isDevMode)
    requires env.capabilities(WuColor).cacheBased ==>
      exists i :: 0 <= i < |COLOR_CACHES| && COLOR_CACHES[i].0 == settings.colorCache
    ensures PrepareQuantization(settings, None, env) == Err(NullList)
  {
  }
}
