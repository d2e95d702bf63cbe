/**
 * The factory `embed(containerId, harnessIdOrToken, options)`: what it
 * resolves, when it fails, and the notifications its frame handlers send.
 *
 * The document lookup is abstracted to `containerFound`, and whether the
 * host's URL parser accepts `{apiUrl}/api/embed/{harnessIdOrToken}` to
 * `baseParses`. The container and frame styling are DOM effects and are
 * reduced to the two sizes the container receives.
 */
module EmbedFactory {
  import opened EmbedOptions
  import opened EmbedQuery

  const DefaultApiUrl := "https://splice-cad.com"
  const DefaultWidth := "100%"
  const DefaultHeight := "600px"
  const DefaultInitialZoom: real := 1.0
  const DefaultMinZoom: real := 0.1
  const DefaultMaxZoom: real := 5.0

  /** The values the factory settles on with `||`. */
  datatype Settings = Settings(
    apiUrl: string,
    width: string,
    height: string,
    initialZoom: real,
    minZoom: real,
    maxZoom: real)

  /** Everything a successful call hands to the controller it returns. */
  datatype Config = Config(harnessRef: string, settings: Settings, options: Options)

  /** The argument a callback receives: `{id}` on load, an `Error` otherwise. */
  datatype Argument = LoadedHarness(id: string) | ErrorWithMessage(message: string)

  /** One invocation of a caller-supplied callback. */
  datatype Call = Call(handler: Handler, argument: Argument)

  datatype EmbedError =
    | ContainerNotFound(message: string)  // thrown by the factory itself
    | InvalidUrl(input: string)           // thrown by the host's URL constructor

  /** A controller configuration, or the error thrown and the callbacks run before it. */
  datatype Outcome = Embedded(config: Config) | Thrown(error: EmbedError, calls: seq<Call>)

  /** `v || d` for a string option. */
  function OrText(v: Option<string>, d: string): string
  {
    if Truthy(v) then v.value else d
  }

  /** `v || d` for a number option: `0` is falsy. */
  function OrNumber(v: Option<real>, d: real): real
  {
    if v.Some? && v.value != 0.0 then v.value else d
  }

  /** `options.zoom?.initial` and its two siblings. */
  function ZoomInitial(o: Options): Option<real>
  {
    if o.zoom.Some? then o.zoom.value.initial else None
  }

  function ZoomMin(o: Options): Option<real>
  {
    if o.zoom.Some? then o.zoom.value.min else None
  }

  function ZoomMax(o: Options): Option<real>
  {
    if o.zoom.Some? then o.zoom.value.max else None
  }

  /**
   * The resolved base URL, container size and zoom bounds: each truthy
   * option is used as given, each absent or falsy one gives way to its
   * default. Since every default is truthy, no resolved value is falsy.
   */
  function Resolve(o: Options): (s: Settings)
    ensures Truthy(o.apiUrl) ==> s.apiUrl == o.apiUrl.value
    ensures !Truthy(o.apiUrl) ==> s.apiUrl == DefaultApiUrl
    ensures Truthy(o.width) ==> s.width == o.width.value
    ensures !Truthy(o.width) ==> s.width == DefaultWidth
    ensures Truthy(o.height) ==> s.height == o.height.value
    ensures !Truthy(o.height) ==> s.height == DefaultHeight
    ensures ZoomInitial(o).Some? && ZoomInitial(o).value != 0.0 ==> s.initialZoom == ZoomInitial(o).value
    ensures !(ZoomInitial(o).Some? && ZoomInitial(o).value != 0.0) ==> s.initialZoom == DefaultInitialZoom
    ensures ZoomMin(o).Some? && ZoomMin(o).value != 0.0 ==> s.minZoom == ZoomMin(o).value
    ensures !(ZoomMin(o).Some? && ZoomMin(o).value != 0.0) ==> s.minZoom == DefaultMinZoom
    ensures ZoomMax(o).Some? && ZoomMax(o).value != 0.0 ==> s.maxZoom == ZoomMax(o).value
    ensures !(ZoomMax(o).Some? && ZoomMax(o).value != 0.0) ==> s.maxZoom == DefaultMaxZoom
    ensures s.apiUrl != "" && s.width != "" && s.height != ""
    ensures s.initialZoom != 0.0 && s.minZoom != 0.0 && s.maxZoom != 0.0
  {
    Settings(
      OrText(o.apiUrl, DefaultApiUrl),
      OrText(o.width, DefaultWidth),
      OrText(o.height, DefaultHeight),
      OrNumber(ZoomInitial(o), DefaultInitialZoom),
      OrNumber(ZoomMin(o), DefaultMinZoom),
      OrNumber(ZoomMax(o), DefaultMaxZoom))
  }

  /** `options.onError?.(e)` and `options.onLoad?.(x)`: a call only when the callback is set. */
  function Notify(h: Option<Handler>, a: Argument): seq<Call>
  {
    if h.Some? then [Call(h.value, a)] else []
  }

  function MissingContainerMessage(containerId: string): string
  {
    "Container element #" + containerId + " not found"
  }

  function LoadFailureMessage(harnessRef: string): string
  {
    "Failed to load harness: " + harnessRef
  }

  /** The factory call, up to the point where it returns a controller. */
  function Embed(containerId: string, harnessRef: string, o: Options,
                 containerFound: bool, baseParses: bool): Outcome
  {
    var s := Resolve(o);
    if !containerFound then
      var message := MissingContainerMessage(containerId);
      Thrown(ContainerNotFound(message), Notify(o.onError, ErrorWithMessage(message)))
    else if !baseParses then
      Thrown(InvalidUrl(BasePath(s.apiUrl, harnessRef)), [])
    else
      Embedded(Config(harnessRef, s, o))
  }

  /** The frame's `load` handler: `onLoad({id})`, read from the options current at that time. */
  function LoadCalls(o: Options, harnessRef: string): (r: seq<Call>)
    ensures |r| <= 1 && (r != [] <==> o.onLoad.Some?)
    ensures forall c :: c in r ==> c.handler == o.onLoad.value && c.argument == LoadedHarness(harnessRef)
  {
    Notify(o.onLoad, LoadedHarness(harnessRef))
  }

  /** The frame's `error` handler: `onError(new Error(...))` instead of a throw. */
  function LoadErrorCalls(o: Options, harnessRef: string): (r: seq<Call>)
    ensures |r| <= 1 && (r != [] <==> o.onError.Some?)
    ensures forall c :: c in r ==> c.handler == o.onError.value
                                   && c.argument == ErrorWithMessage(LoadFailureMessage(harnessRef))
  {
    Notify(o.onError, ErrorWithMessage(LoadFailureMessage(harnessRef)))
  }

  // ---------------------------------------------------------------------
  // Lemmas
  // ---------------------------------------------------------------------

  /**
   * The call fails exactly when the container is missing or the base does
   * not parse. A missing container throws `ContainerNotFound` naming the
   * identifier, after calling `onError` once, if set, with that same error;
   * an unparsable base throws without calling anything.
   */
  lemma EmbedFailure(containerId: string, harnessRef: string, o: Options,
                     containerFound: bool, baseParses: bool)
    ensures var r := Embed(containerId, harnessRef, o, containerFound, baseParses);
            && (r.Thrown? <==> !containerFound || !baseParses)
            && (!containerFound ==>
                  && r.error == ContainerNotFound("Container element #" + containerId + " not found")
                  && |r.calls| == (if o.onError.Some? then 1 else 0)
                  && forall c :: c in r.calls ==> c == Call(o.onError.value, ErrorWithMessage(r.error.message)))
            && (containerFound && !baseParses ==> r.error.InvalidUrl? && r.calls == [])
  {
  }

  /** Without options, every default applies. */
  lemma ResolveDefaults()
    ensures Resolve(NoOptions) == Settings("https://splice-cad.com", "100%", "600px", 1.0, 0.1, 5.0)
  {
  }

  /** `x || d` treats a falsy value as if it were absent. */
  predicate SameTextUpToFalsy(a: Option<string>, b: Option<string>)
  {
    Truthy(a) == Truthy(b) && (Truthy(a) ==> a == b)
  }

  predicate SameNumberUpToFalsy(a: Option<real>, b: Option<real>)
  {
    var ta := a.Some? && a.value != 0.0;
    var tb := b.Some? && b.value != 0.0;
    ta == tb && (ta ==> a == b)
  }

  /**
   * Options that differ only in whether a field is absent or falsy (`""`,
   * `0`) resolve to the same settings: `apiUrl: ""` means the production
   * origin and `zoom: {min: 0}` means 0.1.
   */
  lemma ResolveFalsyAsAbsent(o: Options, o': Options)
    requires SameTextUpToFalsy(o.apiUrl, o'.apiUrl)
    requires SameTextUpToFalsy(o.width, o'.width)
    requires SameTextUpToFalsy(o.height, o'.height)
    requires SameNumberUpToFalsy(ZoomInitial(o), ZoomInitial(o'))
    requires SameNumberUpToFalsy(ZoomMin(o), ZoomMin(o'))
    requires SameNumberUpToFalsy(ZoomMax(o), ZoomMax(o'))
    ensures Resolve(o) == Resolve(o')
  {
  }

  /** Writing the resolved values back into the options resolves to them again. */
  lemma ResolveStable(o: Options)
    ensures var s := Resolve(o);
            Resolve(o.(apiUrl := Some(s.apiUrl), width := Some(s.width), height := Some(s.height),
                       zoom := Some(ZoomConfig(Some(s.initialZoom), Some(s.minZoom), Some(s.maxZoom)))))
            == s
  {
  }
}
