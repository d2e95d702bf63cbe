/**
 * The embed configuration record (`EmbedOptions`) and the shallow merge that
 * `update` performs on it with `Object.assign`.
 *
 * A field of the record is either absent (`undefined`) or holds a value;
 * absent and explicitly `undefined` read the same, so both are `None`.
 * A partial update (`Partial<EmbedOptions>`) must tell apart a key that is
 * not mentioned from a key mentioned with the value `undefined`, because
 * `Object.assign` copies the latter: a patch field is `Option<Option<T>>`.
 */
module EmbedOptions {

  datatype Option<T> = None | Some(value: T)

  /** Where the remote page puts the bill-of-materials table. */
  datatype BomSide = Top | Bottom | Left | Right

  /** Which corner of the frame holds the remote page's zoom controls. */
  datatype ControlsCorner = TopRight | TopLeft | BottomRight | BottomLeft

  /** The `zoom` option: each bound may be left out. */
  datatype ZoomConfig = ZoomConfig(initial: Option<real>, min: Option<real>, max: Option<real>)

  /** The `styles` option; it is accepted and stored but never sent anywhere. */
  datatype Styles = Styles(
    backgroundColor: Option<string>,
    textColor: Option<string>,
    connectorFill: Option<string>,
    connectorStroke: Option<string>,
    wireStroke: Option<string>,
    hoverColor: Option<string>)

  /** The identity of a caller-supplied callback (`onLoad` or `onError`). */
  datatype Handler = Handler(id: nat)

  datatype Options = Options(
    apiUrl: Option<string>,
    width: Option<string>,
    height: Option<string>,
    canvasColor: Option<string>,
    showGrid: Option<bool>,
    gridColor: Option<string>,
    showBOM: Option<bool>,
    bomPosition: Option<BomSide>,
    showTitle: Option<bool>,
    title: Option<string>,
    interactive: Option<bool>,
    controlsPosition: Option<ControlsCorner>,
    zoom: Option<ZoomConfig>,
    styles: Option<Styles>,
    onLoad: Option<Handler>,
    onError: Option<Handler>)

  /** `embed(id, ref)` called without options uses `{}`. */
  const NoOptions := Options(None, None, None, None, None, None, None, None,
                             None, None, None, None, None, None, None, None)

  /** A `Partial<EmbedOptions>`: `None` = key not mentioned, `Some(v)` = key set to `v`. */
  datatype Patch = Patch(
    apiUrl: Option<Option<string>>,
    width: Option<Option<string>>,
    height: Option<Option<string>>,
    canvasColor: Option<Option<string>>,
    showGrid: Option<Option<bool>>,
    gridColor: Option<Option<string>>,
    showBOM: Option<Option<bool>>,
    bomPosition: Option<Option<BomSide>>,
    showTitle: Option<Option<bool>>,
    title: Option<Option<string>>,
    interactive: Option<Option<bool>>,
    controlsPosition: Option<Option<ControlsCorner>>,
    zoom: Option<Option<ZoomConfig>>,
    styles: Option<Option<Styles>>,
    onLoad: Option<Option<Handler>>,
    onError: Option<Option<Handler>>)

  /** `update({})`. */
  const EmptyPatch := Patch(None, None, None, None, None, None, None, None,
                            None, None, None, None, None, None, None, None)

  /** The wire spelling of a BOM position. */
  function BomSideText(s: BomSide): (t: string)
    ensures t != ""
  {
    match s
    case Top => "top"
    case Bottom => "bottom"
    case Left => "left"
    case Right => "right"
  }

  /** The wire spelling of a controls corner. */
  function ControlsCornerText(c: ControlsCorner): (t: string)
    ensures t != ""
  {
    match c
    case TopRight => "top-right"
    case TopLeft => "top-left"
    case BottomRight => "bottom-right"
    case BottomLeft => "bottom-left"
  }

  /** One property under `Object.assign`: a mentioned key takes the patch's value. */
  function Assign<T>(current: Option<T>, update: Option<Option<T>>): Option<T>
  {
    if update.Some? then update.value else current
  }

  /** `Object.assign(options, p)`: a shallow, key-by-key overwrite. */
  function Merge(o: Options, p: Patch): Options
  {
    Options(
      Assign(o.apiUrl, p.apiUrl),
      Assign(o.width, p.width),
      Assign(o.height, p.height),
      Assign(o.canvasColor, p.canvasColor),
      Assign(o.showGrid, p.showGrid),
      Assign(o.gridColor, p.gridColor),
      Assign(o.showBOM, p.showBOM),
      Assign(o.bomPosition, p.bomPosition),
      Assign(o.showTitle, p.showTitle),
      Assign(o.title, p.title),
      Assign(o.interactive, p.interactive),
      Assign(o.controlsPosition, p.controlsPosition),
      Assign(o.zoom, p.zoom),
      Assign(o.styles, p.styles),
      Assign(o.onLoad, p.onLoad),
      Assign(o.onError, p.onError))
  }

  /** The key-by-key union of two patches, the later one winning. */
  function Then(p: Patch, q: Patch): Patch
  {
    Patch(
      if q.apiUrl.Some? then q.apiUrl else p.apiUrl,
      if q.width.Some? then q.width else p.width,
      if q.height.Some? then q.height else p.height,
      if q.canvasColor.Some? then q.canvasColor else p.canvasColor,
      if q.showGrid.Some? then q.showGrid else p.showGrid,
      if q.gridColor.Some? then q.gridColor else p.gridColor,
      if q.showBOM.Some? then q.showBOM else p.showBOM,
      if q.bomPosition.Some? then q.bomPosition else p.bomPosition,
      if q.showTitle.Some? then q.showTitle else p.showTitle,
      if q.title.Some? then q.title else p.title,
      if q.interactive.Some? then q.interactive else p.interactive,
      if q.controlsPosition.Some? then q.controlsPosition else p.controlsPosition,
      if q.zoom.Some? then q.zoom else p.zoom,
      if q.styles.Some? then q.styles else p.styles,
      if q.onLoad.Some? then q.onLoad else p.onLoad,
      if q.onError.Some? then q.onError else p.onError)
  }

  /** A patch that mentions every key, each with the value it has in `o`. */
  function Everything(o: Options): Patch
  {
    Patch(
      Some(o.apiUrl), Some(o.width), Some(o.height), Some(o.canvasColor),
      Some(o.showGrid), Some(o.gridColor), Some(o.showBOM), Some(o.bomPosition),
      Some(o.showTitle), Some(o.title), Some(o.interactive), Some(o.controlsPosition),
      Some(o.zoom), Some(o.styles), Some(o.onLoad), Some(o.onError))
  }

  /** `update({})` leaves the options as they were. */
  lemma MergeEmpty(o: Options)
    ensures Merge(o, EmptyPatch) == o
  {
  }

  /** Two updates in a row are one update with the union of their keys. */
  lemma MergeThen(o: Options, p: Patch, q: Patch)
    ensures Merge(Merge(o, p), q) == Merge(o, Then(p, q))
  {
  }

  /** Repeating an update changes nothing more. */
  lemma MergeIdempotent(o: Options, p: Patch)
    ensures Merge(Merge(o, p), p) == Merge(o, p)
  {
  }

  /**
   * Whatever the options were before, a patch that mentions every key
   * replaces them; and `Merge(o, p)` is `o` written out in full with `p`
   * laid over it, so keys `p` does not mention keep their values from `o`.
   */
  lemma MergeOverlay(o: Options, base: Options, p: Patch)
    ensures Merge(base, Everything(o)) == o
    ensures Merge(o, p) == Merge(base, Then(Everything(o), p))
  {
  }
}
