/**
 * The controller that `embed` returns: closures over the zoom state, the
 * options record and the frame, modelled as one object whose methods update
 * those fields in place.
 *
 * The frame is reduced to its `src` and whether it is attached; a message
 * posted with `postMessage` is recorded in `sent` together with its target
 * origin. A detached frame has no content window, so nothing is posted.
 * Zoom values are exact rationals; the source's doubles round `* 1.2` and
 * `/ 1.2`.
 */
module EmbedController {
  import opened EmbedOptions
  import opened EmbedQuery
  import opened EmbedFactory

  /** The step by which `zoomIn` multiplies and `zoomOut` divides. */
  const ZoomFactor: real := 1.2

  /** `{action, data}`; `level` is `data.level`, absent when `data` is. */
  datatype Message = Message(action: string, level: Option<real>, targetOrigin: string)

  function ZoomMessage(level: real, origin: string): Message
  {
    Message("zoom", Some(level), origin)
  }

  function FitMessage(origin: string): Message
  {
    Message("fitToView", None, origin)
  }

  /** What `postMessage` adds to the log: the message, if the frame still has a window. */
  function Posted(attached: bool, m: Message): seq<Message>
  {
    if attached then [m] else []
  }

  /** `Math.min(z * 1.2, max)`: the larger zoom, capped at the maximum only. */
  function ZoomedIn(z: real, max: real): (r: real)
    ensures r <= max && r <= z * ZoomFactor
    ensures r == max || r == z * ZoomFactor
  {
    if z * ZoomFactor < max then z * ZoomFactor else max
  }

  /** `Math.max(z / 1.2, min)`: the smaller zoom, floored at the minimum only. */
  function ZoomedOut(z: real, min: real): (r: real)
    ensures r >= min && r >= z / ZoomFactor
    ensures r == min || r == z / ZoomFactor
  {
    if z / ZoomFactor > min then z / ZoomFactor else min
  }

  /** The zoom after `n` calls of `zoomIn`. */
  function ZoomInTimes(z: real, max: real, n: nat): real
  {
    if n == 0 then z else ZoomedIn(ZoomInTimes(z, max, n - 1), max)
  }

  /** The zoom after `n` calls of `zoomOut`. */
  function ZoomOutTimes(z: real, min: real, n: nat): real
  {
    if n == 0 then z else ZoomedOut(ZoomOutTimes(z, min, n - 1), min)
  }

  predicate InRange(z: real, min: real, max: real)
  {
    min <= z <= max
  }

  // ---------------------------------------------------------------------
  // The controller object
  // ---------------------------------------------------------------------

  class Controller {
    const apiUrl: string
    const harnessRef: string
    const minZoom: real
    const maxZoom: real
    var currentZoom: real
    var options: Options
    var src: EmbedUrl
    var attached: bool
    var sent: seq<Message>

    /** The frame always shows the URL built from the captured base and the current options. */
    ghost predicate Valid()
      reads this
    {
      src == BuildUrl(apiUrl, harnessRef, options)
    }

    /** The state right after `embed` returns: frame attached, nothing sent yet. */
    constructor (c: Config)
      ensures Valid()
      ensures apiUrl == c.settings.apiUrl && harnessRef == c.harnessRef
      ensures minZoom == c.settings.minZoom && maxZoom == c.settings.maxZoom
      ensures currentZoom == c.settings.initialZoom && options == c.options
      ensures attached && sent == []
    {
      apiUrl := c.settings.apiUrl;
      harnessRef := c.harnessRef;
      minZoom := c.settings.minZoom;
      maxZoom := c.settings.maxZoom;
      currentZoom := c.settings.initialZoom;
      options := c.options;
      src := BuildUrl(c.settings.apiUrl, c.harnessRef, c.options);
      attached := true;
      sent := [];
    }

    /** Zoom in by the factor, capped at the maximum, and tell the frame the new level. */
    method ZoomIn()
      requires Valid()
      modifies this
      ensures Valid()
      ensures currentZoom == ZoomedIn(old(currentZoom), maxZoom) && currentZoom <= maxZoom
      ensures sent == old(sent) + Posted(attached, ZoomMessage(currentZoom, apiUrl))
      ensures options == old(options) && src == old(src) && attached == old(attached)
    {
      currentZoom := ZoomedIn(currentZoom, maxZoom);
      PostMessage("zoom", Some(currentZoom));
    }

    /** Zoom out by the factor, floored at the minimum, and tell the frame the new level. */
    method ZoomOut()
      requires Valid()
      modifies this
      ensures Valid()
      ensures currentZoom == ZoomedOut(old(currentZoom), minZoom) && currentZoom >= minZoom
      ensures sent == old(sent) + Posted(attached, ZoomMessage(currentZoom, apiUrl))
      ensures options == old(options) && src == old(src) && attached == old(attached)
    {
      currentZoom := ZoomedOut(currentZoom, minZoom);
      PostMessage("zoom", Some(currentZoom));
    }

    /** Reset the zoom to exactly 1, whatever the bounds, and ask the frame to fit. */
    method FitToView()
      requires Valid()
      modifies this
      ensures Valid()
      ensures currentZoom == 1.0
      ensures sent == old(sent) + Posted(attached, FitMessage(apiUrl))
      ensures options == old(options) && src == old(src) && attached == old(attached)
    {
      currentZoom := 1.0;
      PostMessage("fitToView", None);
    }

    /** Detach the frame from the container; a second call is the host's error. */
    method Destroy()
      requires Valid() && attached
      modifies this
      ensures Valid() && !attached
      ensures currentZoom == old(currentZoom) && options == old(options)
      ensures src == old(src) && sent == old(sent)
    {
      attached := false;
    }

    /**
     * Merge the patch into the options and point the frame at the URL
     * rebuilt from the merged options and the base captured at creation.
     */
    method Update(p: Patch)
      requires Valid()
      modifies this
      ensures Valid()
      ensures options == Merge(old(options), p)
      ensures src == BuildUrl(apiUrl, harnessRef, Merge(old(options), p))
      ensures currentZoom == old(currentZoom) && attached == old(attached) && sent == old(sent)
    {
      options := Merge(options, p);
      src := BuildUrl(apiUrl, harnessRef, options);
    }

    /**
     * `postMessage(action, data)`: `{action, data}` addressed to the captured
     * base, delivered only while the frame has a content window.
     */
    method PostMessage(action: string, level: Option<real>)
      modifies this`sent
      ensures sent == old(sent) + Posted(attached, Message(action, level, apiUrl))
    {
      if attached {
        sent := sent + [Message(action, level, apiUrl)];
      }
    }
  }

  // ---------------------------------------------------------------------
  // Lemmas about the zoom steps
  // ---------------------------------------------------------------------

  /**
   * From a positive zoom within the maximum, repeated `zoomIn` never
   * decreases the zoom and never passes the maximum.
   */
  lemma {:induction false} ZoomInTimesWithin(z: real, max: real, n: nat)
    requires 0.0 < z <= max
    ensures z <= ZoomInTimes(z, max, n) <= max
    ensures ZoomInTimes(z, max, n) <= ZoomInTimes(z, max, n + 1)
  {
    if n > 0 {
      ZoomInTimesWithin(z, max, n - 1);
    }
  }

  /**
   * From a zoom at or above a non-negative minimum, repeated `zoomOut`
   * never increases the zoom and never passes the minimum.
   */
  lemma {:induction false} ZoomOutTimesWithin(z: real, min: real, n: nat)
    requires 0.0 <= min <= z
    ensures min <= ZoomOutTimes(z, min, n) <= z
    ensures ZoomOutTimes(z, min, n + 1) <= ZoomOutTimes(z, min, n)
  {
    if n > 0 {
      ZoomOutTimesWithin(z, min, n - 1);
    }
  }

  /** Once at a positive minimum, `zoomOut` stays there. */
  lemma ZoomOutStaysAtMin(min: real, n: nat)
    requires min > 0.0
    ensures ZoomOutTimes(min, min, n) == min
  {
    ZoomOutTimesWithin(min, min, n);
  }

  /** Once at a positive maximum, `zoomIn` stays there. */
  lemma ZoomInStaysAtMax(max: real, n: nat)
    requires max > 0.0
    ensures ZoomInTimes(max, max, n) == max
  {
    ZoomInTimesWithin(max, max, n);
  }

  /**
   * When the bounds are ordered and non-negative, both zoom steps keep a
   * zoom that is within them within them.
   */
  lemma ZoomStepsKeepRange(z: real, min: real, max: real)
    requires 0.0 <= min <= max && InRange(z, min, max)
    ensures InRange(ZoomedIn(z, max), min, max)
    ensures InRange(ZoomedOut(z, min), min, max)
  {
  }

  /**
   * The bounds are not an invariant of the controller. With `zoom: {min: 2}`
   * the resolved initial zoom is 1, below the minimum, and so is the 1 that
   * `fitToView` sets; `zoomIn` from there stays below the minimum. With
   * `zoom: {initial: 6}` the zoom starts above the maximum of 5, and
   * `zoomIn` lowers it.
   */
  lemma BoundsNotInvariant()
    ensures var s := Resolve(NoOptions.(zoom := Some(ZoomConfig(None, Some(2.0), None))));
            && s.initialZoom == 1.0
            && !InRange(s.initialZoom, s.minZoom, s.maxZoom)
            && !InRange(ZoomedIn(s.initialZoom, s.maxZoom), s.minZoom, s.maxZoom)
    ensures var s := Resolve(NoOptions.(zoom := Some(ZoomConfig(Some(6.0), None, None))));
            && !InRange(s.initialZoom, s.minZoom, s.maxZoom)
            && ZoomedIn(s.initialZoom, s.maxZoom) < s.initialZoom
  {
  }

  /**
   * A successful `embed` call: the controller it returns shows the URL for
   * the resolved base and the caller's identifier, whose parameters follow
   * the serialisation rule for the caller's options in the fixed order, and
   * it starts at the resolved zoom with the resolved bounds.
   */
  method Start(containerId: string, harnessRef: string, o: Options) returns (c: Controller)
    ensures fresh(c) && c.Valid() && c.attached && c.sent == []
    ensures c.src.base == BasePath(Resolve(o).apiUrl, harnessRef)
    ensures forall k :: Lookup(c.src.params, k) == Expected(o, k)
    ensures Ascending(c.src.params)
    ensures c.currentZoom == Resolve(o).initialZoom
    ensures c.minZoom == Resolve(o).minZoom && c.maxZoom == Resolve(o).maxZoom
    ensures c.options == o && c.apiUrl == Resolve(o).apiUrl && c.harnessRef == harnessRef
  {
    var r := Embed(containerId, harnessRef, o, true, true);
    c := new Controller(r.config);
    forall k
      ensures Lookup(c.src.params, k) == Expected(o, k)
    {
      QueryLookup(o, k);
    }
    QueryAscending(o);
  }

  /**
   * `embed('diagram', 'abc123', {showGrid: true, zoom: {min: 0.5, max: 2}})`
   * with the container present: the URL carries `showGrid=true` and nothing
   * else, the zoom starts at 1, and nine `zoomOut` calls leave it at 0.5.
   */
  lemma ExampleScenario()
    ensures var o := NoOptions.(showGrid := Some(true),
                                zoom := Some(ZoomConfig(None, Some(0.5), Some(2.0))));
            var r := Embed("diagram", "abc123", o, true, true);
            && r.Embedded?
            && Query(r.config.options) == [Param(ShowGrid, "true")]
            && r.config.settings.initialZoom == 1.0
            && r.config.settings.minZoom == 0.5 && r.config.settings.maxZoom == 2.0
            && ZoomOutTimes(r.config.settings.initialZoom, r.config.settings.minZoom, 9) == 0.5
  {
  }

  /**
   * A caller's session, using only the contracts above: create the frame,
   * update the grid colour, then the grid flag, zoom out nine times, and
   * destroy.
   */
  method ExampleSession()
  {
    var o := NoOptions.(showGrid := Some(true),
                        zoom := Some(ZoomConfig(None, Some(0.5), Some(2.0))));
    ExampleScenario();
    var c := Start("diagram", "abc123", o);
    assert c.src.params == [Param(ShowGrid, "true")];

    c.Update(EmptyPatch.(gridColor := Some(Some("#ff0000"))));
    c.Update(EmptyPatch.(showGrid := Some(Some(true))));
    GridColorSurvivesLaterUpdate(o);
    assert Lookup(c.src.params, GridColor) == Some("#ff0000");
    assert c.src.base == "https://splice-cad.com/api/embed/abc123";

    var i := 0;
    while i < 8
      invariant 0 <= i <= 8 && c.Valid() && c.attached
      invariant c.minZoom == 0.5 && c.currentZoom == ZoomOutTimes(1.0, 0.5, i)
      invariant |c.sent| == i
    {
      c.ZoomOut();
      i := i + 1;
    }
    c.ZoomOut();
    assert c.currentZoom == ZoomOutTimes(1.0, 0.5, 9) == 0.5;
    assert c.sent[8] == ZoomMessage(0.5, "https://splice-cad.com");

    c.Destroy();
    c.FitToView();
    assert c.currentZoom == 1.0 && |c.sent| == 9;
  }
}
