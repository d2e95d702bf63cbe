# Splice embed: a Dafny model of the embed factory and its controller

`@splice-cad/embed` lets a web page show a Splice harness diagram in an
iframe. `embed(containerId, harnessIdOrToken, options)` finds the
container, settles the options with `||` defaults, and builds the URL
`{apiUrl}/api/embed/{harnessIdOrToken}?…`. The query carries the display
options. The factory then attaches the frame and returns a controller.
The controller offers `zoomIn`, `zoomOut`, `fitToView`, `destroy` and
`update`. The zoom calls talk to the frame through `postMessage`.

The model has four modules, one per concern of `src/embed/index.ts`:

- `options.dfy` (`EmbedOptions`): the options record, partial updates
  (`Patch`) and the `Object.assign` merge (`Merge`). A patch field is
  `Option<Option<T>>`, because `Object.assign` copies a key given as
  `undefined`. So a key that is mentioned as `undefined` differs from a
  key that is not mentioned at all.
- `query.dfy` (`EmbedQuery`): the query builder. `Query` is the
  straight-line list of nine conditional `set` calls. `Expected` is the
  rule stated key by key. The lemmas show that `Query` is the only list
  that follows the fixed key order and carries exactly what the rule asks
  for.
- `factory.dfy` (`EmbedFactory`): the factory's outcome as a function.
  It covers the `||` defaults, the missing-container error (`onError` is
  called, then the error is thrown) and the frame's load and error
  notifications.
- `controller.dfy` (`EmbedController`): the returned controller, a class.
  Its fields are `currentZoom`, the fixed bounds, the captured base URL
  and identifier, the options, the frame's `src`, whether the frame is
  attached, and the log of posted messages. Its invariant `Valid()` says
  that `src` is always the URL built from the captured base and the
  current options. The class does not keep the zoom bounds as an
  invariant, because the code does not keep them.

Inputs from the host are parameters. The document lookup is
`containerFound`. Whether the host's `URL` constructor accepts the base is
`baseParses`. The same base string is rebuilt on every `update`, so
`update` cannot throw once creation has succeeded.

Two behaviours of the code are easy to miss:

- The code does not keep `minZoom ≤ currentZoom ≤ maxZoom`. It does not
  check the initial zoom, and `fitToView` sets the zoom to 1 whatever the
  bounds are. A `zoomIn` from below the minimum can stay below it
  (`BoundsNotInvariant`). From a zoom inside ordered, non-negative bounds,
  both zoom steps stay inside them (`ZoomStepsKeepRange`).
- A string option set to `""` is not sent, because the code tests it for
  truthiness (`QueryLookup`).

## Model

| member | source | states |
|---|---|---|
| `EmbedOptions.BomSideText` | src/embed/index.ts:23 | every BOM position spells as a non-empty, truthy string, so a set `bomPosition` is always sent |
| `EmbedOptions.ControlsCornerText` | src/embed/index.ts:31 | every controls corner spells as a non-empty string, so a set `controlsPosition` is always sent |
| `EmbedOptions.MergeEmpty` | src/embed/index.ts:187 | `Object.assign(options, {})` leaves the options unchanged |
| `EmbedOptions.MergeThen` | src/embed/index.ts:187 | two updates in a row equal one update with the union of their keys, the later value winning |
| `EmbedOptions.MergeIdempotent` | src/embed/index.ts:187 | applying the same partial update twice changes nothing more |
| `EmbedOptions.MergeOverlay` | src/embed/index.ts:187 | a patch that mentions every key replaces the options; otherwise the result is the old options with only the mentioned keys overwritten, and unmentioned keys keep their values |
| `EmbedQuery.KeysDistinct` | src/embed/index.ts:114-140 | the nine parameter names (and their set positions) are pairwise distinct |
| `EmbedQuery.SegmentRule` | src/embed/index.ts:114-140 | each conditional `set` adds exactly one parameter for its key when the rule says so, and none otherwise |
| `EmbedQuery.QueryLookup` | src/embed/index.ts:114-140 | a string or enum option yields its parameter iff it is truthy (verbatim value, `""` dropped); a boolean option yields its parameter iff it is defined, valued "true"/"false" |
| `EmbedQuery.QueryAscending` | src/embed/index.ts:113-140 | parameters come in the order canvasColor, showGrid, gridColor, showBOM, bomPosition, showTitle, title, interactive, controlsPosition, and no key appears twice |
| `EmbedQuery.QueryCharacterised` | src/embed/index.ts:113-140 | a parameter list equals the built query iff it is in that order and carries exactly the parameters the serialisation rule requires |
| `EmbedQuery.QueryIgnoresOtherFields` | src/embed/index.ts:113-140 | options that agree on the nine serialised fields give the same query, so `apiUrl`, `width`, `height`, `zoom`, `styles` and the callbacks never appear |
| `EmbedQuery.MergeParam` | src/embed/index.ts:187-199 | after an update, a key the patch does not mention keeps its old parameter; a key it mentions gets a parameter that depends on the patch alone |
| `EmbedQuery.UpdateEmptyRebuildsSameUrl` | src/embed/index.ts:187-201 | `update({})` rebuilds exactly the URL built at creation |
| `EmbedQuery.GridColorSurvivesLaterUpdate` | src/embed/index.ts:187-199 | `update({gridColor:'#ff0000'})` then `update({showGrid:true})` keeps `gridColor=#ff0000` in the URL beside `showGrid=true` |
| `EmbedFactory.Resolve` | src/embed/index.ts:87-148 | field by field, a truthy `apiUrl`, `width`, `height` or zoom `initial`/`min`/`max` is used as given, and an absent or falsy one falls back to https://splice-cad.com, 100%, 600px, 1, 0.1 or 5; so no resolved value is falsy |
| `EmbedFactory.ResolveDefaults` | src/embed/index.ts:87-148 | without options the base is https://splice-cad.com, the size 100% × 600px, and the zoom 1 within [0.1, 5] |
| `EmbedFactory.ResolveFalsyAsAbsent` | src/embed/index.ts:146-148 | a falsy value (`""`, `0`) for `apiUrl`, `width`, `height` or a zoom bound resolves as if it were absent |
| `EmbedFactory.ResolveStable` | src/embed/index.ts:146-148 | writing the resolved values back into the options resolves to the same values |
| `EmbedFactory.EmbedFailure` | src/embed/index.ts:88-94 | the call throws iff the container is missing or the base does not parse; a missing container throws `Container element #<id> not found` after calling `onError` once, if it is set, with that same error; an unparsable base calls nothing |
| `EmbedFactory.LoadCalls` | src/embed/index.ts:158-160 | a frame load makes at most one call, iff `onLoad` is set, and it goes to `onLoad` with `{id: harnessIdOrToken}` |
| `EmbedFactory.LoadErrorCalls` | src/embed/index.ts:163-166 | a frame error makes at most one call, iff `onError` is set, and it goes to `onError` with `Failed to load harness: <id>` instead of a throw (for a callback that returns normally) |
| `EmbedController.ZoomedIn` | src/embed/index.ts:171 | the new zoom is the smaller of `z*1.2` and the maximum: at most both, and equal to one of them |
| `EmbedController.ZoomedOut` | src/embed/index.ts:175 | the new zoom is the larger of `z/1.2` and the minimum: at least both, and equal to one of them |
| `EmbedController.Controller.constructor` | src/embed/index.ts:142-148 | the new controller has the frame attached at the URL for the captured base and options, the resolved zoom and bounds, and an empty message log |
| `EmbedController.Controller.PostMessage` | src/embed/index.ts:151-155 | `{action, data}` is appended to the log, with the captured `apiUrl` as its target origin, only while the frame has a window |
| `EmbedController.Controller.ZoomIn` | src/embed/index.ts:170-173 | the zoom becomes `min(old*1.2, maxZoom)`, so it is ≤ maxZoom; one `zoom` message with the new level is logged if the frame is attached; options, `src` and attachment are unchanged |
| `EmbedController.Controller.ZoomOut` | src/embed/index.ts:174-177 | the zoom becomes `max(old/1.2, minZoom)`, so it is ≥ minZoom; one `zoom` message with the new level is logged if the frame is attached; nothing else changes |
| `EmbedController.Controller.FitToView` | src/embed/index.ts:178-181 | the zoom becomes exactly 1 whatever the bounds; one `fitToView` message without data is logged if the frame is attached |
| `EmbedController.Controller.Destroy` | src/embed/index.ts:182-184 | the frame is detached; zoom, options, `src` and the log are unchanged |
| `EmbedController.Controller.Update` | src/embed/index.ts:185-202 | options become the old options merged with the patch; `src` is rebuilt from the merged options and the base captured at creation; zoom, bounds, base, identifier, attachment and log are unchanged |
| `EmbedController.ZoomInTimesWithin` | src/embed/index.ts:170-173 | from a positive zoom within the maximum, repeated `zoomIn` never decreases the zoom and never exceeds the maximum |
| `EmbedController.ZoomOutTimesWithin` | src/embed/index.ts:174-177 | from a zoom at or above a non-negative minimum, repeated `zoomOut` never increases the zoom and never goes below the minimum |
| `EmbedController.ZoomOutStaysAtMin` | src/embed/index.ts:174-177 | at a positive minimum, any number of `zoomOut` calls stays at the minimum |
| `EmbedController.ZoomInStaysAtMax` | src/embed/index.ts:170-173 | at a positive maximum, any number of `zoomIn` calls stays at the maximum |
| `EmbedController.ZoomStepsKeepRange` | src/embed/index.ts:170-177 | with ordered non-negative bounds, both zoom steps keep a zoom that lies within the bounds within them |
| `EmbedController.BoundsNotInvariant` | src/embed/index.ts:146-179 | the bounds are not an invariant: with `zoom: {min: 2}` the resolved initial zoom (and the 1 `fitToView` sets) lies below the minimum and `zoomIn` stays below it; with `zoom: {initial: 6}` the zoom starts above the maximum and `zoomIn` lowers it |
| `EmbedController.Start` | src/embed/index.ts:82-148 | a successful `embed` returns an attached controller whose URL has the base for the resolved `apiUrl` and the identifier, and whose parameters follow the serialisation rule for the caller's options in the fixed order; it starts at the resolved zoom and bounds with an empty log |
| `EmbedController.ExampleScenario` | src/embed/index.ts:113-177 | `embed('diagram','abc123',{showGrid:true, zoom:{min:0.5,max:2}})` yields only `showGrid=true` in the query, starts at zoom 1, and nine `zoomOut` calls leave the zoom at 0.5 |

`EmbedController.ExampleSession` runs the same scenario through the class
using only the method contracts: creation through `Start`, two updates,
nine `zoomOut` calls, `destroy`, then a `fitToView` that posts nothing.

## Left out

- DOM plumbing: `getElementById`, the container and frame style
  assignments, `createElement`, `appendChild` and `removeChild`. The lookup
  is the `containerFound` input. The container styles are reduced to the
  resolved width and height. The frame is reduced to `src` and `attached`.
- The `URL`/`searchParams` library: percent-encoding, how
  `harnessIdOrToken` is parsed when it contains `?`, `#` or `/`, and
  `toString`. A URL is its base string and its list of parameters. Whether
  the base parses is the `baseParses` input.
- The `postMessage` transport and the browser's origin check. Only the
  logged message and its target origin are modelled. The frame is taken
  to have a content window exactly while it is attached.
- The timing of the asynchronous `onload`/`onerror` events. `LoadCalls`
  and `LoadErrorCalls` give the calls a handler makes from the options
  current when it fires.
- Caller callbacks are assumed to return normally. If `onError` throws
  while the factory reports a missing container, that exception propagates
  instead of the `Container element #<id> not found` error
  (`EmbedFailure`). If `onError` throws in the frame's error handler, the
  handler throws too (`LoadErrorCalls`).
- Aliasing: `Object.assign` writes into the caller's own options object.
  Changes the caller later makes to that object are not modelled.
- IEEE-754 doubles. Zoom values are exact rationals. No exact
  `zoomIn`/`zoomOut` round trip is claimed, since the source's doubles
  round. `NaN` (falsy under `||`, and propagated by `Math.min`/`Math.max`)
  and `-0` are not modelled.
- Values outside the TypeScript types (an empty-string enum, `null`
  options or fields) are not modelled. Every enum value is a non-empty
  string.
- The unused `HarnessData` interface, the `window.Splice` global
  registration and the default export. They have no behaviour to model.
- `vite.config.ts` is build configuration and is not part of this model.
- EmbedController.Controller.Destroy: requires the frame to be attached.
  A second `removeChild` of a detached frame throws in the host, and the
  model does not describe that throw.
