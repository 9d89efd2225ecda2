# Tamper-resistant watermark and toolkit helpers, modelled in Dafny

The `Watermark` class of this repository renders text (an optional tip next to it)
or an image into one tile. It lays that tile over the whole page with a fixed,
full-viewport overlay and re-creates the overlay when the page tampers with it.
The model covers:

- the constructor's defaults and its content-or-image gate (`WatermarkProps`);
- the tile-size estimator `getDynamicWidthHeight` (`TileLayout`);
- `draw`, written as the list of 2D-context commands it issues, together with an
  interpreter of those commands (save/restore, transforms, paint), and
  `getImage`'s choice of result (`Rasterizer`);
- the two MutationObserver tamper classifiers (`Integrity`);
- the mount state machine: `create`, `destroy`, the delayed observer arming and the
  observer callbacks, as a class whose fields the methods update (`Watermark`).

The toolkit object contributes `over`, `diff`, `deepFlatten`,
`elementIsVisibleInViewport` and the event hub returned by `createEventHub` (`Toolkit`).

The host's callbacks (`onSuccess`, `onWatermarkNull`, `onDestory`, and the default
"security issue" warning) are modelled as `Notice` values appended to the instance's `log`
in the order they fire. Timers and mutation delivery are explicit steps
(`ObserveTimerFires`, `OnMutations`). The measured offset widths and their trigonometry are
inputs (`Probe`), and PNG encoding of a canvas is a function parameter (`encode`).

Behaviour of the code worth knowing when reading the model:

- The body observer compares only `removedNodes[0]` with the overlay (watermark.ts:512). `Integrity.RemovalSeenOnlyAtIndexZero` shows an overlay removed as the
  second node of one record goes unnoticed.
- `destroy` clears the cached image (watermark.ts:446). Every re-creation after tampering
  therefore rasterizes again (`Watermark.RemovalIsRepaired`).
- A missing 2D context makes `createHDCanvas` throw (watermark.ts:283) before `draw`'s own
  `if (!context) return` (watermark.ts:297), which is therefore unreachable. `draw` rejects,
  and `getImage` fires `onWatermarkNull` and resolves to `""`.
- The constructor always passes `fontSize`, `width`, `height`, `maxWidth` and `maxHeight`
  (watermark.ts:102-116). The estimator's own defaults (12, 100, 500 at watermark.ts:168-174)
  are never used.
- The constructor's `if (this.HSALPWATERMARK) return` (watermark.ts:59) is dead on a fresh
  instance and is not modelled.
- toolkit.js does not parse as written: the arrow body of `createEventHub` (toolkit.js:13) is
  a block, not an object literal, and `emit(event, data) {` inside it is a syntax error. The
  event hub is modelled as the object literal of toolkit.js:14-25 evidently meant.
  (toolkit.js:38 `ek,scrollTop` parses; when run, `getScrollPosition` would throw a
  ReferenceError: on `scrollTop` for the default `el = window`, and on `ek` when
  `el.pageYOffset` is undefined. It is not part of this model.)
- A `create` whose `onSuccess` throws resets the flag but leaves its overlay in the body
  (watermark.ts:433-437). The next `create` appends a second overlay and nothing removes the
  first (`Watermark.ThrowingSuccessLeavesTwoOverlays`). In the model, where each `create`
  runs to completion before the next call, every other path keeps at most one overlay, the
  current one, in the body (`OneOverlay`); see "Concurrency" under "## Left out" for what
  interleaved calls can do in the source.

## Model

| member | source | states |
|---|---|---|
| WatermarkProps.ValidContentOrImage | watermark.ts:144-158 | accepts iff the text or the image is truthy; on refusal fires exactly one callback, the supplied `onWatermarkNull` iff there is one, else the default warning |
| WatermarkProps.ValidateInstance | watermark.ts:144-148 | the gate on the instance's own fields; an instance whose constructor returned early is refused with the default warning |
| WatermarkProps.NullNotice | watermark.ts:267-273 | `onWatermarkNull` fires the supplied callback iff there is one, else the default warning |
| WatermarkProps.BoundsOf | watermark.ts:72-75 | each bound is the supplied prop if given, else its own default (160 for the minimums, 320 for the maximums) |
| WatermarkProps.Configure | watermark.ts:88-127 | the font shorthand is weight, size in px and family; a truthy weight, family, colour or background position is used, else its default; alpha and z-index are used unless missing or 0, else 0.1 and 2147483647; rotate and image sizes are used if given, else 0 and 160; the tile is stored; content, tip, image, verify and callbacks pass through |
| JsValues.NatToStringReadsBack | watermark.ts:95 | the decimal digits written into the font size read back to the number |
| WatermarkProps.DefaultFont | watermark.ts:94-97 | with no font props the font is "normal 14px Licium, sans-serif" |
| TileLayout.Clamp | watermark.ts:241-246 | values below the minimum become the minimum; otherwise values above the maximum become the maximum; others are unchanged; with ordered bounds this is `max(lo, min(v, hi))`; with crossed bounds, the minimum exactly for values below it, else the maximum |
| TileLayout.Layout | watermark.ts:214-263 | content and tip widths are the measured widths plus the font size, clamped to the width bounds (no tip: tip width 0); the height is the taller run plus the font size, clamped to the height bounds; width is their sum; all within ordered bounds and non-negative for non-negative bounds |
| TileLayout.GetDynamicWidthHeight | watermark.ts:161-264 | the estimator's if/else reassignments compute exactly `Layout` |
| TileLayout.MeasuredWidthKeptWithinBounds | watermark.ts:241-246 | a measured width inside the bounds is kept as measured (plus the font size) |
| TileLayout.HeightCoversBothRuns | watermark.ts:249-256 | the tile is at least as tall as each run, where the maximum allows |
| Rasterizer.Draw | watermark.ts:288-351 | `null` iff validation fails (with its callback); rejected with no callback on a missing context; a verify mismatch fires one callback and drawing continues; text gives a canvas of the tile's size; otherwise the image string passes through unchanged |
| Rasterizer.SetupPaints | watermark.ts:304-310 | the setup commands leave the configured font, centre alignment, middle baseline, colour and alpha as the paint, and nothing else changed |
| Rasterizer.BracketedRestores | watermark.ts:311-323 | a save/translate/rotate/fill/restore run places its text once at the moved origin and returns the state, saved stack included, to what it was |
| Rasterizer.RunAppend | watermark.ts:311-329 | issuing two command lists one after the other is issuing their concatenation |
| Rasterizer.DrawPlacesText | watermark.ts:303-342 | with a tip, content and tip each rotate about the middle of their own sub-width at half height, the first rotation not carried into the second, and the state is restored; without a tip, the content rotates about the tile centre; all with the configured paint |
| Rasterizer.TipOriginsInsideTheirRegions | watermark.ts:313-324 | for the settings the constructor stores from props with non-negative size bounds, the content origin lies in the content's sub-width, the tip origin in the rest of the tile, both at mid-height |
| Rasterizer.GetImage | watermark.ts:354-366 | `undefined` iff validation fails, with the gate's callback and no other; `""` with one `onWatermarkNull` when drawing rejects or encoding fails; the image props unchanged for image content; the encoded canvas for text |
| Integrity.ClassifyOverlayBatch | watermark.ts:466-475 | tampering iff the batch holds any record |
| Integrity.ClassifyBodyBatch | watermark.ts:505-520 | tampering iff some record's target is the overlay or its first removed node is |
| Integrity.RemovalSeenOnlyAtIndexZero | watermark.ts:512 | a removal of the overlay alone is seen; the same overlay removed after a sibling in one record is not |
| Watermark.Observer.constructor | watermark.ts:466-478 | an overlay observer made while there is no overlay observes nothing; any other observes |
| Watermark.Observer.Disconnect | watermark.ts:442-443 | a disconnected observer no longer observes |
| Watermark.Watermark.constructor | watermark.ts:58-128 | a refused input stores nothing and fires the gate's callback; an accepted one stores `Configure` of the props and the estimated tile; nothing is mounted, cached or observed, and no overlay is in the body |
| Watermark.Watermark.Create | watermark.ts:369-439 | when mounted, nothing; when the gate refuses, only its callback; otherwise mounted, image kept if cached else rasterized, old observers disconnected, one fresh overlay appended, one timer scheduled, `onSuccess` fired; a throwing `onSuccess` resets the flag and fires `onWatermarkNull`; keeps at most one overlay, the current one, in the body unless `onSuccess` throws |
| Watermark.Watermark.Rasterize | watermark.ts:377 | the image and callbacks are those of `getImage` |
| Watermark.Watermark.DisconnectAll | watermark.ts:380-381 | both observers the fields hold stop observing |
| Watermark.Watermark.Attach | watermark.ts:383-431 | a fresh overlay node joins the body and one observer timer is scheduled |
| Watermark.Watermark.NotifySuccess | watermark.ts:433-437 | `onSuccess` fires; if it throws, the flag is reset and `onWatermarkNull` fires |
| Watermark.Watermark.Destroy | watermark.ts:441-448 | both observers stop, the overlay leaves the body (which then holds none when it held at most the current one), flag and image cleared, `onDestory` fired, the node reference kept |
| Watermark.Watermark.ObserveTimerFires | watermark.ts:427-431 | fresh overlay and body observers replace the fields, the overlay one watching the overlay current at that moment; the replaced observers keep observing; the overlays in the body are untouched |
| Watermark.Watermark.OnMutations | watermark.ts:466-520 | a batch counts as tampering per the observer's role against the overlay current at that moment; on tampering the instance is destroyed and recreated, re-rasterizing, with `onDestory` before the creation's callbacks; otherwise nothing changes; at most one overlay, the current one, stays in the body unless `onSuccess` throws |
| Watermark.Watermark.HostRemoves | watermark.ts:512 | the node leaves the body and the body observer's record has it as the only removed node; removal keeps at most the current overlay in the body |
| Watermark.MountAndArm | watermark.ts:369-431 | construction with valid props, `create` and the timer leave one overlay in the body, watched by an observing body observer |
| Watermark.RemovalIsRepaired | watermark.ts:505-520 | removing the overlay makes the body observer mount a fresh one as the only overlay in the body, with one more observer timer pending, firing `onDestory`, the image callbacks and `onSuccess` |
| Watermark.RemovalRepairRearms | watermark.ts:425-431 | from an armed instance, removal, repair and the timer the repair scheduled arm it again: a new overlay, a new observing body observer, as many timers pending as before |
| Watermark.ThrowingSuccessLeavesTwoOverlays | watermark.ts:433-437 | after a `create` whose `onSuccess` throws, the next `create` mounts with two overlays in the body |
| Watermark.DestroyTwice | watermark.ts:441-448 | a second `destroy` changes nothing more (flag, image, node, body, observer fields, observer set, pending timers as after one) but fires `onDestory` again |
| Watermark.RecreateBeforeTimerLeaksObserver | watermark.ts:427-431 | `create`, `destroy`, `create` (each run to completion) before the timer ran leave an observer that still observes and that no field refers to |
| Toolkit.Over | toolkit.js:3 | one result per function, the i-th being the i-th function applied to the arguments |
| Toolkit.Diff | toolkit.js:6 | each element not in `b` kept exactly as often as in `a`, every element of `b` dropped |
| Toolkit.DiffAppend | toolkit.js:6 | `diff` keeps `a`'s order: it distributes over concatenating `a` |
| Toolkit.DiffOfNothing | toolkit.js:6 | subtracting nothing returns `a` |
| Toolkit.DeepFlatten | toolkit.js:5 | a single value flattens to itself (the corrected helper; see Findings) |
| Toolkit.DeepFlattenAppend | toolkit.js:5 | leaves come out left to right: flattening distributes over concatenation |
| Toolkit.DeepFlattenFlat | toolkit.js:5 | on an array holding no arrays, flattening is the identity |
| Toolkit.DeepFlattenUnwrap | toolkit.js:5 | an array inside an array flattens to the same leaves |
| Toolkit.DeepFlattenIdempotent | toolkit.js:5 | flattening a flattened array changes nothing |
| Toolkit.DeepFlattenAsWritten | toolkit.js:5 | as written: agrees with `DeepFlatten` on arrays without arrays, throws a ReferenceError on any array holding an array |
| Toolkit.DeepFlattenAsWrittenFailsOnNesting | toolkit.js:5 | `[[x]]` throws as written, where the intended helper gives `[x]` |
| Toolkit.ElementIsVisibleInViewport | toolkit.js:28-35 | full mode: iff both vertical edges lie in [0, innerHeight] and both horizontal in [0, innerWidth]; partial mode: iff a vertical edge lies strictly inside the height and the left edge strictly inside the width, or the right edge strictly inside (0, innerHeight) |
| Toolkit.ElementIsVisibleInViewportIntended | toolkit.js:31-34 | the same test with the right edge measured against innerWidth; agrees with the as-written test in full mode and on square viewports |
| Toolkit.IntendedIsAxisSymmetric | toolkit.js:31-34 | the intended test is unchanged by swapping the axes of element and viewport |
| Toolkit.FullyVisibleIsPartiallyVisible | toolkit.js:31-34 | a fully visible element with bottom and right edges strictly inside is partially visible under the intended test |
| Toolkit.AsWrittenMissesWideElement | toolkit.js:33 | on a 800-wide, 600-high viewport a fully visible element at the left edge, right edge at 700, is not even partially visible as written |
| Toolkit.RemoveFirst | toolkit.js:23-24 | unchanged when the handler is absent; otherwise one shorter with exactly one occurrence of the handler gone |
| Toolkit.RemoveFirstAt | toolkit.js:23-24 | removing the first occurrence is cutting out the position `findIndex` gives |
| Toolkit.FindIndex | toolkit.js:23 | -1 iff the handler is absent, else the position of its first occurrence |
| Toolkit.OffUndoesOn | toolkit.js:18-25 | pushing an absent handler then removing its first occurrence restores the list |
| Toolkit.EventHub.constructor | toolkit.js:14 | the hub starts empty |
| Toolkit.EventHub.Emit | toolkit.js:15-17 | one call per registered handler, in registration order, each with the data; none for an unregistered event |
| Toolkit.EventHub.On | toolkit.js:18-21 | the handler appended to the event's list, created if missing; other events unchanged |
| Toolkit.EventHub.Off | toolkit.js:22-25 | the first occurrence spliced out of the event's list; no change at all when absent or unregistered |
| Toolkit.OnThenOff | toolkit.js:18-25 | `on` then `off` of a new handler leaves every event's handlers as they were |

## Left out

- DOM measurement: the probe element's `offsetWidth` and the `cos`/`sin`/`ceil` of the rotated width are inputs (`Probe`); `rotate % 360` and the degree-to-radian conversion are not modelled, and the angle is kept in degrees.
- In image mode the estimator sets a tip's text on an `img` probe; what the browser then measures is an input like any other measurement.
- Font size, sizes and bounds are integers; fractional or negative `fontSize` props and floating point rounding are not modelled.
- `createHDCanvas`'s device-pixel-ratio scaling and `setTransform`, `canvas.remove()` and `toDataURL` are reduced to a surface flag and the `encode` parameter.
- The CSS text of the overlay and its inner node and the `setTimeout` opacity change are not modelled; an overlay is one node.
- Concurrency: `create` is atomic in the model. In the source it sets the flag (watermark.ts:376) and then yields at `await this.getImage()` (watermark.ts:377) whenever no image is cached, so other calls can interleave there. Read as text (not executed), `create(); destroy(); create();` without awaiting lets `destroy` reset the flag and the image (watermark.ts:445-446) before anything is mounted, so the second `create` passes the guard at watermark.ts:370; both then resume and each appends a node (watermark.ts:383, 425). The body holds two overlays, `this.watermark` is the second, `destroy` removes only that one (watermark.ts:444), and the body observer ignores a removal of the first (watermark.ts:512), so nothing removes it. `OneOverlay` is not preserved under such interleavings, and `Watermark.RecreateBeforeTimerLeaksObserver` takes each `create` as finished before the next call.
- `getImage` resolving to `undefined` (draw gave `null`) and to `""` are both stored as `""`; both are falsy, which is all `create` tests.
- Watermark.Watermark.OnMutations: the host's `onDestory` is taken not to throw. A throwing `onDestory` (watermark.ts:447) ends the observer callback before `this.create()` (watermark.ts:473, 518), so tampering would leave the watermark destroyed and no longer observed instead of destroyed and recreated.
- Watermark.Watermark.Create: only `onSuccess` may throw in the model (`successThrows`); `onWatermarkNull` is taken not to throw. A throwing `onWatermarkNull` on a verify mismatch (watermark.ts:300) would fire again from `getImage`'s catch (watermark.ts:363) and then make `create` reject at watermark.ts:377 with `HSALPWATERMARK` already true and nothing mounted, so every later `create` returns at watermark.ts:370 until `destroy` runs.
- Watermark.Watermark.OnMutations: what the source's `this.create()` promise does after tampering is taken as run to completion, and a `create` started by one observer while another's callback runs is not interleaved.
- Watermark.Observer.constructor: the `try`/`catch` around the overlay observer (watermark.ts:463-483) has no throwing call in the model, so its `onWatermarkNull` path is not modelled.
- The host deleting the overlay through other mutations (attribute or style changes) appears only as mutation batches given to `OnMutations`.
- Console output of the default warning is the `SecurityIssue` notice.
- Toolkit.EventHub: `this.hub[event]` converts the event to a property key, so `1` and `"1"` are one event and every plain object is `"[object Object]"`; the model takes events as their string keys and does not model that conversion.
- Emit does not model handlers that change the hub while `forEach` runs, nor a throwing handler.
- `call`, `unary`, `bottomVisible`, `createElement`, `detectDeviceType`, `getScrollPosition`, `show`, `hide`, the DOM `on`/`off` and `scrollToTop` in toolkit.js are thin wrappers over browser or foreign calls and are not modelled.
- Toolkit.Diff: `Set` membership (SameValueZero) is modelled as Dafny equality, so NaN and the two zeros are not distinguished.
- The other files of the repository (baidu-face-app, socketio-chat) are not part of this model.

## Findings

| source | as written | input that shows it | evidently intended | confidence | as-written member | corrected member |
|---|---|---|---|---|---|---|
| toolkit.js:5 | `deepFlatten` calls `deepFlatten`, a name that is not bound inside the object literal | `deepFlatten([[1]])` throws a ReferenceError | recurse into the helper itself, giving `[1]` | not executed; certain from scoping | Toolkit.DeepFlattenAsWritten (Toolkit.DeepFlattenAsWrittenFailsOnNesting) | Toolkit.DeepFlatten (Toolkit.DeepFlattenAppend, Toolkit.DeepFlattenFlat) |
| toolkit.js:33 | the partial test compares `right < innerHeight` | element top 10, left 0, bottom 20, right 700 in an 800 × 600 viewport: fully visible, yet not partially visible | `right < innerWidth` | not executed; high | Toolkit.ElementIsVisibleInViewport (Toolkit.AsWrittenMissesWideElement) | Toolkit.ElementIsVisibleInViewportIntended (Toolkit.IntendedIsAxisSymmetric, Toolkit.FullyVisibleIsPartiallyVisible) |
