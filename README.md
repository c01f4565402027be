# ScalingLayout, modelled in Dafny

`ScalingLayout` is a React wrapper that scales its children uniformly so that a
page designed for a fixed width (`minWidth`, 768 px by default) fits a narrower
window. It measures the window, derives a scale factor and a viewport-height
converter `scaledVh` from the measurement, publishes both through a context
(`useScaling()`), and renders its children in one wrapper carrying the
`--scale` and `--inverse-scale` style variables. Nothing is rendered until the
mount effect has run.

This project models that logic:

- `Quantization.dfy` — `Math.round(x / step) * step`, with `Math.round` as
  `Floor(x + 0.5)` (halves go up), and its properties: the result is the unique
  multiple of the step in `(x - step/2, x + step/2]`, it is idempotent and
  monotone, and it is positive exactly when `x >= step/2`.
- `Scaling.dfy` — the props as a `Config`, the pre-quantisation value
  `RawScale` (shrink, shrink-only and grow branches), the scale `Scale`, the
  converter `ScaledVh`, the reciprocal for `--inverse-scale`, the context
  snapshot `ContextValue`, the out-of-tree `DefaultContext`, and `Render`
  (nothing, or one wrapper).
- `Component.dfy` — class `ScalingLayout` holding the component's state
  (`width`, `height`, `mounted`, `observerConnected`, and the number of
  `disconnect()` calls) with `Mount` (the effect), `Resize` (the observer
  callback) and `Unmount` (the effect's cleanup), and a lifecycle sequence with the
  default props.

Numbers are Dafny `real`, an idealisation of JavaScript doubles; widths and
heights are `nat` because `window.innerWidth`/`innerHeight` are whole pixels.
A division by a zero scale, which JavaScript answers with Infinity or NaN, is
the `NonFinite` value of `Extended` rather than a precondition: quantisation can
produce scale 0, so the model keeps that case. `minWidth > 0` and
`scaleStep > 0` are required (`Config.Valid`), since the code divides by both
without checking them.

`dist/ScalingLayout.js` is the compiled form of `src/ScalingLayout.tsx` and the
logic is modelled once: src 19-24 is dist 40-45, src 37-50 is dist 48-53,
src 52-70 is dist 54-68, src 72-92 is dist 69-89, src 94-99 is dist 90-95,
src 101-109 is dist 96-101 and src 111-136 is dist 102-110. The table cites
whichever file is clearer for the row.

Two consequences of the code are easy to miss:

- The scale is not always positive, nor always at least 0.1: the code applies
  the 0.1 floor only before quantising. With a step of 1, `minWidth` 10 and
  width 3 the result is 0 (`FloorLostToCoarseStep`). The floor is proved only
  when 0.1 is a whole multiple of the step (`ScaleAtLeastFloor`), and the scale
  is positive exactly when the pre-quantisation value reaches half a step
  (`ScalePositiveIff`). In the grow branch a `maxScale` below 0.1 also breaks
  the floor.
- A teardown before the effect has run releases nothing, because the cleanup is
  registered by the same effect that measures the window and starts the
  observer; once it has run, the cleanup disconnects exactly once (`Unmount`).

## Model

| member | source | states |
|---|---|---|
| `Quantization.RoundHalfUp` | src/ScalingLayout.tsx:85 | `Math.round(x)` is the integer k with x - 1/2 < k <= x + 1/2, so halves round up |
| `Quantization.Quantize` | src/ScalingLayout.tsx:85 | `Math.round(x/step)*step`; its result lies in (x - step/2, x + step/2]; the lemmas below give uniqueness, idempotence, order and the sign |
| `Quantization.RoundHalfUpUnique` | src/ScalingLayout.tsx:85 | no other integer lies in (x - 1/2, x + 1/2], so the rounding is determined |
| `Quantization.QuantizeUnique` | dist/ScalingLayout.js:82 | any multiple j*step in (x - step/2, x + step/2] is the quantised value, with j the rounded index |
| `Quantization.QuantizeOnGrid` | src/ScalingLayout.tsx:85 | a whole multiple of the step is left unchanged |
| `Quantization.QuantizeIdempotent` | src/ScalingLayout.tsx:85 | quantising a quantised value changes nothing |
| `Quantization.QuantizeMonotone` | src/ScalingLayout.tsx:85 | quantisation preserves order |
| `Quantization.QuantizeAboveGridPoint` | src/ScalingLayout.tsx:85 | a multiple of the step below x stays below the quantised x |
| `Quantization.QuantizePositiveIff` | src/ScalingLayout.tsx:85 | the quantised value is positive if and only if x >= step/2 |
| `Scaling.UnmeasuredScaleIsOne` | src/ScalingLayout.tsx:73 | width 0 gives exactly 1 whatever the step, with no quantisation |
| `Scaling.RawScale` | src/ScalingLayout.tsx:75-83 | `newScale`: below `minWidth` in [0.1, 1); shrink-only from `minWidth` on exactly 1; growing at most `maxScale` and the width ratio, and at least 1 when `maxScale >= 1`; exact branch formulas in `ShrinkBranch`, `ShrinkOnlyBranch`, `GrowBranch` |
| `Scaling.Scale` | src/ScalingLayout.tsx:72-92 | the scale; for a measured width within half a step of `newScale`; width 0 in `UnmeasuredScaleIsOne`, the grid in `ScaleIsQuantized`, sign and floor in `ScalePositiveIff` and `ScaleAtLeastFloor` |
| `Scaling.ShrinkBranch` | src/ScalingLayout.tsx:77-78 | below `minWidth` the raw value is `max(width/minWidth, 0.1)`, and is the width ratio itself when that is at least 0.1 |
| `Scaling.ShrinkScale` | src/ScalingLayout.tsx:77-85 | below `minWidth` the scale is the larger of the quantised width ratio and the quantised 0.1, so never below the quantised 0.1, for every step |
| `Scaling.ShrinkOnlyBranch` | dist/ScalingLayout.js:76-77 | shrink-only from `minWidth` on: raw value 1, and the scale is 1 quantised |
| `Scaling.ShrinkOnlyScaleIsOne` | src/ScalingLayout.tsx:79-85 | shrink-only from `minWidth` on gives exactly 1 when 1 is a whole number of steps |
| `Scaling.MaxScaleIgnoredWhenShrinkOnly` | src/ScalingLayout.tsx:77-83 | with the shrink-only flag, changing `maxScale` never changes the scale at any width |
| `Scaling.GrowBranch` | src/ScalingLayout.tsx:81-82 | without the flag, from `minWidth` on the raw value is `min(width/minWidth, maxScale)` |
| `Scaling.ScaleIsQuantized` | dist/ScalingLayout.js:82 | for a measured width the scale is `round(raw/step)*step`, a whole multiple of the step and a fixed point of quantisation |
| `Scaling.ScalePositiveIff` | src/ScalingLayout.tsx:72-85 | for a measured width the scale is positive if and only if the raw value is at least half a step |
| `Scaling.ScaleAtLeastFloor` | src/ScalingLayout.tsx:72-85 | the scale is at least 0.1 when 0.1 is a whole number of steps and the grow branch is not capped below 0.1 |
| `Scaling.FloorLostToCoarseStep` | src/ScalingLayout.tsx:78-85 | with step 1, `minWidth` 10 and width 3 the raw value is 0.3 and the scale is 0 |
| `Scaling.ScaledVh` | src/ScalingLayout.tsx:94-99 | `(height*vh/100)/scale` is finite if and only if the scale is nonzero, and then times the scale gives `height*vh/100` |
| `Scaling.InverseScale` | src/ScalingLayout.tsx:115-118 | `--inverse-scale` is finite if and only if the scale is nonzero, and then times the scale gives 1 |
| `Scaling.DefaultContextIsNeutral` | src/ScalingLayout.tsx:19-24 | the constant `DefaultContext`, read outside a layout, has dimensions 0, scale 1 and the identity `scaledVh` |
| `Scaling.ContextValue` | src/ScalingLayout.tsx:101-109 | the published snapshot carries the stored dimensions and the current scale; its `scaledVh` is `ScaledVh` at the current height and scale: for a nonzero scale `scaledVh(vh)` times that scale is `height*vh/100`, at scale 0 it is non-finite |
| `Scaling.ScaleIgnoresHeight` | src/ScalingLayout.tsx:86-92 | two snapshots that differ only in height have the same scale |
| `Scaling.UnmeasuredContextDiffersFromDefault` | dist/ScalingLayout.js:96-104 | the snapshot for a {0, 0} window has the default's scale and width but maps every `vh` to 0; unmounted, nothing is rendered, so descendants see it only when the window measured 0 by 0 |
| `Scaling.Render` | dist/ScalingLayout.js:102-110 | nothing is rendered if and only if not mounted; once mounted one wrapper with `--scale` the scale and `--inverse-scale` equal to `1/scale` (times the scale 1 when the scale is nonzero, non-finite at scale 0), providing the current snapshot |
| `Scaling.DefaultConfigBehaviour` | dist/ScalingLayout.js:48 | the constant `DefaultConfig` holds the default props 768, shrink-only, 1 and 0.01; with them the scale is 1 from 768 px on and never below 0.1 |
| `Scaling.Scenarios` | src/ScalingLayout.tsx:72-99 | width 384 gives 0.5 and width 1200 gives 1 (whatever `maxScale`) with the defaults; growing to 1200 with cap 1.5 and step 0.1 gives 1.5; `scaledVh(50)` at height 800 and scale 0.5 is 800 |
| `Component.ScalingLayout.constructor` | src/ScalingLayout.tsx:45-50 | the initial state is dimensions {0, 0}, not mounted, no observer, renders nothing, scale 1 |
| `Component.ScalingLayout.Mount` | src/ScalingLayout.tsx:52-65 | the effect marks mounted, stores the measured window size, connects the observer, and the instance then renders one wrapper at the measured scale |
| `Component.ScalingLayout.Resize` | dist/ScalingLayout.js:56-63 | an observed resize overwrites both dimensions; the new scale is the scale of the new width alone |
| `Component.ScalingLayout.Unmount` | src/ScalingLayout.tsx:67-69 | the cleanup leaves the observer disconnected, with exactly one `disconnect()` once the effect has run and none before |

## Left out

- Rendering itself: JSX/`createElement`, the CSS declarations (`transform`, `transformOrigin`, `calc(...)` width, `100dvh`, `position`), the `className` pass-through and the children are not modelled; `Render` keeps only whether a wrapper exists, its two style variables and the provider value.
- `window.innerWidth`/`innerHeight`, `ResizeObserver` and `document.documentElement` are platform I/O: the measured size is a parameter of `Mount` and `Resize`, and the observer is the `observerConnected` flag with a count of `disconnect()` calls.
- React's hook scheduling and memoisation (`useState`, `useEffect`, `useMemo`, `useContext`) belong to the library: the derived values are plain functions of the stored state, and `useScaling()` is reading a `ScalingContext` value.
- Component.ScalingLayout.Unmount: React runs the cleanup at most once, after the effect; the model guards the disconnect on `observerConnected` instead of modelling the runtime's guarantee.
- Component.ScalingLayout.Unmount: there is no disposed state after teardown; `mounted` stays true, so `View()` is still a wrapper, and an `Unmount` before `Mount` leaves the instance mountable, whereas in the program an unmounted instance is gone and never renders again.
- Changing props between renders: the class fixes its `Config` at construction, while the pure functions take the configuration as an argument.
- IEEE-754 behaviour of `/`, `Math.round` and `* step`: all arithmetic is on `real`, so equalities such as a scale of exactly 0.5 hold of the real-number values, not bit for bit of doubles.
- `dist/ScalingLayout.d.ts` (type declarations) and the module-interop helpers `__createBinding`, `__setModuleDefault` and `__importStar` in `dist/ScalingLayout.js`.
- `minWidth <= 0` or `scaleStep <= 0`: unvalidated misconfiguration, excluded by `Config.Valid`.
