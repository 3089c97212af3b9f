# scroll-into-view-if-needed, modelled in Dafny

This project models `scrollIntoViewIfNeeded(elem, centerIfNeeded, options, finalElement)`.
The function walks up from an element through its `parentNode` ancestors. At each parent it:

- moves the element's box into the parent's client coordinates;
- picks a `scrollLeft` and a `scrollTop`, either the smallest motion that shows the box or the offsets that centre it;
- assigns those offsets, or, when `options` are given, hands them to the bundled tween `amator`;
- corrects the box by the offsets it reads back.

The model covers three parts of the repository:

- **`ScrollIntoView`** (`scroll.dfy`): the propagation loop of `dist/index.js`, which `dist/bundle.js` repeats.
  - The DOM is plain data. The walk is the sequence of elements from the target up to its last `HTMLElement` ancestor.
  - The scroll offsets of those elements are two arrays that the loop updates in place.
  - The function `Run` states, level by level, what the loop has done by the time it reaches element `i`.
  - The lemmas prove three things about the walk:
    - which parents are touched (`finalElement` is the last one scrolled);
    - which offsets each parent is asked for, and which it ends with;
    - that the requested offsets show the box, centre it, or leave a visible box alone.
- **`Amator`** (`amator.dfy`): the tween `animate(source, target, options)`.
  - `Tween` is a class holding the tween's closure state.
  - The environment plays the scheduler by calling `Step` or `Cancel`.
  - The caller's `source` object is a `Record` whose map is written in place.
  - `Animate` follows the code's frame count. `AnimateCorrected` uses the rounded-up count of the finding below.
- **`BezierEasing`** (`bezier.dfy`): the cubic-Bezier easing factory bundled in front of the tween.
  - It covers the guard on the x control values, the 11-entry sample table and the scan over it, Newton-Raphson and bisection, and the five presets.
  - The pure function `EaseAt` specifies the easing. The imperative `Evaluator` and its helpers are proved equal to it.
  - The sample table is proved strictly increasing for every curve that passes the guard.

Numbers are exact `real`s. `base.dfy` holds the shared `Option`, `Result` and error values. Each error value is one `throw` of the source.

Two behaviours of the code worth knowing; the model follows the code in both:

- **A duration of `0`.** `options.duration || 400` treats `0` as missing, so it means 400 ms (24 frames, 25 steps), not a single step.
- **Read-back with `options`.** The level reads back the parent's offsets as they are when the tween is started. Those are the offsets before the call, not the requested target.

## Model

| member | source | states |
|---|---|---|
| BezierEasing.CalcBezier | dist/bundle.js:20-25 | x(0) = 0 and x(1) = 1 for all control values |
| BezierEasing.GetSlope | dist/bundle.js:28 | the slope at t = 0 is 3 a1 and at t = 1 is 3 (1 - a2): the curve leaves the start towards the first control point and reaches the end from the second |
| BezierEasing.SlopeIsDerivative | dist/bundle.js:28 | getSlope is the derivative of calcBezier: the exact Taylor expansion of x(t + h) around t |
| BezierEasing.PresetCurve | dist/bundle.js:108-115 | every preset passes the factory's guard; only `linear` is the identity curve |
| BezierEasing.PresetNamed | dist/bundle.js:108-115 | a name is found exactly when some preset has that name, and the preset found has it |
| BezierEasing.SampleTable | dist/bundle.js:61-67 | eleven samples, sample i being x(i / 10) |
| BezierEasing.BernsteinForm | dist/bundle.js:20-25 | the Horner evaluation equals the Bernstein form 3t(1-t)^2 x1 + 3t^2(1-t) x2 + t^3 |
| BezierEasing.SampleGapPositive | dist/bundle.js:61-67 | for x1, x2 in [0, 1], sample k is strictly below sample k + 1 |
| BezierEasing.SampleTableIncreasing | dist/bundle.js:56-67 | for a curve passing the guard, the table is strictly increasing from 0 to 1, so the division in getTForX never divides by zero |
| BezierEasing.ScanFrom | dist/bundle.js:72-74 | the scan stops at the first sample above x, or at the last sample, and every sample it passes is at most x |
| BezierEasing.Bracket | dist/bundle.js:70-77 | the chosen interval index is at most 9; the samples up to it are at most x; the next sample exceeds x unless the scan reached the end |
| BezierEasing.BracketEncloses | dist/bundle.js:70-77 | for x between the first and last sample, the two chosen samples enclose x |
| BezierEasing.InitialGuessInInterval | dist/bundle.js:79-81 | the interpolated first guess for t lies inside the chosen interval [k/10, (k+1)/10] |
| BezierEasing.InterpolationWeight | dist/bundle.js:80 | the interpolation weight of an enclosed x lies in [0, 1] |
| BezierEasing.NewtonKeepsRoot | dist/bundle.js:44-54 | an exact root is a fixed point of Newton-Raphson for any number of iterations |
| BezierEasing.NewtonRaphsonIterate | dist/bundle.js:44-54 | the loop computes four Newton updates, stopping at a zero slope; it returns the guess when the slope is zero or the guess is already a root |
| BezierEasing.Bisect | dist/bundle.js:30-42 | bisection of [a, b] stays within [a, b] |
| BezierEasing.BinarySubdivide | dist/bundle.js:30-42 | the do-while loop equals the bisection function, stays within [a, b] and evaluates between 1 and 10 midpoints |
| BezierEasing.TForXInInterval | dist/bundle.js:69-91 | off the Newton path, getTForX returns a t inside the chosen interval, hence in [0, 1] |
| BezierEasing.EaseAt | dist/bundle.js:93-105 | the easing of a linear curve is the identity; every curve maps 0 to 0 and 1 to 1 |
| BezierEasing.ScanSamples | dist/bundle.js:70-77 | the while loop over the sample array ends at the interval Bracket chooses, with intervalStart = k / 10 |
| BezierEasing.GetTForX | dist/bundle.js:69-91 | getTForX over the sample array equals the specification TForX on its contents |
| BezierEasing.RefineGuess | dist/bundle.js:83-90 | Newton when the slope is at least 0.001, the guess itself at slope 0, otherwise bisection of the chosen interval |
| BezierEasing.Evaluator.constructor | dist/bundle.js:61-67 | the precomputed array holds the sample table for every curve that is not linear |
| BezierEasing.Evaluator.Ease | dist/bundle.js:93-105 | the returned closure computes EaseAt of its curve |
| BezierEasing.Bezier | dist/bundle.js:56-59 | throws exactly when x1 or x2 lies outside [0, 1]; otherwise returns a valid evaluator for the given curve |
| Amator.ResolveEasing | dist/bundle.js:125-133 | a function is used as given; a preset name picks its preset; no easing or an unknown name falls back to `ease`; the result is always a valid easing |
| Amator.ResolvedEasingFixesEnds | dist/bundle.js:125-133 | every easing except a custom function maps 0 to 0 and 1 to 1 |
| Amator.GetScheduler | dist/bundle.js:184-193 | succeeds exactly when no scheduler is given or it has both `next` and `cancel`; otherwise fails with the `next` error first |
| Amator.DurationInMs | dist/bundle.js:146 | a missing or zero duration means 400 ms; any other duration is kept; the result is never 0 |
| Amator.FramesAsWritten | dist/bundle.js:147 | `max(1, ms * 0.06)`: at least 1, and either 1 or ms * 0.06 |
| Amator.Frames | dist/bundle.js:147 | the frame count rounded up: a whole number, at least 1 and at least ms * 0.06, below the unrounded count plus 1 |
| Amator.FramesAgreeOnWholeFrames | dist/bundle.js:147 | when ms * 0.06 is whole, the rounded-up and as-written frame counts agree |
| Amator.LastProgress | dist/bundle.js:162-172 | the last step's easing argument lies in (0, 1], and it is 1 exactly when the frame count is whole |
| Amator.AsWrittenStopsShort | dist/bundle.js:146-147 | a 20 ms duration gives 1.2 frames; the last step eases at 5/6, so a linear tween from 0 to 100 stops at 250/3 |
| Amator.CorrectedLandsOnTarget | dist/bundle.js:162-172 | with the rounded-up frame count, the last step eases at exactly 1 |
| Amator.Record.constructor | dist/bundle.js:120 | the caller's object holds the given values |
| Amator.Tween.constructor | dist/bundle.js:140-151 | start and diff are snapshotted for every key of target, with start + diff = target; frame 0; the first handle is held |
| Amator.Tween.Step | dist/bundle.js:162-173 | one scheduled callback: every key is set to diff · easing(frame / durationInFrames) + start; other properties are unchanged; the frame advances; a new handle while frame <= durationInFrames, else 0 |
| Amator.Tween.SetValues | dist/bundle.js:175-179 | every key of target is written as diff · t + start, and nothing else in the object changes |
| Amator.Tween.Cancel | dist/bundle.js:157-160 | the handle is cleared |
| Amator.Animate | dist/bundle.js:120-155 | fails exactly as getScheduler does, with its error; otherwise a tween over the target's keys that starts from the source's values, with start + diff = target, the resolved easing and the as-written frame count `max(1, ms * 0.06)` |
| Amator.AnimateCorrected | dist/bundle.js:120-155 | the same as Animate but with the frame count rounded up, so that the last step lands on the target (the corrected half of the finding) |
| Amator.StartTween | dist/bundle.js:120-151 | the body of animate for a given frame count: fails exactly as getScheduler does; otherwise a tween with that frame count, the resolved easing and start + diff = target |
| Amator.RunToCompletion | dist/bundle.js:162-173 | driving a fresh tween takes floor(durationInFrames) + 1 steps; each key ends at diff · easing(LastProgress) + start |
| ScrollIntoView.MakeArea | dist/index.js:19-21 | the area has the given position and size, with right = left + width and bottom = top + height |
| ScrollIntoView.Translate | dist/index.js:22-24 | translate(x, y) shifts left, top, right and bottom by x and y and keeps the size |
| ScrollIntoView.ChainSumsExtend | dist/index.js:33-40 | walking one more offsetParent adds its offsetLeft + clientLeft and its offsetTop + clientTop |
| ScrollIntoView.RelativeFromTo | dist/index.js:25-42 | with the same offsetParent the area is returned unchanged; otherwise it moves by the child chain's offsets minus the parent chain's; the size is kept |
| ScrollIntoView.WithinBounds | dist/index.js:11-17 | with centring off or the box overlapping the viewport: a current offset already in [min, max] is kept, otherwise clamped (max wins when min > max); else the midpoint (min + max) / 2 |
| ScrollIntoView.Settle | dist/index.js:62-65 | the browser's clamp on assignment keeps an in-range offset and otherwise lands in [0, limit] |
| ScrollIntoView.InitialArea | dist/index.js:46-47 | the first box is the element's offset box |
| ScrollIntoView.InParent | dist/index.js:49-53 | the box moved into the parent's client coordinates is well formed |
| ScrollIntoView.Corrected | dist/index.js:68 | the box corrected by the read-back offsets is well formed |
| ScrollIntoView.Visit | dist/index.js:48-69 | one pass of the loop writes only the visited parent's offsets; every other element keeps its offsets |
| ScrollIntoView.Run | dist/index.js:46-70 | on reaching element i, that element and every ancestor not yet visited still have their offsets from before the call |
| ScrollIntoView.RunOffsets | dist/index.js:62-69 | once the loop has visited an element, later passes leave its offsets as that visit left them |
| ScrollIntoView.ReadBackIsSettledRequest | dist/index.js:55-68 | each parent is asked for offsets computed from its offsets before the call; it keeps the browser-settled request, or, with options, its original offsets |
| ScrollIntoView.StopIndex | dist/index.js:48 | the last element the loop stops at lies between the start and the end of the walk |
| ScrollIntoView.StopIndexStep | dist/index.js:48 | where the loop condition holds at i, the loop stops where it would stop from i + 1 |
| ScrollIntoView.FinalElementIsLastScrolled | dist/index.js:48 | when finalElement is on the walk, it is the last parent scrolled and none of its ancestors is touched |
| ScrollIntoView.WalkReachesTop | dist/index.js:48 | without finalElement on the walk, every ancestor up to the last HTMLElement is scrolled |
| ScrollIntoView.LevelNetShift | dist/index.js:49-68 | over one level the box moves by relativeFromTo and then by minus the read-back offsets; the parent's own offsets cancel |
| ScrollIntoView.VisibleLevelUnchanged | dist/index.js:11-17 | a box already fully visible in a parent leaves that parent's offsets as they were |
| ScrollIntoView.CentredLevelCentresBox | dist/index.js:11-17 | with centring on, on each axis where the box does not overlap the viewport, the chosen offset puts the box's middle at the viewport's middle (horizontally and vertically) |
| ScrollIntoView.ClampedLevelShowsBox | dist/index.js:11-17 | on each axis where the chosen offset is a clamp, a box that fits ends inside the viewport, and a larger box ends with its leading edge (left, top) at the viewport's |
| ScrollIntoView.RequestsUpTo | dist/index.js:57-61 | one tween request per parent visited |
| ScrollIntoView.VisitParent | dist/index.js:49-68 | one loop pass over the arrays: requests the withinBounds offsets from the parent's current ones; without options assigns the settled values at that parent's index only; returns the box corrected by what is read back |
| ScrollIntoView.Pass | dist/index.js:49-69 | one pass of the loop over arrays takes the state at element i to the state at element i + 1 and, with options, appends that parent's tween request |
| ScrollIntoView.Propagate | dist/index.js:46-70 | the while loop over a walk with an element: the offsets end as Run states at the stop index, and with options the requests are one per parent visited |
| ScrollIntoView.ScrollIntoViewIfNeeded | dist/index.js:7-71 | fails on a missing element, or when options carry a scheduler that the tween rejects (dist/bundle.js:189-190) and the loop visits a parent, with that error; a failure changes no offset; otherwise the offsets end as Run states at the stop index, and with options the result is the list of tween requests, one per parent visited |

## Left out

- Floating point is not modelled. The real-number model does not capture:
  - the Float32Array sample table;
  - rounding in `+= 0.1` and in the Newton and bisection steps;
  - NaN and infinite durations or offsets.
- BezierEasing.TForXInInterval: the bound is not stated for the Newton path. Over exact reals, four Newton steps need not stay in the interval.
- The `console.warn` for an unknown easing name is output only and is not modelled.
- Looking up an easing name that is an Object.prototype property (`"toString"`) is not modelled. Only the five preset names are recognised.
- The `step` and `done` callbacks and the `setTimeout` that calls `done` are not modelled. They call code the model cannot see.
- The choice between the requestAnimationFrame and setTimeout schedulers depends on `window`. It is a parameter: `DefaultScheduler` stands for either.
- The scheduler's handles are parameters of `Animate` and `Step`. The environment chooses them.
- Amator.Tween.Step requires a nonzero current and next handle, because the tween stores 0 as its handle once finished or cancelled (dist/bundle.js:159, :170), and the model reads 0 as "nothing pending". A scheduler that returns 0 from `next` is therefore not modelled: `Animate` given `firstHandle == 0` yields a tween that `Step` never runs, where the source would run it.
- Amator.Animate requires every key of `target` to be a key of `source`. The source would compute with `undefined` and write NaN.
- Amator.Tween.Cancel: the model clears the handle. It does not model the scheduler's `cancel` call or how that call affects a pending callback.
- Concurrent tweens on the same parent are not modelled, nor a scheduler that calls back synchronously from `next`.
- With options, each parent's tween is recorded as an `AnimationRequest` instead of being started. `Amator` models what it would do.
- ScrollIntoView.ScrollIntoViewIfNeeded: the tween's scheduler check is made once, before the loop, under the loop's own condition for a first pass. The source throws at that first pass, after only pure computation, so no offset differs.
- The DOM is data:
  - The walk is the sequence from the element to the last `HTMLElement` ancestor. An empty sequence stands for a missing element.
  - The browser's clamp of an assigned offset is `Settle` into `[0, scrollLeftMax]`. Settle does not model two browser behaviours: rounding of fractional offsets (the centring midpoint is often fractional), and negative `scrollLeft` in right-to-left containers.
  - Layout values do not change during the call.
- finalElement is compared by element id. Ids on a walk are assumed distinct where a lemma needs it (`DistinctIds`).
- `relativeFromTo` returns the outer `area` variable when the offsetParents are the same. At its only call site that variable is the receiver, so the model returns the receiver.
- `typings.d.ts` declares the types only. Its `centerIfNeeded` option field is never read by the code. That file is not part of this model.
- The copy of the scroll loop in `dist/bundle.js` (lines 213-288) matches `dist/index.js`. Only the latter is cited.

## Findings

| source | as written | input that shows it | evidently intended | confidence | as-written member | corrected member |
|---|---|---|---|---|---|---|
| dist/bundle.js:147 | `durationInFrames = Math.max(1, durationInMs * 0.06)` need not be whole. The last step then eases at floor(D)/D < 1, so the tween ends short of the target. | duration 20 ms gives D = 1.2. The second and last step eases at 5/6, so a linear tween from 0 to 100 ends at 250/3. | a whole number of frames (rounded up), so that the last step eases at 1 and lands on the target | not executed | Amator.AsWrittenStopsShort | Amator.CorrectedLandsOnTarget |
