# scroll2 smooth-scroll module, modelled in Dafny

This project models the smooth-scroll helper of `src/index.ts`. It has two parts.

- **Easing resolver** (`getEasing`), in module `Easings` (`easings.dfy`). A caller-supplied
  function passes through unchanged. Each of the thirteen easing names maps to its curve.
  Any other string falls back to `linear`. The curves are written over exact `real`s, in the
  same shape as the source bodies. A `--t` in a body decrements the function's local copy of
  `t`, so the model reads it as `t - 1`. Each body is proved equal to an independent
  reference: the same curve written as an expanded polynomial in `t`, one per half for the
  in-out curves.
- **Scroll animator** (`scrollTo`), in module `Scroll` (`scroll.dfy`).
  - The set-up before the first frame is a set of pure functions: option defaults, the
    element's position, the clamp at the page bottom, and the two early exits.
  - The per-call state that the frame callback closes over is the class `FrameLoop`. Its
    field `start` is the lazily captured time origin.
  - `ScrollTo` takes the frame timestamps the host would deliver as a sequence. It returns
    the offsets written to the viewport, in order.
  - `ScrollTo` is proved equal to the specification function `ScrollWrites`. The loop's
    properties are proved about `Writes`, the frame-by-frame function beneath it, and
    `ScrollEndsAtTarget` carries the main one back to `ScrollWrites` for every call.

The host's primitives are inputs:
- `window.pageYOffset`, `getBoundingClientRect().top`, `document.body.scrollHeight` and
  `window.innerHeight` are the fields of `Page` and `Element`;
- the `requestAnimationFrame` clock is the timestamp sequence;
- the `window.scrollTo` calls are the returned sequence of offsets.

The source's falsy test `!start` treats an unset origin and an origin of 0 alike. The model
keeps this exactly: `start` is a real that is 0 while no origin is held. A first frame at
timestamp 0 therefore does not fix the origin, and the next frame's timestamp is captured
instead (`ZeroTimestampRecaptured`, `LiteralZeroSample`).

## Model

| member | source | states |
|---|---|---|
| `Easings.GetEasing` | src/index.ts:17-108 | a function specifier resolves to that same function; a recognised name resolves to the curve of that name; any other string resolves to linear; resolution never fails |
| `Easings.CustomPassesThrough` | src/index.ts:18-20 | applying a resolved caller function gives exactly what the caller's function gives, at every input |
| `Easings.Curve` | src/index.ts:18-20 | the function handed back for a caller's own function is that function itself; for a named curve it evaluates that curve |
| `Easings.NameRoundTrip` | src/index.ts:22-100 | every named curve's name is recognised, and resolving it gives back that curve, so names and named curves correspond one to one |
| `Easings.UnknownNameIsIdentity` | src/index.ts:101-106 | an unrecognised name yields f(t) = t for every t |
| `Easings.Apply` | src/index.ts:23-100 | applying a resolved caller function is calling that function; the named curves' properties are the three rows below |
| `Easings.ApplyIsClosedForm` | src/index.ts:23-100 | each source body, with `--t` read as t - 1, equals an independently written polynomial in expanded form, e.g. easeOutCubic is t^3 - 3t^2 + 3t and the upper half of easeInOutQuart is -8t^4 + 32t^3 - 48t^2 + 32t - 7 |
| `Easings.Endpoints` | src/index.ts:23-100 | every named curve gives f(0) = 0 and f(1) = 1 exactly |
| `Easings.UnitRange` | src/index.ts:23-100 | for t in [0, 1] every named curve stays within [0, 1] |
| `Easings.SampleValues` | src/index.ts:35-100 | easeInOutCubic(0.25) = 0.0625, easeInOutCubic(0.75) = 0.9375, easeOutQuad(0.5) = 0.75, and every in-out curve gives 1/2 at t = 1/2, where its two halves meet |
| `Scroll.OrDefault` | src/index.ts:113-115 | a given value is kept, whatever it is; only an absent one is replaced by the default (the `??` operator) |
| `Scroll.Resolve` | src/index.ts:113-115 | an omitted option defaults to offset 0, duration 500 and easeInOutCubic; a given option is kept, a given 0 included |
| `Scroll.ElementY` | src/index.ts:118 | the element's position plus the offset is the current scroll offset plus the element's distance from the viewport top |
| `Scroll.TargetY` | src/index.ts:120 | the target is the minimum of the element's position and the largest scroll offset (document height less viewport height), so it never exceeds the largest offset |
| `Scroll.ClampSample` | src/index.ts:120 | with document height 2000 and viewport height 800, a position of 1500 is clamped to 1200, and a position of 1000 is kept |
| `Scroll.Plan` | src/index.ts:110-124 | no animation without an element; with one, no animation exactly when the clamped target equals the current offset; otherwise the animation starts at the current offset, ends at the clamped target, has a non-zero distance, and uses the resolved duration and timing function |
| `Scroll.Origin` | src/index.ts:127 | a held (non-zero) origin is kept; a falsy one is replaced by the frame's timestamp; the origin stays falsy exactly when it was and the timestamp is 0 |
| `Scroll.Progress` | src/index.ts:129 | progress is exactly min(elapsed/duration, 1): at most both, and equal to one of them; it is 1 once the elapsed time reaches a positive duration, and lies in [0, 1) before that |
| `Scroll.FrameY` | src/index.ts:129-132 | a frame writes the starting offset when the eased progress is 0 and the target offset when it is 1 |
| `Scroll.Writes` | src/index.ts:126-137 | the frame loop writes one offset per delivered frame, never more than it is given, and at least one when any frame arrives |
| `Scroll.FrameLoop.constructor` | src/index.ts:122 | a new loop holds its animation and no time origin |
| `Scroll.FrameLoop.Step` | src/index.ts:126-136 | a frame captures its timestamp as the origin if none is held (or it is 0), writes startingY + diff * ease(min(time/duration, 1)), and requests another frame exactly when time < duration |
| `Scroll.ScrollWrites` | src/index.ts:110-138 | when the set-up yields no animation, nothing is written |
| `Scroll.ScrollTo` | src/index.ts:110-138 | the offsets written by running the frame callback on the delivered timestamps are exactly those of `ScrollWrites` |
| `Scroll.RunFrames` | src/index.ts:122-137 | a fresh frame callback, given the timestamps in turn for as long as it requests frames, writes exactly `Writes` from an unset origin |
| `Scroll.NoWritesIffNoAnimation` | src/index.ts:111-124 | nothing is written if and only if the element is missing, the distance is 0, or no frame arrives |
| `Scroll.FirstFrameAtOrigin` | src/index.ts:127-132 | the first frame has elapsed time 0; with a named curve it writes the starting offset |
| `Scroll.FixedOrigin` | src/index.ts:127-136 | once a non-zero origin is held it never changes: every frame writes the curve at its time since the origin, frames continue while that time is below the duration, and a loop that stops early stops at the first frame that reached the duration |
| `Scroll.FramesFromFirst` | src/index.ts:126-136 | from a fresh loop with a non-zero first timestamp t0, frame k writes the curve at min((tk - t0)/duration, 1); every frame but the last has elapsed time below the duration; if the loop stops before the timestamps run out, its last frame reached the duration |
| `Scroll.LastWriteAtTarget` | src/index.ts:129-136 | if some frame reaches a positive duration, the loop has stopped by that frame; its last write is startingY + diff * ease(1), which is the target offset for every named curve |
| `Scroll.ZeroTimestampRecaptured` | src/index.ts:127 | a frame at timestamp 0 leaves the origin unset: after its write the loop continues exactly as a fresh loop on the remaining frames |
| `Scroll.ProgressSample` | src/index.ts:128-136 | with duration 500 and frames 0, 100, 300, 500 and 600 ms after a non-zero first timestamp, progress is 0, 0.2, 0.6 and 1; the frame at 500 is the last, and the frame at 600 would also give 1 |
| `Scroll.LiteralZeroSample` | src/index.ts:127-129 | taking those frames literally as timestamps 0, 100, 300, 500 and 600, the origin becomes 100 and all five frames are written, at elapsed times 0, 0, 200, 400 and 500 |
| `Scroll.NoOvershoot` | src/index.ts:129-132 | with a named curve and a positive duration, a frame at any non-negative elapsed time writes inside the segment between the starting offset and the target |
| `Scroll.WritesWithinSegment` | src/index.ts:126-132 | with a named curve, a positive duration and a non-zero first timestamp, if no later timestamp is earlier than the first then every offset the loop writes lies between the starting offset and the target |
| `Scroll.EndToEndSample` | src/index.ts:113-136 | an element 300 below the top of an unscrolled page, with offset 50 and default duration and easing, is scrolled in four frames, and the last frame writes 250 |
| `Scroll.ScrollEndsAtTarget` | src/index.ts:110-136 | for every call that starts an animation with a named curve and a positive duration: once some frame reaches the duration, the loop has stopped by that frame and its last write is the clamped target, which never exceeds the largest scroll offset |

## Left out

- Scroll.ScrollTo: requires that a given duration is not 0. On the first frame the source computes 0/0, which is NaN in JavaScript (src/index.ts:129), and real arithmetic has no NaN. Scroll.ScrollWrites, Scroll.RunFrames, Scroll.Writes, Scroll.Progress, Scroll.FrameY and Scroll.FrameLoop.Step carry the same requirement. Negative durations are modelled: the single first frame writes the curve at progress 0 and stops.
- Floating point: all arithmetic is exact `real` arithmetic. Rounding in the polynomials, NaN and infinite inputs, and a NaN distance are not modelled. A NaN distance would also take the early return at src/index.ts:124, since NaN is falsy.
- The element test at src/index.ts:111 checks both that the element exists and that it has `getBoundingClientRect`. The model reduces this to whether an `Element` is present.
- Browser primitives (`window.pageYOffset`, `getBoundingClientRect`, `document.body.scrollHeight`, `window.innerHeight`, `requestAnimationFrame`, `window.scrollTo`) are inputs and outputs, as described above. Layout changes during an animation are not modelled; like the source, the model reads the geometry once per call.
- Two animations running at once, which race on the shared scroll offset, are not modelled. Each call owns its own `FrameLoop`.
- Timestamps are not required to increase; `Writes`, `RunFrames` and `ScrollTo` accept any sequence. The loop lemmas add these hypotheses:
  - `FramesFromFirst`, `LastWriteAtTarget` and `ScrollEndsAtTarget` need a non-zero first timestamp; a first timestamp of 0 is covered by `ZeroTimestampRecaptured`.
  - `LastWriteAtTarget` and `ScrollEndsAtTarget` need some frame that reaches a positive duration.
  - `NoOvershoot` needs a non-negative elapsed time, and `WritesWithinSegment` needs every timestamp to be at least the first. A clock that goes back before the origin gives negative progress, and a named curve can then write outside the segment (easeInCubic at -0.5 gives -0.125).
- `dist/index.js` is compiled output with the same logic as `src/index.ts`, and `dist/index.d.ts` holds type declarations only. Neither is part of this model.
