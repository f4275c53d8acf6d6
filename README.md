# FullPageSlideshow — a verified model of its slide and autoplay logic

The `FullPageSlideshow` React component shows one image of a list at a time.
It keeps two pieces of state: the index `current` of the visible slide, which
starts at 0, and the flag `isAutoplay`, which starts on. The arrow buttons step
the index forward or back, wrapping around modulo `images.length`. The dot
indicators jump straight to a slide. While autoplay is on, an interval
advances the slide every few seconds. Any press of a control switches autoplay
off for good before it navigates.

`slideshow.dfy` (module `Slideshow`) models this in three layers:

- **Index arithmetic.** `TruncRem` is JavaScript's `%`. It truncates toward
  zero, unlike Dafny's Euclidean `%`. `NextIndex` and `PrevIndex` are the two
  updaters passed to `setCurrent`. Lemmas show that they keep an in-range
  index in range, that they wrap at the ends, and that each undoes the other.
  `k` forward steps land on `(c + k) mod n`, and `n` steps in either direction
  come back to the start.
- **State machine.** `State` is the pair (`current`, `autoplay`). An `Event`
  is either a timer firing or a user `Action` (`Next`, `Prev`, `GoTo(i)`).
  `Step` applies one event and `Run` applies a sequence of them. The
  contracts and lemmas state four rules:
  - autoplay ends up on exactly when it started on and every event was a
    timer firing;
  - in-range indices stay in range;
  - once autoplay is off, timer firings change nothing;
  - while autoplay is on, `n` firings cycle back to the starting slide.
- **Component instance.** The class `FullPageSlideshow` holds the constant
  `n` (`images.length`) and the fields `current` and `autoplay`. Its methods
  mutate those fields the way the component's handlers do. `Tick` and
  `HandleUserInteraction` are specified by `Step`, so every lemma about
  `Step` and `Run` also holds of the object.

`goToSlide` in the source stores whatever index it is given. `GoToSlide`
therefore has no range precondition. Its contract says that the stored index
is in range exactly when the argument was. Only the dot-indicator handler
`OnDotClick` requires `0 <= index < n`, because the source creates it inside
`images.map` with the element's own position. `n >= 1` is a precondition
throughout: with no images, the source's `% images.length` yields `NaN`.

## Model

| member | source | states |
|---|---|---|
| `Slideshow.TruncRem` | src/components/FullPageSlideshow.tsx:9 | JavaScript remainder: has the sign of the dividend, magnitude below `n`, and differs from the dividend by a multiple of `n` |
| `Slideshow.NextIndex` | src/components/FullPageSlideshow.tsx:8-10 | `(prev + 1) % n` stays in `[0, n-1]` for any `prev >= -1`; from an in-range index it is `prev + 1`, wrapping from `n-1` to `0` |
| `Slideshow.PrevIndex` | src/components/FullPageSlideshow.tsx:12-14 | `(prev - 1 + n) % n` stays in `[0, n-1]` for any `prev >= 1 - n`; from an in-range index it is `prev - 1`, wrapping from `0` to `n-1` |
| `Slideshow.PrevAfterNext` | src/components/FullPageSlideshow.tsx:8-14 | next then previous restores any in-range index |
| `Slideshow.NextAfterPrev` | src/components/FullPageSlideshow.tsx:8-14 | previous then next restores any in-range index |
| `Slideshow.NextTimesIsShift` | src/components/FullPageSlideshow.tsx:9 | `k` forward steps from an in-range `c` give `(c + k) mod n` |
| `Slideshow.PrevTimesIsShift` | src/components/FullPageSlideshow.tsx:13 | `k` backward steps from an in-range `c` give `(c - k) mod n` |
| `Slideshow.FullCycleForward` | src/components/FullPageSlideshow.tsx:9 | `n` forward steps return to the starting in-range index |
| `Slideshow.FullCycleBackward` | src/components/FullPageSlideshow.tsx:13 | `n` backward steps return to the starting in-range index |
| `Slideshow.Initial` | src/components/FullPageSlideshow.tsx:5-6 | the mounted state is slide 0 with autoplay on |
| `Slideshow.Perform` | src/components/FullPageSlideshow.tsx:8-18 | a navigation action keeps an in-range index in range when its target comes from a dot indicator; `GoTo(i)` leaves exactly `i` |
| `Slideshow.Step` | src/components/FullPageSlideshow.tsx:20-30 | autoplay is on afterwards iff it was on and the event was a timer firing; a firing with autoplay off changes nothing; a firing with autoplay on advances by one with wrap-around; `GoTo(i)` leaves `i`; an in-range index stays in range |
| `Slideshow.Run` | src/components/FullPageSlideshow.tsx:20-30 | after any event sequence, autoplay is on iff it started on and no user event occurred, so it never goes from off back to on; valid events keep the index in range |
| `Slideshow.ManualTicksChangeNothing` | src/components/FullPageSlideshow.tsx:20-29 | once autoplay is off, any number of timer firings leave the state unchanged |
| `Slideshow.AutoplayTicksAdvance` | src/components/FullPageSlideshow.tsx:20-25 | with autoplay on, `k` timer firings advance the slide `k` times and leave autoplay on |
| `Slideshow.AutoplayFullCycle` | src/components/FullPageSlideshow.tsx:20-25 | with autoplay on, `n` timer firings return to the starting slide |
| `Slideshow.Scenario` | src/components/FullPageSlideshow.tsx:5-30 | five slides: one firing from mount shows slide 1; dot 3 then firings stays on 3 with autoplay off; "previous" from 0 shows 4; "next" from 4 shows 0 |
| `Slideshow.FullPageSlideshow.constructor` | src/components/FullPageSlideshow.tsx:4-6 | a new instance has `n` slides, index 0 and autoplay on |
| `Slideshow.FullPageSlideshow.NextSlide` | src/components/FullPageSlideshow.tsx:8-10 | `current` becomes `NextIndex(old current)`; autoplay unchanged; in range stays in range |
| `Slideshow.FullPageSlideshow.PrevSlide` | src/components/FullPageSlideshow.tsx:12-14 | `current` becomes `PrevIndex(old current)`; autoplay unchanged; in range stays in range |
| `Slideshow.FullPageSlideshow.GoToSlide` | src/components/FullPageSlideshow.tsx:16-18 | `current` becomes the given index, unchecked; the state is in range iff the index was; autoplay unchanged |
| `Slideshow.FullPageSlideshow.Tick` | src/components/FullPageSlideshow.tsx:20-25 | the new state is `Step(old state, Timer)`: advance only while autoplay is on |
| `Slideshow.FullPageSlideshow.HandleUserInteraction` | src/components/FullPageSlideshow.tsx:27-30 | the new state is `Step(old state, User(action))`: autoplay off, then the action's index change |
| `Slideshow.FullPageSlideshow.OnPrevClick` | src/components/FullPageSlideshow.tsx:54-55 | left arrow: autoplay off and `current` is `PrevIndex(old current)` |
| `Slideshow.FullPageSlideshow.OnNextClick` | src/components/FullPageSlideshow.tsx:62-63 | right arrow: autoplay off and `current` is `NextIndex(old current)` |
| `Slideshow.FullPageSlideshow.OnDotClick` | src/components/FullPageSlideshow.tsx:72-75 | dot indicator `index` in `[0, n-1]`: autoplay off, `current == index`, in range |

## Left out

- Rendering: the JSX markup, styling classes, icons, image elements and the opacity transition (src/components/FullPageSlideshow.tsx:32-90). These are presentation only.
- The counter text `current + 1 / n` and the alt-text fallback `Slide i+1` (lines 44 and 87). These are display formatting.
- Wall-clock timing. `setInterval` with its 5000 ms period and `clearInterval` become the abstract `Timer` event and `Tick`, which do nothing once autoplay is off. This is the effect cleanup's observable result.
- React's effect lifecycle. That includes re-running the effect when `images.length` changes (line 25), which would need a varying `n`. Here `n` is fixed for an instance.
- setState batching and asynchrony. Each operation is atomic and sequential.
- The `App` demo data (lines 94-119). It is example input only.
- `n = 0`, where the source computes `NaN`. Every operation requires `n >= 1`.
