# Slider and audio-player screen, modelled in Dafny

This project models the interaction logic of a small mobile audio player written with
React Native and Expo. It covers two source files.

- `react-native-slider.js` is a draggable value picker. The model covers:
  - how a thumb offset maps to a value and back, including clamping and step snapping;
  - the thumb's touch rectangle and hit test;
  - the measurement state machine that caches container, track and thumb sizes and
    publishes them once all three are known;
  - the pan-gesture handlers, including the `disabled` gating;
  - controlled value updates from new props.
- `App.js` is the player screen. The model covers:
  - the three timing milestones (load, end of first buffering, first play) derived from the
    stream of playback status snapshots, with two buffering latches and the previous snapshot;
  - the fields copied from loaded snapshots;
  - the seek-hold protocol between the slider and the sound;
  - the `M:S` duration formatter.

Files:

- `option.dfy` (module `Optional`): `Option`, for JavaScript values that start `undefined`.
- `slider.dfy` (module `Slider`): pure functions for the mapping and the geometry, and the
  pure measurement step `Measure` with its lemmas. Class `SliderComponent` holds the fields
  the component updates in place; its methods are tied to those functions.
- `mmss.dfy` (module `MillisFormat`): `getMMSSFromMillis` and `padWithZero`. A parser
  `ParseMMSS` is the partner the formatter is proved against.
- `player.dfy` (module `Player`): the pure status step `StatusStep` and the fold `Replay` over
  a stream of snapshots, with their lemmas. Class `PlayerScreen` holds the screen's fields.

Modelling choices:

- Slider arithmetic is exact `real` arithmetic.
- `Math.round(x)` is `Floor(x + 1/2)`, which rounds halves up as JavaScript does.
- JavaScript `%` truncates towards zero (`MillisFormat.JsRemainder`).
- The clock (`Date.now() - this.timestamp`) is an input: each status update carries its
  elapsed milliseconds.
- The audio engine is represented by the `Player.Command` values the screen issues.
- The awaits in `_play` and `_onSeekComplete` are split in two steps. `LoadResolved` and
  `SeekResolved` are the continuations.
- The parent's callbacks (`onSlidingStart`, `onValueChange`, `onSlidingComplete`) are
  recorded as a log `fired` of `(kind, value)` pairs.
- The code has no guards where a division would yield NaN or Infinity. Preconditions
  exclude these cases. The first two are wider than the division by zero itself, as
  "## Left out" explains:
  - `minimumValue < maximumValue` for `_getRatio`;
  - container width greater than thumb width for `_getValue`;
  - a positive duration for the position fraction;
  - a known duration when a seek completes.
- Before all three elements are measured, `_getTouchOverflowSize` returns `{}`. Half of
  its undefined width is NaN, so the thumb touch rectangle has a NaN origin and every hit
  test fails. The model returns `None` for that rectangle, and the hit test is false.
- The model follows the code wherever a natural reading of the screen differs from it:
  - `initialLoadingTimestamp` is not write-once. Every not-loaded → loaded transition
    after an earlier snapshot rewrites it (`Player.LoadingMilestoneRewrittenOnReload`).
  - `allMeasured` means that each element has been reported at least once, even at 0 × 0.
    It does not mean that the sizes are non-zero.
  - `_pause` has no guard against a missing sound. The model requires a loaded sound rather
    than inventing an error result.
  - A recorded first-play time of 0 is falsy, so a later transition may overwrite it.
  - The grant handler fires `onSlidingStart` even when the slider is `disabled`. Only
    move and end are gated.

## Model

| member | source | states |
|---|---|---|
| `Slider.ContainsPoint` | react-native-slider.js:30-37 | `Rect.containsPoint`: the point is at or right of the left edge, at or below the top, and at or left of and above the far edges. |
| `Slider.ContainsPointClosedBox` | react-native-slider.js:30-37 | `containsPoint` is inclusive on all four edges. For a rectangle of non-negative extent it holds exactly on the closed box, corners included. |
| `Slider.DefaultProps` | react-native-slider.js:56-67 | The default props have a non-empty domain [0, 1], continuous mode (step 0) and are not disabled. |
| `Slider.Round` | react-native-slider.js:319-322 | `Math.round` gives the integer within half a unit of its argument, with halves going up. |
| `Slider.Ratio` | react-native-slider.js:297-299 | `_getRatio` inverts the linear map `min + ratio*(max-min)`. It lies in [0, 1] for values within bounds. |
| `Slider.ThumbLeft` | react-native-slider.js:301-305 | `_getThumbLeft(min) = 0` and `_getThumbLeft(max)` is the travel range. In-range values stay within [0, travel]. |
| `Slider.GetValue` | react-native-slider.js:307-336 | `_getValue` never returns less than `minimumValue`. When min ≤ max it never returns more than `maximumValue`, whatever the drag. |
| `Slider.ContinuousClampsAtStart` | react-native-slider.js:328-335 | With step 0, a thumb offset ≤ 0 gives exactly `minimumValue`. |
| `Slider.ContinuousClampsAtEnd` | react-native-slider.js:328-335 | With step 0, an offset ≥ the travel range gives exactly `maximumValue`. |
| `Slider.SteppedOnGrid` | react-native-slider.js:313-326 | With step > 0, the result is `maximumValue` or `minimumValue + k*step` for an integer k ≥ 0. The grid is anchored at the minimum. |
| `Slider.SnapWithinHalfStep` | react-native-slider.js:319-323 | Rounding to the grid and clamping leave an interior result within (-step/2, step/2] of the unrounded point. |
| `Slider.SteppedRoundsHalfUp` | react-native-slider.js:313-326 | Strictly inside the bounds, the stepped value is the grid point nearest the raw value, and ties go up. |
| `Slider.SteppedClampsAtStart` | react-native-slider.js:313-326 | With step > 0, an offset ≤ 0 gives exactly `minimumValue`. |
| `Slider.ValuePixelRoundTrip` | react-native-slider.js:297-336 | With `_previousLeft = _getThumbLeft(v)` for v in [min, max], step 0 and dx 0, `_getValue` returns v. |
| `Slider.PixelValueRoundTrip` | react-native-slider.js:297-336 | With step 0, the value of a drag maps back to the drag's offset clamped to [0, travel]. |
| `Slider.TouchOverflowSize` | react-native-slider.js:363-381 | The overflow is empty until `allMeasured`. After that both components are ≥ 0, and each is 0 or the touch size's excess over the thumb width or the container height. |
| `Slider.ThumbTouchRect` | react-native-slider.js:418-432 | The rectangle exists iff `allMeasured`. Its size is exactly `thumbTouchSize`, its horizontal centre is `overflow.width/2 + thumbLeft + thumb.width/2`, and its vertical centre is `overflow.height/2 + container.height/2`. |
| `Slider.ThumbHitTest` | react-native-slider.js:408-416 | `_thumbHitTest`: the touch location is inside the thumb touch rectangle. Before measurement there is no such rectangle (the source's NaN rectangle), so nothing hits. |
| `Slider.HitTestGatedByMeasurement` | react-native-slider.js:408-432 | No touch hits the thumb before everything is measured. Afterwards the centre of the touch rectangle always hits. |
| `Slider.Measure` | react-native-slider.js:270-295 | A report caches its element's size and leaves the other caches alone. It never clears `allMeasured`. |
| `Slider.MeasureRepeatIsNoOp` | react-native-slider.js:277-283 | A report equal to the cached size changes no field at all. |
| `Slider.MeasurePreservesValid` | react-native-slider.js:285-294 | Sizes are published with `allMeasured` exactly when all three caches are filled, as the cached sizes. Otherwise they stay the initial zeros. |
| `Slider.ReplayCaches` | react-native-slider.js:270-295 | Over any sequence of reports the invariant holds and `allMeasured` is never reset. A cache is filled iff it was filled before or its element is reported. |
| `Slider.AllMeasuredIffAllReported` | react-native-slider.js:285-294 | From the initial state, `allMeasured` holds iff container, track and thumb were each reported at least once (0×0 included). Until then the published sizes are zero. |
| `Slider.DragScenarios` | react-native-slider.js:307-336 | Container 300 and thumb 20: a drag of 140 px from 0 in [0, 1] gives 0.5. Ratio 0.44 in [0, 100] with step 10 gives 40. |
| `Slider.SliderComponent.constructor` | react-native-slider.js:69-75 | Initial state: zero sizes, nothing cached, `allMeasured` false, value from props. |
| `Slider.SliderComponent.HandleMeasure` | react-native-slider.js:270-295 | The fields change exactly as `Measure` says, the invariant is kept, and value, props, anchor and callbacks are untouched. |
| `Slider.SliderComponent.FireChangeEvent` | react-native-slider.js:357-361 | The callback of that kind is invoked with the current value iff the parent supplied it. |
| `Slider.SliderComponent.StartShouldSetPanResponder` | react-native-slider.js:221-223 | A gesture is claimed iff the touch lies in the thumb touch rectangle, and never before measurement. |
| `Slider.SliderComponent.MoveShouldSetPanResponder` | react-native-slider.js:225-228 | A move never claims the gesture. |
| `Slider.SliderComponent.PanResponderRequestEnd` | react-native-slider.js:244-247 | A termination request is always refused. |
| `Slider.SliderComponent.PanResponderGrant` | react-native-slider.js:230-233 | The drag anchor becomes `_getThumbLeft` of the current value, and `onSlidingStart` fires with that value. Nothing else changes. |
| `Slider.SliderComponent.PanResponderMove` | react-native-slider.js:235-242 | When disabled, the value and callbacks are unchanged. Otherwise the value becomes `_getValue` of the drag and `onValueChange` fires with it. |
| `Slider.SliderComponent.PanResponderEnd` | react-native-slider.js:249-256 | The same as move, firing `onSlidingComplete`. Used for release and termination. |
| `Slider.SliderComponent.ReceiveProps` | react-native-slider.js:199-207 | A changed `value` prop replaces the current value unless transitions are animated. The props are then the new ones. |
| `MillisFormat.NatToString` | App.js:207 | `toString` of a non-negative integer is a non-empty digit string, with at least two digits from 10 on. |
| `MillisFormat.ParseNatToString` | App.js:207 | Reading the decimal text of n gives back n. |
| `MillisFormat.NatToStringLeadingDigit` | App.js:207 | The text of a positive number does not start with '0'. |
| `MillisFormat.PadWithZero` | App.js:206-214 | `padWithZero`: the decimal text of n, with a '0' in front when n < 10. |
| `MillisFormat.GetMMSSFromMillis` | App.js:199-204 | `getMMSSFromMillis`: divides by 1000, takes the floor of the truncated remainder mod 60 as seconds and the floor of the quotient by 60 as minutes, and joins both padded with ':'. |
| `MillisFormat.PadWithZeroShape` | App.js:206-214 | `padWithZero(n)` for n ≥ 0 has at least two digits, starts with '0' iff n < 10, and still denotes n. |
| `MillisFormat.MMSSArithmetic` | App.js:199-204 | The real-number floor and `%` arithmetic equals whole-second division: minutes = ⌊millis/1000⌋ / 60 and seconds = ⌊millis/1000⌋ mod 60. |
| `MillisFormat.MMSSRoundTrip` | App.js:199-215 | The text parses back as M and S with S < 60, both fields at least two digits, and M*60 + S = ⌊millis/1000⌋. |
| `MillisFormat.MMSSExamples` | App.js:199-215 | 9500 ms shows as "00:09" and 61000 ms as "01:01". |
| `Player.StatusStep` | App.js:88-130 | After each update the previous status is the new snapshot. Both latches only move from false to true, and "ended ⇒ started" is preserved. |
| `Player.LoadingMilestoneStep` | App.js:93-95 | The load time changes only on a not-loaded → loaded transition after an earlier snapshot, and then it is the elapsed time. The first snapshot never writes it. |
| `Player.BufferingMilestoneStep` | App.js:97-105 | The buffering time changes only while "started" is latched and "ended" is not, by a non-buffering snapshot, and the change latches "ended". Before "started", including the snapshot that sets it, nothing is written. |
| `Player.PlayingMilestoneStep` | App.js:107-114 | The first-play time changes only when none (or 0) is recorded, a previous snapshot exists, and it goes from not playing to playing. Under exactly those conditions it becomes the elapsed time. A recorded non-zero time is never changed. |
| `Player.DurationText` | App.js:120 | The displayed duration: `getMMSSFromMillis` of a known duration, and "NaN:NaN" for an undefined one. |
| `Player.CopiesOnlyLoadedStatus` | App.js:116-129 | A loaded snapshot's position, duration, playing flag, volume and duration text are copied. A not-loaded snapshot copies nothing. |
| `Player.ReplayBuffering` | App.js:97-105 | From any consistent latch state, a stream sets the buffering time to the first non-buffering snapshot the latches still wait for, if there is one. The latches stay consistent. |
| `Player.BufferingMilestoneOfStream` | App.js:97-105 | From the initial state, the buffering time equals the reference `InitialBufferingEnd`: the first non-buffering snapshot after the first buffering one. |
| `Player.BufferingMilestoneWrittenOnce` | App.js:97-105 | Once "ended" is latched, no stream changes the buffering time again. |
| `Player.LoadingMilestoneRewrittenOnReload` | App.js:93-95 | A second not-loaded → loaded transition rewrites the load time: it is not write-once. |
| `Player.MilestoneScenario` | App.js:88-114 | Not-loaded@0, loaded+buffering@50, loaded@120, playing@300 give the milestones 50, 120 and 300. |
| `Player.PlayerScreen.constructor` | App.js:9-18 | Initial state: no sound, no previous status, both latches false, no milestones, not seeking. |
| `Player.PlayerScreen.Play` | App.js:62-84 | Without a sound it requests a load with autoplay, an 800 ms status interval and position 0. With a sound it resumes. |
| `Player.PlayerScreen.LoadResolved` | App.js:66-78 | After the load resolves the sound exists. |
| `Player.PlayerScreen.PauseSound` | App.js:86 | With a loaded sound, pausing issues the pause command. |
| `Player.PlayerScreen.OnPlaybackStatusUpdate` | App.js:88-130 | The fields change exactly as `StatusStep` says. The latch invariant is kept, and the seek hold and sound are untouched. |
| `Player.PlayerScreen.OnSeekChange` | App.js:132-139 | Without a sound nothing changes. With one, `isSeeking` is set and `seek` holds the value. |
| `Player.PlayerScreen.OnSeekComplete` | App.js:141-147 | With a sound it issues a seek to `value * duration` and leaves `isSeeking` unchanged. Without one it issues nothing. |
| `Player.PlayerScreen.SeekResolved` | App.js:149 | After the seek resolves, `isSeeking` is cleared. |
| `Player.PlayedFraction` | App.js:165 | For a positive duration, the fraction times the duration is the position, and it lies in [0, 1] when the position does not pass the duration. |
| `Player.PlayerScreen.SeekSliderPosition` | App.js:153-169 | While seeking: the held value. Otherwise, with sound, position and duration all known: the fraction p with p*duration = position, in [0, 1] when position ≤ duration. Otherwise 0. |

## Left out

- Rendering is not modelled: the JSX, `StyleSheet` styles, `_renderThumbImage`, `_renderDebugThumbTouchRect`, the opacity and style objects in `render`, and the margins `_getTouchOverflowStyle` derives from the overflow size. They only lay out views.
- `Animated` values, `_setCurrentValueAnimated` and `DEFAULT_ANIMATION_CONFIGS` are not modelled. They belong to the toolkit's animation engine, and the current value is a plain field.
- `Slider.SliderComponent.ReceiveProps`: when `animateTransitions` is set, the value is left unchanged at the call. The animation that later carries it to the new prop is not modelled.
- `PanResponder.create` in `componentWillMount` is not modelled: the handlers are methods called directly. The gesture recognizer calls grant before move or end, so the move and end methods require the drag anchor that grant sets. They also require a positive travel range. This is not guaranteed by the ordering: a hit only needs `allMeasured`, whatever the sizes, so a container no wider than the thumb can still be grabbed. The source then divides by zero in `_getValue`. The requirement is the model's exclusion of that NaN or Infinity.
- `_getPropsForComponentUpdate` is not modelled, because nothing calls it.
- Expo's `Audio.Sound.createAsync`, `playAsync`, `pauseAsync` and `setStatusAsync` are represented by the `Command` they issue, and their resolution by `LoadResolved` and `SeekResolved`.
- `Date.now()` and `this.timestamp` are not modelled: the elapsed time is an input to each status update. Setting the timestamp in `_play` and `_onSeekComplete` therefore has no counterpart.
- Console logging and the error branch of the status callback are not modelled, because they only log.
- `Player.PlayerScreen.PauseSound`: requires a loaded sound. The source dereferences a missing sound and crashes, and that crash is not modelled.
- IEEE-754 rounding, NaN and Infinity are not modelled, because the arithmetic is exact. The degenerate cases are excluded by preconditions instead. These preconditions exclude more than the cases that give NaN or Infinity:
  - `Slider.Ratio`, `Slider.ThumbLeft` and `Slider.ThumbTouchRect` require `minimumValue < maximumValue`. Only `min == max` divides by zero. An inverted domain gives finite values in the source, but those values are not modelled.
  - `Slider.GetValue` and the move and end handlers require a travel range > 0. Only a travel range of exactly 0 divides by zero. A container narrower than the thumb gives finite values in the source, but those values are not modelled.
  - a zero duration for `Player.PlayerScreen.SeekSliderPosition`;
  - an unknown duration for `Player.PlayerScreen.OnSeekComplete`.
- `MillisFormat.GetMMSSFromMillis` takes whole, non-negative milliseconds only, as the audio engine reports them. Fractional or negative inputs are outside the model.
- React's merging and batching of `setState` are modelled as an immediate update of the state record. Each callback runs to completion before the next, so no interleaving is lost.
