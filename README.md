# RealtimeAudioVis core in Dafny

This project models the core of RealtimeAudioVis, a Windows loopback audio visualiser.
The model has four parts:

- **The audio manager.** A class that holds the capture handles and accumulates down-mixed
  samples. Once it has a full 480-sample window, it transforms the window and keeps 240
  magnitudes. It cycles through eleven colour codes and turns magnitudes into bars or curves
  in four layouts. Two of the renderers apply an asymmetric smoothing: rises are shown at once,
  falls decay by a coefficient, and silence resets a bar.
- **`sf::Curve`.** A quadratic Bezier strip whose vertex array every setter recomputes in place.
- **`PerformanceManager`.** Three start/stop benchmark timers with counters, accumulators and
  averages, plus a system timer.
- **The compile-time constants and the `Settings` record.** This includes the C++ aggregate
  initialisation of `Settings` from the `DEFAULT_SETTINGS` list.

Modules, one per file:

- `Wrappers` (wrappers.dfy): `Option`
- `Globals` (globals.dfy): include/Globals.h and the start-up retry in src/main.cpp
- `AudioSettings` (settings.dfy): `Settings`, the mode constants, `THROW_ON_ERROR`, aggregate initialisation
- `Palette` (palette.dfy): `SetColorFunction`'s colour cycle and `GetColor`
- `Smoothing` (smoothing.dfy): the attack/decay/reset rule both smoothing renderers apply
- `Curve` (curve.dfy): `sf::Curve` (class over an `array<Vertex>`)
- `BarGeometry` (geometry.dfy): what each render method draws, as values (`Rect`, `CurveDraw`)
- `AudioManager` (audio_manager.dfy): the `AudioManager` class
- `PerformanceManager` (performance_manager.dfy): the `PerformanceManager` class

Modelling choices:

- **The platform is reduced to values and a log.**
  - A capture buffer is a set of arguments of `GetAudio`: the `HRESULT`, the frame count, the
    silent flag, the samples and the channel count.
  - The FFT, together with `sqrtf`, `log2` and the `WINDOW_HEIGHT / 10` scaling, is the
    function parameter `bin`.
  - `ReleaseBuffer`, the transform and `Release`/`free`/`CoTaskMemFree` calls are appended to
    the ghost log `calls`.
  - A render window is a `Handle` that may be `Null`. `w->draw` appends what is drawn to the
    sequence a render method returns.
- **Window size and smoothing coefficient.** `WINDOW_WIDTH`, `WINDOW_HEIGHT` and
  `SMOOTHING_COEF` are the parameters `W`, `H` and `c`. `W` and `H` are taken to be integers
  (see "## Left out").
- **Numbers.** Floats are `real`. Unsigned 64-bit counters wrap modulo 2^64. Steady-clock
  readings are nanosecond tick parameters (`now`).
- **Asserts.** Source `assert`s are preconditions.

## Model

| member | source | states |
|---|---|---|
| `Globals.RenderBarsFitSpectrum` | include/Globals.h:11 | the 240 kept bins and the 120 drawn bars derive from FFT_COUNT = 480, and every drawn bar has a bin |
| `Globals.StartupOutcome` | src/main.cpp:21-38 | start-up throws out of `main` exactly when the first construction fails, or when both the guarded one and the retry in the handler fail; on success the counter is 1 if and only if the handler ran |
| `Globals.StartupNeverAborts` | src/main.cpp:26-37 | with RETRY_COUNT = 5 the abort is unreachable: the handler runs at most once, so the counter never exceeds 1 |
| `AudioSettings.ThrowOnError` | include/AudioManager.h:26-27 | the result is a runtime error carrying the message exactly when the code is a failure (negative), and success otherwise |
| `AudioSettings.InitFields` | include/AudioManager.h:79 | an initialiser list that aggregate initialisation accepts yields one value per member |
| `AudioSettings.InitFieldsFit` | include/AudioManager.h:33-42 | every value aggregate initialisation yields fits its member's type (arrays have their declared length, unsigned and signed values their range) |
| `AudioSettings.InitSettings` | include/AudioManager.h:33-42 | a record built from an accepted list has four-element `baseColor` and `barColor` |
| `AudioSettings.TrailingFieldsZero` | include/AudioManager.h:38-41 | members left without an initialiser are value-initialised to zero |
| `AudioSettings.BarColorTakesPlainTail` | include/AudioManager.h:37 | by brace elision the unbraced `barColor` takes the next four plain initialisers, 1, 1080, 1920 and 0.9 |
| `AudioSettings.DefaultSettingsFields` | include/Globals.h:16 | the member values DEFAULT_SETTINGS yields for the declared record: `baseColor` {1,0,0,0}, `barColor` {1,1080,1920,0.9}, and the four trailing members zero |
| `AudioSettings.DefaultSettingsValue` | include/Globals.h:16 | the record DEFAULT_SETTINGS builds, whose window size is 0 by 0 |
| `AudioSettings.DefaultSettingsFitCommentedFields` | include/Globals.h:15-16 | the same list matches the seven-member layout of the comment above it one for one |
| `AudioSettings.DefaultSettings` | include/AudioManager.h:79 | the settings as the list is written: built by aggregate initialisation, smoothing on, default mode, window size zero |
| `AudioSettings.IntendedSettingsFields` | include/Globals.h:15-16 | the corrected list fills the declared record member by member |
| `AudioSettings.IntendedSettings` | include/Globals.h:15-16 | the corrected settings give each scalar member the value the list gives it under the commented layout: window 1920 by 1080, coefficient 0.9, height scale 1 |
| `Palette.Rgb` | src/AudioManager.cpp:169 | a colour from three channels is opaque with exactly those channels |
| `Palette.NextColorInCodes` | src/AudioManager.cpp:200-215 | one step always lands on one of the eleven codes, and any non-code (including the initial NUL) goes to red |
| `Palette.CodesDistinct` | src/AudioManager.cpp:201-213 | the eleven codes are pairwise distinct |
| `Palette.NextColorSteps` | src/AudioManager.cpp:202-212 | each code moves to the next one in the cycle, and '8' wraps to 'r' |
| `Palette.CycleAdvances` | src/AudioManager.cpp:200-215 | n calls move a code n places around the cycle (modulo 11) |
| `Palette.CycleReturns` | src/AudioManager.cpp:200-215 | eleven calls bring every code back to itself |
| `Palette.CycleMinimal` | src/AudioManager.cpp:200-215 | no smaller positive number of calls does, so the period is exactly 11 |
| `Palette.CycleEntersCodes` | src/AudioManager.cpp:213 | from any character, one or more calls land in the cycle; the first call from a non-code gives red |
| `Palette.Colx` | src/AudioManager.cpp:165 | the index channel is (i + 1) mod 255, always below 255 |
| `Palette.Xor` | src/AudioManager.cpp:187 | the `^` of two bytes is their bitwise exclusive or and fits a byte |
| `Palette.GetColor` | src/AudioManager.cpp:163-197 | every colour is opaque (alpha 255), and any character that is not a colour code gives white |
| `Palette.GetColorPeriodic` | src/AudioManager.cpp:165-187 | bars i and i + 255 of the same magnitude get the same colour under every code except '7' and '8', whose channels depend on the index in other ways |
| `Palette.RedBlueFade` | src/AudioManager.cpp:176-177 | code '1' has red + blue = 255, green 0 and blue (i + 1) mod 255 |
| `Palette.XorMashRecoversBlue` | src/AudioManager.cpp:186-187 | under code '6', red XOR green gives blue back |
| `Palette.MagnitudeFreeColors` | src/AudioManager.cpp:168-177 | the colours of 'r', 'g', 'b', '1' and of non-codes do not depend on the magnitude |
| `Palette.InitialColorIsWhite` | src/AudioManager.cpp:194-195 | before the first colour change every bar is white |
| `Smoothing.Smoothed` | src/AudioManager.cpp:416-422 | a smoothed height is never below the new magnitude, and on the first pass it is the magnitude |
| `Smoothing.Max` | src/AudioManager.cpp:420 | the larger of two values |
| `Smoothing.SmoothedOrZero` | src/AudioManager.cpp:408-412 | a non-positive magnitude stores 0; a positive one stores its smoothed height |
| `Smoothing.SmoothPass` | src/AudioManager.cpp:406-439 | a pass over the first `bars` bars stores each one's smoothed-or-zero height and leaves later bars as they were |
| `Smoothing.RiseIsExact` | src/AudioManager.cpp:419-420 | a rising or steady bar is shown at exactly its new height (no attack lag), for c in [0, 1] |
| `Smoothing.DropIsSmoothed` | src/AudioManager.cpp:419 | a falling bar lands strictly between its new and its previous height, for c in (0, 1) |
| `Smoothing.SmoothedIsMaxOfBlend` | src/AudioManager.cpp:419-420 | after the first pass the smoothed height is the maximum of the blend and the new height |
| `Smoothing.StoredPositiveIffRaw` | src/AudioManager.cpp:408-438 | a bar is stored positive if and only if its raw magnitude is positive |
| `Smoothing.SmoothPassNonNegative` | src/AudioManager.cpp:408-438 | a pass keeps stored heights non-negative |
| `Smoothing.ConstantSignalIsFixed` | src/AudioManager.cpp:416-422 | a constant positive signal that is already stored is a fixed point of the pass |
| `Smoothing.DecayStep` | src/AudioManager.cpp:419 | one pass over a falling bar shrinks the gap to the new height by the factor c |
| `Smoothing.DecayStaysAbove` | src/AudioManager.cpp:419-420 | a bar that keeps falling towards a positive height never reaches it |
| `Smoothing.DecayIsGeometric` | src/AudioManager.cpp:419-420 | after k passes the gap is c^k times the initial gap |
| `Smoothing.DropToZeroResets` | tests/test_smoothing.cpp:37-42 | after heights of 1 and a drop to 0, every bar is stored as 0, not strictly between 0 and 1 as the test expects |
| `Curve.Step` | src/Curve.cpp:22 | the parameter step 1/(n - 1) is positive and n - 1 steps make exactly 1 |
| `Curve.Vertices` | src/Curve.cpp:21-33 | the strip has n vertices, all in the curve's colour |
| `Curve.CurveEndpoints` | src/Curve.cpp:19-33 | the first vertex is the start point and the last vertex is the end point |
| `Curve.WeightsSumToOne` | src/Curve.cpp:19 | the three Bezier weights sum to 1 |
| `Curve.DegenerateCurveIsPoint` | src/Curve.cpp:29 | a curve whose three points coincide is that point at every parameter |
| `Curve.DegenerateStrip` | src/Curve.cpp:21-33 | every vertex of such a curve's strip is that point |
| `Curve.Recolored` | include/Curve.hpp:37-44 | recolouring keeps every position and sets every colour |
| `Curve.RecolorStrip` | include/Curve.hpp:37-44 | recolouring a computed strip gives the strip computed in the new colour |
| `Curve.ConstructedThickness` | src/Curve.cpp:13-14 | the constructor as written stores 1 or 0 as the thickness |
| `Curve.ConstructorLosesThickness` | src/Curve.cpp:13-14 | with the default thickness 10 the constructor as written keeps 1, not 10 |
| `Curve.Curve.AsWritten` | src/Curve.cpp:3-16 | the constructor as written: the points and count stored, white, the thickness replaced by its threshold test, the flag unset, the vertex array computed |
| `Curve.Curve.constructor` | src/Curve.cpp:3-16 | the corrected constructor: the thickness kept, the flag set exactly when it exceeds 0.1, the vertex array computed |
| `Curve.Curve.UpdateVertices` | src/Curve.cpp:21-33 | vertex i of the array becomes point i of the Bezier strip, in the curve's colour, for every i |
| `Curve.Curve.SetColor` | include/Curve.hpp:37-44 | the colour is set, and every vertex is recoloured in place with its position kept |
| `Curve.Curve.SetVertexCount` | include/Curve.hpp:46-51 | the array gets the new count and is recomputed; points, colour and thickness stay |
| `Curve.Curve.SetPoints` | include/Curve.hpp:53-59 | the three points are set and the vertex array is recomputed from them |
| `Curve.Curve.SetThickness` | include/Curve.hpp:61-66 | the thickness is set as given, and the flag is set exactly when it exceeds 0.1 |
| `BarGeometry.BarRects` | src/AudioManager.cpp:316-321 | a bar gives one rectangle (two when mirrored) with the bar's width, height, top edge, index and magnitude, at its x offset from the left edge or the middle |
| `BarGeometry.MirroredPair` | src/AudioManager.cpp:343-350 | the two rectangles of a mirrored bar are reflections of each other about the middle |
| `BarGeometry.BarAnchors` | src/AudioManager.cpp:371-372 | bars stand on the bottom edge, or are centred on the integer half height (four-way) or on the exact half height (smoothed) |
| `BarGeometry.RenderCount` | src/AudioManager.cpp:369-383 | the number of rectangles drawn is one or two per visible bar |
| `BarGeometry.RenderMembership` | src/AudioManager.cpp:316-321 | a rectangle is drawn if and only if it belongs to some visible bar |
| `BarGeometry.RenderedBarsAreVisible` | src/AudioManager.cpp:317 | every drawn rectangle comes from a bar above the layout's threshold (0.1, or 0 when smoothed) and has that bar's height |
| `BarGeometry.LoopStartsAsWritten` | src/AudioManager.cpp:480 | the curve loop as written visits every even i below the bin count |
| `BarGeometry.CurveReadsPastEnd` | src/AudioManager.cpp:480-485 | for every non-empty spectrum some visited i reads index i + 2 at or past the end; with 240 bins, i = 238 reads index 240 |
| `BarGeometry.SegmentStarts` | src/AudioManager.cpp:480 | the corrected loop visits even bins i only while i + 2 is inside the heights |
| `BarGeometry.SegmentStartsComplete` | src/AudioManager.cpp:480 | an even bin i is visited if and only if i + 2 is inside the heights, so only the out-of-range segment is dropped |
| `BarGeometry.SegmentCurves` | src/AudioManager.cpp:482-493 | each segment draws an upper curve and its reflection about the integer half height, coloured from bin i and the magnitude of bin i + 1 |
| `BarGeometry.CurveRender` | src/AudioManager.cpp:480-497 | `count` segments draw 2 * count curves |
| `BarGeometry.SegmentsJoin` | src/AudioManager.cpp:483-492 | consecutive upper curves join end to start, and so do consecutive lower curves |
| `AudioManager.Downmix` | src/AudioManager.cpp:253-262 | stereo frames become the mean of their two samples, mono frames are copied, and any other channel count adds nothing |
| `AudioManager.AnalysisWindow` | src/AudioManager.cpp:264-270 | the transform's input always has FFT_COUNT slots |
| `AudioManager.WindowIgnoresLateSamples` | src/AudioManager.cpp:265-266 | only accumulated samples below both the frame count and FFT_COUNT reach the transform |
| `AudioManager.WindowIsZeroPadded` | src/AudioManager.cpp:264-270 | every slot is real-valued; slots at or past the frame count are zero, and the others hold the accumulated sample |
| `AudioManager.Spectrum` | src/AudioManager.cpp:295-299 | half a window (240) of magnitudes is kept |
| `AudioManager.DestructorReleasesLive` | src/AudioManager.cpp:70-97 | the destructor releases an object if and only if its handle is non-null, with that object's identity |
| `AudioManager.DestructorReleasesOnce` | src/AudioManager.cpp:70-97 | no resource is released twice by one destruction |
| `AudioManager.AssignReleasesAsDestructor` | src/AudioManager.cpp:131-136 | move assignment releases the same objects as the destructor would, in another order |
| `AudioManager.NulledReleasesNothing` | src/AudioManager.cpp:151-157 | a moved-from manager releases nothing when destroyed or assigned to |
| `AudioManager.MoveAssignThenDestroy` | src/AudioManager.cpp:125-160 | assigning b to a and destroying both releases every object of a and of b exactly once |
| `AudioManager.AudioManager.constructor` | src/AudioManager.cpp:4-67 | a constructed manager holds six live handles, colour NUL, 240 zero magnitudes, no previous heights, an empty accumulator, the default duration, and the settings the member initialiser `settings{DEFAULT_SETTINGS}` yields as written (`AudioSettings.DefaultSettings`, a 0 by 0 window) |
| `AudioManager.AudioManager.Corrected` | include/AudioManager.h:79 | the same construction with the settings the default list evidently intends (`AudioSettings.IntendedSettings`, a 1920 by 1080 window) |
| `AudioManager.AudioManager.Destroy` | src/AudioManager.cpp:70-97 | the destructor logs the releases of exactly the live handles, in its order, and nulls all six |
| `AudioManager.AudioManager.ReleaseHandle` | src/AudioManager.cpp:73-76 | a non-null handle's object is released once; a null handle releases nothing |
| `AudioManager.AudioManager.Move` | src/AudioManager.cpp:100-122 | the move constructor takes the handles, duration, magnitudes, accumulator and colour; the other manager is nulled and emptied; previous heights start empty and the settings are those the member initialiser yields as written |
| `AudioManager.AudioManager.MoveAssign` | src/AudioManager.cpp:125-160 | self-assignment changes nothing; otherwise the old objects are released, the other's state is taken, the other is nulled and emptied, and colour, previous heights and settings are kept |
| `AudioManager.AudioManager.ReleaseOwned` | src/AudioManager.cpp:131-136 | move assignment releases each live handle in its own order |
| `AudioManager.AudioManager.TakeFrom` | src/AudioManager.cpp:140-148 | move assignment takes the other's handles, duration, magnitudes and accumulator |
| `AudioManager.AudioManager.Invalidate` | src/AudioManager.cpp:151-157 | a moved-from manager has all handles null and empty vectors |
| `AudioManager.AudioManager.SetColorFunction` | src/AudioManager.cpp:200-215 | the colour advances one step around the cycle |
| `AudioManager.AudioManager.GetAudio` | src/AudioManager.cpp:219-303 | the four outcomes of one capture: a failure releases the buffer and throws "Failed to get buffer"; a silent buffer zeroes the magnitudes and releases; otherwise samples are down-mixed, and a full window is transformed, stored, emptied and the buffer released; a short one is held without releasing |
| `AudioManager.AudioManager.Accumulate` | src/AudioManager.cpp:253-262 | the accumulator grows by exactly the down-mixed frames |
| `AudioManager.AudioManager.FillWindow` | src/AudioManager.cpp:264-270 | the window loop yields the zero-padded analysis window |
| `AudioManager.AudioManager.StoreSpectrum` | src/AudioManager.cpp:295-299 | magnitude i becomes bin i of the transformed window for every i below 240 |
| `AudioManager.AudioManager.DrawBars` | src/AudioManager.cpp:316-321 | the bar loop draws exactly the rendering of its heights |
| `AudioManager.AudioManager.RenderAudio` | src/AudioManager.cpp:307-325 | a null window throws with the source's message and draws nothing; otherwise the first 120 magnitudes are drawn as bars from the left edge |
| `AudioManager.AudioManager.RenderAudioSymmetric` | src/AudioManager.cpp:329-354 | the same for mirrored bars on the bottom edge |
| `AudioManager.AudioManager.RenderAudioFourWaySym` | src/AudioManager.cpp:358-384 | the same for mirrored bars centred on the integer half height |
| `AudioManager.AudioManager.StartingHeights` | src/AudioManager.cpp:398-403 | a pass starts from 240 stored heights, all zero when none were stored |
| `AudioManager.AudioManager.RenderAudioWithSmoothing` | src/AudioManager.cpp:388-443 | a null window throws (with the four-way message) and changes nothing; otherwise the first 120 bars are smoothed (passed through on the first call), stored, and drawn centred at their smoothed heights, and the magnitudes are cleared to 240 zeros |
| `AudioManager.AudioManager.SmoothAndDrawBars` | src/AudioManager.cpp:406-439 | the loop stores the smoothing pass and draws exactly the visible smoothed bars |
| `AudioManager.AudioManager.SmoothedHeight` | src/AudioManager.cpp:416-422 | the height is the smoothed height of the bar |
| `AudioManager.AudioManager.SmoothHeights` | src/AudioManager.cpp:463-478 | the curve's smoothing loop, with its `<=`, computes the same pass over all bins |
| `AudioManager.AudioManager.RenderAudioCurve` | src/AudioManager.cpp:447-500 | a null window throws and changes nothing; otherwise all 240 bins are smoothed, every segment that fits is drawn with its reflection, and every even bin's smoothed height is stored |
| `AudioManager.AudioManager.DrawCurveSegments` | src/AudioManager.cpp:480-497 | the corrected drawing loop draws exactly the segments that fit and stores every even bin's height |
| `AudioManager.StoreEven` | src/AudioManager.cpp:496 | after the loop has passed bin i, the even bins below i hold the smoothed heights and every other bin keeps its stored height |
| `PerformanceManager.Elapsed` | src/PerformanceManager.cpp:12-16 | the duration is the whole microseconds between two readings, truncated, and fits a signed 64-bit count |
| `PerformanceManager.ToI64` | include/PerformanceManager.h:9 | the unsigned count read as a signed 64-bit one: unchanged below 2^63, the same bits otherwise |
| `PerformanceManager.Average` | src/PerformanceManager.cpp:132-146 | zero before any cycle; otherwise a non-negative average times the counter is at most the accumulator, which is below one more than the average times the counter |
| `PerformanceManager.StopRecords` | src/PerformanceManager.cpp:40-53 | a stop counts one more cycle, adds its duration to the accumulator (modulo 2^64), makes it the current time, and clears the running flag |
| `PerformanceManager.StartKeepsRecord` | src/PerformanceManager.cpp:33-38 | a start sets the flag and keeps the timer's record |
| `PerformanceManager.CurrentIsLastCycle` | src/PerformanceManager.cpp:119-131 | the current time is the duration of the last completed cycle, and 0 before the first |
| `PerformanceManager.SumBounds` | src/PerformanceManager.cpp:50 | n durations between lo and hi sum to between n * lo and n * hi |
| `PerformanceManager.AverageIsMean` | src/PerformanceManager.cpp:132-146 | without wrap-around the average is the mean of the recorded durations, rounded down |
| `PerformanceManager.AverageBetween` | src/PerformanceManager.cpp:132-146 | so it lies between the shortest and the longest recorded duration |
| `PerformanceManager.PerformanceManager.constructor` | src/PerformanceManager.cpp:22-25 | every timer is idle with zero counts, no cycles are recorded, and the system timer is running from `now` |
| `PerformanceManager.PerformanceManager.Destroy` | src/PerformanceManager.cpp:27-31 | the system timer is stopped if it was still running |
| `PerformanceManager.PerformanceManager.StartFrameTimer` | src/PerformanceManager.cpp:33-38 | the frame timer runs from `now`; the other two timers are untouched |
| `PerformanceManager.PerformanceManager.StopFrameTimer` | src/PerformanceManager.cpp:40-53 | returns the elapsed time and records it as one more frame cycle; the other two timers are untouched |
| `PerformanceManager.PerformanceManager.StartFFTTimer` | src/PerformanceManager.cpp:55-60 | the FFT timer runs from `now`; the other two timers are untouched |
| `PerformanceManager.PerformanceManager.StopFFTTimer` | src/PerformanceManager.cpp:62-75 | returns the elapsed time and records it as one more FFT cycle; the other two timers are untouched |
| `PerformanceManager.PerformanceManager.StartRenderTimer` | src/PerformanceManager.cpp:77-82 | the render timer runs from `now`; the other two timers are untouched |
| `PerformanceManager.PerformanceManager.StopRenderTimer` | src/PerformanceManager.cpp:84-97 | returns the elapsed time and records it as one more render cycle; the other two timers are untouched |
| `PerformanceManager.PerformanceManager.WritePerformanceData` | src/PerformanceManager.cpp:99-111 | the system timer is stopped only if running, its run time is kept, and the report's counts are the numbers of completed cycles modulo 2^64 |
| `PerformanceManager.PerformanceManager.CurrentFFTTime` | src/PerformanceManager.cpp:119-122 | the last FFT duration, 0 before the first |
| `PerformanceManager.PerformanceManager.CurrentRenderTime` | src/PerformanceManager.cpp:124-127 | the last render duration, 0 before the first |
| `PerformanceManager.PerformanceManager.CurrentFrameTime` | src/PerformanceManager.cpp:128-131 | the last frame duration, 0 before the first |
| `PerformanceManager.PerformanceManager.AverageFFTTime` | src/PerformanceManager.cpp:132-136 | 0 before any FFT; otherwise the rounded-down mean of the FFT durations while nothing has wrapped |
| `PerformanceManager.PerformanceManager.AverageRenderTime` | src/PerformanceManager.cpp:137-141 | 0 before any render; otherwise the rounded-down mean of the render durations while nothing has wrapped |
| `PerformanceManager.PerformanceManager.AverageFrameTime` | src/PerformanceManager.cpp:142-146 | 0 before any frame; otherwise the rounded-down mean of the frame durations while nothing has wrapped |
| `PerformanceManager.PerformanceManager.StartSystemTimer` | src/PerformanceManager.cpp:153-157 | the system timer runs from `now` |
| `PerformanceManager.PerformanceManager.StopSystemTimer` | src/PerformanceManager.cpp:159-169 | the system timer stops and returns how long it ran |

## Left out

- Platform and construction failures:
  - COM and WASAPI setup is left out: `CoCreateInstance`, device activation, the mix format and
    starting the client. Each step's `THROW_ON_ERROR` failure in the constructor
    (src/AudioManager.cpp:20-66) is not modelled. The constructor is the successful run, and
    `AudioSettings.ThrowOnError` is the macro.
  - The `std::cerr` line on a failed buffer is left out.
- The FFT:
  - `kiss_fft` is abstracted into the parameter `bin`, together with `sqrtf`, `log2` and the
    height scaling.
  - `log2(0)` giving negative infinity, and float rounding in general, are not modelled.
- `AudioManager.AudioManager.GetAudio`:
  - The "Not enough Frames!" console message is left out.
  - The model keeps the source's behaviour of not releasing the capture buffer while the
    accumulator is below a full window.
- `Palette.GetColor`:
  - The channels computed by floating-point arithmetic are an abstract `Shades` argument:
    `coly`, the truncated `i * mag` of code '7', and the three sine/cosine channels of code
    '8', each a byte. They need float-to-byte conversions of products and trigonometric values.
  - Only the index-driven channels and the code dispatch are computed.
- Drawing:
  - SFML drawing, `sf::Curve::draw` (rotated rectangles via `atan2`), the OpenGL
    `RenderAudio(GLFWwindow*, ...)` and the shader getters are left out.
  - A render method returns what it draws, as `Rect` or `CurveDraw` values.
  - `RenderAudioCurve` builds one `sf::Curve` with thickness 5 and 50 vertices and calls
    `setPoints`/`setColor` on it. The model records each curve's three points and colour
    arguments instead. Those setters are modelled on their own in `Curve.Curve`.
- Header declarations with no definition in the source are left out: `genMinVerts`,
  `genColors`, `smoothMagnitudes`, `openGLInit`, `UpdateSmoothing` and `getSystemRunTime_s`.
  The smoothing test calls `smoothMagnitudes`. Its expectation is checked against the
  smoothing the render methods do (`Smoothing.DropToZeroResets`).
- `main`: the render loop, the UI, the window and `bench` are left out. Only the start-up retry
  is modelled.
- Curves with one vertex and uninitialised fields:
  - `Curve.Curve.UpdateVertices` requires a vertex count other than 1, because a count of 1
    divides 1 by 0: the step is infinite, so the vertex positions are NaN.
  - `isThick`, left uninitialised by the constructor as written, is `None`.
- `Curve.Curve.SetVertexCount`: the vertex array is replaced by a fresh array of the new
  length, rather than resized in place.
- src/PolyCurve.cpp is an unfinished stub and is not part of this model.
- `PerformanceManager`:
  - The clock is a parameter.
  - The steady clock is taken to tick in nanoseconds and never to go backwards (`now` is at
    least the start time).
  - The report's `std::cout` text is left out; the report is returned as a value.
- `PerformanceManager.Average`: the mean relation is stated only for non-negative results and,
  in `AverageIsMean`, only while the counter and sum have not wrapped. After 2^64 cycles, or a
  sum of 2^63 microseconds or more, the result is only the wrapped quotient.
- `AudioManager.AudioManager.RenderAudioWithSmoothing`: the source's draw calls are interleaved
  with the smoothing loop. `SmoothAndDrawBars` keeps that order; its result is stated as the
  smoothing pass together with the rendering of the smoothed heights.
- `AudioManager.AudioManager.Destroy`:
  - The six handle fields are stated through `HandleSet`.
  - `free`, `CoTaskMemFree` and `Release` are all logged as `Release`.
- Copy construction and copy assignment are deleted in both classes, so neither is modelled.
  A Dafny class reference is never copied.
- The smoothing test (tests/test_smoothing.cpp:37-42) expects a drop to 0 to land strictly
  between 0 and 1. The model follows the code, which stores 0 for any non-positive magnitude
  (src/AudioManager.cpp:408-412), so the expectation does not hold (`Smoothing.DropToZeroResets`).
- `WINDOW_WIDTH`, `WINDOW_HEIGHT` and `SMOOTHING_COEF` are not defined in any source file of
  this model. `W` and `H` are taken to be integer macros, so `W / 120`, `W / 2` and `H / 2` are
  integer divisions; this is why four-way bars and curves are mirrored about the integer half
  height (`BarGeometry.BarAnchors`, `BarGeometry.SegmentCurves`,
  `AudioManager.AudioManager.RenderAudioFourWaySym`).
- `AudioManager.AudioManager.Invalidate`: the source never clears a moved-from manager's
  `magnitudes` and `accumulator`; after a `std::vector` move they are only valid but
  unspecified. The model takes them to be empty (also in `Move` and `MoveAssign`).

## Findings

| source | as written | input that shows it | evidently intended | confidence | as-written member | corrected member |
|---|---|---|---|---|---|---|
| src/AudioManager.cpp:480-485 | the curve loop runs `i` over every even index below `magnitudes.size()` and reads `smoothedHeights[i + 1]` and `[i + 2]` | 240 bins: at i = 238 the loop reads `smoothedHeights[240]`, one past the end | draw a segment only while i + 2 is inside the heights (every even bin's height is still stored) | not executed | `BarGeometry.CurveReadsPastEnd` | `AudioManager.AudioManager.DrawCurveSegments` |
| src/Curve.cpp:13-14 | the constructor assigns the thickness test's result to `m_thickness` and never sets `isThick` | default thickness 10: `m_thickness` becomes 1 and `isThick` is uninitialised | keep the thickness and set `isThick` to whether it exceeds 0.1, as `setThickness` does | not executed | `Curve.ConstructorLosesThickness` | `Curve.Curve.constructor` |
| include/Globals.h:16 | DEFAULT_SETTINGS is written for the seven-member layout of its comment, but `Settings` has eight members; by brace elision `barColor` takes 1, 1080, 1920 and 0.9, and the window size is left 0 | any default-constructed `AudioManager`: `settings.windowWidth` and `windowHeight` are 0, which src/main.cpp:41 passes to `createWindow` | window 1920 by 1080, height scale 1 and coefficient 0.9 in their own members (the manager built by `AudioManager.AudioManager.Corrected`) | not executed | `AudioSettings.DefaultSettingsValue` | `AudioSettings.IntendedSettings` |
