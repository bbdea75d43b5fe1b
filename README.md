# Human-behaviour timing engine and locator bookkeeping, in Dafny

This project models the two components of the game bot that hold its logic:

- **The human-behaviour engine** (`human_simulator.py`).
  - `HumanBehavior` supplies per-gesture jitter: the clipped delay, the click offset from an element's centre, the split of a scroll into steps, cursor drift, typo insertion and the occasional mistake.
  - `TimingVariation` is the session pacer. It scales every delay by a fatigue factor, counts actions, keeps the last 100 action records, and decides when the session must pause.
- **The locator bookkeeping** (`locator_verification.py`).
  - `LocatorVerifier` finds locators whose selector still holds the `PLACEHOLDER` marker, and counts verified and failed locators from page lookups.
  - It also suggests alternative selectors and summarises the counters in a report.
  - `SmartElementFinder.find_element` refuses a placeholder selector before it asks the driver anything.

Time and randomness are inputs:

- The clock `time.time()` is a `now: real` parameter.
- A call of `random.uniform(a, b)` is `a + (b - a) * u`, with the draw `u` in `[0, 1]` passed in (`Common.Uniform`).
- `random.random()` is a draw in `[0, 1)`.
- A draw of `np.random.normal` is a free real.
- A draw of `random.randint` is an integer argument with the range the source gives it.
- The two draws of `get_delay` are passed as the drawn values `baseDelay` and `jitter`. Each must lie between the bounds of its `random.uniform` call (`Common.DrawnFrom`). This keeps the delay a plain product of three factors.

Durations and multipliers are `real`. Pixel offsets and scroll steps are `int`. Python's `//` is `Common.FloorDiv`. Python's `int()` on a float truncates toward zero, which is `Common.TruncToInt`. The settings of `settings.py:52-61` are the `Settings.SafetyConfig` datatype, and their defaults are `Settings.DefaultSafety`.

Files:

- `common.dfy`: Option/Result, min, clip, floor division, truncation and the uniform draw.
- `settings.dfy`: the safety configuration.
- `text.dfy`: the Python string operations the locator code uses (`in`, `startswith`, `split(c)[0]`).
- `human_simulator.dfy`: `HumanBehavior` and the `TimingVariation` class.
- `locator_verification.dfy`: the `LocatorVerifier` class, `_suggest_alternatives`, the report summary and `find_element`.

Points where the code behaves in a way that is easy to misread:

- `get_delay` computes the fatigue from the action count *before* it is incremented (`human_simulator.py:216` runs before `:227`).
- `human_scroll` sends `steps` equal deltas of `scroll_amount // steps`. Their total is `steps * (scroll_amount // steps)`, not the requested amount. Going down it falls short by less than `steps` pixels. Going up, floor division makes it overshoot by less than `steps`.
- `get_delay` does not floor its result at 0. Non-negativity is proved when the click bounds are non-negative and ordered and the variance is in `[0, 1]` (`Settings.SaneDelays`).
- The click clip range is `[(-w)//2 + 5, w//2 - 5]`. Unary minus binds before `//`, so for odd widths the lower bound is one pixel further from the centre. Below 10 pixels the bounds cross, and `np.clip` then returns the upper bound.
- `human_delay` with `distribution == 'normal'` and `max_ms < min_ms` gives numpy a negative standard deviation, which raises `ValueError`. That case is `Failure(NegativeScale)`.
- `human_delay` sleeps the chosen length, and `time.sleep` raises `ValueError` when it is negative. That case is `Failure(NegativeSleep)`; it can only arise when a bound is negative.
- `occasional_mistake` is the single comparison of a draw with 0.03 (`HumanSimulator.OccasionalMistake`); it has no property beyond that definition.

## Model

| member | source | states |
|---|---|---|
| Settings.DefaultIsSane | settings.py:52-61 | the default settings have ordered, non-negative click bounds (0.5 and 2.0 s), a variance of 0.3 in [0, 1], and a break frequency (3600 s) below the session cap (14400 s) |
| HumanSimulator.HumanDelayMs | human_simulator.py:30-39 | numpy's error is raised exactly when the normal branch gets `max_ms < min_ms`; the sleep error needs a negative bound, so with non-negative bounds every other call succeeds; a slept delay is non-negative and lies between the bounds (in either order); a normal draw already inside non-negative bounds is slept as it is |
| HumanSimulator.ClickOffset | human_simulator.py:59-69 | for a size of at least 10, the offset lies in `[(-size)//2 + 5, size//2 - 5]`, at least 5 px from one edge and 4.5 from the other; below 10 the offset is the upper bound |
| HumanSimulator.ClickOffsets | human_simulator.py:61-69 | each axis of the click offset lies in its own clip range when that dimension is at least 10 |
| HumanSimulator.ClickOffsetKeepsInnerDraw | human_simulator.py:64-69 | a truncated draw inside the clip range is used unchanged |
| HumanSimulator.ClickBoundsAsymmetric | human_simulator.py:68-69 | for odd sizes the lower clip bound is one pixel further from the centre than the upper; for even sizes the bounds are symmetric |
| HumanSimulator.TinyElementClickLeavesElement | human_simulator.py:68-69 | for sizes 1 to 5 the clipped offset lies outside the element |
| HumanSimulator.HumanScroll | human_simulator.py:104-120 | there are exactly `steps` deltas (2 to 5), each `scroll_amount // steps`; their sum is within `steps` below the signed amount; going down it never overshoots the request, and going up it never falls short of it |
| HumanSimulator.RandomMouseMovement | human_simulator.py:136-144 | the cursor moves exactly when the draw is below 0.3, by at most ±50/±30 px in small mode and ±200/±100 px otherwise |
| HumanSimulator.TypoSimulation | human_simulator.py:168-172 | the text changes exactly when the draw is below 0.05; the original text is always a prefix, followed in that case by the letter and a backspace |
| HumanSimulator.TypoIsCorrected | human_simulator.py:168-171 | a text field that receives the typed keys shows the intended text, because the backspace removes the inserted letter |
| HumanSimulator.DelayRange | human_simulator.py:204-213 | "click" uses the configured click bounds; every other category lies within [0.3, 3.0]; an unknown category gets (0.3, 0.8) |
| HumanSimulator.FatigueRange | human_simulator.py:249-264 | the fatigue is exactly 1.0 when disabled, and otherwise lies in `[1.0, 1.25 * 1.1]` for a non-negative elapsed time |
| HumanSimulator.FatigueAtStart | human_simulator.py:252-264 | at elapsed time 0 with at most 500 actions the fatigue is 1.0 |
| HumanSimulator.FatigueTimeCurve | human_simulator.py:253-257 | below 500 actions the fatigue is 1.10 after two hours, 1.25 from five hours on, and linear in between |
| HumanSimulator.FatigueMaximum | human_simulator.py:256-262 | with both caps reached the fatigue is 1.375 |
| HumanSimulator.FatigueMonotoneInTime | human_simulator.py:253-262 | the fatigue never decreases as elapsed time grows |
| HumanSimulator.FatigueMonotoneInCount | human_simulator.py:259-262 | the fatigue never decreases as the action count grows |
| HumanSimulator.ActionDelayBounds | human_simulator.py:213-224 | with sane settings and draws from the category's range and the jitter range, the delay lies in `[min * f * (1 - v), max * f * (1 + v)]` for any fatigue `f >= 0` (which `FatigueRange` guarantees), so it is non-negative |
| HumanSimulator.DrawsOrdered | human_simulator.py:213-224 | under sane settings the base draw lies between non-negative ordered bounds and the jitter between `1 - v >= 0` and `1 + v` |
| HumanSimulator.Recent | human_simulator.py:234-236 | the kept window holds `min(n, 100)` records and is the newest suffix of everything recorded |
| HumanSimulator.RecentAppend | human_simulator.py:228-236 | appending a record, then popping the oldest if the list exceeds 100, gives exactly the window of the extended log |
| HumanSimulator.HistoryStep | human_simulator.py:228-236 | one append-then-pop step keeps the history equal to the window of the extended log, with length `min(n + 1, 100)` and the new record last |
| HumanSimulator.BreakDuration | human_simulator.py:304-311 | micro breaks last 30 to 120 s, short 300 to 600, scheduled 600 to 1200, long 1800 to 3600; an unknown type lasts 600 |
| HumanSimulator.TimingVariation.constructor | human_simulator.py:187-191 | a new session has no actions and an empty history; its last break is its start |
| HumanSimulator.TimingVariation.GetDelay | human_simulator.py:193-240 | the delay is the base draw times the fatigue at the pre-increment count times the jitter (`ActionDelay`, bounded by `ActionDelayBounds`); the count grows by exactly one; the new record is appended and the oldest popped only beyond 100; the history length is `min(count, 100)`, and the history stays the newest window of all records |
| HumanSimulator.TimingVariation.RecordAction | human_simulator.py:227-236 | the count grows by one; the record is appended and the oldest dropped only when more than 100 are kept; the history stays the newest window of all records and ends with the new one |
| HumanSimulator.TimingVariation.ShouldTakeBreak | human_simulator.py:273-295 | a break is taken exactly when one of the three rules fires; the scheduled rule wins over the micro-break, which wins over the session cap; the durations lie in [600, 1200], [30, 120] and [1800, 3600] s; otherwise the result is `(False, 0)` |
| HumanSimulator.TimingVariation.RecordBreak | human_simulator.py:313-318 | only `last_break_time` changes; it becomes the current time |
| HumanSimulator.TimingVariation.GetSessionStats | human_simulator.py:320-336 | the snapshot reports hours, actions, minutes since the last break and the current fatigue; the rate times the hours is the action count once time has elapsed, and the rate is 0 when no time has elapsed |
| HumanSimulator.RecordedBreakResetsSchedule | human_simulator.py:273-295 | right after a recorded break the scheduled rule is silent: a break comes only from a micro-break draw or the session cap |
| HumanSimulator.FreshSessionTakesNoBreak | human_simulator.py:273-295 | at the start of a session a micro-break draw that misses gives `(False, 0)` |
| LocatorVerification.PlaceholderNamesMembers | locator_verification.py:47-56 | a name is reported exactly when a public 2-tuple entry with that name has a selector containing "PLACEHOLDER" |
| LocatorVerification.PlaceholderNamesAppend | locator_verification.py:47-59 | the report on two listings in a row is the two reports concatenated: order is kept, and each entry is judged on its own |
| LocatorVerification.PlaceholderNamesLength | locator_verification.py:47-59 | at most one name per entry, and every entry is reported exactly when all are placeholders |
| LocatorVerification.QualifiedAppend | locator_verification.py:79-85 | prefixing two lists in a row equals prefixing each and concatenating |
| LocatorVerification.QualifiedMembers | locator_verification.py:79-85 | a prefixed name is listed exactly when the bare name is, so the prefix can be stripped again |
| LocatorVerification.QualifiedNotListed | locator_verification.py:79-85 | a string not starting like the prefix is never among the prefixed names |
| LocatorVerification.ReportedLocators | locator_verification.py:77-85 | the report names `BattleLocators.n` exactly when `n` is a placeholder entry of the battle class, and `SummonLocators.n` exactly when it is one of the summon class |
| LocatorVerification.LocatorVerifier.constructor | locator_verification.py:33-38 | all three counters start at 0 |
| LocatorVerification.LocatorVerifier.CheckForPlaceholders | locator_verification.py:40-59 | returns the placeholder names in listing order; the placeholder counter grows by exactly their number |
| LocatorVerification.LocatorVerifier.VerifyAllLocators | locator_verification.py:61-108 | the report lists the battle names prefixed "BattleLocators." and then the summon names prefixed "SummonLocators."; its summary holds the cumulative counters |
| LocatorVerification.VerifyTwice | locator_verification.py:77-106 | a second verification lists the same names and counts the placeholders a second time |
| LocatorVerification.LocatorTest | locator_verification.py:123-205 | found exactly for a visible element with a filled selector, and then there is no error; a placeholder selector gives the placeholder error; suggestions exactly after a timeout |
| LocatorVerification.LocatorVerifier.TestLocator | locator_verification.py:110-205 | returns that result; verified grows by one exactly when found; failed grows by one exactly for an invisible, timed-out or missing element with a filled selector |
| LocatorVerification.ClassName | locator_verification.py:231 | the class name is the text after the first '.', cut at the next '.' or '[' |
| LocatorVerification.SuggestAlternatives | locator_verification.py:223-246 | two class suggestions come exactly for a '.' selector not starting with "//"; two display suggestions come exactly for a display-block selector, built on its prefix before the first '['; the list always ends with the three general suggestions |
| LocatorVerification.SuggestionCount | locator_verification.py:227-246 | there are 3, 5 or 7 suggestions |
| LocatorVerification.Summarize | locator_verification.py:252-289 | the total is placeholders + verified + failed; the failure and placeholder warnings fire exactly when their counts are positive; "all verified" fires exactly when both are 0 |
| LocatorVerification.LocatorVerifier.GenerateReport | locator_verification.py:248-290 | the summary of the current counters, with the same total and the same all-verified condition |
| LocatorVerification.FindElement | locator_verification.py:302-357 | a placeholder selector raises ValueError when required and otherwise gives None; without `required` nothing is raised; an element is returned only for a filled selector that is present; with `required` it is also visible |
| LocatorVerification.PlaceholderGuardIgnoresDriver | locator_verification.py:317-323 | for a placeholder selector the result does not depend on anything the driver would do |
| LocatorVerification.IsElementVisible | locator_verification.py:359-371 | true exactly for a filled selector whose element is present and displayed |

## Left out

- Sleeping (`time.sleep`), Selenium `ActionChains`, `WebDriverWait` and `execute_script`, screenshots, writing the JSON report, and all logging. These are effects on the outside world; the model keeps only the values passed to them.
- The shapes of the normal and uniform distributions: each draw is a parameter constrained to its range, so statistical properties (means, the 99.7% rule) are not stated.
- IEEE floating-point rounding: durations and multipliers are exact reals.
- Python's `dir()` order: a class's attributes are a given sequence of (name, value) pairs.
- The clock: each operation reads one instant `now`. The source calls `time.time()` more than once per call, microseconds apart, and these readings are treated as one.
- The order in which the source consumes random numbers: `should_take_break` and `_get_break_duration` receive their draws as parameters, and all four break-duration draws are taken on every call, as in the source.
- `HumanBehavior.human_click`: the visibility check, the fallback to a plain click when the action chain raises, and the standard deviation `min(variance, size // 3) / 2` of the offset draw. The draw is free, so the bounds hold for every value of it.
- `HumanBehavior.reading_pause`: a single uniform draw that is only slept on; `Common.Uniform` states its bounds.
- `LocatorVerifier.verification_results` is never written by the source, so the report carries only the counters and the placeholder list. The timestamp is left out.
- `LocatorVerifier.test_locator`: the `current_url` and screenshot calls inside the timeout handler could raise in turn; such exceptions are not modelled.
- `SmartElementFinder.find_element`: the timeout and the log message text are not modelled; the result keeps only whether the element was displayed when found.
- The driver construction, browser fingerprint scripts and site warm-up (`stealth.py`), the command line (`main.py`), the logger set-up (`logger.py`), directory creation and environment parsing (`settings.py`), and the locator tables: they are foreign calls, I/O or static data. These files are not part of this model.
- Thread safety: the pacer is modelled for one sequential caller, as the source uses it.
