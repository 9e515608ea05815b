# Evercraft Idle bootstrap scripts: a Dafny model

Two independent page-load scripts of the Evercraft Idle browser client, modelled
with the browser taken out and the scripts' own logic stated and proved.

- **Time multiplier (speed.js), module `Speed`.** A persisted multiplier in
  [1, 20] (default 10) speeds up the time the game sees. Two affine clocks
  apply it, the wall clock behind `Date.now` and the high-resolution clock
  behind `performance.now`: `scaled = anchorScaled + (real - anchorReal) * multiplier`.
  Timer delays are divided by the multiplier. Animation-frame timestamps are
  passed through a clock. Changing the multiplier re-anchors both clocks at
  the current scaled time, so scaled time does not jump at the switch.
  `SpeedPatch` is the closure state of the installed patch: the multiplier,
  the four anchors, the store, the published global
  `__EVERCRAFT_SPEED_MULTIPLIER__`, the calls passed on to the browser's
  scheduler (`scheduled`), and whether a reload was requested.
  `ScaledDateNow`, `ScaledPerfNow` (which is also the patched
  `performance.now`) and `FrameTimestamp` are the clock functions. The
  lemmas below are about them.
- **Locale bootstrap (lang.js), module `Lang`.** The persisted locale ("en" or
  "ru", default "ru") and the translation debug flag are read at load.
  `LocaleBootstrap` holds the store and the globals `__EVERCRAFT_LOCALE__` and
  `__RU_TRANSLATION_DEBUG__`. `BootLocalization` loads `./ru.js` and then
  `./core.js`. The outcome of each load is supplied by the caller as a
  sequence of booleans, one per attempted load. A load with no outcome never
  settles, because the source has no timeout. Any failure makes "en" the
  locale and persists it, and no error escapes. `GetRuDebug` returns the
  boolean field `ruDebug`, so the `!!` of the source always gives a boolean.
  The invariant `Valid` keeps that field equal to the persisted flag whenever
  the store is available.
- **Shared pieces.** `Storage.Store` is `localStorage` as seen through
  `safeGetStorage`/`safeSetStorage`. When the store is unavailable, a read
  gives null and a write is a silent no-op. `Numbers` models JavaScript's
  `Number(string)` (`ParseNumber`) and `String(number)` (`FormatNumber`) on
  exact decimals (`Decimal` = mantissa / 10^scale). `Num` is a finite decimal
  or `NonFinite`, which stands for NaN and the infinities alike.
  `ParseFormatRoundTrip` proves that parsing the text of a number gives the
  number back. `readMultiplier` writes only when the text differs, which is a
  plain comparison. The round trip is what makes a second read write nothing
  (`ReadMultiplierIdempotent`).

Clocks, the URL parameter and script-load outcomes are parameters. Real times
are Dafny `real`, so the continuity equations are exact.

An out-of-range multiplier is clamped to the nearer bound, 1 or 20. Only a
non-finite value falls back to the default (speed.js:55-60).

Three client methods check the contracts on concrete scenarios.
`Speed.SwitchKeepsClockContinuous` checks an install at real time 1000 with
multiplier 10, then a switch to 2. `Lang.FirstVisitOverlayFails` and
`Lang.DebugParamOverridesStore` check the locale scenarios.

## Model

| member | source | states |
|---|---|---|
| `Storage.Store.Get` | speed.js:33-39 | a key reads as present exactly when the store is available and holds it, and then gives its value |
| `Storage.Store.Put` | speed.js:41-48 | an available store afterwards holds the value at the key; an unavailable one is unchanged; no other key changes |
| `Numbers.ParseNumber` | speed.js:51 | a finite result is in canonical form (no trailing fractional zero) |
| `Numbers.FormatNumber` | speed.js:71 | the text of a number is never empty |
| `Numbers.ParseFormatRoundTrip` | speed.js:70-72 | `Number(String(x))` is `x` itself, in canonical form |
| `Speed.ClampMultiplier` | speed.js:50-62 | non-finite input gives the fallback unchanged; finite input gives a value in [1, 20]; it is the identity on [1, 20]; below 1 gives 1; above 20 gives 20 |
| `Speed.ClampIdempotent` | speed.js:50-62 | clamping an already clamped value again, with any fallback, gives the same value |
| `Speed.ZeroMultiplierClampsToOne` | speed.js:50-62 | a requested multiplier of 0 becomes 1, so a non-negative delay is divided by 1 and handed on unchanged, never divided by 0 |
| `Speed.ReadMultiplier` | speed.js:64-75 | the result is canonical and in [1, 20]; an absent or empty stored value gives 10; otherwise the result is the clamped parse with fallback 10; afterwards the store holds the canonical text of the result and no other key changes; an available store is written exactly when it did not already hold that text |
| `Speed.ReadMultiplierIdempotent` | speed.js:64-75 | a second read returns the same value and leaves the store as the first read left it |
| `Speed.StoredThousandClampsToMax` | speed.js:70-74 | a stored "1000" gives 20 and leaves "20" stored |
| `Speed.StoredGarbageFallsBack` | speed.js:70-74 | a stored "abc" gives 10 and leaves "10" stored |
| `Speed.StoredCanonicalKept` | speed.js:70-74 | a stored "5" gives 5 and the store is not written |
| `Speed.AffineMonotone` | speed.js:83-89 | with a rate of at least 1, the scaled clock advances at least as much as real time between two instants |
| `Speed.ScaleDelay` | speed.js:91-98 | the real delay is never negative; a non-finite or negative delay becomes 0; otherwise the real delay times the divisor equals the requested delay, where the divisor is the multiplier when positive and 1 otherwise; with a multiplier of at least 1 the real delay is at most the requested one |
| `Speed.TimeoutUnderTen` | speed.js:91-98 | under multiplier 10 a delay of 2000 becomes 200 |
| `Speed.SpeedPatch.constructor` | speed.js:77-81 | after install the multiplier and store are those `readMultiplier` gives; both scaled clocks start equal to the real clocks (perf anchors 0 without a high-resolution clock); the published global equals the multiplier; nothing is scheduled |
| `Speed.SpeedPatch.ScaledDateNow` | speed.js:83-85 | at its anchor the scaled wall clock shows the anchored scaled time; with a multiplier of at least 1 it has advanced at least as far as real time since the anchor |
| `Speed.SpeedPatch.ScaledPerfNow` | speed.js:87-89 | the same for the scaled high-resolution clock, which is also the patched `performance.now` (speed.js:129-131) |
| `Speed.SpeedPatch.FrameTimestamp` | speed.js:171-181 | a frame callback receives the browser's timestamp, or, when none is supplied, the real clock read then; it is mapped through the scaled high-resolution clock when one exists and through the scaled wall clock otherwise |
| `Speed.SpeedPatch.DateNow` | speed.js:120-123 | the patched `Date.now` is the floor of the scaled wall-clock time |
| `Speed.SpeedPatch.GetMultiplier` | speed.js:188-190 | the published multiplier is in [1, 20] and equals the closure's multiplier |
| `Speed.SpeedPatch.SetTimeout` | speed.js:150-156 | exactly one timeout is handed on, for the same handler, with the scaled delay |
| `Speed.SpeedPatch.SetInterval` | speed.js:158-164 | exactly one interval is handed on, for the same handler, with the scaled delay |
| `Speed.SpeedPatch.RequestAnimationFrame` | speed.js:166-183 | exactly one frame request is handed on per call; the request is not rate-scaled |
| `Speed.SpeedPatch.Rebase` | speed.js:102-113 | re-anchoring: the multiplier becomes the new one; at the switch instant both scaled clocks show what the old clocks showed then; from there on each is that reading plus the new multiplier times the real time elapsed since the switch; without a high-resolution clock the perf anchors are untouched |
| `Speed.SpeedPatch.ApplyMultiplier` | speed.js:100-118 | the applied value is the clamp of the input with the current multiplier as fallback, so a non-finite input keeps the current multiplier; it becomes the multiplier and the published global; its canonical text is persisted; scaled time is continuous at the switch and runs at the new rate afterwards, for both clocks; perf anchors are untouched without a high-resolution clock; the invariant (multiplier in [1, 20], global equal to it) is kept |
| `Speed.SpeedPatch.SetMultiplier` | speed.js:191-197 | as `ApplyMultiplier` (clamped value, persisted text, continuity and new rate of both clocks, perf anchors untouched without a high-resolution clock), and a reload is requested unless `reload` is false |
| `Speed.SpeedPatch.Reset` | speed.js:198-204 | applies the multiplier 1: both scaled clocks are continuous at the switch and run at real speed afterwards; perf anchors are untouched without a high-resolution clock; "1" is persisted; a reload is requested unless `reload` is false |
| `Speed.ScaledClocksMonotone` | speed.js:83-89 | on an installed patch both scaled clocks advance at least as much as real time, so neither goes back |
| `Speed.DateNowMonotone` | speed.js:121-123 | the patched `Date.now` never goes back as real time advances |
| `Speed.DateNowAcrossSwitch` | speed.js:121-123 | the patched `Date.now` read before a `setMultiplier` call is at most its reading at any later time after the call |
| `Speed.FrameTimestampsScaled` | speed.js:171-181 | two frame timestamps reach callbacks spaced by the multiplier times their real spacing, via the perf clock when present and the wall clock otherwise |
| `Lang.NormalizeLocale` | lang.js:29-34 | the result is present exactly when the input is "en" or "ru", and is then the input itself |
| `Lang.ReadLocale` | lang.js:36-43 | the result is a supported locale; a valid stored locale is returned and nothing is written; otherwise "ru" is returned; afterwards the store holds the result; an available store is written exactly when it did not hold a valid locale |
| `Lang.ReadLocaleIdempotent` | lang.js:36-43 | a second read returns the same locale and writes nothing |
| `Lang.ReadDebugFlag` | lang.js:45-59 | a present `ru_debug` parameter gives true exactly for "1", "true" or "on", and persists "1"/"0" to match; an absent one gives whether "1" is stored and writes nothing |
| `Lang.DebugFlagPersists` | lang.js:45-59 | on an available store, a flag set from the URL is read back on a later load whose URL has no override |
| `Lang.LocaleBootstrap.constructor` | lang.js:107-108 | the published locale and debug flag and the store are those `readLocale` and then `readDebugFlag` give; the locale is supported |
| `Lang.LocaleBootstrap.GetLocale` | lang.js:111-113 | the published locale is always "en" or "ru" |
| `Lang.LocaleBootstrap.GetRuDebug` | lang.js:120-122 | returns the published debug flag, which on an available store is true exactly when "1" is persisted |
| `Lang.LocaleBootstrap.SetLocale` | lang.js:61-68 | it succeeds exactly for "en" and "ru"; a failure carries "Unsupported locale: " and the argument, and changes neither store nor global; a success persists the locale and publishes it |
| `Lang.LocaleBootstrap.SetRuDebug` | lang.js:70-74 | persists "1" for true and "0" for false, and publishes the flag |
| `Lang.LocaleBootstrap.ApiSetLocale` | lang.js:114-119 | as `SetLocale`; a reload is requested only after a success and unless `reload` is false; the debug flag is untouched |
| `Lang.LocaleBootstrap.ApiSetRuDebug` | lang.js:123-128 | as `SetRuDebug`, so `getRuDebug` then returns the new flag; a reload is requested unless `reload` is false; the locale is untouched |
| `Lang.LocaleBootstrap.BootLocalization` | lang.js:92-105 | nothing is loaded unless the locale is "ru"; `./ru.js` is attempted first; `./core.js` is attempted exactly when `./ru.js` loaded; every attempted script except the last loaded; the boot ends loaded exactly when both loads succeed, and falls back exactly when an attempted load fails; on fallback the locale becomes "en" and is persisted; otherwise locale and store are unchanged |

## Left out

- Script injection (lang.js:76-90): the DOM `<script>` element and its Promise are replaced by the caller's outcome sequence.
- Page reloads (speed.js:194, speed.js:201, lang.js:117, lang.js:126) are recorded in the field `reloadRequested`. The page is not torn down.
- Replacing the browser's built-ins (speed.js:120-184) is modelled by the wrapper functions and methods. Not modelled: the `Object.defineProperty` fallback for `performance.now`, the case where `setTimeout`, `setInterval` or `requestAnimationFrame` is missing, forwarding extra timer arguments, and the timer handles the browser returns.
- `RequestAnimationFrame`: a callback that is not a function is passed on unwrapped (speed.js:168-170). This branch checks a JavaScript type, so it is not modelled. Handlers and callbacks are plain numbers.
- The `ru_debug` parameter is given as an `Option<string>`. `URLSearchParams` decoding is not modelled, and a URL that cannot be parsed is treated as one without the parameter.
- `localStorage` failures are modelled as a store that is unavailable for a whole run. A failure that hits only some calls is not modelled.
- `Numbers.ParseNumber`: accepts "", an optional sign, digits with an optional fraction ("5.", ".5") and the Infinity spellings. It treats surrounding whitespace, exponents ("1e3") and "0x"/"0o"/"0b" prefixes as NaN, whereas JavaScript parses them.
- `Numbers.FormatNumber`: prints the exact shortest decimal of the value. Its own contract states only that the text is not empty. What the text means is fixed by `ParseFormatRoundTrip`. JavaScript's exponent notation (below 1e-6, from 1e21 on) never arises for multipliers in [1, 20], so it is not modelled.
- IEEE-754 doubles: numbers are exact, so no float rounding is modelled in the clocks, in `scaleDelay` or in the multiplier text.
- `Speed.SpeedPatch.SetMultiplier`, `Speed.SpeedPatch.Reset`, `Lang.LocaleBootstrap.ApiSetLocale`, `Lang.LocaleBootstrap.ApiSetRuDebug`: `reload` is a boolean. JavaScript reloads for every value other than `false`, and `!!enabled` turns any value into a boolean. Neither conversion of a non-boolean value is modelled.
- `Number(value)` on the argument of `setMultiplier`: the argument is taken as an already converted `Num`.
- `Speed.SpeedPatch.SetTimeout`, `Speed.SpeedPatch.SetInterval`: `Number(timeout)` in `scaleDelay` (speed.js:92) is not modelled; the delay is an already converted `Num`. A missing delay (`undefined` becomes NaN, then 0), a string delay and `null` are therefore not modelled.
- `Speed.SpeedPatch.GetMultiplier`, `Lang.LocaleBootstrap.GetLocale`: the source returns the window globals `__EVERCRAFT_SPEED_MULTIPLIER__` and `__EVERCRAFT_LOCALE__` (speed.js:189, lang.js:112), which any other script may overwrite. The model keeps them as fields that only these scripts write, so the ranges `Valid` promises hold only while no other script writes those globals.
- The `Date.now` override has its own try/catch (speed.js:120-126). If the assignment fails, `Date.now` stays unscaled. The model always installs the override.
- `Lang.LocaleBootstrap.SetLocale`: the source accepts any JavaScript value and reports it as "Unsupported locale: " + String(value) (lang.js:61-64). The model takes strings only, so non-string arguments (`undefined`, numbers, objects) and their `String` conversion are not modelled.
- `debugSnapshot` (speed.js:205-212) reads the live clock and the store, so it is not modelled. Console logging and the outer try/catch of speed.js (speed.js:215-227) are not modelled either.
- A change of locale from elsewhere that lands between the two loads of `bootLocalization` is not modelled. Every step of the model runs in sequence.
