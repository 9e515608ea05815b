/**
 * The global time-multiplier patch (speed.js).
 *
 * A persisted multiplier in [1, 20] drives two affine clocks, one for the
 * wall clock (`Date.now`) and one for the high-resolution clock
 * (`performance.now`): scaled = anchorScaled + (real - anchorReal) * multiplier.
 * Timer delays are divided by the multiplier, animation-frame timestamps are
 * mapped through a clock, and changing the multiplier re-anchors both clocks so
 * that scaled time is continuous at the switch.
 */
module Speed {
  import opened Wrappers
  import opened Storage
  import opened Numbers

  const SpeedKey := "evercraft-speed-multiplier"
  const DefaultMultiplier := Decimal(10, 0)
  const MinMultiplier := Decimal(1, 0)
  const MaxMultiplier := Decimal(20, 0)

  /** A multiplier the patch accepts. */
  predicate InRange(d: Decimal) {
    1.0 <= Value(d) <= 20.0
  }

  /**
   * `clampMultiplier(value, fallback)`, with `Number(value)` already applied by
   * the caller: a non-finite number gives the fallback unchanged, a finite one
   * is clamped into [1, 20].
   */
  function ClampMultiplier(value: Num, fallback: Decimal): (r: Decimal)
    ensures value.NonFinite? ==> r == fallback
    ensures value.Finite? ==> InRange(r)
    ensures value.Finite? && InRange(value.d) ==> r == value.d
    ensures value.Finite? && Value(value.d) < 1.0 ==> r == MinMultiplier
    ensures value.Finite? && Value(value.d) > 20.0 ==> r == MaxMultiplier
  {
    match value
    case NonFinite => fallback
    case Finite(n) =>
      if Value(n) < Value(MinMultiplier) then MinMultiplier
      else if Value(n) > Value(MaxMultiplier) then MaxMultiplier
      else n
  }

  /** Clamping a clamped value again, with any fallback, changes nothing. */
  lemma ClampIdempotent(value: Num, fallback: Decimal, fallback': Decimal)
    requires InRange(fallback)
    ensures ClampMultiplier(Finite(ClampMultiplier(value, fallback)), fallback') == ClampMultiplier(value, fallback)
  {
  }

  /** What `readMultiplier` returns and the store it leaves behind. */
  datatype MultiplierRead = MultiplierRead(value: Decimal, store: Store)

  /**
   * `readMultiplier()`: an absent or empty stored value gives the default 10
   * and persists "10"; otherwise the stored text is parsed and clamped with
   * fallback 10, and persisted again only when its canonical text differs.
   */
  function ReadMultiplier(store: Store): (r: MultiplierRead)
    ensures InRange(r.value) && Canonical(r.value)
    ensures store.Get(SpeedKey) in {None, Some("")} ==> r.value == DefaultMultiplier
    ensures store.Get(SpeedKey).Some? && store.Get(SpeedKey).value != "" ==>
              r.value == ClampMultiplier(ParseNumber(store.Get(SpeedKey).value), DefaultMultiplier)
    // the store ends up holding the canonical text of the result, every other key as it was
    ensures r.store == store.Put(SpeedKey, FormatNumber(r.value))
    // and is written exactly when it did not hold that text already
    ensures store.available ==> (r.store == store <==> store.Get(SpeedKey) == Some(FormatNumber(r.value)))
  {
    match store.Get(SpeedKey)
    case None =>
      if store.available then PutChanges(store, SpeedKey, FormatNumber(DefaultMultiplier)); MultiplierRead(DefaultMultiplier, store.Put(SpeedKey, FormatNumber(DefaultMultiplier)))
      else MultiplierRead(DefaultMultiplier, store.Put(SpeedKey, FormatNumber(DefaultMultiplier)))
    case Some(stored) =>
      if stored == "" then
        PutChanges(store, SpeedKey, FormatNumber(DefaultMultiplier));
        MultiplierRead(DefaultMultiplier, store.Put(SpeedKey, FormatNumber(DefaultMultiplier)))
      else
        var normalized := ClampMultiplier(ParseNumber(stored), DefaultMultiplier);
        if FormatNumber(normalized) != stored then
          PutChanges(store, SpeedKey, FormatNumber(normalized));
          MultiplierRead(normalized, store.Put(SpeedKey, FormatNumber(normalized)))
        else
          PutSameValue(store, SpeedKey);
          MultiplierRead(normalized, store)
  }

  /** Reading the multiplier a second time returns the same value and writes nothing. */
  lemma {:induction false} ReadMultiplierIdempotent(store: Store)
    ensures ReadMultiplier(ReadMultiplier(store).store) == ReadMultiplier(store)
  {
    var r := ReadMultiplier(store);
    if store.available {
      var text := FormatNumber(r.value);
      assert r.store.Get(SpeedKey) == Some(text);
      ParseFormatRoundTrip(r.value);
      assert ParseNumber(text) == Finite(r.value);
    }
  }

  // ---------------------------------------------------------------------------
  // The affine clock

  /** Scaled time at real time `realNow` for a clock anchored at (anchorReal, anchorScaled). */
  function Affine(anchorReal: real, anchorScaled: real, rate: real, realNow: real): real {
    anchorScaled + (realNow - anchorReal) * rate
  }

  /** With a rate of at least 1, scaled time never runs slower than real time, so it never goes back. */
  lemma AffineMonotone(anchorReal: real, anchorScaled: real, rate: real, t1: real, t2: real)
    requires rate >= 1.0 && t1 <= t2
    ensures Affine(anchorReal, anchorScaled, rate, t2) - Affine(anchorReal, anchorScaled, rate, t1) >= t2 - t1 >= 0.0
  {
    assert (t2 - anchorReal) * rate - (t1 - anchorReal) * rate == (t2 - t1) * rate;
    assert (t2 - t1) * rate - (t2 - t1) == (t2 - t1) * (rate - 1.0);
  }

  /**
   * Re-anchoring at real time `t` with the scaled time the old clock shows
   * then: the new clock shows the same time at `t` and from there on advances
   * at the new rate.
   */
  lemma Reanchor(anchorReal: real, anchorScaled: real, oldRate: real, newRate: real, t: real, u: real)
    ensures Affine(t, Affine(anchorReal, anchorScaled, oldRate, t), newRate, t) == Affine(anchorReal, anchorScaled, oldRate, t)
    ensures Affine(t, Affine(anchorReal, anchorScaled, oldRate, t), newRate, u)
         == Affine(anchorReal, anchorScaled, oldRate, t) + (u - t) * newRate
  {
  }

  lemma DivideByAtLeastOne(n: real, divisor: real)
    requires n >= 0.0 && divisor > 0.0
    ensures n / divisor >= 0.0 && (n / divisor) * divisor == n
    ensures divisor >= 1.0 ==> n / divisor <= n
  {
    if divisor >= 1.0 {
      assert n / divisor * divisor - n / divisor == n / divisor * (divisor - 1.0);
    }
  }

  /**
   * `scaleDelay(timeout)` with the current multiplier `rate`: a negative or
   * non-finite delay counts as 0, and the rest is divided by the multiplier
   * (by 1 if the multiplier were not positive).
   */
  function ScaleDelay(timeout: Num, rate: real): (r: real)
    ensures r >= 0.0
    ensures timeout.NonFinite? || Value(timeout.d) < 0.0 ==> r == 0.0
    ensures timeout.Finite? && Value(timeout.d) >= 0.0 ==> r * (if rate > 0.0 then rate else 1.0) == Value(timeout.d)
    ensures timeout.Finite? && rate >= 1.0 ==> r <= if Value(timeout.d) < 0.0 then 0.0 else Value(timeout.d)
  {
    var n := if timeout.NonFinite? || Value(timeout.d) < 0.0 then 0.0 else Value(timeout.d);
    var divisor := if rate > 0.0 then rate else 1.0;
    var scaled := n / divisor;
    DivideByAtLeastOne(n, divisor);
    if scaled < 0.0 then 0.0 else scaled
  }

  // ---------------------------------------------------------------------------
  // The installed patch

  /** A call handed to the browser's own scheduler: handlers and callbacks are identified by number. */
  datatype Scheduled =
    | Timeout(handler: nat, delay: real)
    | Interval(handler: nat, delay: real)
    | Frame(callback: nat)

  /**
   * The closure state of speed.js after it has been installed: the multiplier,
   * the anchors of both clocks, the store, the exported global
   * `__EVERCRAFT_SPEED_MULTIPLIER__`, and, standing for the browser, the calls
   * passed on to its scheduler and whether a page reload was requested.
   */
  class SpeedPatch {
    /** Whether the environment has a high-resolution clock (`performance.now`). */
    const hasPerf: bool
    var multiplier: Decimal
    var anchorRealDate: real
    var anchorScaledDate: real
    var anchorRealPerf: real
    var anchorScaledPerf: real
    var store: Store
    var globalMultiplier: Decimal
    var scheduled: seq<Scheduled>
    var reloadRequested: bool

    ghost predicate Valid()
      reads this
    {
      InRange(multiplier) && globalMultiplier == multiplier
    }

    /**
     * Installation: read the multiplier, anchor both clocks at the current
     * real times (scaled time starts equal to real time), publish the global.
     */
    constructor (store0: Store, hasPerf: bool, realDate: real, realPerf: real)
      ensures Valid()
      ensures this.hasPerf == hasPerf
      ensures multiplier == ReadMultiplier(store0).value && store == ReadMultiplier(store0).store
      ensures anchorRealDate == anchorScaledDate == realDate
      ensures anchorRealPerf == anchorScaledPerf == if hasPerf then realPerf else 0.0
      ensures scheduled == [] && !reloadRequested
    {
      this.hasPerf := hasPerf;
      var read := ReadMultiplier(store0);
      multiplier := read.value;
      store := read.store;
      anchorRealDate := realDate;
      anchorScaledDate := realDate;
      anchorRealPerf := if hasPerf then realPerf else 0.0;
      anchorScaledPerf := anchorRealPerf;
      globalMultiplier := read.value;
      scheduled := [];
      reloadRequested := false;
    }

    /**
     * `getScaledDateNow(realNow)`: at the anchor it shows the anchored scaled
     * time, and with a multiplier of at least 1 it has advanced at least as far
     * as real time since then.
     */
    function ScaledDateNow(realNow: real): (r: real)
      reads this`anchorRealDate, this`anchorScaledDate, this`multiplier
      ensures realNow == anchorRealDate ==> r == anchorScaledDate
      ensures 1.0 <= Value(multiplier) && anchorRealDate <= realNow ==> r - anchorScaledDate >= realNow - anchorRealDate
    {
      var rate := Value(multiplier);
      if 1.0 <= rate && anchorRealDate <= realNow then
        AffineMonotone(anchorRealDate, anchorScaledDate, rate, anchorRealDate, realNow);
        Affine(anchorRealDate, anchorScaledDate, rate, realNow)
      else
        Affine(anchorRealDate, anchorScaledDate, rate, realNow)
    }

    /**
     * `getScaledPerfNow(realNow)`, which is also what the patched
     * `performance.now` reports; it behaves towards its anchor as
     * `ScaledDateNow` does towards its own.
     */
    function ScaledPerfNow(realNow: real): (r: real)
      reads this`anchorRealPerf, this`anchorScaledPerf, this`multiplier
      ensures realNow == anchorRealPerf ==> r == anchorScaledPerf
      ensures 1.0 <= Value(multiplier) && anchorRealPerf <= realNow ==> r - anchorScaledPerf >= realNow - anchorRealPerf
    {
      var rate := Value(multiplier);
      if 1.0 <= rate && anchorRealPerf <= realNow then
        AffineMonotone(anchorRealPerf, anchorScaledPerf, rate, anchorRealPerf, realNow);
        Affine(anchorRealPerf, anchorScaledPerf, rate, realNow)
      else
        Affine(anchorRealPerf, anchorScaledPerf, rate, realNow)
    }

    /** The patched `Date.now`: whole milliseconds of scaled wall-clock time, rounded down. */
    function DateNow(realNow: real): (r: int)
      reads this`anchorRealDate, this`anchorScaledDate, this`multiplier
      ensures r as real <= ScaledDateNow(realNow) < r as real + 1.0
    {
      ScaledDateNow(realNow).Floor
    }

    /**
     * The timestamp the patched `requestAnimationFrame` passes to its
     * callback: the browser's timestamp (when it supplies a number, else the
     * real clock read at that moment), mapped through the high-resolution
     * clock when there is one and through the wall clock otherwise.
     */
    function FrameTimestamp(timestamp: Option<real>, realPerf: real, realDate: real): (r: real)
      reads this
      ensures hasPerf ==> r == ScaledPerfNow(if timestamp.Some? then timestamp.value else realPerf)
      ensures !hasPerf ==> r == ScaledDateNow(if timestamp.Some? then timestamp.value else realDate)
    {
      var realTs := if timestamp.Some? then timestamp.value else if hasPerf then realPerf else realDate;
      if hasPerf then ScaledPerfNow(realTs) else ScaledDateNow(realTs)
    }

    /** `evercraftSpeed.getMultiplier()`: the published global. */
    function GetMultiplier(): (r: Decimal)
      reads this
      requires Valid()
      ensures InRange(r) && r == multiplier
    {
      globalMultiplier
    }

    /** The patched `setTimeout`: hands the handler on once, with the delay divided by the multiplier. */
    method SetTimeout(handler: nat, timeout: Num)
      modifies this`scheduled
      ensures scheduled == old(scheduled) + [Timeout(handler, ScaleDelay(timeout, Value(multiplier)))]
    {
      scheduled := scheduled + [Timeout(handler, ScaleDelay(timeout, Value(multiplier)))];
    }

    /** The patched `setInterval`: as `SetTimeout`, for a repeating timer. */
    method SetInterval(handler: nat, timeout: Num)
      modifies this`scheduled
      ensures scheduled == old(scheduled) + [Interval(handler, ScaleDelay(timeout, Value(multiplier)))]
    {
      scheduled := scheduled + [Interval(handler, ScaleDelay(timeout, Value(multiplier)))];
    }

    /** The patched `requestAnimationFrame`: exactly one underlying request per call, not rate-scaled. */
    method RequestAnimationFrame(callback: nat)
      modifies this`scheduled
      ensures scheduled == old(scheduled) + [Frame(callback)]
    {
      scheduled := scheduled + [Frame(callback)];
    }

    /**
     * The clock half of `applyMultiplier`: read both scaled clocks at the
     * switch instant under the old multiplier, then make those readings the
     * new anchors and `rate` the new multiplier.
     */
    method Rebase(rate: Decimal, nowRealDate: real, nowRealPerf: real)
      modifies this`multiplier, this`anchorRealDate, this`anchorScaledDate, this`anchorRealPerf, this`anchorScaledPerf
      ensures multiplier == rate
      ensures ScaledDateNow(nowRealDate) == old(ScaledDateNow(nowRealDate))
      ensures forall t :: ScaledDateNow(t) == old(ScaledDateNow(nowRealDate)) + (t - nowRealDate) * Value(rate)
      ensures hasPerf ==> ScaledPerfNow(nowRealPerf) == old(ScaledPerfNow(nowRealPerf))
      ensures hasPerf ==> forall t :: ScaledPerfNow(t) == old(ScaledPerfNow(nowRealPerf)) + (t - nowRealPerf) * Value(rate)
      ensures !hasPerf ==> anchorRealPerf == old(anchorRealPerf) && anchorScaledPerf == old(anchorScaledPerf)
    {
      var oldRate, newRate := Value(multiplier), Value(rate);
      var nowScaledDate := ScaledDateNow(nowRealDate);
      var realPerf := if hasPerf then nowRealPerf else 0.0;
      var nowScaledPerf := if hasPerf then ScaledPerfNow(realPerf) else 0.0;
      ghost var oldDate, oldPerf := (anchorRealDate, anchorScaledDate), (anchorRealPerf, anchorScaledPerf);

      multiplier := rate;
      anchorRealDate := nowRealDate;
      anchorScaledDate := nowScaledDate;
      if hasPerf {
        anchorRealPerf := realPerf;
        anchorScaledPerf := nowScaledPerf;
      }

      forall t ensures ScaledDateNow(t) == nowScaledDate + (t - nowRealDate) * newRate {
        Reanchor(oldDate.0, oldDate.1, oldRate, newRate, nowRealDate, t);
      }
      Reanchor(oldDate.0, oldDate.1, oldRate, newRate, nowRealDate, nowRealDate);
      if hasPerf {
        forall t ensures ScaledPerfNow(t) == nowScaledPerf + (t - nowRealPerf) * newRate {
          Reanchor(oldPerf.0, oldPerf.1, oldRate, newRate, nowRealPerf, t);
        }
        Reanchor(oldPerf.0, oldPerf.1, oldRate, newRate, nowRealPerf, nowRealPerf);
      }
    }

    /**
     * `applyMultiplier(next)` at real times `nowRealDate` / `nowRealPerf`:
     * clamp with the current multiplier as fallback, re-anchor both clocks at
     * the current scaled time, persist the canonical text, publish the global.
     */
    method ApplyMultiplier(next: Num, nowRealDate: real, nowRealPerf: real) returns (applied: Decimal)
      requires Valid()
      modifies this
      ensures Valid()
      ensures applied == ClampMultiplier(next, old(multiplier))
      ensures next.NonFinite? ==> applied == old(multiplier)
      ensures multiplier == applied && globalMultiplier == applied
      ensures store == old(store).Put(SpeedKey, FormatNumber(applied))
      // continuity at the switch, the new rate afterwards
      ensures ScaledDateNow(nowRealDate) == old(ScaledDateNow(nowRealDate))
      ensures forall t :: ScaledDateNow(t) == old(ScaledDateNow(nowRealDate)) + (t - nowRealDate) * Value(applied)
      ensures hasPerf ==> ScaledPerfNow(nowRealPerf) == old(ScaledPerfNow(nowRealPerf))
      ensures hasPerf ==> forall t :: ScaledPerfNow(t) == old(ScaledPerfNow(nowRealPerf)) + (t - nowRealPerf) * Value(applied)
      // without a high-resolution clock its anchors are left alone
      ensures !hasPerf ==> anchorRealPerf == old(anchorRealPerf) && anchorScaledPerf == old(anchorScaledPerf)
      ensures scheduled == old(scheduled) && reloadRequested == old(reloadRequested)
    {
      var normalized := ClampMultiplier(next, multiplier);
      Rebase(normalized, nowRealDate, nowRealPerf);
      store := store.Put(SpeedKey, FormatNumber(normalized));
      globalMultiplier := normalized;
      applied := normalized;
    }

    /** `evercraftSpeed.setMultiplier(value, reload)`: apply, then reload unless `reload` is false. */
    method SetMultiplier(value: Num, nowRealDate: real, nowRealPerf: real, reload: bool := true) returns (applied: Decimal)
      requires Valid()
      modifies this
      ensures Valid()
      ensures applied == ClampMultiplier(value, old(multiplier)) && multiplier == applied
      ensures store == old(store).Put(SpeedKey, FormatNumber(applied))
      ensures ScaledDateNow(nowRealDate) == old(ScaledDateNow(nowRealDate))
      ensures forall t :: ScaledDateNow(t) == old(ScaledDateNow(nowRealDate)) + (t - nowRealDate) * Value(applied)
      ensures hasPerf ==> ScaledPerfNow(nowRealPerf) == old(ScaledPerfNow(nowRealPerf))
      ensures hasPerf ==> forall t :: ScaledPerfNow(t) == old(ScaledPerfNow(nowRealPerf)) + (t - nowRealPerf) * Value(applied)
      ensures !hasPerf ==> anchorRealPerf == old(anchorRealPerf) && anchorScaledPerf == old(anchorScaledPerf)
      ensures reloadRequested == (old(reloadRequested) || reload)
      ensures scheduled == old(scheduled)
    {
      applied := ApplyMultiplier(value, nowRealDate, nowRealPerf);
      if reload {
        reloadRequested := true;
      }
    }

    /** `evercraftSpeed.reset(reload)`: apply the multiplier 1, then reload unless `reload` is false. */
    method Reset(nowRealDate: real, nowRealPerf: real, reload: bool := true) returns (applied: Decimal)
      requires Valid()
      modifies this
      ensures Valid()
      ensures applied == MinMultiplier && multiplier == MinMultiplier
      ensures store == old(store).Put(SpeedKey, FormatNumber(MinMultiplier))
      ensures ScaledDateNow(nowRealDate) == old(ScaledDateNow(nowRealDate))
      ensures forall t :: ScaledDateNow(t) == old(ScaledDateNow(nowRealDate)) + (t - nowRealDate)
      ensures hasPerf ==> ScaledPerfNow(nowRealPerf) == old(ScaledPerfNow(nowRealPerf))
      ensures hasPerf ==> forall t :: ScaledPerfNow(t) == old(ScaledPerfNow(nowRealPerf)) + (t - nowRealPerf)
      ensures !hasPerf ==> anchorRealPerf == old(anchorRealPerf) && anchorScaledPerf == old(anchorScaledPerf)
      ensures reloadRequested == (old(reloadRequested) || reload)
      ensures scheduled == old(scheduled)
    {
      applied := ApplyMultiplier(Finite(MinMultiplier), nowRealDate, nowRealPerf);
      assert Value(applied) == 1.0;
      if reload {
        reloadRequested := true;
      }
    }
  }

  // ---------------------------------------------------------------------------
  // Properties of the installed clocks

  /** Both scaled clocks run at least as fast as real time, so neither goes back. */
  lemma ScaledClocksMonotone(p: SpeedPatch, t1: real, t2: real)
    requires p.Valid() && t1 <= t2
    ensures p.ScaledDateNow(t2) - p.ScaledDateNow(t1) >= t2 - t1
    ensures p.ScaledPerfNow(t2) - p.ScaledPerfNow(t1) >= t2 - t1
  {
    AffineMonotone(p.anchorRealDate, p.anchorScaledDate, Value(p.multiplier), t1, t2);
    AffineMonotone(p.anchorRealPerf, p.anchorScaledPerf, Value(p.multiplier), t1, t2);
  }

  /** The patched `Date.now` never goes back. */
  lemma DateNowMonotone(p: SpeedPatch, t1: real, t2: real)
    requires p.Valid() && t1 <= t2
    ensures p.DateNow(t1) <= p.DateNow(t2)
  {
    ScaledClocksMonotone(p, t1, t2);
  }

  /**
   * Frame timestamps the browser supplies in order reach the callbacks in
   * order, spaced by the multiplier times the real spacing.
   */
  lemma FrameTimestampsScaled(p: SpeedPatch, ts1: real, ts2: real, realPerf: real, realDate: real)
    requires p.Valid() && ts1 <= ts2
    ensures p.FrameTimestamp(Some(ts2), realPerf, realDate) - p.FrameTimestamp(Some(ts1), realPerf, realDate)
         == (ts2 - ts1) * Value(p.multiplier)
    ensures p.FrameTimestamp(Some(ts2), realPerf, realDate) - p.FrameTimestamp(Some(ts1), realPerf, realDate) >= ts2 - ts1
  {
    ScaledClocksMonotone(p, ts1, ts2);
    assert (ts2 - p.anchorRealPerf) * Value(p.multiplier) - (ts1 - p.anchorRealPerf) * Value(p.multiplier)
        == (ts2 - ts1) * Value(p.multiplier);
    assert (ts2 - p.anchorRealDate) * Value(p.multiplier) - (ts1 - p.anchorRealDate) * Value(p.multiplier)
        == (ts2 - ts1) * Value(p.multiplier);
  }

  // ---------------------------------------------------------------------------
  // Scenarios

  /** A stored "1000" is clamped to 20, and "20" is persisted. */
  lemma StoredThousandClampsToMax(store: Store)
    requires store.Get(SpeedKey) == Some("1000")
    ensures ReadMultiplier(store).value == MaxMultiplier
    ensures ReadMultiplier(store).store.Get(SpeedKey) == Some("20")
  {
    assert FormatNumber(Decimal(1000, 0)) == "1000";
    ParseFormatRoundTrip(Decimal(1000, 0));
    assert FormatNumber(MaxMultiplier) == "20";
  }

  /** A stored "abc" is not a number: the default 10 is used and "10" persisted. */
  lemma StoredGarbageFallsBack(store: Store)
    requires store.Get(SpeedKey) == Some("abc")
    ensures ReadMultiplier(store).value == DefaultMultiplier
    ensures ReadMultiplier(store).store.Get(SpeedKey) == Some("10")
  {
    assert !IsDigit('a');
    assert ParseNumber("abc") == NonFinite;
    assert FormatNumber(DefaultMultiplier) == "10";
  }

  /** A stored canonical "5" is used as it is and not written again. */
  lemma StoredCanonicalKept(store: Store)
    requires store.Get(SpeedKey) == Some("5")
    ensures ReadMultiplier(store) == MultiplierRead(Decimal(5, 0), store)
  {
    assert ParseNumber("5") == Finite(Decimal(5, 0));
    assert FormatNumber(Decimal(5, 0)) == "5";
  }

  /** Under multiplier 10, `setTimeout(fn, 2000)` waits 200 real milliseconds. */
  lemma TimeoutUnderTen()
    ensures ScaleDelay(Finite(Decimal(2000, 0)), Value(DefaultMultiplier)) == 200.0
  {
  }

  /** `setMultiplier(0)` applies 1, so delays are divided by 1, never by 0. */
  lemma ZeroMultiplierClampsToOne(fallback: Decimal, timeout: Decimal)
    requires Value(timeout) >= 0.0
    ensures ClampMultiplier(Finite(Decimal(0, 0)), fallback) == MinMultiplier
    ensures ScaleDelay(Finite(timeout), Value(ClampMultiplier(Finite(Decimal(0, 0)), fallback))) == Value(timeout)
  {
  }

  /** Install at real time 1000 with multiplier 10, switch to 2 at 1100: no jump, then double speed. */
  method SwitchKeepsClockContinuous() {
    var patch := new SpeedPatch(Store(true, map[]), false, 1000.0, 0.0);
    assert patch.multiplier == DefaultMultiplier;
    assert patch.DateNow(1100.0) == 2000;
    var applied := patch.SetMultiplier(Finite(Decimal(2, 0)), 1100.0, 0.0, false);
    assert applied == Decimal(2, 0);
    assert patch.ScaledDateNow(1100.0) == 2000.0;
    assert patch.ScaledDateNow(1200.0) == 2200.0;
    assert !patch.reloadRequested;
  }

  /**
   * The patched `Date.now` never goes back, even across a `setMultiplier`
   * call: a reading at `t0` before a switch at `t1` is at most a reading at
   * `t2` after it.
   */
  method DateNowAcrossSwitch(p: SpeedPatch, value: Num, t0: real, t1: real, t2: real, perfNow: real)
    returns (before: int, after: int)
    requires p.Valid() && t0 <= t1 <= t2
    modifies p
    ensures before == old(p.DateNow(t0)) && after == p.DateNow(t2)
    ensures before <= after
  {
    before := p.DateNow(t0);
    ScaledClocksMonotone(p, t0, t1);
    var _ := p.SetMultiplier(value, t1, perfNow, false);
    ScaledClocksMonotone(p, t1, t2);
    after := p.DateNow(t2);
  }
}

