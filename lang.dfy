/**
 * The fail-safe locale bootstrap (lang.js).
 *
 * The persisted locale ("en" or "ru", default "ru") and the translation debug
 * flag (persisted as "1"/"0", overridable by the `ru_debug` URL parameter) are
 * read at load and published as globals. When the locale is "ru", the overlay
 * `./ru.js` and then the game bundle `./core.js` are loaded in that order; any
 * load failure switches the persisted locale to "en" without raising.
 */
module Lang {
  import opened Wrappers
  import opened Storage

  const LocaleKey := "evercraft-locale"
  const RuDebugKey := "evercraft-ru-debug-untranslated"
  const DefaultLocale := "ru"
  const FallbackLocale := "en"
  const RuScript := "./ru.js"
  const CoreScript := "./core.js"

  predicate Supported(locale: string) {
    locale == "en" || locale == "ru"
  }

  /** `normalizeLocale(value)`: the value itself when it is a supported locale, else null. */
  function NormalizeLocale(value: Option<string>): (r: Option<string>)
    ensures r.Some? <==> value.Some? && Supported(value.value)
    ensures r.Some? ==> r == value
  {
    if value.Some? && Supported(value.value) then value else None
  }

  /** What `readLocale` returns and the store it leaves behind. */
  datatype LocaleRead = LocaleRead(locale: string, store: Store)

  /** `readLocale()`: a valid stored locale as it is, otherwise "ru", which is then persisted. */
  function ReadLocale(store: Store): (r: LocaleRead)
    ensures Supported(r.locale)
    ensures NormalizeLocale(store.Get(LocaleKey)).Some? ==> Some(r.locale) == store.Get(LocaleKey) && r.store == store
    ensures NormalizeLocale(store.Get(LocaleKey)).None? ==> r.locale == DefaultLocale
    // the store ends up holding the locale, every other key as it was
    ensures r.store == store.Put(LocaleKey, r.locale)
    // and is written exactly when it did not hold a valid locale
    ensures store.available ==> (r.store == store <==> store.Get(LocaleKey) == Some(r.locale))
  {
    match NormalizeLocale(store.Get(LocaleKey))
    case Some(stored) =>
      PutSameValue(store, LocaleKey);
      LocaleRead(stored, store)
    case None =>
      if store.available then
        PutChanges(store, LocaleKey, DefaultLocale);
        LocaleRead(DefaultLocale, store.Put(LocaleKey, DefaultLocale))
      else
        LocaleRead(DefaultLocale, store.Put(LocaleKey, DefaultLocale))
  }

  /** Reading the locale a second time returns the same locale and writes nothing. */
  lemma ReadLocaleIdempotent(store: Store)
    ensures ReadLocale(ReadLocale(store).store) == ReadLocale(store)
  {
    var r := ReadLocale(store);
    if store.available {
      assert r.store.Get(LocaleKey) == Some(r.locale);
    }
  }

  /** The `ru_debug` URL values that turn the debug flag on. */
  predicate EnablesDebug(value: string) {
    value == "1" || value == "true" || value == "on"
  }

  /** What `readDebugFlag` returns and the store it leaves behind. */
  datatype DebugRead = DebugRead(enabled: bool, store: Store)

  /**
   * `readDebugFlag()` given the `ru_debug` URL parameter (None when absent or
   * when the URL cannot be parsed): a present parameter decides the flag and
   * is persisted as "1"/"0"; otherwise the flag is whether "1" is stored.
   */
  function ReadDebugFlag(param: Option<string>, store: Store): (r: DebugRead)
    ensures param.Some? ==> (r.enabled <==> EnablesDebug(param.value))
    ensures param.Some? ==> r.store == store.Put(RuDebugKey, if r.enabled then "1" else "0")
    ensures param.None? ==> (r.enabled <==> store.Get(RuDebugKey) == Some("1"))
    ensures param.None? ==> r.store == store
  {
    match param
    case Some(value) =>
      var enabled := EnablesDebug(value);
      DebugRead(enabled, store.Put(RuDebugKey, if enabled then "1" else "0"))
    case None =>
      DebugRead(store.Get(RuDebugKey) == Some("1"), store)
  }

  /** A flag set from the URL is what the next load reads back when the URL no longer carries it. */
  lemma DebugFlagPersists(value: string, store: Store)
    requires store.available
    ensures ReadDebugFlag(None, ReadDebugFlag(Some(value), store).store).enabled == EnablesDebug(value)
  {
    var r := ReadDebugFlag(Some(value), store);
    assert r.store.Get(RuDebugKey) == Some(if r.enabled then "1" else "0");
  }

  /** How `bootLocalization` ended. */
  datatype BootStatus =
    | Skipped   // the locale was not "ru": nothing loaded
    | Loaded    // both scripts loaded, the locale stays "ru"
    | FellBack  // a load failed: the locale is now "en"
    | Pending   // a load never settled: the boot waits for ever

  /**
   * The globals and store of lang.js: `__EVERCRAFT_LOCALE__`,
   * `__RU_TRANSLATION_DEBUG__`, and whether a page reload was requested.
   */
  class LocaleBootstrap {
    var store: Store
    var locale: string
    var ruDebug: bool
    var reloadRequested: bool

    /** The published locale is supported, and the published debug flag is the persisted one. */
    ghost predicate Valid()
      reads this
    {
      && Supported(locale)
      && (store.available ==> (ruDebug <==> store.Get(RuDebugKey) == Some("1")))
    }

    /** Script load: read the locale, then the debug flag, and publish both. */
    constructor (store0: Store, ruDebugParam: Option<string>)
      ensures Valid()
      ensures locale == ReadLocale(store0).locale
      ensures ruDebug == ReadDebugFlag(ruDebugParam, ReadLocale(store0).store).enabled
      ensures store == ReadDebugFlag(ruDebugParam, ReadLocale(store0).store).store
      ensures !reloadRequested
    {
      var l := ReadLocale(store0);
      var d := ReadDebugFlag(ruDebugParam, l.store);
      locale := l.locale;
      ruDebug := d.enabled;
      store := d.store;
      reloadRequested := false;
    }

    /** `evercraftLocalization.getLocale()`. */
    function GetLocale(): (r: string)
      reads this
      requires Valid()
      ensures Supported(r) && r == locale
    {
      locale
    }

    /**
     * `evercraftLocalization.getRuDebug()`; the global is a boolean here, so
     * `!!` changes nothing. On an available store it agrees with the flag
     * persisted under `RuDebugKey`.
     */
    function GetRuDebug(): (r: bool)
      reads this
      requires Valid()
      ensures r == ruDebug
      ensures store.available ==> (r <==> store.Get(RuDebugKey) == Some("1"))
    {
      ruDebug
    }

    /** `setLocale(locale)`: an unsupported locale raises and changes nothing; a supported one is persisted and published. */
    method SetLocale(l: string) returns (result: Outcome<string>)
      modifies this`store, this`locale
      ensures result.Pass? <==> Supported(l)
      ensures result.Fail? ==> result.error == "Unsupported locale: " + l
      ensures result.Fail? ==> store == old(store) && locale == old(locale)
      ensures result.Pass? ==> store == old(store).Put(LocaleKey, l) && locale == l
    {
      var normalized := NormalizeLocale(Some(l));
      if normalized.None? {
        return Fail("Unsupported locale: " + l);
      }
      store := store.Put(LocaleKey, normalized.value);
      locale := normalized.value;
      result := Pass;
    }

    /** `setRuDebug(enabled)`: persist "1"/"0" and publish the flag. */
    method SetRuDebug(enabled: bool)
      modifies this`store, this`ruDebug
      ensures store == old(store).Put(RuDebugKey, if enabled then "1" else "0")
      ensures ruDebug == enabled
    {
      store := store.Put(RuDebugKey, if enabled then "1" else "0");
      ruDebug := enabled;
    }

    /** `evercraftLocalization.setLocale(locale, reload)`: on success, reload unless `reload` is false. */
    method ApiSetLocale(l: string, reload: bool := true) returns (result: Outcome<string>)
      requires Valid()
      modifies this
      ensures Valid()
      ensures result.Pass? <==> Supported(l)
      ensures result.Fail? ==> result.error == "Unsupported locale: " + l
      ensures result.Fail? ==> store == old(store) && locale == old(locale) && reloadRequested == old(reloadRequested)
      ensures result.Pass? ==> store == old(store).Put(LocaleKey, l) && locale == l
      ensures result.Pass? ==> reloadRequested == (old(reloadRequested) || reload)
      ensures ruDebug == old(ruDebug)
    {
      result := SetLocale(l);
      if result.Pass? && reload {
        reloadRequested := true;
      }
    }

    /** `evercraftLocalization.setRuDebug(enabled, reload)`: set the flag, then reload unless `reload` is false. */
    method ApiSetRuDebug(enabled: bool, reload: bool := true)
      requires Valid()
      modifies this
      ensures Valid()
      ensures store == old(store).Put(RuDebugKey, if enabled then "1" else "0")
      ensures ruDebug == enabled && GetRuDebug() == enabled
      ensures locale == old(locale)
      ensures reloadRequested == (old(reloadRequested) || reload)
    {
      SetRuDebug(enabled);
      if reload {
        reloadRequested := true;
      }
    }

    /**
     * `bootLocalization()`. `outcomes[i]` is whether the i-th script load
     * attempted succeeds; a load with no outcome never settles. The scripts
     * are tried in order, each only after the previous one loaded, and a
     * failure falls back to "en" without raising.
     */
    method BootLocalization(outcomes: seq<bool>) returns (status: BootStatus, attempted: seq<string>)
      requires Valid()
      modifies this`store, this`locale
      ensures Valid()
      ensures old(locale) != "ru" ==> status == Skipped && attempted == []
      ensures old(locale) == "ru" ==> attempted == [RuScript] || attempted == [RuScript, CoreScript]
      // the game bundle is attempted only once the overlay has loaded
      ensures CoreScript in attempted <==> old(locale) == "ru" && |outcomes| > 0 && outcomes[0]
      ensures forall i :: 0 <= i < |attempted| - 1 ==> i < |outcomes| && outcomes[i]
      ensures status == Loaded <==> old(locale) == "ru" && |outcomes| >= 2 && outcomes[0] && outcomes[1]
      ensures status == FellBack <==>
                old(locale) == "ru" && |outcomes| > 0 && (!outcomes[0] || (|outcomes| > 1 && !outcomes[1]))
      ensures status == Pending <==> old(locale) == "ru" && |outcomes| < |attempted|
      ensures status == FellBack ==> locale == FallbackLocale && store == old(store).Put(LocaleKey, FallbackLocale)
      ensures status != FellBack ==> locale == old(locale) && store == old(store)
    {
      if locale != "ru" {
        return Skipped, [];
      }
      attempted := [RuScript];
      if |outcomes| == 0 {
        return Pending, attempted;
      }
      if outcomes[0] {
        attempted := attempted + [CoreScript];
        if |outcomes| == 1 {
          return Pending, attempted;
        }
        if outcomes[1] {
          return Loaded, attempted;
        }
      }
      var _ := SetLocale(FallbackLocale);
      status := FellBack;
    }
  }

  /** A first visit whose overlay fails to load: the bootstrap ends in English, persisted for the next load. */
  method FirstVisitOverlayFails() {
    var boot := new LocaleBootstrap(Store(true, map[]), None);
    assert boot.locale == "ru" && !boot.ruDebug;
    var status, attempted := boot.BootLocalization([false]);
    assert status == FellBack && attempted == [RuScript];
    assert boot.locale == "en" && boot.store.Get(LocaleKey) == Some("en");
  }

  /** `?ru_debug=on` overrides a stored "0" and persists "1". */
  method DebugParamOverridesStore() {
    var boot := new LocaleBootstrap(Store(true, map[RuDebugKey := "0", LocaleKey := "en"]), Some("on"));
    assert boot.ruDebug && boot.store.Get(RuDebugKey) == Some("1");
    var status, attempted := boot.BootLocalization([true, true]);
    assert status == Skipped && attempted == [] && boot.locale == "en";
  }
}
