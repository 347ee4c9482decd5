/** The app-wide display-language preference: a two-valued state that starts
    as English, can be restored from the persistent store, and is flipped by
    the user, each flip being written back to the store. */
module LanguageContext {
  import opened Wrappers
  import opened AsyncStorage

  /** The two display languages, by their stored codes. */
  predicate IsLanguage(s: string) {
    s == "en" || s == "hi"
  }

  /** A language code; every value of this type is "en" or "hi", so every
      assignment to a variable of this type is checked to keep that invariant. */
  type Language = s: string | IsLanguage(s) witness "en"

  /** The language before anything has been restored or toggled. */
  const DefaultLanguage: Language := "en"

  /** The store key under which the chosen language is persisted. */
  const LanguageKey: string := "language"

  /** The other language: English becomes Hindi and Hindi becomes English. */
  function Toggled(l: Language): (r: Language)
    ensures r != l
  {
    if l == "en" then "hi" else "en"
  }

  lemma ToggledTwice(l: Language)
    ensures Toggled(Toggled(l)) == l
  {
  }

  /** The language after a successful read of the store returned `saved`:
      the saved value is adopted exactly when it is a language code; a missing
      entry or any other string leaves `current` in place. */
  function Restored(current: Language, saved: Option<string>): (r: Language)
    ensures saved.Some? && IsLanguage(saved.value) ==> r == saved.value
    ensures r != current ==> saved == Some(r)
    ensures saved.None? ==> r == current
  {
    if saved.Some? && IsLanguage(saved.value) then saved.value else current
  }

  /** The state the preference consists of: the in-memory language and the
      persistent store it is saved to. */
  datatype Prefs = Prefs(language: Language, store: Store)

  /** One step the user or the app can take. `readOk` and `writeOk` say
      whether the storage call inside the step succeeds or throws. */
  datatype Op = Load(readOk: bool) | Toggle(writeOk: bool)

  /** The state when the provider is created over a store holding `store`. */
  function Init(store: Store): (p: Prefs)
    ensures p.language == DefaultLanguage && p.store == store
  {
    Prefs(DefaultLanguage, store)
  }

  /** The effect of one step. A load never writes; a failed read changes
      nothing. A toggle flips the language in memory whether or not its write
      succeeds; a successful write records the new language under
      LanguageKey, a failed one leaves the store as it was. */
  function Step(p: Prefs, op: Op): (q: Prefs)
    ensures op.Load? ==> q.store == p.store
    ensures op.Load? && !op.readOk ==> q == p
    ensures op.Load? ==> q.language == p.language || GetItem(p.store, LanguageKey) == Some(q.language)
    ensures op.Load? && op.readOk && GetItem(p.store, LanguageKey).Some? && IsLanguage(GetItem(p.store, LanguageKey).value) ==> q.language == GetItem(p.store, LanguageKey).value
    ensures op.Toggle? ==> q.language == Toggled(p.language)
    ensures op.Toggle? && op.writeOk ==> GetItem(q.store, LanguageKey) == Some(q.language)
    ensures op.Toggle? && op.writeOk ==> forall k :: k != LanguageKey ==> GetItem(q.store, k) == GetItem(p.store, k)
    ensures op.Toggle? && !op.writeOk ==> q.store == p.store
  {
    match op
    case Load(readOk) =>
      if readOk then Prefs(Restored(p.language, GetItem(p.store, LanguageKey)), p.store)
      else p
    case Toggle(writeOk) =>
      var newLanguage := Toggled(p.language);
      Prefs(newLanguage, if writeOk then SetItem(p.store, LanguageKey, newLanguage) else p.store)
  }

  /** The state after taking the steps `ops` in order, one at a time. */
  function Run(p: Prefs, ops: seq<Op>): Prefs
    decreases |ops|
  {
    if ops == [] then p else Run(Step(p, ops[0]), ops[1..])
  }

  /** The in-memory language agrees with what the store would give back. */
  predicate Synced(p: Prefs) {
    GetItem(p.store, LanguageKey) == Some(p.language)
  }

  predicate AllToggles(ops: seq<Op>) {
    forall i :: 0 <= i < |ops| ==> ops[i].Toggle?
  }

  predicate AllLoads(ops: seq<Op>) {
    forall i :: 0 <= i < |ops| ==> ops[i].Load?
  }

  predicate AllWritesSucceed(ops: seq<Op>) {
    forall i :: 0 <= i < |ops| ==> ops[i].Toggle? ==> ops[i].writeOk
  }

  /** After n toggles, with any mix of storage successes and failures, the
      language is the starting one when n is even and the other one when n
      is odd. */
  lemma {:induction false} ToggleParity(p: Prefs, ops: seq<Op>)
    requires AllToggles(ops)
    ensures Run(p, ops).language == if |ops| % 2 == 0 then p.language else Toggled(p.language)
    decreases |ops|
  {
    if ops != [] {
      var q := Step(p, ops[0]);
      assert AllToggles(ops[1..]);
      ToggleParity(q, ops[1..]);
      ToggledTwice(p.language);
    }
  }

  /** From a fresh provider, n toggles give English when n is even and Hindi
      when n is odd. */
  lemma ToggleParityFromStart(store: Store, ops: seq<Op>)
    requires AllToggles(ops)
    ensures Run(Init(store), ops).language == if |ops| % 2 == 0 then "en" else "hi"
  {
    ToggleParity(Init(store), ops);
  }

  /** Loading, however often and however the reads go, never writes. */
  lemma {:induction false} LoadsNeverWrite(p: Prefs, ops: seq<Op>)
    requires AllLoads(ops)
    ensures Run(p, ops).store == p.store
    decreases |ops|
  {
    if ops != [] {
      assert AllLoads(ops[1..]);
      LoadsNeverWrite(Step(p, ops[0]), ops[1..]);
    }
  }

  /** No sequence of steps touches any store key other than LanguageKey. */
  lemma {:induction false} OtherKeysUntouched(p: Prefs, ops: seq<Op>, k: string)
    requires k != LanguageKey
    ensures GetItem(Run(p, ops).store, k) == GetItem(p.store, k)
    decreases |ops|
  {
    if ops != [] {
      OtherKeysUntouched(Step(p, ops[0]), ops[1..], k);
    }
  }

  /** A toggle whose write succeeds leaves memory and store in agreement. */
  lemma SuccessfulToggleSyncs(p: Prefs)
    ensures Synced(Step(p, Toggle(true)))
  {
  }

  /** A toggle whose write fails leaves memory ahead of the store: the flip is
      not rolled back. */
  lemma FailedToggleDiverges(p: Prefs)
    requires Synced(p)
    ensures !Synced(Step(p, Toggle(false)))
    ensures Step(p, Toggle(false)).language == Toggled(p.language)
  {
  }

  /** Once memory and store agree, they keep agreeing through any steps in
      which every write succeeds; reads, failed or not, cannot break it. */
  lemma {:induction false} SyncedPreserved(p: Prefs, ops: seq<Op>)
    requires Synced(p)
    requires AllWritesSucceed(ops)
    ensures Synced(Run(p, ops))
    decreases |ops|
  {
    if ops != [] {
      var q := Step(p, ops[0]);
      assert Synced(q);
      assert AllWritesSucceed(ops[1..]);
      SyncedPreserved(q, ops[1..]);
    }
  }

  /** When memory and store agree, a restart (a new provider over the same
      store) whose first read succeeds comes back to the same language. */
  lemma RestartRestores(p: Prefs)
    requires Synced(p)
    ensures Step(Init(p.store), Load(true)).language == p.language
  {
  }

  /** A run that ends with a toggle whose write succeeded, followed only by
      steps whose writes succeed, survives a restart. */
  lemma PersistedAcrossRestart(p: Prefs, ops: seq<Op>)
    requires AllWritesSucceed(ops)
    ensures var q := Run(Step(p, Toggle(true)), ops);
            Step(Init(q.store), Load(true)).language == q.language
  {
    SyncedPreserved(Step(p, Toggle(true)), ops);
  }

  /** The message the accessor throws outside a provider. */
  const OutsideProviderError: string := "useLanguage must be used within a LanguageProvider"

  /** What a screen receives from the provider: the current language and the
      provider whose ToggleLanguage it calls. */
  datatype ContextValue = ContextValue(language: Language, provider: LanguageProvider)

  /** The accessor screens call: fails exactly when no provider value is
      present, and otherwise hands that value back unchanged. */
  function UseLanguage(context: Option<ContextValue>): (r: Result<ContextValue, string>)
    ensures r.Failure? <==> context.None?
    ensures r.Failure? ==> r.error == OutsideProviderError
    ensures context.Some? ==> r == Success(context.value)
  {
    match context
    case None => Failure(OutsideProviderError)
    case Some(value) => Success(value)
  }

  /** The provider: owns the in-memory language and talks to the store. */
  class LanguageProvider {
    var language: Language
    var store: Store

    /** The provider's state as a value, for the specification above. */
    function Snapshot(): Prefs
      reads this
    {
      Prefs(language, store)
    }

    /** A provider over a store holding `persisted`; English until a load or a
        toggle says otherwise. */
    constructor (persisted: Store)
      ensures Snapshot() == Init(persisted)
      ensures language == "en"
    {
      language := DefaultLanguage;
      store := persisted;
    }

    /** Reads the persisted language and adopts it when it is a language
        code. A failed read is swallowed and changes nothing. */
    method LoadLanguage(readOk: bool)
      modifies this`language
      ensures Snapshot() == Step(old(Snapshot()), Load(readOk))
      ensures store == old(store)
      ensures !readOk ==> language == old(language)
    {
      if readOk {
        var savedLanguage := GetItem(store, LanguageKey);
        if savedLanguage.Some? && (savedLanguage.value == "en" || savedLanguage.value == "hi") {
          language := savedLanguage.value;
        }
      }
    }

    /** Flips the language at once, then tries to persist it. A failed write
        is swallowed: the flip stays and the store is as before. */
    method ToggleLanguage(writeOk: bool)
      modifies this
      ensures Snapshot() == Step(old(Snapshot()), Toggle(writeOk))
      ensures language == Toggled(old(language))
      ensures writeOk ==> store == SetItem(old(store), LanguageKey, language)
      ensures !writeOk ==> store == old(store)
    {
      var newLanguage := Toggled(language);
      language := newLanguage;
      if writeOk {
        store := SetItem(store, LanguageKey, newLanguage);
      }
    }

    /** The value this provider publishes to the screens below it. */
    function Value(): (v: ContextValue)
      reads this
      ensures v.language == language && v.provider == this
      ensures UseLanguage(Some(v)) == Success(v)
    {
      ContextValue(language, this)
    }
  }

  /** A fresh install: the language starts as English; one toggle whose write
      succeeds shows Hindi and persists "hi"; a restart restores Hindi. */
  method FirstToggleScenario()
  {
    var provider := new LanguageProvider(map[]);
    assert provider.language == "en";
    provider.LoadLanguage(true);
    assert provider.language == "en";
    provider.ToggleLanguage(true);
    assert provider.language == "hi";
    assert GetItem(provider.store, LanguageKey) == Some("hi");
    var restarted := new LanguageProvider(provider.store);
    restarted.LoadLanguage(true);
    assert restarted.language == "hi";
  }
}
