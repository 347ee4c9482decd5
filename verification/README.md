# Language preference store

A Dafny model of the display-language preference of the outreach app's
front end (`frontend/contexts/LanguageContext.tsx`). The preference holds
one value, the language, which is either `"en"` or `"hi"`. It starts as
`"en"`. On mount it can be restored from the device's key-value store
(AsyncStorage) under the key `"language"`. The user flips it with
`toggleLanguage`, and each flip is written back to the store.

Files:

- `wrappers.dfy`: `Option` for a store key that may be absent, and `Result` for the accessor that throws.
- `async_storage.dfy`: the key-value store as a map, with its read (`GetItem`) and write (`SetItem`).
- `language_context.dfy`:
  - the `Language` subset type (`"en" | "hi"`);
  - the pure pieces: the flip `Toggled`, the validating restore `Restored` and the accessor `UseLanguage`;
  - a value-level specification `Step`/`Run` over `Prefs` (language plus store), with its lemmas;
  - the `LanguageProvider` class. Its `LoadLanguage` and `ToggleLanguage` methods change its `language` and `store` fields, and each is proved equal to one `Step`.

Each storage call can succeed or throw. That choice is a boolean parameter
(`readOk`, `writeOk`), so both the success path and the swallowed-failure
path are explicit. The invariant "the language is always `en` or `hi`" is
the type `Language` itself. The verifier checks it at every assignment,
including the one that adopts a value read from the store.

## Model

| member | source | states |
|---|---|---|
| `AsyncStorage.GetItem` | frontend/contexts/LanguageContext.tsx:22 | a successful read yields the stored value, or nothing exactly when the key is absent |
| `AsyncStorage.SetItem` | frontend/contexts/LanguageContext.tsx:35 | after a successful write the key reads back the written value; no key disappears and every other key keeps its value |
| `LanguageContext.Toggled` | frontend/contexts/LanguageContext.tsx:32 | the flip gives the other member of `{"en","hi"}`, never the same language |
| `LanguageContext.ToggledTwice` | frontend/contexts/LanguageContext.tsx:32 | flipping twice gives back the original language |
| `LanguageContext.Restored` | frontend/contexts/LanguageContext.tsx:22-25 | a read value is adopted when it is exactly `"en"` or `"hi"`; an absent entry leaves the language unchanged, and the language changes only to the value that was read |
| `LanguageContext.Init` | frontend/contexts/LanguageContext.tsx:14 | a fresh provider has language `"en"` and the store as it found it |
| `LanguageContext.Step` | frontend/contexts/LanguageContext.tsx:20-39 | a load never writes, a failed read changes nothing, a successful read of `"en"` or `"hi"` is adopted, and the language changes only to the value read; a toggle flips the language whether or not the write succeeds; a successful write stores the new language under `"language"` and leaves other keys alone; a failed write leaves the store unchanged |
| `LanguageContext.ToggleParity` | frontend/contexts/LanguageContext.tsx:31-39 | after n toggles, with any mix of write outcomes, the language is the starting one for even n and the other one for odd n |
| `LanguageContext.ToggleParityFromStart` | frontend/contexts/LanguageContext.tsx:14-39 | from a fresh provider, n toggles give `"en"` for even n and `"hi"` for odd n |
| `LanguageContext.LoadsNeverWrite` | frontend/contexts/LanguageContext.tsx:20-29 | any number of loads, with any read outcomes, leave the store unchanged |
| `LanguageContext.OtherKeysUntouched` | frontend/contexts/LanguageContext.tsx:22-35 | no sequence of loads and toggles changes any store key other than `"language"` |
| `LanguageContext.SuccessfulToggleSyncs` | frontend/contexts/LanguageContext.tsx:33-35 | after a toggle whose write succeeds, the store holds the in-memory language |
| `LanguageContext.FailedToggleDiverges` | frontend/contexts/LanguageContext.tsx:33-38 | from a state where memory and store agree, a toggle whose write fails keeps the flipped language in memory (no rollback), so they then disagree |
| `LanguageContext.SyncedPreserved` | frontend/contexts/LanguageContext.tsx:20-39 | once memory and store agree, they keep agreeing through any loads (failed or not) and any toggles whose writes succeed |
| `LanguageContext.RestartRestores` | frontend/contexts/LanguageContext.tsx:14-25 | when memory and store agree, a new provider over the same store whose read succeeds comes back to the same language |
| `LanguageContext.PersistedAcrossRestart` | frontend/contexts/LanguageContext.tsx:14-39 | a successful toggle followed only by successful writes survives a restart |
| `LanguageContext.UseLanguage` | frontend/contexts/LanguageContext.tsx:48-54 | the accessor fails, with the provider-missing message, exactly when there is no context value; otherwise it returns that value unchanged |
| `LanguageContext.LanguageProvider.constructor` | frontend/contexts/LanguageContext.tsx:14 | a new provider starts with language `"en"` over the store it is given |
| `LanguageContext.LanguageProvider.LoadLanguage` | frontend/contexts/LanguageContext.tsx:20-29 | the new state is exactly one load step of the old state; the store is unchanged, and a failed read leaves the language unchanged |
| `LanguageContext.LanguageProvider.ToggleLanguage` | frontend/contexts/LanguageContext.tsx:31-39 | the new state is exactly one toggle step of the old state; the language is flipped, and the store gets the new language on a successful write and is unchanged on a failed one |
| `LanguageContext.LanguageProvider.Value` | frontend/contexts/LanguageContext.tsx:41-45 | the published value carries the current language and this provider (whose `ToggleLanguage` screens call), and the accessor returns it unchanged |

## Left out

- Asynchrony: each load and toggle is one atomic step. The mount effect (`frontend/contexts/LanguageContext.tsx:16-18`) runs the load asynchronously, so a toggle made before the read resolves could be overwritten. That race is not modelled. The mount itself is a constructor followed by a `LoadLanguage` call.
- Loads at any point: the source runs `loadLanguage` only from the mount effect and publishes only `language` and `toggleLanguage`. `Op` and `Run` allow a `Load` anywhere in a run, and `LoadLanguage` is a public method. This over-approximates the program, so the lemmas over every sequence of steps also hold of the traces the source can produce; it does not mean the program reloads.
- React rendering, re-rendering and the closure in which `toggleLanguage` reads `language`. The model always flips the current value.
- Logging of storage failures (`console.error`): a failure is swallowed and leaves no other trace in the model.
- A write that throws is taken to leave the store unchanged. AsyncStorage's behaviour on a partial failure is not part of this model.
- The store is modelled as a map of strings. AsyncStorage's own implementation, and any reads and writes made by code outside this file, are not part of this model.
- The theme preference: `frontend/contexts/ThemeContext.tsx` is not part of this model.
- The backend (`backend/server.py`), its integration tests, the screens that consume the context, and styling: these are HTTP handlers, network calls and UI layout, not logic of the preference store.
- `LanguageProvider.Value` models the `toggleLanguage` callback in the published value as a reference to the provider. Calling the callback is calling `ToggleLanguage` on that provider.
