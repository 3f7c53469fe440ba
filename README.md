# Settings store of the Todoist workflow, modelled in Dafny

The workflow keeps its configuration in `settings.json`. This file is managed by the
`conf` library and described by `src/lib/stores/settings-store.ts`, which supplies four things:

* a schema table with one rule per setting (JSON type, numeric range, enumeration,
  regular-expression pattern, maximum length, string format);
* the defaults record;
* the `5.8.4` migration, which moves the deprecated `anonymous_statistics` flag into
  `error_tracking`;
* the entry point `settingsStore(path)`. It first rejects a missing or empty path and
  then returns the process-wide store, creating it on the first call.

The model has six modules, one file each:

| file | module | what it holds |
|---|---|---|
| errors.dfy | `Errors` | `Option`, `Result`, `Outcome` and the two error kinds (`InvalidFilePath`, `SchemaValidation`) |
| patterns.dfy | `Patterns` | a hand-written matcher for each of the schema's three regular expressions, a declarative description of what each accepts, and lemmas that the two agree |
| schema.dfy | `Schema` | the keys, JSON values, the `Rule` datatype, the schema table, validation (`ValidValue`, `DocValid`) and an independent per-key description (`Documented`) proved equal to it |
| defaults.dfy | `SettingsDefaults` | the defaults record and the proof that it is valid |
| store.dfy | `ConfStore` | the `Store` class (a `map` from key to value with `Get`/`Set`/`Delete`) standing in for the library's store, the migration as a function and as a method, and store creation |
| settings.dfy | `SettingsEntry` | the module-level `instance` as a class field, and `settingsStore` as a method on it |

Pattern semantics. JSON Schema tests a `pattern` as an unanchored search. So:

* `token`'s pattern, `(?:^[0-9a-fA-F]{40}$)|^$`, is anchored in both alternatives.
* `filter_wrapper`'s pattern, ``["'`]``, accepts any string that contains a quote. It is
  `maxLength: 1` that makes the rule accept exactly one quote character.
* `uuid`'s pattern accepts any string that contains an 8-4-4-4-12 run of hex digits.
  `SearchUuid` models the search position by position.
* `uuid` also carries `format: 'uuid'`. The `conf` library registers the standard string
  formats with its validator, so the format is checked too. That format is anchored: the
  whole string is an 8-4-4-4-12 hex string of either case, optionally preceded by
  `urn:uuid:` in any case (`UuidFormatMatch`). The format check is what rejects a padded
  UUID that the pattern lets through.

Three behaviours of the code that are easy to misread:

* The path guard comes before the singleton check. An empty path fails even after the
  instance exists.
* `settingsStore()` with no argument, or with `undefined`, uses the environment's data
  path, because of the default parameter. Only when that path is missing or empty too does it fail.
* Neither the `uuid` pattern nor the `uuid` format checks the version digit or the
  variant digit of a version-4 UUID. Any 8-4-4-4-12 hex string is accepted.

## Model

| member | source | states |
|---|---|---|
| `Patterns.HexRunMeansAllHex` | src/lib/stores/settings-store.ts:54 | the counted repetition `[0-9a-fA-F]{n}` matches at position i iff all n characters from i are hex digits |
| `Patterns.TokenMatchIff` | src/lib/stores/settings-store.ts:54 | the token pattern matches exactly the empty string and the strings of 40 hex digits |
| `Patterns.ContainsQuoteIff` | src/lib/stores/settings-store.ts:107 | the unanchored search for ``["'`]`` succeeds iff some character of the string is `"`, `'` or `` ` `` |
| `Patterns.UuidAtIffShaped` | src/lib/stores/settings-store.ts:150 | the uuid pattern matches at position i iff the 36 characters from i have hex digits everywhere except dashes at offsets 8, 13, 18 and 23 |
| `Patterns.SearchUuidIff` | src/lib/stores/settings-store.ts:150 | the search from position i succeeds iff the pattern matches at some position at or after i |
| `Patterns.ContainsUuidIff` | src/lib/stores/settings-store.ts:149-150 | the uuid search succeeds iff some substring has the 8-4-4-4-12 shape |
| `Patterns.UuidFormatIff` | src/lib/stores/settings-store.ts:151 | the anchored uuid format accepts exactly a whole 8-4-4-4-12 hex string, or `urn:uuid:` in any letter case followed by one |
| `Patterns.UuidFormatContainsUuid` | src/lib/stores/settings-store.ts:149-151 | every string in the uuid format also passes the unanchored uuid pattern |
| `Schema.Schema` | src/lib/stores/settings-store.ts:28-153 | each key's rule demands the JSON type that the `Settings` type declares for that key; every numeric range starts at 1 and is non-empty; every enumeration offers at least one value |
| `Schema.Satisfies` | src/lib/stores/settings-store.ts:49-153 | only a value of the rule's JSON type can satisfy the rule |
| `Schema.ValidValue` | src/lib/stores/settings-store.ts:28-153 | every value accepted for a key has the type that the `Settings` type declares for the key |
| `Schema.ParseKey` | src/lib/stores/settings-store.ts:49-153 | a property name maps to the key whose name it is, and the name of every key maps back to that key; any other name maps to nothing |
| `Schema.LanguageAccepted` | src/lib/stores/settings-store.ts:57-80 | `language` is valid iff it is a string among the 17 codes of the `Language` type |
| `Schema.TokenAccepted` | src/lib/stores/settings-store.ts:50-55 | `token` is valid iff it is a string that is empty or made of exactly 40 hex digits, either case |
| `Schema.FilterWrapperAccepted` | src/lib/stores/settings-store.ts:103-109 | `filter_wrapper` is valid iff it is a string of length exactly 1 whose character is `"`, `'` or `` ` `` |
| `Schema.FilterWrapperPatternAlone` | src/lib/stores/settings-store.ts:103-109 | on its own, the wrapper pattern accepts exactly the strings that contain a quote; a string of two or more characters with a quote passes the pattern and is still rejected by `maxLength` |
| `Schema.UuidPatternAlone` | src/lib/stores/settings-store.ts:145-152 | on its own, the uuid pattern accepts exactly the strings with an 8-4-4-4-12 hex substring; such a string whose length is neither 36 nor 45 passes the pattern and is still rejected by the format |
| `Schema.UuidAccepted` | src/lib/stores/settings-store.ts:145-152 | `uuid` is valid iff it is a string that is a whole 8-4-4-4-12 hex string, or `urn:uuid:` in any letter case followed by one |
| `Schema.ValidIffDocumented` | src/lib/stores/settings-store.ts:49-153 | for every key and value, the schema table accepts the value iff it meets that setting's documented constraint. These are: the 17 language codes of the `Language` type; the six log levels; `max_items` in 1..20; the three second counts in 1..31556926, both bounds inclusive; booleans for the three flags; any string for `last_update`; and the token, wrapper and uuid formats above |
| `SettingsDefaults.Defaults` | src/lib/stores/settings-store.ts:162-174 | the defaults record has no `error_tracking` and no `anonymous_statistics`, and its `uuid` is the generated identifier |
| `SettingsDefaults.DefaultsCoverage` | src/lib/stores/settings-store.ts:162-174 | a key has a default iff it is neither `error_tracking` nor `anonymous_statistics` |
| `SettingsDefaults.DefaultsValid` | src/lib/stores/settings-store.ts:162-174 | every default satisfies its own rule iff the generated identifier satisfies the `uuid` rule |
| `ConfStore.MigrateDoc` | src/lib/stores/settings-store.ts:176-180 | after the migration, `error_tracking` holds the old `anonymous_statistics` if present and `true` otherwise; `anonymous_statistics` is absent; every other key is unchanged |
| `ConfStore.MigrationKeepsValid` | src/lib/stores/settings-store.ts:176-180 | the migration turns a valid document into a valid document |
| `ConfStore.MigrationNotIdempotent` | src/lib/stores/settings-store.ts:176-180 | some valid document is changed by a second run of the migration, so it must run only once |
| `ConfStore.Store.constructor` | src/lib/stores/settings-store.ts:157-159 | a store is created on a valid document and bound to its file path |
| `ConfStore.Store.Get` | src/lib/stores/settings-store.ts:177 | `get` returns the stored value, or nothing when the key is absent |
| `ConfStore.Store.Set` | src/lib/stores/settings-store.ts:178 | `set` writes the value iff it satisfies its key's rule, and fails with a schema violation otherwise; a rejected value leaves the document unchanged, and the store stays valid |
| `ConfStore.Store.Delete` | src/lib/stores/settings-store.ts:179 | `delete` removes exactly that key and keeps the store valid |
| `ConfStore.Store.Migrate584` | src/lib/stores/settings-store.ts:176-180 | the migration run through `get`, `?? true`, `set` and `delete` leaves the document equal to `MigrateDoc` of the old one, and valid; its `set` never fails on a valid store |
| `ConfStore.OpenedDoc` | src/lib/stores/settings-store.ts:157-181 | an opened document holds each stored value, and the default for every other key that has one. Without the migration it is the defaults overridden by the file; with it, `anonymous_statistics` is gone and `error_tracking` holds the stored `anonymous_statistics`, or `true` when the file has none |
| `ConfStore.FreshDocument` | src/lib/stores/settings-store.ts:162-181 | on a missing file, the opened document without the migration is exactly the defaults record; with the migration, `error_tracking` is `true` |
| `ConfStore.FreshMigratedKey` | src/lib/stores/settings-store.ts:162-181 | on a missing file with the migration, every key except `anonymous_statistics` is present and every default is kept |
| `ConfStore.LegacyOptOutKept` | src/lib/stores/settings-store.ts:176-180 | a stored `anonymous_statistics = false` becomes `error_tracking = false`, and the old key is removed |
| `ConfStore.CreateStore` | src/lib/stores/settings-store.ts:155-183 | creation succeeds iff the merged document is valid, and otherwise fails with a schema violation. On success the new store is valid, holds the opened document and is bound to the file `settings.json` in directory `path` (`OpenedAs`) |
| `SettingsEntry.EffectivePath` | src/lib/stores/settings-store.ts:191-193 | an explicit path argument is used as given; an `undefined` one is replaced by the environment's data path; the result is missing only when both are |
| `SettingsEntry.UsablePath` | src/lib/stores/settings-store.ts:194-199 | the guard `!path` rejects exactly `undefined` and the empty string, the two falsy values of type `string \| undefined` |
| `SettingsEntry.ModuleState.constructor` | src/lib/stores/settings-store.ts:45 | the module starts with no instance |
| `SettingsEntry.ModuleState.SettingsStore` | src/lib/stores/settings-store.ts:191-205 | a missing or empty effective path fails with `InvalidFilePath` and leaves the instance as it was, even when one exists. Otherwise the existing instance is returned whatever the path. On the first call the store is created and kept; a creation that fails keeps nothing |
| `SettingsEntry.ModuleState.CreateInstance` | src/lib/stores/settings-store.ts:202 | the first successful creation is kept as the instance; a failed creation leaves no instance |
| `SettingsEntry.RepeatedCalls` | src/lib/stores/settings-store.ts:194-204 | in one process, an empty path fails after an instance exists, and every later call with a usable path returns the first call's instance |

## Left out

- The `conf` library's file reading and writing, its JSON Schema engine, its semantic-version comparison and its version stamp. The version gate is the boolean `migrate` given to `CreateStore`. The contents of `settings.json` are the map `stored`. The model assumes that the library merges the defaults under the stored values and validates the merged document before the migration runs.
- The identifier generator. Its result is the parameter `id`, and `DefaultsValid` states the defaults' validity under the condition that `id` satisfies the `uuid` rule.
- Non-integer numbers. The schema's type is `number`, but numeric values are modelled as `int`.
- The annotations `description` and `readOnly`. The validator does not act on them, so `uuid` can be changed through `Set` like any other key. Unlike them, `format: 'uuid'` is a validation keyword and is modelled.
- String length: strings are Dafny `seq<char>`, sequences of Unicode scalar values, and `maxLength` counts those.
- JSON `null`, arrays and objects as values. `Value` has only strings, numbers and booleans, and every rule of the schema rejects the other JSON values, so no valid document is lost. The library's `set(key, undefined)`, which throws a `TypeError`, is not modelled either.
- Path normalisation. The library resolves its directory with `path.resolve`. The model binds a store to the text `path + "/settings.json"` and does not normalise a trailing slash or a relative path.
- The error message text of `InvalidFilePath`, and the fact that the error is thrown rather than returned.
- tools/move-files.ts and src/lib/utils.ts. They copy files and read environment variables, and have no logic of their own. The environment's data path is the parameter `dataPath`.
- The host program's calls to `get`/`set` beyond those the migration makes. Keys name a closed datatype, so an unknown key cannot be expressed. `ParseKey` shows which names are keys.
