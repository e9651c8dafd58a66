# macro_keeper configuration store, modelled in Dafny

`macro_keeper` generates a process-wide, write-once, typed configuration object from a
declared schema of `(field, type, default)` triples. `from_hashmap` fills the object once
from an optional `HashMap<String, String>`. Each field is looked up under its own name. A
`String` field takes the entry verbatim. Any other field parses it with the type's `FromStr`,
and a missing key or a failed parse silently falls back to the declared default. The instance
is stored in a `static OnceLock`. Typed getters read it back. Reading before initialisation
and initialising twice both panic.

This model takes one expansion of the generator, for the application schema of the test suite:
`log_level: LogLevel = Info`, `buffer_capacity: usize = 1024`, `environment: String = "production"`.

- `wrappers.dfy` (`Wrappers`): `Option` with `unwrap_or`/`and_then`, `Result`, and `HashMap::get` as `Lookup`.
- `log_level.dfy` (`LogLevels`): the `LogLevel` enum and its hand-written `from_str`.
- `usize_parse.dfy` (`Usize`): base-10 parsing of a `usize`, on a 64-bit target.
- `config_field.dfy` (`ConfigField`): the two arms of the per-field macro, made generic: `TextField` for `String` and `ParseOr` for a type with a parser. In the `config_generator!` expansion, the field type reaches `__config_field!` as an already-parsed `ty` fragment. The literal `String` arm (src/config.rs:78-80) cannot match such a fragment, so `environment` actually goes through the generic arm (src/config.rs:82-87) with `String`'s parser, which never fails and returns its input unchanged. `TextFieldIsInfallibleParse` proves that the two paths give the same value. That is why the `TextField` row cites the `String` arm.
- `app_config.dfy` (`AppConfigSchema`): the generated struct `AppConfig`, and its construction from a map (`FromMap`, `FromOptionalMap`), with the per-field independence and fallback properties.
- `config_store.dfy` (`ConfigStore`): the `OnceLock` as a class `Store` with an `Option<AppConfig>` field, and `get`, `new`, `from_hashmap`, `Default` and the three getters as methods. A panic is modelled as a `Failure` result. It carries the error kind, whose diagnostic is `Message`. The store is left unchanged, which is what a caller that catches the unwind observes. The strict policy applies: a second initialisation fails.
- `config_tests.dfy` (`ConfigTests`): the test suite's scenarios as lemmas and as methods over a fresh store.

## Model

| member | source | states |
|---|---|---|
| `LogLevels.ParseLogLevel` | tests/config_test.rs:15-23 | an accepted string is exactly the label of the level returned; a rejected string is the label of no level |
| `LogLevels.ParseLogLevelExact` | tests/config_test.rs:16-22 | `from_str(s) == Some(l)` if and only if `s` is `l`'s variant name |
| `LogLevels.LowerCaseRejected` | tests/config_test.rs:21 | other capitalisations ("debug", "INFO") and "InvalidLevel" are rejected |
| `Usize.ParseUsize` | src/config.rs:85 | a successful parse came from a non-empty digit string and returns its decimal value; a failure means empty, a non-digit, or a value above `usize::MAX` |
| `Usize.DecimalValueOfString` | src/config.rs:85 | the decimal spelling of `n` denotes `n` |
| `Usize.ParseDecimalString` | src/config.rs:85 | round trip: every `usize` parses back from its decimal spelling |
| `ConfigField.TextField` | src/config.rs:78-80 | a `String` field is the map's entry verbatim when the key is present, the default otherwise |
| `ConfigField.ParseOr` | src/config.rs:82-87 | a parsed field is the parsed value when the key is present and parsing succeeds, the default when the key is absent or parsing fails |
| `ConfigField.ParseOrLocal` | src/config.rs:83-86 | a parsed field depends only on its own key's entry |
| `ConfigField.TextFieldIsInfallibleParse` | src/config.rs:78-87 | the `String` arm gives the same field as the generic arm run with `String`'s never-failing, identity parser |
| `ConfigField.TextFieldLocal` | src/config.rs:79 | a `String` field depends only on its own key's entry |
| `ConfigField.ParseFailureLikeAbsence` | src/config.rs:85-86 | an unparsable entry gives the same field as no entry: the default |
| `AppConfigSchema.Defaults` | tests/config_test.rs:29-33 | the all-defaults instance is `{Info, 1024, "production"}` |
| `AppConfigSchema.FromMap` | src/config.rs:160-162 | each of the three fields is its own entry parsed (verbatim for `environment`) or its declared default on absence or parse failure |
| `AppConfigSchema.FromOptionalMap` | src/config.rs:158-162 | a `None` map yields the all-defaults instance; `Some(m)` yields the instance built from `m` |
| `AppConfigSchema.NoneIsEmptyMap` | src/config.rs:159 | `from_hashmap(None)`, `from_hashmap(Some(empty))` and the defaults coincide |
| `AppConfigSchema.NoSchemaKeysGivesDefaults` | src/config.rs:159-162 | a map holding no schema key yields the all-defaults instance |
| `AppConfigSchema.FieldsIndependent` | src/config.rs:160-162 | two maps that agree on a field's key give that field the same value |
| `AppConfigSchema.UnknownKeyIgnored` | src/config.rs:160-162 | adding or removing a key outside the schema leaves the instance unchanged |
| `AppConfigSchema.OnlySchemaEntriesMatter` | src/config.rs:160-162 | the map restricted to schema keys builds the same instance as the whole map |
| `AppConfigSchema.SetEntryKeepsOtherFields` | src/config.rs:160-162 | changing one field's entry leaves the other two fields unchanged |
| `AppConfigSchema.AllValidEntries` | src/config.rs:160-162 | a map spelling every field validly builds exactly the values spelled |
| `AppConfigSchema.InvalidEntryFallsBack` | src/config.rs:82-87 | an unparsable `log_level` entry yields `Info` and the same instance as if the key were absent |
| `ConfigStore.Message` | src/config.rs:149-154 | the diagnostic each fatal error halts with: both begin "Config ", and the next word is "not" exactly for the uninitialised-access error |
| `ConfigStore.MessagesDistinct` | src/config.rs:149-154 | the uninitialised-access and double-initialisation diagnostics differ |
| `ConfigStore.Store.constructor` | src/config.rs:140 | the store starts empty |
| `ConfigStore.Store.Get` | src/config.rs:148-150 | the stored instance if there is one; the not-initialised failure if and only if the store is empty |
| `ConfigStore.Store.New` | src/config.rs:152-156 | on an empty store, stores and returns the instance; on a full store, fails with already-initialised and leaves the stored instance in place |
| `ConfigStore.Store.FromHashmap` | src/config.rs:158-165 | on an empty store, stores and returns the instance built from the optional map; on a full store, fails and replaces nothing |
| `ConfigStore.Store.Default` | src/config.rs:172-176 | on an empty store, stores the all-defaults instance, the same instance `from_hashmap(None)` builds; on a full store, fails and replaces nothing |
| `ConfigStore.Store.LogLevel` | src/config.rs:37-40 | the stored instance's `log_level`; fails if and only if the store is empty |
| `ConfigStore.Store.BufferCapacity` | src/config.rs:37-40 | the stored instance's `buffer_capacity`; fails if and only if the store is empty |
| `ConfigStore.Store.Environment` | src/config.rs:37-40 | the stored instance's `environment`; fails if and only if the store is empty |
| `ConfigTests.FromHashmapAllFields` | tests/config_test.rs:48-55 | `{log_level:"Debug", buffer_capacity:"2048", environment:"development"}` builds `{Debug, 2048, "development"}` |
| `ConfigTests.DefaultValues` | tests/config_test.rs:70-91 | no map and an empty map both build `{Info, 1024, "production"}` |
| `ConfigTests.ExtraKeysIgnored` | tests/config_test.rs:106-115 | valid entries plus `extra_key` build `{Warn, 4096, "staging"}` |
| `ConfigTests.InvalidLogLevel` | tests/config_test.rs:130-135 | `{log_level:"InvalidLevel"}` builds `{Info, 1024, "production"}` |
| `ConfigTests.GettersAfterFromHashmap` | tests/config_test.rs:52-55 | after `from_hashmap`, each getter returns the field built from the map |
| `ConfigTests.DoubleInitializationFails` | tests/config_test.rs:150-159 | a second `from_hashmap` fails and the first instance stays stored |
| `ConfigTests.DefaultAfterInitializationFails` | src/config.rs:172-176 | `Default` after `from_hashmap` fails and the stored instance is kept |
| `ConfigTests.DefaultMatchesFromHashmapNone` | src/config.rs:158-176 | `Default` and `from_hashmap(None)` on empty stores store the same instance |
| `ConfigTests.GetterBeforeInitializationFails` | tests/config_test.rs:175-179 | a getter on a never-initialised store fails with not-initialised |

## Left out

- Concurrency: the `OnceLock` guarantees that exactly one of several racing first writers wins and that readers never see a partial instance. The model is sequential. `Store` is a plain class whose `New` checks and writes in one step.
- Panics and unwinding: a panic is modelled as a `Failure` result with the store unchanged. Process abort and `catch_unwind` are not modelled.
- The macro machinery (`macro_rules!`, `stringify!`, repetition): one expansion is modelled, for the test suite's schema, plus the generic per-field functions `TextField` and `ParseOr`. The other test schemas (`AppConfigTest1` and the rest) are identical, so each scenario uses its own fresh `Store`.
- `&'static` references and the `Debug`/`Clone` derives: getters return the field value rather than a reference. These derives have no behaviour to model.
- The explicit discriminants of `LogLevel` (`Debug = 0` … `Error = 3`) are never read by the configuration code.
- Usize.ParseUsize: this is a model of `usize::from_str`, whose code (in Rust's standard library) is not part of this model. It accepts a non-empty string of ASCII digits whose value is at most 2^64 - 1. It does not model the leading `+` that the standard parser also accepts. So a `buffer_capacity` entry of `"+2048"` falls back to 1024 in the model, where the program reads 2048. ParseUsize's success clause and FromMap's `bufferCapacity` clauses therefore describe the program only for entries that do not begin with `+`.
