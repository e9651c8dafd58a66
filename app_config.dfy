/**
 * One expansion of the configuration generator, for the application schema
 *   (log_level, LogLevel, LogLevel::Info),
 *   (buffer_capacity, usize, 1024),
 *   (environment, String, "production"):
 * the instance record and how it is built from the raw settings map.
 */
module AppConfigSchema {
  import opened Wrappers
  import opened LogLevels
  import opened Usize
  import opened ConfigField

  /** Each field is looked up under its own name. */
  const LogLevelKey: string := "log_level"
  const BufferCapacityKey: string := "buffer_capacity"
  const EnvironmentKey: string := "environment"

  /** The declared defaults. */
  const DefaultLogLevel: LogLevel := Info
  const DefaultBufferCapacity: Usize := 1024
  const DefaultEnvironment: string := "production"

  /** The configuration instance: one field per schema entry. */
  datatype AppConfig = AppConfig(logLevel: LogLevel, bufferCapacity: Usize, environment: string)

  /** The instance with every declared default. */
  function Defaults(): (c: AppConfig)
    ensures c.logLevel == Info && c.bufferCapacity == 1024 && c.environment == "production"
  {
    AppConfig(DefaultLogLevel, DefaultBufferCapacity, DefaultEnvironment)
  }

  /** Whether a key names a field of the schema. */
  predicate IsSchemaKey(k: string)
  {
    k == LogLevelKey || k == BufferCapacityKey || k == EnvironmentKey
  }

  /**
   * The field-building half of `from_hashmap`: every field by parse-with-fallback
   * on its own entry. Total: a usable instance comes out of every map.
   */
  function FromMap(m: map<string, string>): (c: AppConfig)
    ensures LogLevelKey in m && ParseLogLevel(m[LogLevelKey]).Some? ==> c.logLevel == ParseLogLevel(m[LogLevelKey]).value
    ensures LogLevelKey !in m || ParseLogLevel(m[LogLevelKey]).None? ==> c.logLevel == DefaultLogLevel
    ensures BufferCapacityKey in m && ParseUsize(m[BufferCapacityKey]).Some? ==> c.bufferCapacity == ParseUsize(m[BufferCapacityKey]).value
    ensures BufferCapacityKey !in m || ParseUsize(m[BufferCapacityKey]).None? ==> c.bufferCapacity == DefaultBufferCapacity
    ensures EnvironmentKey in m ==> c.environment == m[EnvironmentKey]
    ensures EnvironmentKey !in m ==> c.environment == DefaultEnvironment
  {
    AppConfig(
      ParseOr(m, LogLevelKey, DefaultLogLevel, ParseLogLevel),
      ParseOr(m, BufferCapacityKey, DefaultBufferCapacity, ParseUsize),
      TextField(m, EnvironmentKey, DefaultEnvironment))
  }

  /** `from_hashmap` takes an optional map; a missing map reads as the empty map. */
  function FromOptionalMap(hash: Option<map<string, string>>): (c: AppConfig)
    ensures hash.None? ==> c == Defaults()
    ensures hash.Some? ==> c == FromMap(hash.value)
  {
    FromMap(hash.UnwrapOr(map[]))
  }

  /** `from_hashmap(None)`, `from_hashmap(Some(empty))` and the all-defaults instance coincide. */
  lemma NoneIsEmptyMap()
    ensures FromOptionalMap(None) == FromOptionalMap(Some(map[])) == Defaults()
  {
  }

  /** A map with no schema key at all yields the all-defaults instance. */
  lemma NoSchemaKeysGivesDefaults(m: map<string, string>)
    requires forall k :: k in m ==> !IsSchemaKey(k)
    ensures FromMap(m) == Defaults()
  {
  }

  /** Each field depends only on its own entry. */
  lemma FieldsIndependent(m1: map<string, string>, m2: map<string, string>)
    ensures AgreeOn(m1, m2, LogLevelKey) ==> FromMap(m1).logLevel == FromMap(m2).logLevel
    ensures AgreeOn(m1, m2, BufferCapacityKey) ==> FromMap(m1).bufferCapacity == FromMap(m2).bufferCapacity
    ensures AgreeOn(m1, m2, EnvironmentKey) ==> FromMap(m1).environment == FromMap(m2).environment
  {
  }

  /** Adding, changing or removing a key outside the schema never changes the instance. */
  lemma UnknownKeyIgnored(m: map<string, string>, k: string, v: string)
    requires !IsSchemaKey(k)
    ensures FromMap(m[k := v]) == FromMap(m)
    ensures FromMap(m - {k}) == FromMap(m)
  {
  }

  /** Only the schema's own entries matter: the map cut down to them builds the same instance. */
  lemma OnlySchemaEntriesMatter(m: map<string, string>)
    ensures FromMap(map k | k in m && IsSchemaKey(k) :: m[k]) == FromMap(m)
  {
  }

  /** Setting one field's entry leaves the other two fields as they were. */
  lemma SetEntryKeepsOtherFields(m: map<string, string>, v: string)
    ensures FromMap(m[LogLevelKey := v]).bufferCapacity == FromMap(m).bufferCapacity
    ensures FromMap(m[LogLevelKey := v]).environment == FromMap(m).environment
    ensures FromMap(m[BufferCapacityKey := v]).logLevel == FromMap(m).logLevel
    ensures FromMap(m[BufferCapacityKey := v]).environment == FromMap(m).environment
    ensures FromMap(m[EnvironmentKey := v]).logLevel == FromMap(m).logLevel
    ensures FromMap(m[EnvironmentKey := v]).bufferCapacity == FromMap(m).bufferCapacity
  {
  }

  /**
   * A map that spells every field validly (each level by its label, the
   * capacity in decimal, the environment as is) builds exactly those values.
   */
  lemma AllValidEntries(m: map<string, string>, c: AppConfig)
    requires LogLevelKey in m && m[LogLevelKey] == Label(c.logLevel)
    requires BufferCapacityKey in m && m[BufferCapacityKey] == DecimalString(c.bufferCapacity)
    requires EnvironmentKey in m && m[EnvironmentKey] == c.environment
    ensures FromMap(m) == c
  {
    ParseLogLevelExact(m[LogLevelKey], c.logLevel);
    ParseDecimalString(c.bufferCapacity);
  }

  /** An unparsable entry falls back to the default while the other fields are unaffected. */
  lemma InvalidEntryFallsBack(m: map<string, string>)
    requires LogLevelKey in m && ParseLogLevel(m[LogLevelKey]).None?
    ensures FromMap(m).logLevel == DefaultLogLevel
    ensures FromMap(m) == FromMap(m - {LogLevelKey})
  {
  }
}
