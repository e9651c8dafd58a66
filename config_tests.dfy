/** The scenarios of the repository's test suite, stated against the model. */
module ConfigTests {
  import opened Wrappers
  import opened LogLevels
  import opened Usize
  import opened AppConfigSchema
  import opened ConfigStore

  /** All three fields given valid entries. */
  lemma FromHashmapAllFields()
    ensures FromOptionalMap(Some(map[LogLevelKey := "Debug", BufferCapacityKey := "2048", EnvironmentKey := "development"]))
         == AppConfig(Debug, 2048, "development")
  {
    assert DecimalString(2048) == "2048";
    AllValidEntries(map[LogLevelKey := "Debug", BufferCapacityKey := "2048", EnvironmentKey := "development"],
                    AppConfig(Debug, 2048, "development"));
  }

  /** No map, and an empty map, both give the declared defaults. */
  lemma DefaultValues()
    ensures FromOptionalMap(None) == AppConfig(Info, 1024, "production")
    ensures FromOptionalMap(Some(map[])) == AppConfig(Info, 1024, "production")
  {
  }

  /** Valid entries plus a key outside the schema: the extra key is ignored. */
  lemma ExtraKeysIgnored()
    ensures FromOptionalMap(Some(map[LogLevelKey := "Warn", BufferCapacityKey := "4096", EnvironmentKey := "staging",
                                     "extra_key" := "should_be_ignored"]))
         == AppConfig(Warn, 4096, "staging")
  {
    var m := map[LogLevelKey := "Warn", BufferCapacityKey := "4096", EnvironmentKey := "staging"];
    assert DecimalString(4096) == "4096";
    AllValidEntries(m, AppConfig(Warn, 4096, "staging"));
    UnknownKeyIgnored(m, "extra_key", "should_be_ignored");
  }

  /** An unrecognised level falls back to `Info`; the unset fields take their defaults. */
  lemma InvalidLogLevel()
    ensures FromOptionalMap(Some(map[LogLevelKey := "InvalidLevel"])) == AppConfig(Info, 1024, "production")
  {
  }

  /** Initialise from a full map, then read each field through its getter. */
  method GettersAfterFromHashmap() returns (level: Result<LogLevel, ConfigError>, capacity: Result<Usize, ConfigError>,
                                            environment: Result<string, ConfigError>)
    ensures level == Success(Debug) && capacity == Success(2048) && environment == Success("development")
  {
    var store := new Store();
    FromHashmapAllFields();
    var _ := store.FromHashmap(Some(map[LogLevelKey := "Debug", BufferCapacityKey := "2048", EnvironmentKey := "development"]));
    level := store.LogLevel();
    capacity := store.BufferCapacity();
    environment := store.Environment();
  }

  /** A second `from_hashmap` fails and the first instance stays in the store. */
  method DoubleInitializationFails() returns (second: Result<AppConfig, ConfigError>, stored: Result<AppConfig, ConfigError>)
    ensures second == Failure(AlreadyInitialized)
    ensures stored == Success(AppConfig(Debug, 1024, "production"))
  {
    var store := new Store();
    var m := map[LogLevelKey := "Debug"];
    var _ := store.FromHashmap(Some(m));
    second := store.FromHashmap(Some(m));
    stored := store.Get();
  }

  /** After initialisation, `Default` fails too and replaces nothing. */
  method DefaultAfterInitializationFails() returns (r: Result<AppConfig, ConfigError>, stored: Result<AppConfig, ConfigError>)
    ensures r == Failure(AlreadyInitialized)
    ensures stored == Success(AppConfig(Info, 1024, "development"))
  {
    var store := new Store();
    var _ := store.FromHashmap(Some(map[EnvironmentKey := "development"]));
    r := store.Default();
    stored := store.Get();
  }

  /** `Default` on an empty store stores the same instance as `from_hashmap(None)`. */
  method DefaultMatchesFromHashmapNone() returns (viaDefault: Result<AppConfig, ConfigError>, viaNone: Result<AppConfig, ConfigError>)
    ensures viaDefault == viaNone == Success(AppConfig(Info, 1024, "production"))
  {
    var s1 := new Store();
    viaDefault := s1.Default();
    var s2 := new Store();
    viaNone := s2.FromHashmap(None);
  }

  /** A getter on a store nobody initialised fails. */
  method GetterBeforeInitializationFails() returns (r: Result<LogLevel, ConfigError>)
    ensures r == Failure(NotInitialized)
  {
    var store := new Store();
    r := store.LogLevel();
  }
}
