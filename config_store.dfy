/**
 * The write-once store behind the generated accessor: a cell holding zero or
 * one configuration instance, the initialisers that fill it and the getters
 * that read it. Each fatal misuse (reading an empty store, filling a full
 * one) comes back as a `Failure` naming the diagnostic, with the store left
 * as it was.
 */
module ConfigStore {
  import opened Wrappers
  import opened LogLevels
  import opened Usize
  import opened ConfigField
  import opened AppConfigSchema

  datatype ConfigError = NotInitialized | AlreadyInitialized

  /**
   * The diagnostic each fatal error halts with. Both start with "Config ",
   * and the word that follows names the violation.
   */
  function Message(e: ConfigError): (s: string)
    ensures |s| > 10 && s[..7] == "Config "
    ensures s[7..10] == "not" <==> e == NotInitialized
  {
    var (word, rest) := match e
      case NotInitialized => ("not", " initialized. Did you forget to call from_hashmap()?")
      case AlreadyInitialized => ("already", " initialized.");
    assert ("Config " + word + rest)[7..10] == word[..3];
    assert e == AlreadyInitialized ==> word[..3][0] == 'a';
    "Config " + word + rest
  }

  /** The two diagnostics tell the two violations apart. */
  lemma MessagesDistinct()
    ensures Message(NotInitialized) != Message(AlreadyInitialized)
  {
  }

  class Store {
    /** The cell: `None` until the first successful initialisation, then that instance for good. */
    var cell: Option<AppConfig>

    /** A fresh, empty store. */
    constructor ()
      ensures cell == None
    {
      cell := None;
    }

    /** `get`: the stored instance, or the uninitialised-access failure. */
    method Get() returns (r: Result<AppConfig, ConfigError>)
      ensures cell.None? <==> r == Failure(NotInitialized)
      ensures cell.Some? ==> r == Success(cell.value)
    {
      match cell
      case Some(c) => r := Success(c);
      case None => r := Failure(NotInitialized);
    }

    /**
     * `new`: store `c` if the store is empty, then return what is stored.
     * On a full store it fails and the stored instance is not replaced.
     */
    method New(c: AppConfig) returns (r: Result<AppConfig, ConfigError>)
      modifies this
      ensures old(cell).None? ==> cell == Some(c) && r == Success(c)
      ensures old(cell).Some? ==> cell == old(cell) && r == Failure(AlreadyInitialized)
    {
      if cell.Some? {
        return Failure(AlreadyInitialized);
      }
      cell := Some(c);
      r := Get();
    }

    /** `from_hashmap`: build every field from the optional map, then `new`. */
    method FromHashmap(hash: Option<map<string, string>>) returns (r: Result<AppConfig, ConfigError>)
      modifies this
      ensures old(cell).None? ==> cell == Some(FromOptionalMap(hash)) && r == Success(FromOptionalMap(hash))
      ensures old(cell).Some? ==> cell == old(cell) && r == Failure(AlreadyInitialized)
    {
      var m := hash.UnwrapOr(map[]);
      var logLevel := ParseOr(m, LogLevelKey, DefaultLogLevel, ParseLogLevel);
      var bufferCapacity := ParseOr(m, BufferCapacityKey, DefaultBufferCapacity, ParseUsize);
      var environment := TextField(m, EnvironmentKey, DefaultEnvironment);
      r := New(AppConfig(logLevel, bufferCapacity, environment));
    }

    /** `Default for &'static AppConfig`: `new` with every declared default. */
    method Default() returns (r: Result<AppConfig, ConfigError>)
      modifies this
      ensures old(cell).None? ==> cell == Some(Defaults()) && r == Success(FromOptionalMap(None))
      ensures old(cell).Some? ==> cell == old(cell) && r == Failure(AlreadyInitialized)
    {
      r := New(AppConfig(DefaultLogLevel, DefaultBufferCapacity, DefaultEnvironment));
    }

    /** The `log_level` getter: `get`, then the field. */
    method LogLevel() returns (r: Result<LogLevel, ConfigError>)
      ensures cell.None? <==> r == Failure(NotInitialized)
      ensures cell.Some? ==> r == Success(cell.value.logLevel)
    {
      var c := Get();
      match c
      case Success(config) => r := Success(config.logLevel);
      case Failure(e) => r := Failure(e);
    }

    /** The `buffer_capacity` getter. */
    method BufferCapacity() returns (r: Result<Usize, ConfigError>)
      ensures cell.None? <==> r == Failure(NotInitialized)
      ensures cell.Some? ==> r == Success(cell.value.bufferCapacity)
    {
      var c := Get();
      match c
      case Success(config) => r := Success(config.bufferCapacity);
      case Failure(e) => r := Failure(e);
    }

    /** The `environment` getter. */
    method Environment() returns (r: Result<string, ConfigError>)
      ensures cell.None? <==> r == Failure(NotInitialized)
      ensures cell.Some? ==> r == Success(cell.value.environment)
    {
      var c := Get();
      match c
      case Success(config) => r := Success(config.environment);
      case Failure(e) => r := Failure(e);
    }
  }
}
