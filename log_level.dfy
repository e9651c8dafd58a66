/** The `LogLevel` enumeration of the application schema and its hand-written `FromStr` parser. */
module LogLevels {
  import opened Wrappers

  datatype LogLevel = Debug | Info | Warn | Error

  /** The one label each level is spelled with: the variant's own name. */
  function Label(l: LogLevel): (s: string)
  {
    match l
    case Debug => "Debug"
    case Info => "Info"
    case Warn => "Warn"
    case Error => "Error"
  }

  /**
   * `LogLevel::from_str`: exactly the four variant names are accepted, each
   * mapped to its own variant; every other string (other capitalisations
   * included) is rejected.
   */
  function ParseLogLevel(s: string): (r: Option<LogLevel>)
    ensures r.Some? ==> Label(r.value) == s
    ensures r.None? ==> forall l: LogLevel :: Label(l) != s
  {
    match s
    case "Debug" => Some(Debug)
    case "Info" => Some(Info)
    case "Warn" => Some(Warn)
    case "Error" => Some(Error)
    case _ => None
  }

  /** Parsing is the exact inverse of `Label`, in both directions. */
  lemma ParseLogLevelExact(s: string, l: LogLevel)
    ensures ParseLogLevel(s) == Some(l) <==> s == Label(l)
  {
  }

  /** A label in another capitalisation is rejected. */
  lemma LowerCaseRejected()
    ensures ParseLogLevel("debug") == None
    ensures ParseLogLevel("INFO") == None
    ensures ParseLogLevel("InvalidLevel") == None
  {
  }
}
