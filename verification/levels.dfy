/**
  gplog's verbosity levels. They are cumulative: a logger at a given
  verbosity prints every message whose level is at or below it, in the
  order ERROR < INFO < VERBOSE < DEBUG (Go's LOGERROR..LOGDEBUG, 0..3).
*/
module Levels {
  import opened Wrappers

  datatype Verbosity = LogError | LogInfo | LogVerbose | LogDebug

  /** The Go constant of each level. */
  function Rank(v: Verbosity): (r: nat)
    ensures r <= 3
  {
    match v
    case LogError => 0
    case LogInfo => 1
    case LogVerbose => 2
    case LogDebug => 3
  }

  /** The level with a given Go constant, if any. */
  function FromRank(i: int): (r: Option<Verbosity>)
    ensures r.Some? <==> 0 <= i <= 3
    ensures r.Some? ==> Rank(r.value) == i
  {
    if i == 0 then Some(LogError)
    else if i == 1 then Some(LogInfo)
    else if i == 2 then Some(LogVerbose)
    else if i == 3 then Some(LogDebug)
    else None
  }

  lemma FromRankOfRank(v: Verbosity)
    ensures FromRank(Rank(v)) == Some(v)
  {
  }

  /** A logger at verbosity v prints messages of level `level`. */
  predicate AtLeast(v: Verbosity, level: Verbosity) {
    Rank(v) >= Rank(level)
  }

  /** AtLeast is a total order with LogError at the bottom and LogDebug at the top. */
  lemma AtLeastTotalOrder(a: Verbosity, b: Verbosity, c: Verbosity)
    ensures AtLeast(a, a)
    ensures AtLeast(a, b) && AtLeast(b, a) ==> a == b
    ensures AtLeast(a, b) && AtLeast(b, c) ==> AtLeast(a, c)
    ensures AtLeast(a, b) || AtLeast(b, a)
    ensures AtLeast(a, LogError) && AtLeast(LogDebug, a)
  {
  }

  /** The label a message of each level carries; VERBOSE messages are labelled DEBUG. */
  function Label(v: Verbosity): (s: string)
    ensures s == "ERROR" <==> v == LogError
    ensures s == "INFO" <==> v == LogInfo
    ensures s == "DEBUG" <==> AtLeast(v, LogVerbose)
  {
    match v
    case LogError => "ERROR"
    case LogInfo => "INFO"
    case LogVerbose => "DEBUG"
    case LogDebug => "DEBUG"
  }
}
