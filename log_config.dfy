/**
  The log-level part of `Config` in rxvc/config.py: the level name given to the
  constructor is upper-cased, checked against the six names of Python's `logging`
  module, and turned into that module's numeric constant or a ConfigException.
*/
module LogConfig {
  import opened Wrappers

  /** The names `Config` accepts, in the order its error message lists them. */
  const ValidLogLevels: seq<string> := ["CRITICAL", "ERROR", "WARNING", "INFO", "DEBUG", "NOTSET"]

  /** `Config.ConfigException`, with its message. */
  datatype ConfigException = ConfigException(msg: string)

  /** A constructed `Config`: the accepted names and the validated level. */
  datatype Config = Config(validLogLevels: seq<string>, logLevel: int)

  /** The value of the `logging` constant of each valid name (`getattr(logging, name)`). */
  function LevelConstant(name: string): (r: int)
    requires name in ValidLogLevels
    ensures forall i :: 0 <= i < |ValidLogLevels| && ValidLogLevels[i] == name ==> r == 50 - 10 * i
  {
    if name == "CRITICAL" then 50
    else if name == "ERROR" then 40
    else if name == "WARNING" then 30
    else if name == "INFO" then 20
    else if name == "DEBUG" then 10
    else 0
  }

  /** ASCII upper-casing of one character. */
  function UpperChar(c: char): char
  {
    if 'a' <= c <= 'z' then (c as int - 32) as char else c
  }

  /** `str.upper`, restricted to ASCII: every character upper-cased, the length kept. */
  function Upper(s: string): (u: string)
    ensures |u| == |s|
    ensures forall i :: 0 <= i < |s| ==> u[i] == UpperChar(s[i])
  {
    if s == [] then [] else [UpperChar(s[0])] + Upper(s[1..])
  }

  /** `sep.join(parts)`. */
  function Join(parts: seq<string>, sep: string): string
  {
    if parts == [] then ""
    else if |parts| == 1 then parts[0]
    else parts[0] + sep + Join(parts[1..], sep)
  }

  /** The message of the ConfigException raised for a name that is not valid. */
  function InvalidLevelMessage(): string
  {
    "Valid values are: " + Join(ValidLogLevels, ", ")
  }

  /** `Config.validate_log_level`. */
  function ValidateLogLevel(levelS: string): (r: Result<int, ConfigException>)
    ensures r.Ok? <==> Upper(levelS) in ValidLogLevels
    ensures r.Ok? ==> r.value == LevelConstant(Upper(levelS))
    ensures r.Err? ==> r.error == ConfigException(InvalidLevelMessage())
  {
    var name := Upper(levelS);
    if name in ValidLogLevels then Ok(LevelConstant(name))
    else Err(ConfigException(InvalidLevelMessage()))
  }

  /** The constructor's default argument: the LOG_LEVEL environment variable, else "INFO". */
  function DefaultLevel(env: map<string, string>): string
  {
    if "LOG_LEVEL" in env then env["LOG_LEVEL"] else "INFO"
  }

  /** `Config(level)`: raises what validation raises, and otherwise keeps the validated level. */
  function NewConfig(level: string): (r: Result<Config, ConfigException>)
    ensures r.Ok? <==> ValidateLogLevel(level).Ok?
    ensures r.Ok? ==> r.value.logLevel == ValidateLogLevel(level).value
    ensures r.Ok? ==> r.value.validLogLevels == ValidLogLevels
    ensures r.Err? ==> r.error == ValidateLogLevel(level).error
  {
    match ValidateLogLevel(level)
    case Ok(logLevel) => Ok(Config(ValidLogLevels, logLevel))
    case Err(e) => Err(e)
  }

  /** Upper-casing twice changes nothing more. */
  lemma UpperIdempotent(s: string)
    ensures Upper(Upper(s)) == Upper(s)
  {
  }

  /** Validation is case-insensitive: a name and its upper-cased form validate alike. */
  lemma CaseInsensitive(s: string)
    ensures ValidateLogLevel(s) == ValidateLogLevel(Upper(s))
  {
    UpperIdempotent(s);
  }

  /** Two names accepted with the same level are the same name up to case. */
  lemma LevelIdentifiesName(s: string, t: string)
    requires ValidateLogLevel(s).Ok? && ValidateLogLevel(t).Ok?
    requires ValidateLogLevel(s).value == ValidateLogLevel(t).value
    ensures Upper(s) == Upper(t)
  {
    LevelConstantInjective(Upper(s), Upper(t));
  }

  /** Distinct valid names have distinct level constants. */
  lemma LevelConstantInjective(a: string, b: string)
    requires a in ValidLogLevels && b in ValidLogLevels
    requires LevelConstant(a) == LevelConstant(b)
    ensures a == b
  {
  }

  /** Every valid name is accepted, in any case, and gives its own constant. */
  lemma ValidNamesAccepted(s: string, name: string)
    requires name in ValidLogLevels && Upper(s) == name
    ensures ValidateLogLevel(s) == Ok(LevelConstant(name))
  {
  }

  /** The rejection message lists the six valid names, in order, joined by ", ". */
  lemma RejectionMessage()
    ensures InvalidLevelMessage() ==
      "Valid values are: " + "CRITICAL" + ", " + "ERROR" + ", " + "WARNING" + ", "
                           + "INFO" + ", " + "DEBUG" + ", " + "NOTSET"
  {
    var levels := ValidLogLevels;
    var sep := ", ";
    assert levels[4..][1..] == levels[5..] && levels[5..] == ["NOTSET"];
    assert Join(levels[4..], sep) == "DEBUG" + sep + "NOTSET";
    assert levels[3..][1..] == levels[4..];
    assert Join(levels[3..], sep) == "INFO" + sep + ("DEBUG" + sep + "NOTSET");
    assert levels[2..][1..] == levels[3..];
    assert levels[1..][1..] == levels[2..];
  }

  /** An abbreviation of a valid name is rejected. */
  lemma AbbreviationRejected()
    ensures ValidateLogLevel("warn") == Err(ConfigException(InvalidLevelMessage()))
  {
  }

  /** With no LOG_LEVEL in the environment the level is INFO, 20. */
  lemma DefaultIsInfo()
    ensures NewConfig(DefaultLevel(map[])) == Ok(Config(ValidLogLevels, 20))
  {
    assert Upper("INFO") == "INFO";
  }
}
