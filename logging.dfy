/**
  Resolution of the `LOG_LEVEL` setting: the setting is upper-cased and looked
  up in a five-entry table; a name the table does not know falls back to INFO.
 */
module Logging {
  import opened Ascii

  /** The five standard levels of Python's `logging` module. */
  datatype Level = Debug | Info | Warning | Error | Critical {
    /** The level's name as written in the table. */
    function Name(): string {
      match this
      case Debug => "DEBUG"
      case Info => "INFO"
      case Warning => "WARNING"
      case Error => "ERROR"
      case Critical => "CRITICAL"
    }

    /** The numeric value `logging` gives the level. */
    function Severity(): int {
      match this
      case Debug => 10
      case Info => 20
      case Warning => 30
      case Error => 40
      case Critical => 50
    }
  }

  /** The setting used when `LOG_LEVEL` is not set. */
  const DefaultLevelSetting: string := "INFO"

  const LevelTable: map<string, Level> := map[
    "DEBUG" := Debug,
    "INFO" := Info,
    "WARNING" := Warning,
    "ERROR" := Error,
    "CRITICAL" := Critical
  ]

  /** The table holds exactly the five levels, each under its own name. */
  lemma LevelTableByName()
    ensures forall l: Level :: l.Name() in LevelTable && LevelTable[l.Name()] == l
    ensures forall name :: name in LevelTable ==> LevelTable[name].Name() == name
    ensures |LevelTable| == 5
  {
  }

  /**
    The level in force for a given setting: the level whose name is the
    upper-cased setting, or INFO when no level has that name.
   */
  function ResolveLogLevel(setting: string): (r: Level)
    ensures Upper(setting) in LevelTable ==> r.Name() == Upper(setting)
    ensures Upper(setting) !in LevelTable ==> r == Info
  {
    LevelTableByName();
    var name := Upper(setting);
    if name in LevelTable then LevelTable[name] else Info
  }

  /** Any setting whose upper-case form is a level's name selects that level. */
  lemma ResolveByName(l: Level, setting: string)
    requires Upper(setting) == l.Name()
    ensures ResolveLogLevel(setting) == l
  {
  }

  /** The setting is read without regard to letter case. */
  lemma ResolveIgnoresCase(setting: string)
    ensures ResolveLogLevel(Lower(setting)) == ResolveLogLevel(setting)
  {
    UpperOfLower(setting);
  }

  /** Without a `LOG_LEVEL` setting the proxy logs at INFO. */
  lemma DefaultIsInfo()
    ensures ResolveLogLevel(DefaultLevelSetting) == Info
  {
  }
}
