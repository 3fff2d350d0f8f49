/**
  The configuration of open-url (src/config.rs): an ordered list of handlers,
  each a regular-expression pattern and the name of a script to run for URLs
  it matches.

  Locating the configuration directory, reading config.toml and decoding TOML
  are outside the model: the directory lookup is a `BaseDirs` value (or its
  absence), and what reading and decoding an existing config.toml yields is a
  `ConfigFile` value.
 */
module Configuration {
  import opened Results

  /** One entry of the `handlers` array of config.toml. */
  datatype Handler = Handler(pattern: string, script: string)

  /** The whole configuration; the order of `handlers` is significant. */
  datatype Config = Config(handlers: seq<Handler>)

  /**
    The per-application configuration directories. `find` maps a name relative
    to them to the path of an existing file with that name, if there is one.
   */
  datatype BaseDirs = BaseDirs(find: string -> Option<string>)

  /** What reading and decoding an existing config.toml gives. */
  datatype ConfigFile = Unreadable | Malformed | Parsed(config: Config)

  const ConfigFileName: string := "config.toml"
  const ScriptsDir: string := "scripts/"

  /**
    Loads the configuration. `dirs` is None when the configuration directory
    cannot be determined. A missing config.toml is not an error: it gives the
    empty handler list.
   */
  function FromFile(dirs: Option<BaseDirs>, file: ConfigFile): (r: Result<Config>)
    ensures r.Ok? <==> dirs.Some? && (dirs.value.find(ConfigFileName).None? || file.Parsed?)
    ensures r.Ok? && dirs.value.find(ConfigFileName).None? ==> r.value.handlers == []
    ensures r.Ok? && dirs.value.find(ConfigFileName).Some? ==> r.value == file.config
    ensures r.Err? ==> r.error in {BaseDirError, ConfigReadError, ConfigParseError}
  {
    match dirs
    case None => Err(BaseDirError)
    case Some(d) =>
      match d.find(ConfigFileName)
      case None => Ok(Config([]))
      case Some(_) =>
        match file
        case Unreadable => Err(ConfigReadError)
        case Malformed => Err(ConfigParseError)
        case Parsed(c) => Ok(c)
  }

  /**
    The path of the script called `name`: a file under scripts/ in the
    configuration directories. Ok(None) means there is no such file; Err means
    the directories themselves could not be determined.
   */
  function GetScriptPath(dirs: Option<BaseDirs>, name: string): (r: Result<Option<string>>)
    ensures r.Err? <==> dirs.None?
    ensures r.Err? ==> r.error == BaseDirError
    ensures r.Ok? ==> r.value == dirs.value.find(ScriptsDir + name)
  {
    match dirs
    case None => Err(BaseDirError)
    case Some(d) => Ok(d.find(ScriptsDir + name))
  }
}
