/** The SDK's local credential file and `resolve_dsn`, which picks the
    ingest URL from the argument, the environment or that file. The
    environment and the file system are inputs. */
module LocalConfig {
  import opened LogTypes
  import opened Strings

  const DEFAULT_DSN := "http://localhost:8001"
  const CONFIG_SUFFIX := "/.sentry_logger/config.json"

  /** A JSON value as `resolve_dsn` sees it: a string, or any other value
      with its `str()` rendering and its truthiness. */
  datatype Json = JString(s: string) | JOther(repr: string, truthy: bool)

  predicate Truthy(v: Json) {
    match v
    case JString(s) => s != ""
    case JOther(_, t) => t
  }

  function Str(v: Json): string {
    match v
    case JString(s) => s
    case JOther(r, _) => r
  }

  /** What reading the file at a path gives. */
  datatype ConfigFile = Missing | Unreadable | NotAnObject | Object(entries: map<string, Json>)

  /** `Path(path) if path else get_default_config_path()`. */
  function ConfigPath(path: Option<string>, home: string): string {
    if path.Some? && path.value != "" then path.value else home + CONFIG_SUFFIX
  }

  /** `load_local_config`: the file's object, or {} when it is missing,
      unreadable or holds anything but a JSON object. */
  function LoadLocalConfig(path: Option<string>, home: string, files: string -> ConfigFile): map<string, Json> {
    match files(ConfigPath(path, home))
    case Object(entries) => entries
    case _ => map[]
  }

  lemma LoadLocalConfigSpec(path: Option<string>, home: string, files: string -> ConfigFile)
    ensures files(ConfigPath(path, home)).Object? ==>
      LoadLocalConfig(path, home, files) == files(ConfigPath(path, home)).entries
    ensures !files(ConfigPath(path, home)).Object? ==> LoadLocalConfig(path, home, files) == map[]
    ensures LoadLocalConfig(path, home, files) != map[] ==> files(ConfigPath(path, home)).Object?
    ensures path.None? || path == Some("") ==> ConfigPath(path, home) == home + CONFIG_SUFFIX
  {
  }

  /** `resolve_dsn`: `envDsn` is `SENTRY_INGEST_URL`, and the file read is
      the one at the default path. */
  function ResolveDsn(explicitDsn: Option<string>, envDsn: Option<string>, home: string,
                      files: string -> ConfigFile): string {
    if explicitDsn.Some? && explicitDsn.value != "" then RStripChar(explicitDsn.value, '/')
    else if envDsn.Some? && envDsn.value != "" then RStripChar(envDsn.value, '/')
    else
      var cfg := LoadLocalConfig(None, home, files);
      if "dsn" in cfg && Truthy(cfg["dsn"]) then RStripChar(Str(cfg["dsn"]), '/')
      else DEFAULT_DSN
  }

  /** The first of the argument, the environment and the file's "dsn" that
      is not empty is used, with its trailing slashes removed; without any
      the local default is used. */
  lemma ResolveDsnSpec(explicitDsn: Option<string>, envDsn: Option<string>, home: string,
                       files: string -> ConfigFile)
    ensures var r := ResolveDsn(explicitDsn, envDsn, home, files);
      var cfg := LoadLocalConfig(None, home, files);
      && (explicitDsn.Some? && explicitDsn.value != "" ==> r == RStripChar(explicitDsn.value, '/'))
      && (!(explicitDsn.Some? && explicitDsn.value != "") && envDsn.Some? && envDsn.value != "" ==>
            r == RStripChar(envDsn.value, '/'))
      && (!(explicitDsn.Some? && explicitDsn.value != "") && !(envDsn.Some? && envDsn.value != "") ==>
            r == (if "dsn" in cfg && Truthy(cfg["dsn"]) then RStripChar(Str(cfg["dsn"]), '/') else DEFAULT_DSN))
      && (|r| > 0 ==> r[|r| - 1] != '/')
  {
    var d := DEFAULT_DSN;
    assert d[|d| - 1] == '1';
  }

  /** Whatever the file holds, an explicit non-empty DSN decides alone. */
  lemma ExplicitDsnIgnoresFiles(dsn: string, env1: Option<string>, env2: Option<string>, home: string,
                                files1: string -> ConfigFile, files2: string -> ConfigFile)
    requires dsn != ""
    ensures ResolveDsn(Some(dsn), env1, home, files1) == ResolveDsn(Some(dsn), env2, home, files2)
  {
  }
}
