/** The Python SDK's settings: `SentryLoggerConfig`, which fixes the backend
    and ingest URLs once when it is created. The process environment is an
    input. */
module SdkConfig {
  import opened LogTypes
  import opened Strings

  const DEFAULT_BACKEND_URL := "https://api.logsentry.io"
  const DEFAULT_BATCH_SIZE: int := 50
  /** `flush_interval_seconds`, 5.0 seconds, on the clock the handler reads. */
  const DEFAULT_FLUSH_INTERVAL: int := 5

  /** The base URL `__post_init__` settles on: an explicit non-empty
      `_backend_url`, else `LOGSENTRY_URL` whenever it is set (even to the
      empty string), else the production default; trailing slashes go. */
  function BackendUrl(explicit: Option<string>, env: Option<string>): string {
    var chosen := if explicit.Some? && explicit.value != "" then explicit.value
                  else if env.Some? then env.value
                  else DEFAULT_BACKEND_URL;
    RStripChar(chosen, '/')
  }

  function IngestUrl(explicit: Option<string>, env: Option<string>): string {
    BackendUrl(explicit, env) + "/ingest"
  }

  /** The explicit URL wins over the environment, the environment over the
      default; the base has no trailing slash and the ingest URL is the base
      followed by "/ingest". */
  lemma BackendUrlSpec(explicit: Option<string>, env: Option<string>)
    ensures explicit.Some? && explicit.value != "" ==> BackendUrl(explicit, env) <= explicit.value
    ensures explicit.Some? && explicit.value != "" && explicit.value[|explicit.value| - 1] != '/' ==>
      BackendUrl(explicit, env) == explicit.value
    ensures !(explicit.Some? && explicit.value != "") && env.Some? ==> BackendUrl(explicit, env) <= env.value
    ensures !(explicit.Some? && explicit.value != "") && env.None? ==> BackendUrl(explicit, env) == DEFAULT_BACKEND_URL
    ensures var b := BackendUrl(explicit, env); |b| > 0 ==> b[|b| - 1] != '/'
    ensures IngestUrl(explicit, env) == BackendUrl(explicit, env) + "/ingest"
  {
    var d := DEFAULT_BACKEND_URL;
    assert d[|d| - 1] == 'o';
  }

  /** An empty `LOGSENTRY_URL` is taken as it is: the ingest URL is then the
      relative path "/ingest". */
  lemma EmptyEnvironmentUrl()
    ensures IngestUrl(None, Some("")) == "/ingest"
  {
  }

  /** `SentryLoggerConfig` after `__post_init__`. */
  class SentryLoggerConfig {
    var apiKey: string
    var batchSize: int
    var flushIntervalSeconds: int
    var backendUrl: string
    var ingestUrl: string

    /** The dataclass initialiser followed by `__post_init__`; `env` is
        `os.environ.get("LOGSENTRY_URL")`. */
    constructor(apiKey: string, batchSize: int, flushIntervalSeconds: int,
                backendUrl: Option<string>, env: Option<string>)
      ensures this.apiKey == apiKey && this.batchSize == batchSize
      ensures this.flushIntervalSeconds == flushIntervalSeconds
      ensures this.backendUrl == BackendUrl(backendUrl, env)
      ensures this.ingestUrl == IngestUrl(backendUrl, env)
    {
      this.apiKey := apiKey;
      this.batchSize := batchSize;
      this.flushIntervalSeconds := flushIntervalSeconds;
      var base := if backendUrl.Some? && backendUrl.value != "" then backendUrl.value
                  else if env.Some? then env.value
                  else DEFAULT_BACKEND_URL;
      base := RStripChar(base, '/');
      this.backendUrl := base;
      this.ingestUrl := base + "/ingest";
    }
  }
}
