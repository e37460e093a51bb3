/**
  Configuration: a fixed table of six keys, each defaulting to the empty
  string, overlaid with the values the environment defines for those keys.
 */
module Config {
  import opened Wrappers

  /** The default table: every known key maps to "". */
  const Defaults: map<string, string> := map[
    "RABBITMQ_HOST" := "",
    "REDIS_HOST" := "",
    "QUEUE_NAME" := "",
    "MONITOR_UPDATE_INTERVAL" := "",
    "MEAN_PROCESSING_TIME" := "",
    "FAILURE_RATE" := ""
  ]

  const KnownKeys: set<string> := {
    "RABBITMQ_HOST", "REDIS_HOST", "QUEUE_NAME",
    "MONITOR_UPDATE_INTERVAL", "MEAN_PROCESSING_TIME", "FAILURE_RATE"
  }

  /** Replaces each value of `table` whose key the environment defines; adds nothing. */
  function Overlay(table: map<string, string>, env: map<string, string>): (merged: map<string, string>)
    ensures merged.Keys == table.Keys
    ensures forall k :: k in table && k in env ==> merged[k] == env[k]
    ensures forall k :: k in table && k !in env ==> merged[k] == table[k]
  {
    map k | k in table :: if k in env then env[k] else table[k]
  }

  /** The overlay is a map union with the environment restricted to the table's keys. */
  lemma OverlayIsRestrictedUnion(table: map<string, string>, env: map<string, string>)
    ensures Overlay(table, env) == table + map k | k in env && k in table :: env[k]
  {
  }

  /** Overlaying the same environment twice gives the same table as once. */
  lemma OverlayIdempotent(table: map<string, string>, env: map<string, string>)
    ensures Overlay(Overlay(table, env), env) == Overlay(table, env)
  {
  }

  /** The module-level `config`: the defaults overlaid with the process environment. */
  function Load(env: map<string, string>): (cfg: map<string, string>)
    ensures cfg.Keys == KnownKeys
    ensures forall k :: k in cfg ==> cfg[k] == (if k in env then env[k] else "")
  {
    Overlay(Defaults, env)
  }

  /** An environment variable outside the six keys never appears in the configuration. */
  lemma LoadIgnoresUnknownVariables(env: map<string, string>, name: string, value: string)
    requires name !in KnownKeys
    ensures name !in Load(env)
    ensures Load(env[name := value]) == Load(env)
  {
  }

  /** `Config.get_property`: the stored value for a known key, `None` otherwise. */
  function GetProperty(cfg: map<string, string>, key: string): (r: Option<string>)
    ensures r.Some? <==> key in cfg
    ensures r.Some? ==> r.value == cfg[key]
  {
    if key in cfg then Some(cfg[key]) else None
  }

  /** Looking up a loaded configuration: the environment's value, "" when unset, `None` when unknown. */
  lemma GetPropertyOfLoad(env: map<string, string>, key: string)
    ensures key !in KnownKeys ==> GetProperty(Load(env), key) == None
    ensures key in KnownKeys && key in env ==> GetProperty(Load(env), key) == Some(env[key])
    ensures key in KnownKeys && key !in env ==> GetProperty(Load(env), key) == Some("")
  {
  }
}
