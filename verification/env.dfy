/** The process environment as an explicit map, and the two lookups both halves
    of the system use on it: JavaScript's `process.env.K || d` and Go's
    `getEnv`/`getEnvAsInt` (shared-config/loaders/go/config.go). An unset
    variable and a variable set to the empty string behave the same. */
module Env {
  import opened Base
  import opened Text

  type Environment = map<string, string>

  /** The value of `key` when it is set to something non-empty. */
  function Lookup(env: Environment, key: string): (v: Option<string>)
    ensures v.Some? <==> key in env && env[key] != ""
    ensures v.Some? ==> v.value == env[key]
  {
    if key in env && env[key] != "" then Some(env[key]) else None
  }

  /** Go `getEnv(key, defaultValue)`; also JavaScript `process.env[key] || defaultValue`. */
  function GetEnv(env: Environment, key: string, default: string): (r: string)
    ensures key in env && env[key] != "" ==> r == env[key]
    ensures key !in env || env[key] == "" ==> r == default
    ensures default != "" ==> r != ""
  {
    Lookup(env, key).GetOr(default)
  }

  /** Go `getEnvAsInt(key, defaultValue)`: the parsed value when the variable
      is non-empty and `strconv.Atoi` accepts it, otherwise the default. */
  function GetEnvAsInt(env: Environment, key: string, default: int): (r: int)
    ensures (key in env && env[key] != "" && Atoi(env[key]).Some?) ==> r == Atoi(env[key]).value
    ensures !(key in env && env[key] != "" && Atoi(env[key]).Some?) ==> r == default
  {
    match Lookup(env, key)
    case Some(v) => Atoi(v).GetOr(default)
    case None => default
  }

  /** A number written into the environment with Go's `%d` is read back exactly. */
  lemma GetEnvAsIntReadsFormatted(env: Environment, key: string, n: int, default: int)
    requires InInt64(n)
    requires key in env && env[key] == IntToString(n)
    ensures GetEnvAsInt(env, key, default) == n
  {
    AtoiOfIntToString(n);
  }
}
