/** Environment variables and Python's truthiness on optional strings: the
    environment is a map from variable names to values, `os.getenv` a lookup
    in it. */
module Env {
  import opened Wrappers

  type Environment = map<string, string>

  /** `os.getenv(name)`. */
  function Getenv(env: Environment, name: string): Option<string>
  {
    if name in env then Some(env[name]) else None
  }

  /** `os.getenv(name, default)`. */
  function GetenvOr(env: Environment, name: string, default: string): string
  {
    if name in env then env[name] else default
  }

  /** A string that is neither `None` nor empty. */
  predicate Truthy(v: Option<string>)
  {
    v.Some? && v.value != ""
  }

  /** Python's `a or b` on optional strings. */
  function Or(a: Option<string>, b: Option<string>): Option<string>
  {
    if Truthy(a) then a else b
  }

  /** The one-element list `[item]` when `cond` holds, otherwise `[]`: one
      conditional `append`. */
  function Listed(cond: bool, item: string): seq<string>
  {
    if cond then [item] else []
  }
}
