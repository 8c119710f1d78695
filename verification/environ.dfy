/** A process environment: variable names mapped to their values.  A variable
    that is absent from the map is unset (`getenv` returns `NULL`, Python's
    `env.get` returns `None`); a variable set to the empty string is present. */
module Environ {
  import opened Wrappers

  type Env = map<string, string>

  /** Looks a variable up, as `os.environ.get(name)` or `getenv(name)` do. */
  function Lookup(env: Env, name: string): (r: Option<string>)
    ensures r.Some? <==> name in env
    ensures r.Some? ==> r.value == env[name]
  {
    if name in env then Some(env[name]) else None
  }
}
