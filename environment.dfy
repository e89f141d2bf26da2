/** common/utils/utils.py: the process-wide environment that holds the configured credentials. */
module Environment {
  import opened Wrappers
  import opened Creds

  /** `Environment`: one mutable slot for the credentials, empty when created. */
  class Environment {
    var yandexCredentials: Option<Credentials>

    constructor ()
      ensures yandexCredentials == None
    {
      yandexCredentials := None;
    }
  }

  /** The module's global state: the lazily created `__ENV` singleton. */
  class Globals {
    var env: Environment?

    /** At import time `__ENV` is `None`. */
    constructor ()
      ensures env == null
    {
      env := null;
    }

    /** What `get_yandex_credentials()` would read now: nothing before the singleton exists. */
    function Configured(): Option<Credentials>
      reads this, env
    {
      if env == null then None else env.yandexCredentials
    }

    /** `environment()`: creates the singleton on first use and returns the same object ever after. */
    method GetEnvironment() returns (e: Environment)
      modifies this
      ensures env == e
      ensures old(env) != null ==> e == old(env)
      ensures old(env) == null ==> fresh(e) && e.yandexCredentials == None
    {
      if env == null {
        env := new Environment();
      }
      e := env;
    }

    /** `get_yandex_credentials()`: what was configured last, or `None` before any configuration. */
    method GetYandexCredentials() returns (c: Option<Credentials>)
      modifies this
      ensures env != null && c == old(Configured()) && Configured() == c
      ensures old(env) != null ==> env == old(env)
      ensures old(env) == null ==> fresh(env)
    {
      var e := GetEnvironment();
      c := e.yandexCredentials;
    }

    /** `configure_credentials(c)`: stores `c` in the singleton; `None` changes nothing. */
    method ConfigureCredentials(c: Option<Credentials>)
      modifies this, env
      ensures c.None? ==> env == old(env) && (env != null ==> env.yandexCredentials == old(env.yandexCredentials))
      ensures c.Some? ==> env != null && env.yandexCredentials == c
      ensures c.Some? && old(env) != null ==> env == old(env)
      ensures c.Some? && old(env) == null ==> fresh(env)
    {
      if c.Some? {
        var e := GetEnvironment();
        e.yandexCredentials := c;
      }
    }
  }
}
