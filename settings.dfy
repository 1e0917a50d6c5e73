/** The service's configuration: the upstream base URLs read from the
    environment, with trailing slashes removed by `replace(/\/+$/, '')`. */
module Settings {

  predicate EndsWithSlash(s: string)
  {
    |s| > 0 && s[|s| - 1] == '/'
  }

  predicate AllSlashes(s: string)
  {
    forall i :: 0 <= i < |s| ==> s[i] == '/'
  }

  /** `s.replace(/\/+$/, '')`: removes the run of `/` that ends the string. */
  function StripTrailingSlashes(s: string): (r: string)
    ensures |r| <= |s| && r == s[..|r|]
    ensures AllSlashes(s[|r|..])
    ensures !EndsWithSlash(r)
  {
    if EndsWithSlash(s) then
      var r := StripTrailingSlashes(s[..|s| - 1]);
      assert s[|r|..] == s[..|s| - 1][|r|..] + ['/'];
      r
    else
      s
  }

  /** The regular expression replaces its leftmost match only: the result
      is `s[..i]` for the smallest `i` from which `s` holds nothing but `/`.
      Stated both ways, this pins the result down among all prefixes. */
  lemma StripCutsAtLeftmostMatch(s: string, i: nat)
    requires i <= |s|
    ensures s[..i] == StripTrailingSlashes(s) <==>
              AllSlashes(s[i..]) && forall j :: 0 <= j < i ==> !AllSlashes(s[j..])
  {
    var r := StripTrailingSlashes(s);
    var n := |r|;
    forall j | 0 <= j < n
      ensures !AllSlashes(s[j..])
    {
      assert s[j..][n - 1 - j] == s[n - 1] == r[n - 1];
    }
  }

  /** Stripping twice strips nothing more. */
  lemma StripIdempotent(s: string)
    ensures StripTrailingSlashes(StripTrailingSlashes(s)) == StripTrailingSlashes(s)
  {
  }

  /** Appending slashes to a value does not change what it is normalised to. */
  lemma {:induction false} StripIgnoresAppendedSlashes(s: string, t: string)
    requires AllSlashes(t)
    ensures StripTrailingSlashes(s + t) == StripTrailingSlashes(s)
    decreases |t|
  {
    if t != [] {
      var u := t[..|t| - 1];
      assert EndsWithSlash(s + t);
      assert (s + t)[..|s + t| - 1] == s + u;
      assert StripTrailingSlashes(s + t) == StripTrailingSlashes(s + u);
      StripIgnoresAppendedSlashes(s, u);
    } else {
      assert s + t == s;
    }
  }

  /** The environment's value for `key`, or `''` when it is unset (`process.env.X || ''`). */
  function EnvOr(env: map<string, string>, key: string): (r: string)
    ensures key in env ==> r == env[key]
    ensures key !in env ==> r == ""
  {
    if key in env then env[key] else ""
  }

  datatype Config = Config(baseUrl: string, hydraAdmin: string, kratosBrowser: string, kratosAdmin: string)

  /** The module-level `config` object. `BASE_URL` is taken as it is; the
      three upstream URLs lose their trailing slashes. */
  function LoadConfig(env: map<string, string>): (c: Config)
    ensures c.baseUrl == EnvOr(env, "BASE_URL")
    ensures c.hydraAdmin == StripTrailingSlashes(EnvOr(env, "HYDRA_ADMIN_URL"))
    ensures c.kratosBrowser == StripTrailingSlashes(EnvOr(env, "KRATOS_BROWSER_URL"))
    ensures c.kratosAdmin == StripTrailingSlashes(EnvOr(env, "KRATOS_ADMIN_URL"))
    ensures !EndsWithSlash(c.hydraAdmin) && !EndsWithSlash(c.kratosBrowser) && !EndsWithSlash(c.kratosAdmin)
  {
    Config(EnvOr(env, "BASE_URL"),
           StripTrailingSlashes(EnvOr(env, "HYDRA_ADMIN_URL")),
           StripTrailingSlashes(EnvOr(env, "KRATOS_BROWSER_URL")),
           StripTrailingSlashes(EnvOr(env, "KRATOS_ADMIN_URL")))
  }

  const LoginBrowserPath := "/self-service/login/browser"

  /** The (relative) location of the identity provider's browser login flow. */
  function KratosLoginLocation(c: Config): (r: string)
    ensures |r| == |c.kratosBrowser| + |LoginBrowserPath|
    ensures r[..|c.kratosBrowser|] == c.kratosBrowser
    ensures r[|c.kratosBrowser|..] == LoginBrowserPath
  {
    c.kratosBrowser + LoginBrowserPath
  }

  /** Whatever `KRATOS_BROWSER_URL` ends with, the login location has exactly
      one `/` where the configured URL and the path meet, and it starts with
      the configured URL minus its trailing slashes. */
  lemma OneSlashAtJoin(env: map<string, string>)
    ensures var b := LoadConfig(env).kratosBrowser;
            var u := KratosLoginLocation(LoadConfig(env));
            && u[|b|] == '/'
            && (|b| == 0 || u[|b| - 1] != '/')
            && u[|b| + 1] != '/'
            && u[..|b|] == EnvOr(env, "KRATOS_BROWSER_URL")[..|b|]
            && u[|b|..] == LoginBrowserPath
  {
    var b := LoadConfig(env).kratosBrowser;
    var u := KratosLoginLocation(LoadConfig(env));
    assert u[..|b|] == b;
    assert u[|b|..] == LoginBrowserPath;
  }
}
