/** The application settings of app/core/config.py: the deployment environment, the values the
    Supabase helpers read, and the cookie attributes derived from the environment. */
module Config {

  import opened Outcome
  import opened Text

  /** `AppEnv`: the three deployments. */
  datatype AppEnv = Local | Dev | Prod

  datatype Settings = Settings(
    appEnv: AppEnv,
    supabaseUrl: string,
    anonKey: string,
    serviceRoleKey: Option<string>,
    cookieDomain: string)

  /** The `str` value of each environment, which is what `APP_ENV` must hold. */
  function EnvName(e: AppEnv): string {
    match e
    case Local => "local"
    case Dev => "dev"
    case Prod => "prod"
  }

  /** `APP_ENV` as pydantic reads it into the enum: absent means `local`, anything but the
      three names is refused. */
  function ParseAppEnv(v: Option<string>): (r: Result<AppEnv, string>)
    ensures v.None? ==> r == Ok(Local)
    ensures v.Some? ==> (r.Ok? <==> v.value in {"local", "dev", "prod"})
    ensures r.Ok? && v.Some? ==> EnvName(r.value) == v.value
  {
    if v.None? || v.value == "local" then Ok(Local)
    else if v.value == "dev" then Ok(Dev)
    else if v.value == "prod" then Ok(Prod)
    else Err("APP_ENV")
  }

  /** `_strip_url`: the URL without its trailing slashes. */
  function StripUrl(v: string): (r: string)
    ensures r == [] || r[|r| - 1] != '/'
    ensures |r| <= |v| && r == v[..|r|] && forall k :: |r| <= k < |v| ==> v[k] == '/'
  {
    RStripChar(v, '/')
  }

  lemma StripUrlIdempotent(v: string)
    ensures StripUrl(StripUrl(v)) == StripUrl(v)
  {
  }

  /** Reading the settings from the environment variables: `SUPABASE_URL` and
      `SUPABASE_ANON_KEY` are required, the rest have defaults; the failure lists the fields
      that were missing or invalid, in declaration order. */
  function Load(vars: map<string, string>): (r: Result<Settings, seq<string>>)
    ensures r.Ok? <==> "SUPABASE_URL" in vars && "SUPABASE_ANON_KEY" in vars
                       && ParseAppEnv(if "APP_ENV" in vars then Some(vars["APP_ENV"]) else None).Ok?
    ensures r.Ok? ==>
      && r.value.supabaseUrl == StripUrl(vars["SUPABASE_URL"])
      && r.value.anonKey == vars["SUPABASE_ANON_KEY"]
      && r.value.cookieDomain == (if "COOKIE_DOMAIN" in vars then vars["COOKIE_DOMAIN"] else "localhost")
      && r.value.serviceRoleKey == (if "SUPABASE_SERVICE_ROLE_KEY" in vars then Some(vars["SUPABASE_SERVICE_ROLE_KEY"]) else None)
  {
    var env := ParseAppEnv(if "APP_ENV" in vars then Some(vars["APP_ENV"]) else None);
    var missing :=
      (if env.Err? then ["APP_ENV"] else [])
      + (if "SUPABASE_URL" !in vars then ["SUPABASE_URL"] else [])
      + (if "SUPABASE_ANON_KEY" !in vars then ["SUPABASE_ANON_KEY"] else []);
    if missing != [] then Err(missing)
    else
      Ok(Settings(
        env.value,
        StripUrl(vars["SUPABASE_URL"]),
        vars["SUPABASE_ANON_KEY"],
        if "SUPABASE_SERVICE_ROLE_KEY" in vars then Some(vars["SUPABASE_SERVICE_ROLE_KEY"]) else None,
        if "COOKIE_DOMAIN" in vars then vars["COOKIE_DOMAIN"] else "localhost"))
  }

  /** `cookie_secure`: only in production. */
  function CookieSecure(e: AppEnv): (r: bool)
    ensures r <==> e == Prod
  {
    e == Prod
  }

  /** `cookie_samesite`: "lax" for local and dev, "none" otherwise. */
  function CookieSameSite(e: AppEnv): (r: string)
    ensures r == "lax" <==> e in {Local, Dev}
    ensures r == "lax" || r == "none"
  {
    if e == Local || e == Dev then "lax" else "none"
  }

  /** Browsers drop a `SameSite=None` cookie that is not `Secure`; over the three environments
      the derived attributes never produce one. */
  lemma SameSiteNoneIsSecure(e: AppEnv)
    ensures CookieSameSite(e) == "none" ==> CookieSecure(e)
    ensures !CookieSecure(e) ==> CookieSameSite(e) == "lax"
  {
  }

  /** Without `APP_ENV`, the settings describe a local deployment: lax and not secure. */
  lemma DefaultEnvironment(vars: map<string, string>)
    requires "SUPABASE_URL" in vars && "SUPABASE_ANON_KEY" in vars && "APP_ENV" !in vars
    ensures Load(vars).Ok? && Load(vars).value.appEnv == Local
    ensures CookieSameSite(Load(vars).value.appEnv) == "lax" && !CookieSecure(Load(vars).value.appEnv)
  {
  }
}
