/**
 * The configuration classes of `config.py`, evaluated once against the process
 * environment `env` and the directory `basedir` that holds the project.
 */
module Config {
  import opened Basics

  type Env = map<string, string>

  /** `os.getenv(key, default=...)`: a variable that is set, even to "", wins. */
  function GetEnv(env: Env, key: string, default: string): string {
    if key in env then env[key] else default
  }

  predicate OccursAt(s: string, pat: string, i: int) {
    0 <= i && i + |pat| <= |s| && s[i..i + |pat|] == pat
  }

  /** The first index at or after `k` where `pat` occurs in `s`. */
  function FindFrom(s: string, pat: string, k: nat): (r: Option<nat>)
    ensures r.Some? ==> k <= r.value && OccursAt(s, pat, r.value)
    ensures r.Some? ==> forall j :: k <= j < r.value ==> !OccursAt(s, pat, j)
    ensures r.None? ==> forall j :: k <= j ==> !OccursAt(s, pat, j)
    decreases |s| - k
  {
    if k + |pat| > |s| then None
    else if s[k..k + |pat|] == pat then Some(k)
    else FindFrom(s, pat, k + 1)
  }

  /**
   * `s.replace(pat, rep, 1)`: the first occurrence of `pat` is replaced by
   * `rep` and every other character is copied; without an occurrence, `s`
   * comes back unchanged (see `ReplaceFirstSpec`).
   */
  function ReplaceFirst(s: string, pat: string, rep: string): (r: string)
    ensures FindFrom(s, pat, 0).None? ==> r == s
    ensures FindFrom(s, pat, 0).Some? ==>
      |r| == |s| - |pat| + |rep| && OccursAt(r, rep, FindFrom(s, pat, 0).value)
  {
    match FindFrom(s, pat, 0)
    case None => s
    case Some(i) => s[..i] + rep + s[i + |pat|..]
  }

  /** What `ReplaceFirst` does, in terms of where `pat` occurs. */
  lemma ReplaceFirstSpec(s: string, pat: string, rep: string)
    ensures (forall j :: !OccursAt(s, pat, j)) ==> ReplaceFirst(s, pat, rep) == s
    ensures forall i :: OccursAt(s, pat, i) && (forall j :: 0 <= j < i ==> !OccursAt(s, pat, j)) ==>
      ReplaceFirst(s, pat, rep) == s[..i] + rep + s[i + |pat|..]
  {
  }

  const PostgresScheme := "postgres://"
  const PostgresqlScheme := "postgresql://"

  /** A URL that starts with the old scheme gets the new one; the rest is copied, further occurrences included. */
  lemma RenamesLeadingScheme(rest: string)
    ensures ReplaceFirst(PostgresScheme + rest, PostgresScheme, PostgresqlScheme) == PostgresqlScheme + rest
  {
    var s := PostgresScheme + rest;
    assert s[0..|PostgresScheme|] == PostgresScheme;
    assert FindFrom(s, PostgresScheme, 0) == Some(0);
    assert s[..0] == [];
    assert s[|PostgresScheme|..] == rest;
  }

  /** `os.path.join(a, b)` on POSIX for one more path component. */
  function PathJoin(a: string, b: string): (r: string)
    ensures |b| > 0 && b[0] == '/' ==> r == b
    ensures !(|b| > 0 && b[0] == '/') ==> r == a + b || r == a + "/" + b
    ensures !(|b| > 0 && b[0] == '/') ==> (r == a + "/" + b <==> a != [] && a[|a| - 1] != '/')
  {
    if |b| > 0 && b[0] == '/' then b
    else if a == [] || a[|a| - 1] == '/' then a + b
    else a + "/" + b
  }

  /** `f"sqlite:///{os.path.join(basedir, 'instance', name)}"`. */
  function SqlitePath(basedir: string, name: string): (r: string)
    ensures |r| >= 10 && r[..10] == "sqlite:///"
    ensures !(|name| > 0 && name[0] == '/') ==> r == "sqlite:///" + PathJoin(basedir, "instance") + "/" + name
  {
    var dir := PathJoin(basedir, "instance");
    assert dir[|dir| - 1] == 'e' by {
      assert dir == basedir + "instance" || dir == basedir + "/instance";
    }
    "sqlite:///" + PathJoin(dir, name)
  }

  /**
   * `Config.SQLALCHEMY_DATABASE_URI`: a non-empty DATABASE_URL with its first
   * "postgres://" renamed to "postgresql://", otherwise the sqlite database
   * `instance/app.db` under `basedir`.
   */
  function DatabaseUri(env: Env, basedir: string): (r: string)
    ensures !("DATABASE_URL" in env && env["DATABASE_URL"] != "") ==> r == SqlitePath(basedir, "app.db")
    ensures "DATABASE_URL" in env && env["DATABASE_URL"] != "" && FindFrom(env["DATABASE_URL"], PostgresScheme, 0).None? ==>
      r == env["DATABASE_URL"]
  {
    if "DATABASE_URL" in env && env["DATABASE_URL"] != "" then
      ReplaceFirst(env["DATABASE_URL"], PostgresScheme, PostgresqlScheme)
    else
      SqlitePath(basedir, "app.db")
  }

  /** A DATABASE_URL with the old scheme in front gets the new scheme and keeps its remainder. */
  lemma LeadingSchemeUri(env: Env, basedir: string, rest: string)
    requires "DATABASE_URL" in env && env["DATABASE_URL"] == PostgresScheme + rest
    ensures DatabaseUri(env, basedir) == PostgresqlScheme + rest
  {
    RenamesLeadingScheme(rest);
  }

  /** A DATABASE_URL without the old scheme anywhere in it is used as it is. */
  lemma OtherUrlsPassThrough(env: Env, basedir: string)
    requires "DATABASE_URL" in env && env["DATABASE_URL"] != ""
    requires forall j :: !OccursAt(env["DATABASE_URL"], PostgresScheme, j)
    ensures DatabaseUri(env, basedir) == env["DATABASE_URL"]
  {
    ReplaceFirstSpec(env["DATABASE_URL"], PostgresScheme, PostgresqlScheme);
  }

  /** The Heroku-style URL of the comment in `config.py`. */
  lemma HerokuUrl(env: Env, basedir: string)
    requires "DATABASE_URL" in env && env["DATABASE_URL"] == "postgres://host/db"
    ensures DatabaseUri(env, basedir) == "postgresql://host/db"
  {
    LeadingSchemeUri(env, basedir, "host/db");
  }

  /** Only the first occurrence is renamed. */
  lemma OnlyFirstRenamed(env: Env, basedir: string)
    requires "DATABASE_URL" in env && env["DATABASE_URL"] == "postgres://a/postgres://b"
    ensures DatabaseUri(env, basedir) == "postgresql://a/postgres://b"
  {
    LeadingSchemeUri(env, basedir, "a/postgres://b");
  }

  /** Without DATABASE_URL (or with it empty) the database is `<basedir>/instance/app.db`. */
  lemma SqliteFallback(env: Env, basedir: string)
    requires !("DATABASE_URL" in env && env["DATABASE_URL"] != "")
    requires basedir != "" && basedir[|basedir| - 1] != '/'
    ensures DatabaseUri(env, basedir) == "sqlite:///" + basedir + "/instance/app.db"
  {
    var dir := basedir + "/instance";
    assert PathJoin(basedir, "instance") == dir;
    assert dir[|dir| - 1] == 'e';
    assert PathJoin(dir, "app.db") == dir + "/app.db";
    assert DatabaseUri(env, basedir) == "sqlite:///" + (dir + "/app.db");
  }

  /** Every setting of a configuration class. */
  datatype Settings = Settings(
    flaskEnv: string,
    debug: bool,
    testing: bool,
    secretKey: string,
    databaseUri: string,
    trackModifications: bool,
    csrfEnabled: bool,
    rememberCookieDays: nat,
    mailServer: string,
    mailPort: nat,
    mailUseTls: bool,
    mailUseSsl: bool,
    mailUsername: string,
    mailPassword: string,
    mailDefaultSender: string,
    alphaVantageApiKey: string,
    logToStdout: Option<string>)   // None stands for the default `False`

  /** `Config`, the base class. */
  function BaseConfig(env: Env, basedir: string): (c: Settings)
    ensures c.flaskEnv == "development" && !c.debug && !c.testing && c.csrfEnabled
    ensures !c.trackModifications && c.rememberCookieDays == 14
    ensures c.mailServer == "smtp.googlemail.com" && c.mailPort == 465 && !c.mailUseTls && c.mailUseSsl
    ensures c.databaseUri == DatabaseUri(env, basedir) && c.mailDefaultSender == c.mailUsername
    ensures ("SECRET_KEY" in env ==> c.secretKey == env["SECRET_KEY"]) && ("LOG_TO_STDOUT" in env <==> c.logToStdout.Some?)
  {
    Settings(
      flaskEnv := "development",
      debug := false,
      testing := false,
      secretKey := GetEnv(env, "SECRET_KEY", "BAD_SECRET_KEY"),
      databaseUri := DatabaseUri(env, basedir),
      trackModifications := false,
      csrfEnabled := true,
      rememberCookieDays := 14,
      mailServer := "smtp.googlemail.com",
      mailPort := 465,
      mailUseTls := false,
      mailUseSsl := true,
      mailUsername := GetEnv(env, "MAIL_USERNAME", ""),
      mailPassword := GetEnv(env, "MAIL_PASSWORD", ""),
      mailDefaultSender := GetEnv(env, "MAIL_USERNAME", ""),
      alphaVantageApiKey := GetEnv(env, "ALPHA_VANTAGE_API_KEY", "demo"),
      logToStdout := if "LOG_TO_STDOUT" in env then Some(env["LOG_TO_STDOUT"]) else None)
  }

  /** Unset variables fall back to the development defaults. */
  lemma Defaults(env: Env, basedir: string)
    requires "SECRET_KEY" !in env && "ALPHA_VANTAGE_API_KEY" !in env
    requires "MAIL_USERNAME" !in env && "LOG_TO_STDOUT" !in env
    ensures BaseConfig(env, basedir).secretKey == "BAD_SECRET_KEY"
    ensures BaseConfig(env, basedir).alphaVantageApiKey == "demo"
    ensures BaseConfig(env, basedir).mailDefaultSender == ""
    ensures BaseConfig(env, basedir).logToStdout == None
  {
  }

  /** `ProductionConfig`: SendGrid mail settings; everything else inherited. */
  function ProductionConfig(env: Env, basedir: string): (c: Settings)
    ensures c.flaskEnv == "production" && c.mailServer == "smtp.sendgrid.net" && c.mailPort == 587
    ensures c.mailUseTls && !c.mailUseSsl && c.mailUsername == "apikey"
    ensures c.mailPassword == GetEnv(env, "SENDGRID_API_KEY", "")
    ensures c.(flaskEnv := "development", mailServer := "smtp.googlemail.com", mailPort := 465,
               mailUseTls := false, mailUseSsl := true,
               mailUsername := GetEnv(env, "MAIL_USERNAME", ""),
               mailPassword := GetEnv(env, "MAIL_PASSWORD", ""))
            == BaseConfig(env, basedir)
  {
    BaseConfig(env, basedir).(
      flaskEnv := "production",
      mailServer := "smtp.sendgrid.net",
      mailPort := 587,
      mailUseTls := true,
      mailUseSsl := false,
      mailUsername := "apikey",
      mailPassword := GetEnv(env, "SENDGRID_API_KEY", ""))
  }

  /** `DevelopmentConfig`: the base settings with debugging on. */
  function DevelopmentConfig(env: Env, basedir: string): (c: Settings)
    ensures c.debug && c.(debug := false) == BaseConfig(env, basedir)
  {
    BaseConfig(env, basedir).(debug := true)
  }

  /**
   * `TestingConfig`: testing on, CSRF protection off, and its own database
   * (TEST_DATABASE_URI, taken verbatim, or `instance/test.db`); every other
   * setting inherited.
   */
  function TestingConfig(env: Env, basedir: string): (c: Settings)
    ensures c.testing && !c.csrfEnabled
    ensures c.databaseUri == GetEnv(env, "TEST_DATABASE_URI", SqlitePath(basedir, "test.db"))
    ensures c.(testing := false, csrfEnabled := true, databaseUri := DatabaseUri(env, basedir)) == BaseConfig(env, basedir)
  {
    BaseConfig(env, basedir).(
      testing := true,
      databaseUri := GetEnv(env, "TEST_DATABASE_URI", SqlitePath(basedir, "test.db")),
      csrfEnabled := false)
  }
}
