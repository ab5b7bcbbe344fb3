/**
 * Credential and output-directory resolution (main.py:145-151): each of the
 * four settings is the command-line flag when it is truthy, otherwise the
 * environment variable; if any of the four is then missing or empty, a
 * `ValueError` is raised before anything talks to the network.
 */
module Config {
  import opened Wrappers

  /** The four optional command-line flags, `None` when not given. */
  datatype Flags = Flags(
    clientId: Option<string>,
    clientSecret: Option<string>,
    redirectUri: Option<string>,
    outputDir: Option<string>)

  /** The resolved settings the exporter runs with. */
  datatype Settings = Settings(
    clientId: string,
    clientSecret: string,
    redirectUri: string,
    outputDir: string)

  /** The `ValueError` raised when a required setting is missing. */
  datatype ConfigError = MissingSetting

  const ClientIdVar: string := "SPOTIFY_CLIENT_ID"
  const ClientSecretVar: string := "SPOTIFY_CLIENT_SECRET"
  const RedirectUriVar: string := "SPOTIFY_REDIRECT_URI"
  const OutputDirVar: string := "SPOTIFY_OUTPUT_DIR"

  /** `os.getenv(name)` */
  function GetEnv(env: map<string, string>, name: string): Option<string>
  {
    if name in env then Some(env[name]) else None
  }

  /** A Python string or `None` is truthy when it is a non-empty string. */
  predicate Given(v: Option<string>)
  {
    v.Some? && v.value != ""
  }

  /** Python `flag or fallback`: the flag if truthy, otherwise the fallback as it is. */
  function Or(flag: Option<string>, fallback: Option<string>): Option<string>
  {
    if Given(flag) then flag else fallback
  }

  /** The assignments at main.py:145-148 followed by the check at main.py:150-151. */
  function Resolve(flags: Flags, env: map<string, string>): Result<Settings, ConfigError>
  {
    var clientId := Or(flags.clientId, GetEnv(env, ClientIdVar));
    var clientSecret := Or(flags.clientSecret, GetEnv(env, ClientSecretVar));
    var redirectUri := Or(flags.redirectUri, GetEnv(env, RedirectUriVar));
    var outputDir := Or(flags.outputDir, GetEnv(env, OutputDirVar));
    if !Given(clientId) || !Given(clientSecret) || !Given(redirectUri) || !Given(outputDir) then
      Err(MissingSetting)
    else
      Ok(Settings(clientId.value, clientSecret.value, redirectUri.value, outputDir.value))
  }

  /** A setting is available when its flag is non-empty or its variable is set to a non-empty value. */
  predicate Available(flag: Option<string>, env: map<string, string>, name: string)
  {
    Given(flag) || (name in env && env[name] != "")
  }

  /** The value a setting takes: a non-empty flag wins over the environment. */
  predicate Chosen(value: string, flag: Option<string>, env: map<string, string>, name: string)
  {
    && value != ""
    && (Given(flag) ==> value == flag.value)
    && (!Given(flag) ==> name in env && value == env[name])
  }

  /** Resolution fails exactly when one of the four settings is available from neither source. */
  lemma ResolveFailsIff(flags: Flags, env: map<string, string>)
    ensures Resolve(flags, env).Err? <==>
      || !Available(flags.clientId, env, ClientIdVar)
      || !Available(flags.clientSecret, env, ClientSecretVar)
      || !Available(flags.redirectUri, env, RedirectUriVar)
      || !Available(flags.outputDir, env, OutputDirVar)
  {
  }

  /** On success every setting is non-empty and comes from its flag if given, else from its variable. */
  lemma ResolvedValues(flags: Flags, env: map<string, string>)
    requires Resolve(flags, env).Ok?
    ensures var s := Resolve(flags, env).value;
      && Chosen(s.clientId, flags.clientId, env, ClientIdVar)
      && Chosen(s.clientSecret, flags.clientSecret, env, ClientSecretVar)
      && Chosen(s.redirectUri, flags.redirectUri, env, RedirectUriVar)
      && Chosen(s.outputDir, flags.outputDir, env, OutputDirVar)
  {
  }

  /** With no non-empty output directory from either source, resolution fails whatever the credentials. */
  lemma MissingOutputDirFails(flags: Flags, env: map<string, string>)
    requires !Available(flags.outputDir, env, OutputDirVar)
    ensures Resolve(flags, env) == Err(MissingSetting)
  {
  }
}
