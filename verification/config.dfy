/** The required-variable check `NewsDigestGenerator.__init__` performs on the process
    environment, which is passed in as a map from variable name to value. */
module Settings {
  import opened Json

  /** The generator's settings. They are set once when it is created and never changed. */
  datatype Config = Config(
    newsApiKey: string,
    sportsApiKey: string,
    senderEmail: string,
    senderPassword: string,
    recipientEmail: string)

  /** The variables that must be present and non-empty. */
  const Required: set<string> := {"NEWS_API_KEY", "SENDER_EMAIL", "SENDER_PASSWORD", "RECIPIENT_EMAIL"}

  /** `os.environ.get(name)` is truthy: the variable is set to a non-empty string. */
  predicate IsSet(env: map<string, string>, name: string)
  {
    name in env && env[name] != ""
  }

  /** `os.environ.get(name, '')`. */
  function GetOr(env: map<string, string>, name: string): (v: string)
    ensures name !in env ==> v == ""
    ensures name in env ==> v == env[name]
  {
    if name in env then env[name] else ""
  }

  /** `NewsDigestGenerator()`: the settings, or ValueError when a required variable is
      missing or empty. `SPORTS_API_KEY` is optional and defaults to the empty string. */
  function LoadConfig(env: map<string, string>): (r: Result<Config>)
    ensures r.Ok? <==> forall name | name in Required :: IsSet(env, name)
    ensures r.Err? ==> r.error == ValueError
    ensures r.Ok? ==>
      && r.value.newsApiKey == env["NEWS_API_KEY"]
      && r.value.senderEmail == env["SENDER_EMAIL"]
      && r.value.senderPassword == env["SENDER_PASSWORD"]
      && r.value.recipientEmail == env["RECIPIENT_EMAIL"]
      && r.value.sportsApiKey == GetOr(env, "SPORTS_API_KEY")
  {
    if IsSet(env, "NEWS_API_KEY") && IsSet(env, "SENDER_EMAIL") && IsSet(env, "SENDER_PASSWORD")
       && IsSet(env, "RECIPIENT_EMAIL")
    then
      Ok(Config(env["NEWS_API_KEY"], GetOr(env, "SPORTS_API_KEY"), env["SENDER_EMAIL"],
                env["SENDER_PASSWORD"], env["RECIPIENT_EMAIL"]))
    else Err(ValueError)
  }
}
