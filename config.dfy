/** The settings validators and defaults of `Config` in
    src/gmail_categorizer/config.py. Loading values from the environment is
    not modelled: each validator is a function from the raw value to an
    accepted value or the validation error's message. */
module Config {
  import opened Wrappers
  import opened Text

  const ValidLevels: seq<string> := ["DEBUG", "INFO", "WARNING", "ERROR", "CRITICAL"]

  /** The message of the ValueError, with the list rendered as Python prints it. */
  const LogLevelError: string :=
    "Log level must be one of: ['DEBUG', 'INFO', 'WARNING', 'ERROR', 'CRITICAL']"

  const TemperatureError: string := "Temperature must be between 0 and 2"

  /** `validate_log_level`: accepts any spelling of a known level and
      normalises it to upper case. */
  function ValidateLogLevel(v: string): (r: Result<string>)
    ensures r.Ok? <==> ToUpper(v) in ValidLevels
    ensures r.Ok? ==> r.value == ToUpper(v) && r.value in ValidLevels
    ensures r.Err? ==> r.error == LogLevelError
  {
    if ToUpper(v) in ValidLevels then Ok(ToUpper(v)) else Err(LogLevelError)
  }

  /** Validation is idempotent: an accepted level is accepted again unchanged. */
  lemma LogLevelIdempotent(v: string)
    requires ValidateLogLevel(v).Ok?
    ensures ValidateLogLevel(ValidateLogLevel(v).value) == ValidateLogLevel(v)
  {
    UpperIdempotent(v);
  }

  /** Validation does not depend on the case the level was written in. */
  lemma LogLevelIgnoresCase(v: string)
    ensures ValidateLogLevel(ToLower(v)) == ValidateLogLevel(v)
  {
    UpperOfLower(v);
  }

  /** `validate_temperature`: exactly the closed range [0, 2] is accepted,
      and the value is kept. */
  function ValidateTemperature(t: real): (r: Result<real>)
    ensures r.Ok? <==> 0.0 <= t <= 2.0
    ensures r.Ok? ==> r.value == t
    ensures r.Err? ==> r.error == TemperatureError
  {
    if 0.0 <= t <= 2.0 then Ok(t) else Err(TemperatureError)
  }

  /** `os.path.isabs` on a POSIX path. */
  predicate IsAbsolute(path: string) {
    |path| > 0 && path[0] == '/'
  }

  /** `str(Path(root) / name)` for an absolute `root` and a relative `name`. */
  function JoinPath(root: string, name: string): (r: string)
    requires IsAbsolute(root)
    ensures IsAbsolute(r)
    ensures EndsWith(r, "/" + name)
  {
    if root[|root| - 1] == '/' then
      assert (root + name)[|root + name| - |name| - 1..] == "/" + name;
      root + name
    else
      assert (root + "/" + name)[|root + "/" + name| - |name| - 1..] == "/" + name;
      root + "/" + name
  }

  /** `validate_file_paths`: an absolute path is kept; a relative one is
      anchored at the project root (the directory three levels above
      config.py, given here as `projectRoot`). */
  function ValidateFilePath(projectRoot: string, v: string): (r: string)
    requires IsAbsolute(projectRoot)
    ensures IsAbsolute(r)
    ensures IsAbsolute(v) ==> r == v
    ensures !IsAbsolute(v) ==> EndsWith(r, v) && StartsWith(r, projectRoot)
  {
    if IsAbsolute(v) then v
    else
      var r := JoinPath(projectRoot, v);
      assert EndsWith(r, v) by {
        assert r[|r| - |v|..] == v;
      }
      r
  }

  /** Anchoring is idempotent: a validated path validates to itself. */
  lemma FilePathIdempotent(projectRoot: string, v: string)
    requires IsAbsolute(projectRoot)
    ensures ValidateFilePath(projectRoot, ValidateFilePath(projectRoot, v)) == ValidateFilePath(projectRoot, v)
  {
  }

  /** The settings the categoriser reads; credentials, Pub/Sub names and the
      application name are left out. */
  datatype Settings = Settings(
    credentialsFile: string,
    tokenFile: string,
    openaiModel: string,
    openaiMaxTokens: int,
    openaiTemperature: real,
    maxMessagesPerBatch: int,
    gmailQuery: string,
    categories: seq<string>,
    logLevel: string)

  /** The field defaults, before path anchoring. Temperature 0.3 is the real
      number 3/10, not the nearest binary float. */
  const Defaults: Settings := Settings(
    credentialsFile := "credentials.json",
    tokenFile := "token.json",
    openaiModel := "gpt-4o-mini",
    openaiMaxTokens := 150,
    openaiTemperature := 0.3,
    maxMessagesPerBatch := 50,
    gmailQuery := "in:inbox",
    categories := ["Work", "Personal", "Finance", "Shopping", "Newsletter", "Social", "Spam", "Other"],
    logLevel := "INFO")

  /** The defaults pass every validator, and anchoring the default file names
      keeps their names at the end. */
  lemma DefaultsAreValid(projectRoot: string)
    requires IsAbsolute(projectRoot)
    ensures ValidateLogLevel(Defaults.logLevel) == Ok("INFO")
    ensures ValidateTemperature(Defaults.openaiTemperature) == Ok(0.3)
    ensures EndsWith(ValidateFilePath(projectRoot, Defaults.credentialsFile), "credentials.json")
    ensures EndsWith(ValidateFilePath(projectRoot, Defaults.tokenFile), "token.json")
    ensures Defaults.maxMessagesPerBatch == 50 && Defaults.gmailQuery == "in:inbox"
    ensures Defaults.openaiMaxTokens == 150
    ensures |Defaults.categories| == 8
    ensures "Work" in Defaults.categories && "Personal" in Defaults.categories && "Other" in Defaults.categories
  {
    assert ToUpper("INFO") == "INFO";
  }
}
