/**
 * Option resolution of t3c-request (InitConfig and the Cfg log accessors).
 *
 * The parsed command-line options, the environment, the OS hostname, the URL
 * parser/validator and the logger initialisation are inputs; what remains is
 * the verbosity-to-log-location mapping, the argument-over-environment
 * fallback for the Traffic Ops URL, user and password, the cache host name
 * fallback and the unit conversions of the two durations.
 */
module RequestConfig {
  import opened Wrappers

  const AppName: string := "t3c-request"
  const Version: string := "0.1"
  const UserAgent: string := AppName + "/" + Version

  /** A time.Duration, in nanoseconds. */
  type Duration = int

  const Millisecond: Duration := 1_000_000
  const Second: Duration := 1_000_000_000

  /** getopt defaults of the two numeric options and of --get-data. */
  const DefaultTimeoutMS: int := 30000
  const DefaultDispersion: int := 0
  const DefaultGetData: string := "system-info"

  const UrlFromArgument: string := "argument"
  const UrlFromEnvironment: string := "environment variable"

  /** The log locations InitConfig assigns (log.LogLocationStderr, log.LogLocationNull). */
  datatype LogLocation = Stderr | Null

  /** The values getopt hands back, one per option. */
  datatype Options = Options(
    loginDispersion: int,
    cacheHostName: string,
    getData: string,
    toInsecure: bool,
    toTimeoutMS: int,
    toURL: string,
    toUser: string,
    revalOnly: bool,
    disableProxy: bool,
    toPass: string,
    verbose: int,
    silent: bool,
    args: seq<string>)

  /** The options as getopt fills them in when none is given on the command line. */
  function DefaultOptions(args: seq<string>): (o: Options)
    ensures o.toTimeoutMS * Millisecond == 30 * Second
    ensures o.loginDispersion * Second == 0
    ensures o.toURL == "" && o.toUser == "" && o.toPass == "" && o.cacheHostName == ""
    ensures o.verbose == 0 && !o.silent && o.args == args
  {
    Options(DefaultDispersion, "", DefaultGetData, false, DefaultTimeoutMS, "", "", false, false, "", 0, false, args)
  }

  /** A parsed Traffic Ops URL; net/url's structure is not part of this model. */
  datatype Url = Url(text: string)

  /** What InitConfig reads from outside the process. */
  datatype Environment = Environment(
    getenv: string -> string,
    hostname: Result<string, string>,
    parseURL: string -> Result<Url, string>,
    validateURL: Url -> Option<string>)

  datatype TCCfg = TCCfg(
    cacheHostName: string,
    getData: string,
    toInsecure: bool,
    toTimeout: Duration,
    toUser: string,
    toPass: string,
    toURL: Url,
    userAgent: string,
    revalOnly: bool,
    toDisableProxy: bool)

  datatype Cfg = Cfg(
    commandArgs: seq<string>,
    logLocationDebug: LogLocation,
    logLocationWarn: LogLocation,
    logLocationError: LogLocation,
    logLocationInfo: LogLocation,
    loginDispersion: Duration,
    tc: TCCfg)
  {
    function DebugLog(): (l: LogLocation)
      ensures l == logLocationDebug
    {
      logLocationDebug
    }

    function ErrorLog(): (l: LogLocation)
      ensures l == logLocationError
    {
      logLocationError
    }

    function InfoLog(): (l: LogLocation)
      ensures l == logLocationInfo
    {
      logLocationInfo
    }

    function WarningLog(): (l: LogLocation)
      ensures l == logLocationWarn
    {
      logLocationWarn
    }

    /** Event logging is not used: always the null location. */
    function EventLog(): (l: LogLocation)
      ensures l == Null
    {
      Null
    }
  }

  datatype ConfigError =
    | TooManyVerbose
    | UrlParseError(source: string, url: string, cause: string)
    | UrlInvalid(source: string, url: string, cause: string)
    | NoHostname(cause: string)
    | LoggerInitError(cause: string)

  /** The argument when it is non-empty, otherwise the environment variable. */
  function ArgOrEnv(arg: string, env: Environment, name: string): (v: string)
    ensures arg != "" ==> v == arg
    ensures arg == "" ==> v == env.getenv(name)
  {
    if arg == "" then env.getenv(name) else arg
  }

  /** The four log locations for the --silent flag and the --verbose count (the count is checked later). */
  method ResolveLogLocations(silent: bool, verbose: int)
    returns (logLocationError: LogLocation, logLocationWarn: LogLocation, logLocationInfo: LogLocation, logLocationDebug: LogLocation)
    ensures logLocationError == (if silent then Null else Stderr)
    ensures logLocationWarn == (if !silent && verbose >= 1 then Stderr else Null)
    ensures logLocationInfo == (if !silent && verbose >= 2 then Stderr else Null)
    ensures logLocationDebug == logLocationInfo
  {
    logLocationError := Stderr;
    logLocationWarn := Null;
    logLocationInfo := Null;
    logLocationDebug := Null;
    if silent {
      logLocationError := Null;
    } else {
      if verbose >= 1 {
        logLocationWarn := Stderr;
      }
      if verbose >= 2 {
        logLocationInfo := Stderr;
        logLocationDebug := Stderr;
      }
    }
  }

  /** Traffic Ops URL, user and password: an empty argument falls back to TO_URL, TO_USER, TO_PASS. */
  method ResolveLogin(opts: Options, env: Environment)
    returns (toURL: string, urlSource: string, toUser: string, toPass: string)
    ensures toURL == ArgOrEnv(opts.toURL, env, "TO_URL")
    ensures urlSource == (if opts.toURL == "" then UrlFromEnvironment else UrlFromArgument)
    ensures toUser == ArgOrEnv(opts.toUser, env, "TO_USER")
    ensures toPass == ArgOrEnv(opts.toPass, env, "TO_PASS")
  {
    toURL := opts.toURL;
    toUser := opts.toUser;
    toPass := opts.toPass;

    urlSource := UrlFromArgument;
    if toURL == "" {
      urlSource := UrlFromEnvironment;
      toURL := env.getenv("TO_URL");
    }
    if toUser == "" {
      toUser := env.getenv("TO_USER");
    }
    if opts.toPass == "" {
      toPass := env.getenv("TO_PASS");
    }
  }

  /** The Traffic Ops URL, after the environment fallback, parses and passes validation. */
  predicate UrlAccepted(opts: Options, env: Environment) {
    var parsed := env.parseURL(ArgOrEnv(opts.toURL, env, "TO_URL"));
    parsed.Success? && env.validateURL(parsed.value).None?
  }

  /** A cache host name is at hand: the argument, or else the OS hostname. */
  predicate HostKnown(opts: Options, env: Environment) {
    opts.cacheHostName != "" || env.hostname.Success?
  }

  /**
   * `c` is the configuration the options and the environment resolve to: the
   * log locations follow --silent and --verbose, URL, user and password
   * follow the argument-over-environment rule, the host name is the argument
   * or the OS hostname, the durations are converted and the other options
   * pass through.
   */
  predicate Resolved(opts: Options, env: Environment, c: Cfg) {
    && c.ErrorLog() == (if opts.silent then Null else Stderr)
    && c.WarningLog() == (if !opts.silent && opts.verbose >= 1 then Stderr else Null)
    && c.InfoLog() == (if !opts.silent && opts.verbose >= 2 then Stderr else Null)
    && c.DebugLog() == c.InfoLog()
    && env.parseURL(ArgOrEnv(opts.toURL, env, "TO_URL")) == Success(c.tc.toURL)
    && c.tc.toUser == ArgOrEnv(opts.toUser, env, "TO_USER")
    && c.tc.toPass == ArgOrEnv(opts.toPass, env, "TO_PASS")
    && (if opts.cacheHostName != "" then c.tc.cacheHostName == opts.cacheHostName
        else env.hostname == Success(c.tc.cacheHostName))
    && c.tc.toTimeout == opts.toTimeoutMS * Millisecond
    && c.loginDispersion == opts.loginDispersion * Second
    && c.commandArgs == opts.args
    && c.tc.getData == opts.getData
    && c.tc.toInsecure == opts.toInsecure
    && c.tc.revalOnly == opts.revalOnly
    && c.tc.toDisableProxy == opts.disableProxy
    && c.tc.userAgent == UserAgent
  }

  /** The options and the environment determine at most one configuration. */
  lemma ResolvedIsUnique(opts: Options, env: Environment, c: Cfg, d: Cfg)
    requires Resolved(opts, env, c) && Resolved(opts, env, d)
    ensures c == d
  {
  }

  method InitConfig(opts: Options, env: Environment, initLoggers: Cfg -> Option<string>) returns (r: Result<Cfg, ConfigError>)
    // verbosity
    ensures opts.verbose > 2 <==> r == Failure(TooManyVerbose)
    // the Traffic Ops URL
    ensures opts.verbose <= 2 ==>
      var url := ArgOrEnv(opts.toURL, env, "TO_URL");
      var source := if opts.toURL == "" then UrlFromEnvironment else UrlFromArgument;
      && (env.parseURL(url).Failure? ==> r == Failure(UrlParseError(source, url, env.parseURL(url).error)))
      && (env.parseURL(url).Success? && env.validateURL(env.parseURL(url).value).Some? ==>
            r == Failure(UrlInvalid(source, url, env.validateURL(env.parseURL(url).value).value)))
    // the cache host name
    ensures opts.verbose <= 2 && UrlAccepted(opts, env) && !HostKnown(opts, env) ==>
      r == Failure(NoHostname(env.hostname.error))
    ensures opts.verbose <= 2 && r.Failure? && r.error.NoHostname? ==> opts.cacheHostName == "" && env.hostname == Failure(r.error.cause)
    // otherwise the resolved configuration, returned exactly when the loggers accept it
    ensures opts.verbose <= 2 && UrlAccepted(opts, env) && HostKnown(opts, env) ==>
      exists c :: Resolved(opts, env, c) &&
        r == (if initLoggers(c).None? then Success(c) else Failure(LoggerInitError(initLoggers(c).value)))
    ensures r.Success? ==> Resolved(opts, env, r.value) && initLoggers(r.value) == None
  {
    var logLocationError, logLocationWarn, logLocationInfo, logLocationDebug := ResolveLogLocations(opts.silent, opts.verbose);

    if opts.verbose > 2 {
      return Failure(TooManyVerbose);
    }

    var dispersion := Second * opts.loginDispersion;
    var toTimeout := Millisecond * opts.toTimeoutMS;
    var toURL, urlSource, toUser, toPass := ResolveLogin(opts, env);

    var parsed := env.parseURL(toURL);
    if parsed.Failure? {
      return Failure(UrlParseError(urlSource, toURL, parsed.error));
    }
    var invalid := env.validateURL(parsed.value);
    if invalid.Some? {
      return Failure(UrlInvalid(urlSource, toURL, invalid.value));
    }

    var cacheHostName: string;
    if |opts.cacheHostName| > 0 {
      cacheHostName := opts.cacheHostName;
    } else {
      var hostname := env.hostname;
      if hostname.Failure? {
        return Failure(NoHostname(hostname.error));
      }
      cacheHostName := hostname.value;
    }

    var cfg := Cfg(
      opts.args,
      logLocationDebug,
      logLocationWarn,
      logLocationError,
      logLocationInfo,
      dispersion,
      TCCfg(cacheHostName, opts.getData, opts.toInsecure, toTimeout, toUser, toPass,
            parsed.value, UserAgent, opts.revalOnly, opts.disableProxy));

    assert Resolved(opts, env, cfg);
    var loggerErr := initLoggers(cfg);
    if loggerErr.Some? {
      return Failure(LoggerInitError(loggerErr.value));
    }
    return Success(cfg);
  }

  /** InitConfig with no option on the command line: errors only, a 30 s timeout and no dispersion. */
  method InitDefaultConfig(args: seq<string>, env: Environment, initLoggers: Cfg -> Option<string>) returns (r: Result<Cfg, ConfigError>)
    ensures r != Failure(TooManyVerbose)
    ensures r.Success? ==>
      && r.value.tc.toTimeout == 30 * Second
      && r.value.loginDispersion == 0
      && r.value.ErrorLog() == Stderr && r.value.WarningLog() == Null && r.value.InfoLog() == Null
      && env.parseURL(env.getenv("TO_URL")) == Success(r.value.tc.toURL)
  {
    r := InitConfig(DefaultOptions(args), env, initLoggers);
  }
}
