/** The configuration of src/config/environment.ts: every setting read from
    the process environment with a default, integers through
    `parseInt(…, 10)`, and the three mode flags derived from NODE_ENV.  The
    environment is a map from variable names to their values. */
module Environment {
  import opened Wrappers
  import opened Strings

  type Vars = map<string, string>

  /** `process.env[name] || fallback`: an unset or empty variable gives the
      fallback. */
  function Setting(vars: Vars, name: string, fallback: string): (r: string)
    ensures r == fallback <== (name !in vars || vars[name] == "")
    ensures name in vars && vars[name] != "" ==> r == vars[name]
  {
    if name in vars && vars[name] != "" then vars[name] else fallback
  }

  /** The input without its leading white space. */
  function TrimStart(s: string): (r: string)
    ensures |r| <= |s| && r == s[|s| - |r|..]
    ensures r != [] ==> !IsSpace(r[0])
    ensures s != [] && !IsSpace(s[0]) ==> r == s
  {
    if s != [] && IsSpace(s[0]) then TrimStart(s[1..]) else s
  }

  /** The length of the run of decimal digits the input starts with. */
  function DigitRun(s: string): (n: nat)
    ensures n <= |s| && IsDigits(s[..n])
    ensures n < |s| ==> !('0' <= s[n] <= '9')
  {
    if s != [] && '0' <= s[0] <= '9' then
      var n := 1 + DigitRun(s[1..]);
      assert s[..n] == [s[0]] + s[1..][..n - 1];
      n
    else 0
  }

  /** `parseInt(s, 10)`: leading white space, an optional sign, then the
      longest run of digits; no digit at all is NaN, here None. */
  function ParseInt(s: string): Option<int> {
    var t := TrimStart(s);
    var negative := t != [] && t[0] == '-';
    var body := if t != [] && (t[0] == '-' || t[0] == '+') then t[1..] else t;
    var n := DigitRun(body);
    if n == 0 then None
    else if negative then Some(-DigitsValue(body[..n]))
    else Some(DigitsValue(body[..n]))
  }

  /** A run of digits followed by a non-digit, or by nothing, is read up
      to its end. */
  lemma {:induction false} DigitRunStops(s: string, rest: string)
    requires IsDigits(s) && (rest == [] || !('0' <= rest[0] <= '9'))
    ensures DigitRun(s + rest) == |s|
  {
    if s != [] {
      assert (s + rest)[1..] == s[1..] + rest;
      DigitRunStops(s[1..], rest);
    }
  }

  /** A numeral followed by a non-digit, or by nothing, parses to its value. */
  lemma ParseLeadingDigits(s: string, rest: string)
    requires s != [] && IsDigits(s) && (rest == [] || !('0' <= rest[0] <= '9'))
    ensures ParseInt(s + rest) == Some(DigitsValue(s))
  {
    var t := s + rest;
    assert t[0] == s[0];
    assert !IsSpace(t[0]) by { assert '0' <= t[0] <= '9'; }
    assert TrimStart(t) == t;
    DigitRunStops(s, rest);
    assert t[..|s|] == s;
  }

  /** A rendered natural number parses back to itself. */
  lemma ParseRendered(n: nat)
    ensures ParseInt(NatToString(n)) == Some(n)
  {
    ParseLeadingDigits(NatToString(n), []);
    assert NatToString(n) + [] == NatToString(n);
    NatToStringRoundTrip(n);
  }

  /** Trailing text after the digits is ignored. */
  lemma ParseIgnoresSuffix(n: nat, suffix: string)
    requires suffix != [] && !('0' <= suffix[0] <= '9')
    ensures ParseInt(NatToString(n) + suffix) == Some(n)
  {
    ParseLeadingDigits(NatToString(n), suffix);
    NatToStringRoundTrip(n);
  }

  /** The numerals of the numeric defaults. */
  lemma DefaultNumerals()
    ensures NatToString(3001) == "3001" && NatToString(300) == "300"
    ensures NatToString(30000) == "30000" && NatToString(10000) == "10000"
  {
    assert NatToString(3) == "3";
    assert NatToString(30) == "30";
    assert NatToString(300) == "300";
    assert NatToString(3000) == "3000";
    assert NatToString(1) == "1";
    assert NatToString(10) == "10";
    assert NatToString(100) == "100";
    assert NatToString(1000) == "1000";
  }

  datatype Env = Env(
    nodeEnv: string, port: Option<int>, host: string,
    yahooFinanceTimeout: Option<int>, yahooFinanceRetry: Option<int>,
    cacheEnabled: bool, cacheTtl: Option<int>,
    rateLimitWindow: Option<int>, rateLimitMaxRequests: Option<int>,
    logLevel: string, logFilePath: string,
    pythonPath: string, pythonTimeout: Option<int>)

  /** The `env` object. */
  function Load(vars: Vars): Env {
    Env(
      Setting(vars, "NODE_ENV", "development"),
      ParseInt(Setting(vars, "PORT", "3001")),
      Setting(vars, "HOST", "localhost"),
      ParseInt(Setting(vars, "YAHOO_FINANCE_TIMEOUT", "10000")),
      ParseInt(Setting(vars, "YAHOO_FINANCE_RETRY", "3")),
      "CACHE_ENABLED" in vars && vars["CACHE_ENABLED"] == "true",
      ParseInt(Setting(vars, "CACHE_TTL", "300")),
      ParseInt(Setting(vars, "RATE_LIMIT_WINDOW", "60000")),
      ParseInt(Setting(vars, "RATE_LIMIT_MAX_REQUESTS", "100")),
      Setting(vars, "LOG_LEVEL", "info"),
      Setting(vars, "LOG_FILE_PATH", "./logs"),
      Setting(vars, "PYTHON_PATH", "python3"),
      ParseInt(Setting(vars, "PYTHON_TIMEOUT", "30000")))
  }

  /** With nothing set, each numeric setting takes its documented default. */
  lemma NumericDefaults(vars: Vars)
    requires forall name :: name in vars ==> vars[name] == ""
    ensures Load(vars).port == Some(3001)
    ensures Load(vars).cacheTtl == Some(300)
    ensures Load(vars).pythonTimeout == Some(30000)
    ensures Load(vars).yahooFinanceTimeout == Some(10000)
  {
    DefaultNumerals();
    var e := Load(vars);
    assert e.port == ParseInt(NatToString(3001)) by {
      assert Setting(vars, "PORT", "3001") == "3001";
    }
    ParseRendered(3001);
    assert e.cacheTtl == ParseInt(NatToString(300)) by {
      assert Setting(vars, "CACHE_TTL", "300") == "300";
    }
    ParseRendered(300);
    assert e.pythonTimeout == ParseInt(NatToString(30000)) by {
      assert Setting(vars, "PYTHON_TIMEOUT", "30000") == "30000";
    }
    ParseRendered(30000);
    assert e.yahooFinanceTimeout == ParseInt(NatToString(10000)) by {
      assert Setting(vars, "YAHOO_FINANCE_TIMEOUT", "10000") == "10000";
    }
    ParseRendered(10000);
  }

  /** With nothing set, the string settings take their defaults and caching
      is off. */
  lemma TextDefaults(vars: Vars)
    requires forall name :: name in vars ==> vars[name] == ""
    ensures Load(vars).nodeEnv == "development" && Load(vars).host == "localhost"
    ensures Load(vars).pythonPath == "python3" && !Load(vars).cacheEnabled
  {
  }

  /** Caching is on exactly when CACHE_ENABLED is the string `true`; `TRUE`
      or `1` leave it off. */
  lemma CacheEnabledOnlyForTrue(vars: Vars)
    ensures Load(vars).cacheEnabled <==> ("CACHE_ENABLED" in vars && vars["CACHE_ENABLED"] == "true")
    ensures vars == map["CACHE_ENABLED" := "1"] ==> !Load(vars).cacheEnabled
  {
  }

  predicate IsDevelopment(e: Env) { e.nodeEnv == "development" }
  predicate IsProduction(e: Env) { e.nodeEnv == "production" }
  predicate IsTest(e: Env) { e.nodeEnv == "test" }

  /** At most one mode holds, and an unset NODE_ENV is development. */
  lemma ModesExclusive(vars: Vars)
    ensures !(IsDevelopment(Load(vars)) && IsProduction(Load(vars)))
    ensures !(IsDevelopment(Load(vars)) && IsTest(Load(vars)))
    ensures !(IsProduction(Load(vars)) && IsTest(Load(vars)))
    ensures "NODE_ENV" !in vars ==> IsDevelopment(Load(vars))
  {
    var e := Load(vars);
    if IsDevelopment(e) {
      assert e.nodeEnv[0] == 'd';
    }
    if IsProduction(e) {
      assert e.nodeEnv[0] == 'p';
    }
  }

  /** The variables that must be set; none are. */
  const RequiredVars: seq<string> := []

  /** The required names that are unset or empty, in order. */
  function Missing(vars: Vars, names: seq<string>): (r: seq<string>)
    ensures forall name :: name in r <==> name in names && (name !in vars || vars[name] == "")
  {
    if names == [] then []
    else
      var rest := Missing(vars, names[1..]);
      if names[0] !in vars || vars[names[0]] == "" then [names[0]] + rest else rest
  }

  /** `validateEnvironment`: throws, listing the missing names, when any
      required variable is missing. */
  function ValidateEnvironment(vars: Vars, required: seq<string>): (r: Result<(), string>)
    ensures r.Ok? <==> forall name :: name in required ==> name in vars && vars[name] != ""
  {
    var missing := Missing(vars, required);
    if |missing| > 0 then
      assert missing[0] in missing;
      Err("Missing required environment variables: " + Join(missing, ", "))
    else Ok(())
  }

  /** With the empty required list, validation never throws. */
  lemma ValidationNeverThrows(vars: Vars)
    ensures ValidateEnvironment(vars, RequiredVars) == Ok(())
  {
  }
}
