/** Server configuration (backend/src/config/index.ts): the environment
    read with its defaults, `parseInt` on numeric settings, the CORS origin
    list, and the start-up check that collects missing settings. The
    environment is a map; an absent variable and an empty one are both
    falsy and take the default. */
module Config {
  import opened Common

  type Env = map<string, string>

  /** The CORS origin setting: one origin (or "*") or a list of them. */
  datatype Origins = OneOrigin(origin: string) | OriginList(origins: seq<string>)

  datatype Settings = Settings(
    port: Option<int>,                   // None is NaN
    nodeEnv: string,
    projectId: string,
    serviceAccountPath: Option<string>,
    serviceAccountBase64: Option<string>,
    apiKey: string,
    cors: Origins,
    windowMs: Option<int>,
    maxRequests: Option<int>)

  // ---------------------------------------------------------------------
  // parseInt(s, 10)
  // ---------------------------------------------------------------------

  /** The number of leading decimal digits. */
  function DigitRun(s: string): (k: nat)
    ensures k <= |s|
    ensures forall i :: 0 <= i < k ==> IsDigit(s[i])
    ensures k < |s| ==> !IsDigit(s[k])
  {
    if s == [] || !IsDigit(s[0]) then 0 else 1 + DigitRun(s[1..])
  }

  /** `parseInt(s, 10)`: leading whitespace, an optional sign, then the
      longest run of digits; no digits is NaN (None). */
  function ParseInt(s: string): Option<int> {
    var t := TrimStart(s);
    var negative := t != [] && t[0] == '-';
    var body := if t != [] && (t[0] == '-' || t[0] == '+') then t[1..] else t;
    var k := DigitRun(body);
    var magnitude: int := if k == 0 then 0 else DigitsValue(body[..k]);
    if k == 0 then None
    else if negative then Some(-magnitude)
    else Some(magnitude)
  }

  lemma {:induction false} DigitRunOf(d: string, rest: string)
    requires forall i :: 0 <= i < |d| ==> IsDigit(d[i])
    requires rest == [] || !IsDigit(rest[0])
    ensures DigitRun(d + rest) == |d|
  {
    if d != [] {
      assert (d + rest)[1..] == d[1..] + rest;
      DigitRunOf(d[1..], rest);
    } else {
      assert d + rest == rest;
    }
  }

  /** `parseInt` reads back the decimal rendering of any natural number,
      ignoring whatever non-digit text follows it. */
  lemma ParseIntOfRendering(n: nat, rest: string)
    requires rest == [] || !IsDigit(rest[0])
    ensures ParseInt(NatToString(n) + rest) == Some(n)
  {
    var d := NatToString(n);
    DigitsValueOfNat(n);
    DigitRunOf(d, rest);
    ParseDigitsFirst(d + rest);
    assert (d + rest)[..|d|] == d;
  }

  /** Text that starts with a digit is read from its digit run. */
  lemma ParseDigitsFirst(s: string)
    requires s != [] && IsDigit(s[0])
    ensures ParseInt(s) == Some(DigitsValue(s[..DigitRun(s)]))
  {
    assert !IsSpace(s[0]);
    LeadingSpaceOf([], s);
    assert [] + s == s;
    assert TrimStart(s) == s;
  }

  /** Text with no digit after an optional sign is NaN. */
  lemma ParseIntNaN(s: string)
    requires s == [] || (!IsDigit(s[0]) && s[0] != '-' && s[0] != '+' && !IsSpace(s[0]))
    ensures ParseInt(s) == None
  {
    if s != [] {
      LeadingSpaceOf([], s);
      assert [] + s == s;
    }
  }

  // ---------------------------------------------------------------------
  // The environment and its defaults
  // ---------------------------------------------------------------------

  /** `process.env[key] || fallback`. */
  function EnvOr(env: Env, key: string, fallback: string): (v: string)
    ensures key in env && env[key] != "" ==> v == env[key]
    ensures !(key in env && env[key] != "") ==> v == fallback
  {
    if key in env && env[key] != "" then env[key] else fallback
  }

  function EnvGet(env: Env, key: string): Option<string> {
    if key in env then Some(env[key]) else None
  }

  /** `parseOrigins`: "*" when unset or empty; split on commas with each
      piece trimmed when there is a comma; otherwise the value as it is. */
  function ParseOrigins(origins: Option<string>): (r: Origins)
    ensures !Given(origins) ==> r == OneOrigin("*")
    ensures Given(origins) && ',' !in origins.value ==> r == OneOrigin(origins.value)
    ensures Given(origins) && ',' in origins.value ==> r.OriginList?
  {
    if !Given(origins) then OneOrigin("*")
    else if ',' in origins.value then
      var pieces := Split(origins.value, ',');
      OriginList(seq(|pieces|, i requires 0 <= i < |pieces| => Trim(pieces[i])))
    else OneOrigin(origins.value)
  }

  /** A comma-separated value becomes one trimmed origin per comma-separated
      piece, in order: the pieces joined back with commas are the value. */
  lemma OriginsAreTrimmedPieces(value: string)
    requires ',' in value
    ensures var r := ParseOrigins(Some(value));
      var pieces := Split(value, ',');
      && Join(pieces, ",") == value
      && |r.origins| == Count(value, ',') + 1 == |pieces|
      && forall i :: 0 <= i < |pieces| ==> r.origins[i] == Trim(pieces[i]) && IsTrimmed(r.origins[i]) && ',' !in r.origins[i]
  {
    JoinSplit(value, ',');
    SplitLength(value, ',');
    var pieces := Split(value, ',');
    forall i | 0 <= i < |pieces| ensures ',' !in Trim(pieces[i]) {
      TrimIsInfix(pieces[i]);
    }
  }

  /** A trimmed string is a piece of the original. */
  lemma TrimIsInfix(s: string)
    ensures forall c :: c in Trim(s) ==> c in s
  {
    var a := LeadingSpace(s);
    var t := s[a..];
    assert Trim(s) == t[..|t| - TrailingSpace(t)];
    forall c | c in Trim(s) ensures c in s {
      var j :| 0 <= j < |Trim(s)| && Trim(s)[j] == c;
      assert s[a + j] == c;
    }
  }

  const DefaultPort: string := "8080"
  const DefaultEnv: string := "development"
  const DefaultWindowMs: string := "900000"
  const DefaultMaxRequests: string := "100"

  /** The `config` object built from the environment. */
  function LoadSettings(env: Env): (c: Settings)
    ensures c.nodeEnv == EnvOr(env, "NODE_ENV", DefaultEnv)
    ensures c.apiKey == "" <==> !("GEMINI_API_KEY" in env && env["GEMINI_API_KEY"] != "")
    ensures c.projectId == "" <==> !("FIREBASE_PROJECT_ID" in env && env["FIREBASE_PROJECT_ID"] != "")
  {
    Settings(
      ParseInt(EnvOr(env, "PORT", DefaultPort)),
      EnvOr(env, "NODE_ENV", DefaultEnv),
      EnvOr(env, "FIREBASE_PROJECT_ID", ""),
      EnvGet(env, "FIREBASE_SERVICE_ACCOUNT_PATH"),
      EnvGet(env, "FIREBASE_SERVICE_ACCOUNT_BASE64"),
      EnvOr(env, "GEMINI_API_KEY", ""),
      ParseOrigins(EnvGet(env, "CORS_ORIGIN")),
      ParseInt(EnvOr(env, "RATE_LIMIT_WINDOW_MS", DefaultWindowMs)),
      ParseInt(EnvOr(env, "RATE_LIMIT_MAX_REQUESTS", DefaultMaxRequests)))
  }

  /** With nothing set: port 8080, development, no key and no project,
      any origin, a 900000 ms window of 100 requests. */
  lemma EmptyEnvironmentDefaults()
    ensures var c := LoadSettings(map[]);
      && c.port == Some(8080) && c.nodeEnv == DefaultEnv
      && c.apiKey == "" && c.projectId == ""
      && c.serviceAccountPath.None? && c.serviceAccountBase64.None?
      && c.cors == OneOrigin("*")
      && c.windowMs == Some(900000) && c.maxRequests == Some(100)
  {
    DefaultNumbers();
  }

  lemma DefaultNumbers()
    ensures ParseInt(DefaultPort) == Some(8080)
    ensures ParseInt(DefaultWindowMs) == Some(900000)
    ensures ParseInt(DefaultMaxRequests) == Some(100)
  {
    PortRendering();
    RenderingIs(8080, DefaultPort);
    WindowRendering();
    RenderingIs(900000, DefaultWindowMs);
    MaxRendering();
    RenderingIs(100, DefaultMaxRequests);
  }

  /** Rendering appends the last digit to the rendering of the rest. */
  lemma AppendDigit(n: nat, d: nat)
    requires 1 <= n && d < 10
    ensures NatToString(10 * n + d) == NatToString(n) + [DigitChar(d)]
  {
    assert (10 * n + d) / 10 == n && (10 * n + d) % 10 == d;
  }

  lemma PortRendering()
    ensures NatToString(8080) == DefaultPort
  {
    AppendDigit(8, 0);
    AppendDigit(80, 8);
    AppendDigit(808, 0);
  }

  lemma WindowRendering()
    ensures NatToString(900000) == DefaultWindowMs
  {
    AppendDigit(9, 0);
    AppendDigit(90, 0);
    AppendDigit(900, 0);
    AppendDigit(9000, 0);
    AppendDigit(90000, 0);
  }

  lemma MaxRendering()
    ensures NatToString(100) == DefaultMaxRequests
  {
    AppendDigit(1, 0);
    AppendDigit(10, 0);
  }

  lemma RenderingIs(n: nat, s: string)
    requires NatToString(n) == s
    ensures ParseInt(s) == Some(n)
  {
    assert s + [] == s;
    ParseIntOfRendering(n, []);
  }

  // ---------------------------------------------------------------------
  // validateConfig
  // ---------------------------------------------------------------------

  const GeminiKeyRequired: string := "GEMINI_API_KEY is required"
  const ProjectIdRequired: string := "FIREBASE_PROJECT_ID is required"
  const EitherAccountPart: string := "Either FIREBASE_SERVICE_ACCOUNT_PATH or "
  const Base64Part: string := "FIREBASE_SERVICE_ACCOUNT_BASE64 is "
  const RequiredPart: string := "required"
  const ServiceAccountRequired: string := EitherAccountPart + Base64Part + RequiredPart
  const ErrorsHeader: string := "Configuration errors:\n"

  /** The problems `validateConfig` collects, in the order it checks them. */
  function ConfigErrors(c: Settings): seq<string> {
    (if c.apiKey == "" then [GeminiKeyRequired] else [])
    + (if c.projectId == "" then [ProjectIdRequired] else [])
    + (if !Given(c.serviceAccountPath) && !Given(c.serviceAccountBase64) then [ServiceAccountRequired] else [])
  }

  /** `validateConfig`: collects the errors one check at a time, and throws
      (Some message) exactly when there is at least one. */
  method ValidateConfig(c: Settings) returns (thrown: Option<string>)
    ensures thrown.None? <==> ConfigErrors(c) == []
    ensures thrown.Some? ==> thrown.value == ErrorsHeader + Join(ConfigErrors(c), "\n")
  {
    var errors: seq<string> := [];
    if c.apiKey == "" {
      errors := errors + [GeminiKeyRequired];
    }
    if c.projectId == "" {
      errors := errors + [ProjectIdRequired];
    }
    if !Given(c.serviceAccountPath) && !Given(c.serviceAccountBase64) {
      errors := errors + [ServiceAccountRequired];
    }
    assert errors == ConfigErrors(c);
    if |errors| > 0 {
      return Some(ErrorsHeader + Join(errors, "\n"));
    }
    return None;
  }

  lemma MessageLengths()
    ensures |GeminiKeyRequired| == 26 && |ProjectIdRequired| == 31 && |ServiceAccountRequired| == 83
  {
  }

  /** Each message is present exactly when its setting is missing; either
      service-account setting alone is enough; the key's message comes first. */
  lemma ConfigErrorsMeaning(c: Settings)
    ensures GeminiKeyRequired in ConfigErrors(c) <==> c.apiKey == ""
    ensures ProjectIdRequired in ConfigErrors(c) <==> c.projectId == ""
    ensures ServiceAccountRequired in ConfigErrors(c) <==>
      !Given(c.serviceAccountPath) && !Given(c.serviceAccountBase64)
    ensures c.apiKey == "" ==> ConfigErrors(c)[0] == GeminiKeyRequired
    ensures ConfigErrors(c) == [] <==>
      c.apiKey != "" && c.projectId != "" && (Given(c.serviceAccountPath) || Given(c.serviceAccountBase64))
  {
    MessageLengths();
  }

  /** A complete environment passes the start-up check. */
  lemma CompleteEnvironmentPasses(env: Env)
    requires "GEMINI_API_KEY" in env && env["GEMINI_API_KEY"] != ""
    requires "FIREBASE_PROJECT_ID" in env && env["FIREBASE_PROJECT_ID"] != ""
    requires "FIREBASE_SERVICE_ACCOUNT_BASE64" in env && env["FIREBASE_SERVICE_ACCOUNT_BASE64"] != ""
    ensures ConfigErrors(LoadSettings(env)) == []
  {
  }
}
