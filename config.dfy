/**
 * Configuration loading (internal/config/config.go): environment lookups
 * with fallbacks, the JWT secret rule, the token lifetimes as Go
 * `time.Duration` arithmetic, and the parsing of the allowed CORS origins.
 * The environment is a map from variable name to value.
 */
module Config {
  import opened Common
  import opened Numeric

  const DEFAULT_SECRET: string := "default-secret-change-in-production"
  const RELEASE: string := "release"
  const DEFAULT_MODE: string := "debug"
  const WILDCARD: string := "*"
  const NANOS_PER_MINUTE: int := 60_000_000_000
  const NANOS_PER_HOUR: int := 3_600_000_000_000
  const DEFAULT_ACCESS_MINUTES: int := 15
  const DEFAULT_REFRESH_DAYS: int := 7

  type Env = map<string, string>

  /** `getEnv`: a set variable wins even when empty; the default only when unset. */
  function GetEnv(env: Env, key: string, fallback: string): (r: string)
    ensures key in env ==> r == env[key]
    ensures key !in env ==> r == fallback
  {
    if key in env then env[key] else fallback
  }

  /** `getEnvInt`: the default when unset or not an integer. */
  function GetEnvInt(env: Env, key: string, fallback: int): (r: int)
    ensures key in env && ParseInt64(env[key]).Some? ==> r == ParseInt64(env[key]).value
    ensures key !in env || ParseInt64(env[key]).None? ==> r == fallback
  {
    if key in env then
      var parsed := ParseInt64(env[key]);
      if parsed.Some? then parsed.value else fallback
    else fallback
  }

  /** `getEnvBool`: the default when unset or not a boolean. */
  function GetEnvBool(env: Env, key: string, fallback: bool): (r: bool)
    ensures key in env && ParseBool(env[key]).Some? ==> r == ParseBool(env[key]).value
    ensures key !in env || ParseBool(env[key]).None? ==> r == fallback
  {
    if key in env then
      var parsed := ParseBool(env[key]);
      if parsed.Some? then parsed.value else fallback
    else fallback
  }

  /**
   * `getJWTSecret`: in release mode an empty or default secret stops the
   * process (Err); otherwise the configured secret, or the default.
   */
  function GetJwtSecret(env: Env): (r: Result<string, string>)
    ensures r.Err? <==>
      GetEnv(env, "GIN_MODE", DEFAULT_MODE) == RELEASE
      && (GetEnv(env, "JWT_SECRET", DEFAULT_SECRET) == "" || GetEnv(env, "JWT_SECRET", DEFAULT_SECRET) == DEFAULT_SECRET)
    ensures r.Ok? ==> r.value == GetEnv(env, "JWT_SECRET", DEFAULT_SECRET)
  {
    var secret := GetEnv(env, "JWT_SECRET", DEFAULT_SECRET);
    var mode := GetEnv(env, "GIN_MODE", DEFAULT_MODE);
    if mode == RELEASE && (secret == "" || secret == DEFAULT_SECRET) then
      Err("FATAL: JWT_SECRET must be set in production environment")
    else Ok(secret)
  }

  /** Release mode never runs with the well-known default secret. */
  lemma ReleaseNeverUsesDefault(env: Env)
    requires GetEnv(env, "GIN_MODE", DEFAULT_MODE) == RELEASE
    ensures GetJwtSecret(env).Ok? ==> GetJwtSecret(env).value != DEFAULT_SECRET && GetJwtSecret(env).value != ""
  {
  }

  /** `time.Duration(minutes) * time.Minute`, in 64-bit nanoseconds. */
  function AccessLifetime(minutes: int): (ns: int)
    ensures InInt64(ns)
    ensures InInt64(minutes * NANOS_PER_MINUTE) ==> ns == minutes * NANOS_PER_MINUTE
  {
    WrapInt64(minutes * NANOS_PER_MINUTE)
  }

  /** `time.Duration(days) * 24 * time.Hour`: two 64-bit products, each wrapping. */
  function RefreshLifetime(days: int): (ns: int)
    ensures InInt64(ns)
  {
    WrapInt64(WrapInt64(days * 24) * NANOS_PER_HOUR)
  }

  /** Two numbers congruent modulo 2^64 wrap to the same int64. */
  lemma WrapCongruent(x: int, y: int)
    requires (x - y) % TWO_TO_64 == 0
    ensures WrapInt64(x) == WrapInt64(y)
  {
    var a, b := WrapInt64(x), WrapInt64(y);
    assert (a - b) % TWO_TO_64 == 0 by {
      assert (a - x) % TWO_TO_64 == 0 && (b - y) % TWO_TO_64 == 0;
      assert a - b == (a - x) + (x - y) - (b - y);
    }
    var k := (a - b) / TWO_TO_64;
    assert a - b == k * TWO_TO_64;
    assert -TWO_TO_64 < a - b < TWO_TO_64;
  }

  /** Wrapping the intermediate product does not matter: the refresh lifetime is days × 24 h wrapped once. */
  lemma RefreshLifetimeWrapsOnce(days: int)
    ensures RefreshLifetime(days) == WrapInt64(days * 24 * NANOS_PER_HOUR)
    ensures InInt64(days * 24 * NANOS_PER_HOUR) ==> RefreshLifetime(days) == days * 24 * NANOS_PER_HOUR
  {
    var w := WrapInt64(days * 24);
    var k := (w - days * 24) / TWO_TO_64;
    assert w - days * 24 == k * TWO_TO_64;
    assert w * NANOS_PER_HOUR - days * 24 * NANOS_PER_HOUR == (k * NANOS_PER_HOUR) * TWO_TO_64;
    WrapCongruent(w * NANOS_PER_HOUR, days * 24 * NANOS_PER_HOUR);
  }

  /** The default lifetimes: 15 minutes and 7 days. */
  lemma DefaultLifetimes()
    ensures AccessLifetime(DEFAULT_ACCESS_MINUTES) == 900_000_000_000
    ensures RefreshLifetime(DEFAULT_REFRESH_DAYS) == 604_800_000_000_000
  {
  }

  // ---------------------------------------------------------------------------
  // CORS origins

  /** `unicode.IsSpace`, the set `strings.TrimSpace` removes. */
  predicate IsSpace(c: char) {
    var n := c as int;
    || 0x09 <= n <= 0x0D || n == 0x20 || n == 0x85 || n == 0xA0 || n == 0x1680
    || 0x2000 <= n <= 0x200A || n == 0x2028 || n == 0x2029 || n == 0x202F || n == 0x205F || n == 0x3000
  }

  /** The number of leading white-space characters. */
  function LeadingSpaces(s: string): (n: nat)
    ensures n <= |s|
    ensures forall i :: 0 <= i < n ==> IsSpace(s[i])
    ensures n < |s| ==> !IsSpace(s[n])
    decreases |s|
  {
    if s != [] && IsSpace(s[0]) then 1 + LeadingSpaces(s[1..]) else 0
  }

  /** Where the trailing white space starts. */
  function TrailingStart(s: string): (m: nat)
    ensures m <= |s|
    ensures forall i :: m <= i < |s| ==> IsSpace(s[i])
    ensures m > 0 ==> !IsSpace(s[m - 1])
    decreases |s|
  {
    if s != [] && IsSpace(s[|s| - 1]) then TrailingStart(s[..|s| - 1]) else |s|
  }

  /** `strings.TrimSpace`: the middle of `s`, between its leading and trailing white space. */
  function TrimSpace(s: string): (r: string)
    ensures r == [] || (!IsSpace(r[0]) && !IsSpace(r[|r| - 1]))
    ensures LeadingSpaces(s) + |r| <= |s| && r == s[LeadingSpaces(s)..LeadingSpaces(s) + |r|]
    ensures forall i :: 0 <= i < |s| && (i < LeadingSpaces(s) || LeadingSpaces(s) + |r| <= i) ==> IsSpace(s[i])
  {
    var n := LeadingSpaces(s);
    if n == |s| then []
    else
      var m := TrailingStart(s);
      assert m > n;
      s[n..m]
  }

  /** Trimming an already trimmed string changes nothing. */
  lemma TrimIdempotent(s: string)
    ensures TrimSpace(TrimSpace(s)) == TrimSpace(s)
  {
    var t := TrimSpace(s);
    if t != [] {
      assert LeadingSpaces(t) == 0;
      assert TrailingStart(t) == |t|;
    }
  }

  /** `strings.Split(s, ",")`: the pieces between commas, at least one. */
  function Split(s: string): (parts: seq<string>)
    ensures |parts| >= 1
    ensures forall i :: 0 <= i < |parts| ==> ',' !in parts[i]
    decreases |s|
  {
    if s == [] then [""]
    else
      var rest := Split(s[1..]);
      if s[0] == ',' then [""] + rest else [[s[0]] + rest[0]] + rest[1..]
  }

  /** `strings.Join(parts, ",")`. */
  function Join(parts: seq<string>): string
    requires |parts| >= 1
    decreases |parts|
  {
    if |parts| == 1 then parts[0] else parts[0] + "," + Join(parts[1..])
  }

  /** Splitting loses nothing: joining the pieces back gives the input. */
  lemma {:induction false} SplitJoin(s: string)
    ensures Join(Split(s)) == s
    decreases |s|
  {
    if s != [] {
      SplitJoin(s[1..]);
      var rest := Split(s[1..]);
      if s[0] == ',' {
        assert Split(s)[1..] == rest;
      } else {
        var parts := Split(s);
        if |rest| == 1 {
          assert parts == [[s[0]] + rest[0]];
        } else {
          assert parts[1..] == rest[1..];
          assert Join(rest) == rest[0] + "," + Join(rest[1..]);
        }
      }
    }
  }

  /** The trimmed, non-empty pieces, in their order. */
  function Kept(parts: seq<string>): (r: seq<string>)
    ensures |r| <= |parts|
    ensures forall i :: 0 <= i < |r| ==> r[i] != "" && r[i] == TrimSpace(r[i])
    decreases |parts|
  {
    if parts == [] then []
    else
      var t := TrimSpace(parts[0]);
      if t != "" then
        TrimIdempotent(parts[0]);
        [t] + Kept(parts[1..])
      else Kept(parts[1..])
  }

  /** `parseCORSOrigins` as a value. */
  function CorsOrigins(value: string): (r: seq<string>)
    ensures r != []
    ensures forall i :: 0 <= i < |r| ==> r[i] != ""
    ensures value == "" ==> r == [WILDCARD]
    ensures value != "" && Kept(Split(value)) == [] ==> r == [WILDCARD]
    ensures value != "" && Kept(Split(value)) != [] ==> r == Kept(Split(value))
  {
    if value == "" then [WILDCARD]
    else
      var kept := Kept(Split(value));
      if kept == [] then [WILDCARD] else kept
  }

  /** Keeping distributes over concatenation: the pieces keep their order. */
  lemma {:induction false} KeptAppend(a: seq<string>, b: seq<string>)
    ensures Kept(a + b) == Kept(a) + Kept(b)
    decreases |a|
  {
    if a == [] {
      assert a + b == b;
    } else {
      assert (a + b)[0] == a[0] && (a + b)[1..] == a[1..] + b;
      KeptAppend(a[1..], b);
    }
  }

  /** One piece is kept, trimmed, exactly when it is not blank. */
  lemma KeptSingle(p: string)
    ensures Kept([p]) == if TrimSpace(p) == "" then [] else [TrimSpace(p)]
  {
    assert [p][1..] == [];
  }

  /** Splitting text that starts with a comma-free piece `a`: `a` heads the first piece. */
  lemma {:induction false} SplitPrefix(a: string, rest: string)
    requires ',' !in a
    ensures Split(a + rest) == [a + Split(rest)[0]] + Split(rest)[1..]
    decreases |a|
  {
    if a == [] {
      assert a + rest == rest && a + Split(rest)[0] == Split(rest)[0];
      assert Split(rest) == [Split(rest)[0]] + Split(rest)[1..];
    } else {
      assert (a + rest)[0] == a[0] && (a + rest)[1..] == a[1..] + rest;
      SplitPrefix(a[1..], rest);
      assert [a[0]] + (a[1..] + Split(rest)[0]) == a + Split(rest)[0];
    }
  }

  /** Splitting comma-free pieces joined with commas gives the pieces back. */
  lemma {:induction false} SplitOfJoin(parts: seq<string>)
    requires |parts| >= 1
    requires forall i :: 0 <= i < |parts| ==> ',' !in parts[i]
    ensures Split(Join(parts)) == parts
    decreases |parts|
  {
    if |parts| == 1 {
      SplitPrefix(parts[0], "");
      assert parts[0] + "" == parts[0];
    } else {
      var tail := Join(parts[1..]);
      SplitOfJoin(parts[1..]);
      assert ("," + tail)[0] == ',' && ("," + tail)[1..] == tail;
      assert Split("," + tail) == [""] + Split(tail);
      assert Join(parts) == parts[0] + ("," + tail);
      SplitPrefix(parts[0], "," + tail);
      assert parts[0] + "" == parts[0];
      assert parts == [parts[0]] + parts[1..];
    }
  }

  /** A configured list of clean origins, written comma-separated, is parsed back to that list. */
  lemma CorsOriginsOfJoin(parts: seq<string>)
    requires |parts| >= 1
    requires forall i :: 0 <= i < |parts| ==> parts[i] != "" && ',' !in parts[i] && TrimSpace(parts[i]) == parts[i]
    ensures CorsOrigins(Join(parts)) == parts
  {
    SplitOfJoin(parts);
    KeptOfClean(parts);
    if |parts| > 1 {
      assert Join(parts) == parts[0] + "," + Join(parts[1..]);
    }
    assert |Join(parts)| >= |parts[0]| > 0;
  }

  /** A list of origins with no surrounding spaces parses back to itself. */
  lemma {:induction false} KeptOfClean(parts: seq<string>)
    requires forall i :: 0 <= i < |parts| ==> parts[i] != "" && TrimSpace(parts[i]) == parts[i]
    ensures Kept(parts) == parts
    decreases |parts|
  {
    if parts != [] {
      KeptOfClean(parts[1..]);
    }
  }

  /** `parseCORSOrigins`: the loop over the pieces, appending each non-empty trimmed one. */
  method ParseCorsOrigins(value: string) returns (origins: seq<string>)
    ensures origins == CorsOrigins(value)
  {
    if value == "" {
      return [WILDCARD];
    }
    var parts := Split(value);
    origins := [];
    for i := 0 to |parts|
      invariant origins + Kept(parts[i..]) == Kept(parts)
    {
      assert parts[i..][1..] == parts[i + 1..];
      var trimmed := TrimSpace(parts[i]);
      if trimmed != "" {
        origins := origins + [trimmed];
      }
    }
    assert parts[|parts|..] == [];
    if |origins| == 0 {
      return [WILDCARD];
    }
  }

  /** The JWT part of `Load`: the secret rule and both lifetimes. */
  datatype JwtConfig = JwtConfig(secret: string, accessExpiresIn: int, refreshExpiresIn: int)

  function LoadJwt(env: Env): (r: Result<JwtConfig, string>)
    ensures r.Err? <==> GetJwtSecret(env).Err?
    ensures r.Ok? ==>
      && r.value.secret == GetJwtSecret(env).value
      && r.value.accessExpiresIn == AccessLifetime(GetEnvInt(env, "JWT_ACCESS_EXPIRES_MINUTES", DEFAULT_ACCESS_MINUTES))
      && r.value.refreshExpiresIn == RefreshLifetime(GetEnvInt(env, "JWT_REFRESH_EXPIRES_DAYS", DEFAULT_REFRESH_DAYS))
  {
    var secret := GetJwtSecret(env);
    if secret.Err? then Err(secret.error)
    else Ok(JwtConfig(secret.value,
                      AccessLifetime(GetEnvInt(env, "JWT_ACCESS_EXPIRES_MINUTES", DEFAULT_ACCESS_MINUTES)),
                      RefreshLifetime(GetEnvInt(env, "JWT_REFRESH_EXPIRES_DAYS", DEFAULT_REFRESH_DAYS))))
  }

  /** With nothing set, the default secret and a 15-minute and a 7-day lifetime. */
  lemma EmptyEnvDefaults()
    ensures LoadJwt(map[]) == Ok(JwtConfig(DEFAULT_SECRET, 900_000_000_000, 604_800_000_000_000))
  {
    DefaultLifetimes();
  }

  /** The default origin list `*` parses to the single wildcard. */
  lemma DefaultOriginsWildcard()
    ensures CorsOrigins(WILDCARD) == [WILDCARD]
  {
    assert WILDCARD[1..] == "";
    assert Split("") == [""];
    assert WILDCARD[0] != ',';
    assert Split(WILDCARD) == [[WILDCARD[0]] + ""];
    assert [WILDCARD[0]] + "" == WILDCARD;
    assert LeadingSpaces(WILDCARD) == 0;
    assert TrailingStart(WILDCARD) == 1;
    assert Kept([WILDCARD]) == [WILDCARD];
  }
}
