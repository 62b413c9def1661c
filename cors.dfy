/**
 * The CORS middleware (internal/middleware/cors.go): the scan of the
 * allowed origins, the response headers a match sets, and whether a
 * preflight is answered at once. Response headers are a map from name to
 * values, as in Go's `http.Header`.
 */
module Cors {
  import opened Common
  import Config

  const ALLOW_ORIGIN: string := "Access-Control-Allow-Origin"
  const ALLOW_HEADERS: string := "Access-Control-Allow-Headers"
  const ALLOW_METHODS: string := "Access-Control-Allow-Methods"
  const MAX_AGE: string := "Access-Control-Max-Age"
  const ALLOW_CREDENTIALS: string := "Access-Control-Allow-Credentials"
  const VARY: string := "Vary"
  const ALLOWED_HEADERS: string := "Content-Type, Content-Length, Accept-Encoding, X-CSRF-Token, Authorization, accept, origin, Cache-Control, X-Requested-With"
  const ALLOWED_METHODS: string := "POST, OPTIONS, GET, PUT, DELETE, PATCH"
  const MAX_AGE_SECONDS: string := "86400"
  const NO_CONTENT: int := 204

  type Header = map<string, seq<string>>

  /** What happens to the request after the middleware. */
  datatype Next = Continue | Abort(status: int)

  predicate Accepts(entry: string, origin: string) {
    entry == Config.WILDCARD || entry == origin
  }

  /** The first allowed entry that is `*` or the request's origin. */
  function FirstMatch(allowed: seq<string>, origin: string): (r: Option<nat>)
    ensures r.Some? ==> r.value < |allowed| && Accepts(allowed[r.value], origin)
    ensures r.Some? ==> forall j :: 0 <= j < r.value ==> !Accepts(allowed[j], origin)
    ensures r.None? <==> forall j :: 0 <= j < |allowed| ==> !Accepts(allowed[j], origin)
    decreases |allowed|
  {
    if allowed == [] then None
    else if Accepts(allowed[0], origin) then Some(0)
    else
      var rest := FirstMatch(allowed[1..], origin);
      if rest.Some? then Some(rest.value + 1) else None
  }

  /** The scan: stops at the first entry that is `*` or equals the origin. */
  method ScanOrigins(allowed: seq<string>, origin: string) returns (allowedOrigin: string, isWildcard: bool)
    ensures FirstMatch(allowed, origin).None? ==> allowedOrigin == "" && !isWildcard
    ensures FirstMatch(allowed, origin).Some? && allowed[FirstMatch(allowed, origin).value] == Config.WILDCARD ==>
      allowedOrigin == Config.WILDCARD && isWildcard
    ensures FirstMatch(allowed, origin).Some? && allowed[FirstMatch(allowed, origin).value] != Config.WILDCARD ==>
      allowedOrigin == origin && !isWildcard
  {
    allowedOrigin, isWildcard := "", false;
    var i := 0;
    while i < |allowed|
      invariant 0 <= i <= |allowed|
      invariant forall j :: 0 <= j < i ==> !Accepts(allowed[j], origin)
      invariant allowedOrigin == "" && !isWildcard
    {
      if allowed[i] == Config.WILDCARD {
        allowedOrigin, isWildcard := Config.WILDCARD, true;
        break;
      }
      if allowed[i] == origin {
        allowedOrigin := origin;
        break;
      }
      i := i + 1;
    }
    FirstMatchIs(allowed, origin, i);
  }

  lemma {:induction false} FirstMatchIs(allowed: seq<string>, origin: string, i: nat)
    requires i <= |allowed|
    requires forall j :: 0 <= j < i ==> !Accepts(allowed[j], origin)
    requires i < |allowed| ==> Accepts(allowed[i], origin)
    ensures FirstMatch(allowed, origin) == if i < |allowed| then Some(i) else None
    decreases i
  {
    if i > 0 {
      FirstMatchIs(allowed[1..], origin, i - 1);
    }
  }

  /** The value the scan leaves in `allowedOrigin`: `*`, the origin, or "" for no match. */
  function AllowedOrigin(allowed: seq<string>, origin: string): string {
    var m := FirstMatch(allowed, origin);
    if m.None? then ""
    else if allowed[m.value] == Config.WILDCARD then Config.WILDCARD
    else origin
  }

  /**
   * The whole middleware. Returns the response headers and whether the
   * request continues or is aborted with 204.
   */
  method Handle(allowed: seq<string>, origin: string, requestMethod: string, headers: Header)
    returns (out: Header, next: Next)
    ensures AllowedOrigin(allowed, origin) == "" ==> out == headers && next == Continue
    ensures AllowedOrigin(allowed, origin) == Config.WILDCARD ==> out == Matched(headers, Config.WILDCARD)
    ensures AllowedOrigin(allowed, origin) !in {"", Config.WILDCARD} ==>
      out == Matched(headers, origin)[ALLOW_CREDENTIALS := ["true"]]
    ensures AllowedOrigin(allowed, origin) != "" ==> (next == Abort(NO_CONTENT) <==> requestMethod == "OPTIONS")
    ensures next == Continue <==> AllowedOrigin(allowed, origin) == "" || requestMethod != "OPTIONS"
  {
    var allowedOrigin, isWildcard := ScanOrigins(allowed, origin);
    if allowedOrigin == "" {
      return headers, Continue;
    }
    out := headers;
    out := out[ALLOW_ORIGIN := [allowedOrigin]];
    out := out[ALLOW_HEADERS := [ALLOWED_HEADERS]];
    out := out[ALLOW_METHODS := [ALLOWED_METHODS]];
    out := out[MAX_AGE := [MAX_AGE_SECONDS]];
    out := out[VARY := (if VARY in out then out[VARY] else []) + ["Origin"]];
    if !isWildcard {
      out := out[ALLOW_CREDENTIALS := ["true"]];
    }
    if requestMethod == "OPTIONS" {
      return out, Abort(NO_CONTENT);
    }
    next := Continue;
  }

  /**
   * The headers every match writes: Allow-Origin, the fixed Allow-Headers,
   * Allow-Methods and Max-Age, and `Origin` appended to Vary. Other
   * headers, Allow-Credentials included, are left as they were.
   */
  function Matched(headers: Header, allowedOrigin: string): (out: Header)
    ensures out.Keys == headers.Keys + {ALLOW_ORIGIN, ALLOW_HEADERS, ALLOW_METHODS, MAX_AGE, VARY}
    ensures out[ALLOW_ORIGIN] == [allowedOrigin]
    ensures out[ALLOW_HEADERS] == [ALLOWED_HEADERS] && out[ALLOW_METHODS] == [ALLOWED_METHODS]
    ensures out[MAX_AGE] == [MAX_AGE_SECONDS]
    ensures VARY in headers ==> out[VARY] == headers[VARY] + ["Origin"]
    ensures VARY !in headers ==> out[VARY] == ["Origin"]
    ensures forall k :: k in headers && k !in {ALLOW_ORIGIN, ALLOW_HEADERS, ALLOW_METHODS, MAX_AGE, VARY} ==> out[k] == headers[k]
  {
    headers[ALLOW_ORIGIN := [allowedOrigin]][ALLOW_HEADERS := [ALLOWED_HEADERS]]
      [ALLOW_METHODS := [ALLOWED_METHODS]][MAX_AGE := [MAX_AGE_SECONDS]]
      [VARY := (if VARY in headers then headers[VARY] else []) + ["Origin"]]
  }

  /** An exact entry listed before any `*` wins, and so gets credentials. */
  lemma ExactBeforeWildcardWins(allowed: seq<string>, origin: string, i: nat)
    requires i < |allowed| && allowed[i] == origin && origin != "" && origin != Config.WILDCARD
    requires forall j :: 0 <= j < i ==> allowed[j] != Config.WILDCARD
    ensures AllowedOrigin(allowed, origin) == origin
  {
  }

  /** With origins from configuration, "no match" is exactly "no entry accepts the origin". */
  lemma ConfiguredNoMatch(value: string, origin: string)
    ensures var allowed := Config.CorsOrigins(value);
      AllowedOrigin(allowed, origin) == "" <==> FirstMatch(allowed, origin).None?
  {
  }

  /** The default configuration admits every origin, without credentials. */
  lemma DefaultAdmitsAll(origin: string)
    ensures AllowedOrigin(Config.CorsOrigins(Config.WILDCARD), origin) == Config.WILDCARD
  {
    Config.DefaultOriginsWildcard();
  }
}
