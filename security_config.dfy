/**
 * The `authorizeHttpRequests` rule chain of `SecurityConfig.java` and the
 * wiring of its two failure outcomes to the 401 entry point and the 403
 * handler.
 *
 * Rules are tried in declared order and the first whose patterns match the
 * path decides. When its access rule does not grant the request, an
 * anonymous caller is sent to the authentication entry point (401) and an
 * authenticated one to the access-denied handler (403).
 */
module SecurityConfig {
  import opened Wrappers
  import opened ApiErrors
  import opened ErrorCodes
  import opened Exceptions
  import opened Servlet
  import HttpStatus
  import EntryPoint = ApiErrorAuthenticationEntryPoint
  import DeniedHandler = ApiErrorAccessDeniedHandler

  /** A request matcher: one exact path, a subtree (`/x/` followed by a double star), or `anyRequest()`. */
  datatype PathPattern = Exact(path: string) | Subtree(base: string) | AnyRequest

  /** Reads a pattern as written in the configuration: a trailing slash and double star makes a subtree. */
  function ParsePattern(s: string): (p: PathPattern)
    ensures p.Subtree? <==> |s| >= 3 && s[|s| - 3..] == "/**"
    ensures p.Subtree? ==> s == p.base + "/**"
    ensures p.Exact? ==> p.path == s
  {
    if |s| >= 3 && s[|s| - 3..] == "/**" then Subtree(s[..|s| - 3]) else Exact(s)
  }

  /** A subtree pattern on `/x` matches `/x` itself and every path below `/x/`. */
  predicate Matches(p: PathPattern, path: string) {
    match p
    case Exact(q) => path == q
    case Subtree(b) => path == b || b + "/" <= path
    case AnyRequest => true
  }

  /** What a rule demands: `permitAll()`, `hasRole(r)` or `authenticated()`. */
  datatype Access = PermitAll | HasRole(role: string) | IsAuthenticated

  datatype Rule = Rule(patterns: seq<PathPattern>, access: Access)

  /** Who is calling: nobody (Spring's anonymous token), or a user with granted authorities. */
  datatype Principal = Anonymous | User(authorities: set<string>)

  /** The authorities a principal holds; the anonymous token holds `ROLE_ANONYMOUS`. */
  function Authorities(who: Principal): set<string> {
    match who
    case Anonymous => {"ROLE_ANONYMOUS"}
    case User(a) => a
  }

  /** Whether an access rule lets the principal through; `hasRole(r)` looks for `ROLE_` + r. */
  predicate Grants(a: Access, who: Principal) {
    match a
    case PermitAll => true
    case HasRole(r) => "ROLE_" + r in Authorities(who)
    case IsAuthenticated => who.User?
  }

  /** Let through, challenged by the entry point (401), or refused by the denied handler (403). */
  datatype Decision = Allow | Unauthenticated | Denied

  /** The rule chain, in declared order. */
  function Rules(): seq<Rule> {
    [ Rule([ParsePattern("/actuator/health"), ParsePattern("/v3/api-docs/**"), ParsePattern("/swagger-ui/**")], PermitAll),
      Rule([ParsePattern("/admin/**")], HasRole("ADMIN")),
      Rule([AnyRequest], IsAuthenticated) ]
  }

  predicate RuleMatches(r: Rule, path: string) {
    exists i :: 0 <= i < |r.patterns| && Matches(r.patterns[i], path)
  }

  /** The first rule at or after `from` whose patterns match the path. */
  function FirstMatch(rules: seq<Rule>, path: string, from: nat): (r: Option<nat>)
    decreases |rules| - from
    ensures r.Some? ==> from <= r.value < |rules| && RuleMatches(rules[r.value], path)
    ensures r.Some? ==> forall j :: from <= j < r.value ==> !RuleMatches(rules[j], path)
    ensures r.None? ==> forall j :: from <= j < |rules| ==> !RuleMatches(rules[j], path)
  {
    if from >= |rules| then None
    else if RuleMatches(rules[from], path) then Some(from)
    else FirstMatch(rules, path, from + 1)
  }

  /** A refusal challenges the anonymous caller and denies the authenticated one. */
  function Verdict(granted: bool, who: Principal): Decision {
    if granted then Allow else if who.Anonymous? then Unauthenticated else Denied
  }

  /**
   * The first matching rule decides. A path no rule matches is not granted;
   * the configured chain ends in `anyRequest()`, so that never happens there.
   */
  function Decide(rules: seq<Rule>, who: Principal, path: string): Decision {
    match FirstMatch(rules, path, 0)
    case Some(i) => Verdict(Grants(rules[i].access, who), who)
    case None => Verdict(false, who)
  }

  /** The health and documentation endpoints. */
  predicate IsPublicPath(path: string) {
    || path == "/actuator/health"
    || path == "/v3/api-docs" || "/v3/api-docs/" <= path
    || path == "/swagger-ui" || "/swagger-ui/" <= path
  }

  /** The admin subtree. */
  predicate IsAdminPath(path: string) {
    path == "/admin" || "/admin/" <= path
  }

  /** The configured patterns are the exact health path and three subtrees. */
  lemma RulesAsWritten()
    ensures Rules()[0].patterns == [Exact("/actuator/health"), Subtree("/v3/api-docs"), Subtree("/swagger-ui")]
    ensures Rules()[1].patterns == [Subtree("/admin")]
  {
    assert "/v3/api-docs/**"[12..] == "/**";
    assert "/v3/api-docs/**"[..12] == "/v3/api-docs";
    assert "/swagger-ui/**"[11..] == "/**";
    assert "/swagger-ui/**"[..11] == "/swagger-ui";
    assert "/admin/**"[6..] == "/**";
    assert "/admin/**"[..6] == "/admin";
    assert "/actuator/health"[13..] == "lth";
  }

  /** The first rule matches exactly the public paths, the second exactly the admin subtree. */
  lemma RuleMatchesAsIntended(path: string)
    ensures RuleMatches(Rules()[0], path) <==> IsPublicPath(path)
    ensures RuleMatches(Rules()[1], path) <==> IsAdminPath(path)
    ensures RuleMatches(Rules()[2], path)
  {
    RulesAsWritten();
    var r0 := Rules()[0];
    if IsPublicPath(path) {
      if path == "/actuator/health" {
        assert Matches(r0.patterns[0], path);
      } else if path == "/v3/api-docs" || "/v3/api-docs/" <= path {
        assert Matches(r0.patterns[1], path);
      } else {
        assert Matches(r0.patterns[2], path);
      }
    }
    assert Matches(Rules()[2].patterns[0], path);
    if IsAdminPath(path) {
      assert Matches(Rules()[1].patterns[0], path);
    }
  }

  /** Every path in the admin subtree starts with `/ad`. */
  lemma AdminPrefix(path: string)
    requires IsAdminPath(path)
    ensures |path| >= 3 && path[..3] == "/ad"
  {
    if path != "/admin" {
      assert path[..3] == ("/admin/")[..3];
    }
  }

  /** No public path starts with `/ad`. */
  lemma NotPublicBelowAd(path: string)
    requires |path| >= 3 && path[..3] == "/ad"
    ensures !IsPublicPath(path)
  {
    assert "/actuator/health"[..3] == "/ac";
    assert "/v3/api-docs"[..3] == "/v3";
    assert "/swagger-ui"[..3] == "/sw";
    assert "/v3/api-docs/"[..3] == "/v3" && "/swagger-ui/"[..3] == "/sw";
    DifferentStartNotPrefix("/v3/api-docs/", path, 3);
    DifferentStartNotPrefix("/swagger-ui/", path, 3);
  }

  /** A string is not a prefix of one that starts differently. */
  lemma DifferentStartNotPrefix(p: string, s: string, k: nat)
    requires k <= |p| && k <= |s| && p[..k] != s[..k]
    ensures !(p <= s)
  {
  }

  /** No public path lies in the admin subtree, so the order of the first two rules is immaterial. */
  lemma PublicAndAdminDisjoint(path: string)
    ensures !(IsPublicPath(path) && IsAdminPath(path))
  {
    if IsAdminPath(path) {
      AdminPrefix(path);
      NotPublicBelowAd(path);
    }
  }

  /** The decision the configured chain takes. */
  function Authorize(who: Principal, path: string): Decision {
    Decide(Rules(), who, path)
  }

  /**
   * The whole policy in one statement: a request is let through exactly
   * when the path is public, or the caller is authenticated and, on the
   * admin subtree, holds `ROLE_ADMIN`; every other request is challenged
   * when anonymous and denied otherwise.
   */
  lemma {:induction false} AuthorizeCharacterized(who: Principal, path: string)
    ensures Authorize(who, path) == Allow <==>
      IsPublicPath(path) || (who.User? && (IsAdminPath(path) ==> "ROLE_ADMIN" in who.authorities))
    ensures Authorize(who, path) == Unauthenticated <==> !IsPublicPath(path) && who.Anonymous?
    ensures Authorize(who, path) == Denied <==>
      !IsPublicPath(path) && who.User? && IsAdminPath(path) && "ROLE_ADMIN" !in who.authorities
  {
    RuleMatchesAsIntended(path);
    PublicAndAdminDisjoint(path);
    var m := FirstMatch(Rules(), path, 0);
    if IsPublicPath(path) {
      assert m == Some(0);
    } else if IsAdminPath(path) {
      assert m == Some(1);
      assert "ROLE_" + "ADMIN" == "ROLE_ADMIN";
      if who.Anonymous? {
        assert "ROLE_ADMIN" !in Authorities(who);
      }
    } else {
      assert m == Some(2);
    }
  }

  /** Health and documentation endpoints never produce 401 (nor 403), whoever calls. */
  lemma PublicPathsNeverChallenged(who: Principal, path: string)
    requires IsPublicPath(path)
    ensures Authorize(who, path) == Allow
  {
    AuthorizeCharacterized(who, path);
  }

  /** An authenticated user without ADMIN is refused on the admin subtree; one with it is let through. */
  lemma AdminNeedsRole(authorities: set<string>, path: string)
    requires IsAdminPath(path)
    ensures Authorize(User(authorities), path) == (if "ROLE_ADMIN" in authorities then Allow else Denied)
  {
    AuthorizeCharacterized(User(authorities), path);
    PublicAndAdminDisjoint(path);
  }

  /** Without credentials every non-public path goes to the entry point. */
  lemma AnonymousChallenged(path: string)
    requires !IsPublicPath(path)
    ensures Authorize(Anonymous, path) == Unauthenticated
  {
    AuthorizeCharacterized(Anonymous, path);
  }

  /** Any authenticated user is let through outside the admin subtree. */
  lemma AuthenticatedAllowedElsewhere(authorities: set<string>, path: string)
    requires !IsAdminPath(path)
    ensures Authorize(User(authorities), path) == Allow
  {
    AuthorizeCharacterized(User(authorities), path);
  }

  /** First match wins: rules appended after a matching rule are never consulted. */
  lemma {:induction false} LaterRulesIgnored(rules: seq<Rule>, extra: seq<Rule>, who: Principal, path: string, from: nat)
    requires from <= |rules|
    requires exists k :: from <= k < |rules| && RuleMatches(rules[k], path)
    decreases |rules| - from
    ensures FirstMatch(rules + extra, path, from) == FirstMatch(rules, path, from)
  {
    assert (rules + extra)[from] == rules[from];
    if !RuleMatches(rules[from], path) {
      LaterRulesIgnored(rules, extra, who, path, from + 1);
    }
  }

  /** Hence the decision of a chain is unchanged by rules appended after one that matches. */
  lemma AppendedRulesDoNotChangeDecision(rules: seq<Rule>, extra: seq<Rule>, who: Principal, path: string)
    requires exists k :: 0 <= k < |rules| && RuleMatches(rules[k], path)
    ensures Decide(rules + extra, who, path) == Decide(rules, who, path)
  {
    LaterRulesIgnored(rules, extra, who, path, 0);
    var i := FirstMatch(rules, path, 0).value;
    assert (rules + extra)[i] == rules[i];
  }

  /**
   * `exceptionHandling(entryPoint, deniedHandler)`: a request the chain lets
   * through proceeds with the response and the id source untouched; otherwise
   * the entry point writes a 401 body or the denied handler a 403 body, and
   * `body` is the error that was written.
   */
  method Filter(who: Principal, requestUri: string, response: HttpResponse, ids: IdSource, failure: Throwable, now: Instant)
    returns (proceed: bool, ghost body: ApiError)
    requires ids.Valid()
    modifies response, ids
    ensures ids.Valid()
    ensures proceed <==> Authorize(who, requestUri) == Allow
    ensures proceed ==>
      response.status == old(response.status) && response.output == old(response.output) &&
      response.contentType == old(response.contentType) &&
      response.characterEncoding == old(response.characterEncoding) &&
      ids.issued == old(ids.issued)
    ensures old(response.output) <= response.output
    ensures Authorize(who, requestUri) == Unauthenticated ==>
      body == Of(HttpStatus.Unauthorized, Unauthorized, EntryPoint.Message, requestUri, body.errorId, now) &&
      body.errorId !in old(ids.issued) && ids.issued == old(ids.issued) + {body.errorId} &&
      response.status == HttpStatus.Unauthorized &&
      response.contentType == Some("application/json") && response.characterEncoding == Some("UTF-8") &&
      response.output == old(response.output) + Serialize(body) &&
      Deserialize(response.output[|old(response.output)|..]) == Some(body)
    ensures Authorize(who, requestUri) == Denied ==>
      body == Of(HttpStatus.Forbidden, Forbidden, DeniedHandler.Message, requestUri, body.errorId, now) &&
      body.errorId !in old(ids.issued) && ids.issued == old(ids.issued) + {body.errorId} &&
      response.status == HttpStatus.Forbidden &&
      response.contentType == Some("application/json") && response.characterEncoding == Some("UTF-8") &&
      response.output == old(response.output) + Serialize(body) &&
      Deserialize(response.output[|old(response.output)|..]) == Some(body)
  {
    var decision := Authorize(who, requestUri);
    match decision
    case Allow =>
      proceed := true;
      // No body is written; `body` is only meaningful on a refusal.
      body := Of(0, InternalError, "", requestUri, Uuid(0), now);
    case Unauthenticated =>
      body := EntryPoint.Commence(requestUri, response, failure, ids, now);
      proceed := false;
    case Denied =>
      body := DeniedHandler.Handle(requestUri, response, failure, ids, now);
      proceed := false;
  }
}
