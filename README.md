# Edira-API error layer, modelled in Dafny

This project models the error-translation layer of Edira-API, a Spring Boot
service. The layer turns every failure into one uniform JSON body, `ApiError`,
sent with a matching HTTP status. It covers:

- the `ErrorCode` enum;
- the `ValidationErrorDetail` record and its two factories;
- the `ApiError` record with its `of` and `validation` factories and the
  rule that an empty `details` list is left out of the JSON;
- `GlobalExceptionHandler`, the six handlers that map a failure to
  `(status, ApiError)`;
- the 401 entry point and the 403 access-denied handler, which fill in a
  servlet response step by step;
- the authorization rule chain of `SecurityConfig`;
- the three application exceptions `NotFoundException`,
  `UnauthorizedException` and `ForbiddenException`.

Layout, one module per source component:

| file | module | models |
|---|---|---|
| wrappers.dfy | Wrappers | `Option`, standing for Java's nullable references (`None` is `null`) |
| error_code.dfy | ErrorCodes | `ErrorCode.java` |
| validation_error_detail.dfy | ValidationErrorDetails | `ValidationErrorDetail.java` and the `stream().map(from).toList()` the handler applies |
| api_error.dfy | ApiErrors | `ApiError.java`, the id source standing in for `UUID.randomUUID()`, the wire form |
| java_text.dfy | JavaText | `String.isBlank` / `Character.isWhitespace` |
| exceptions.dfy | Exceptions | the three exception classes and `Throwable.toString` |
| http.dfy | HttpStatus, Servlet | status constants; the servlet response the adapters write to |
| global_exception_handler.dfy | GlobalExceptionHandler | `GlobalExceptionHandler.java` |
| security_adapters.dfy | ApiErrorAuthenticationEntryPoint, ApiErrorAccessDeniedHandler | the two adapters |
| security_config.dfy | SecurityConfig | the rule chain and its wiring to the two adapters |

The functions that the lemmas below are about, and what each stands for:

| function | source | stands for |
|---|---|---|
| `ErrorCodes.Values` | src/main/java/com/edira/edira_api/shared/error/ErrorCode.java:3-11 | `ErrorCode.values()`, the constants in declaration order |
| `ErrorCodes.Name` | src/main/java/com/edira/edira_api/shared/error/ErrorCode.java:4-10 | `name()`, the identifier of each constant |
| `ErrorCodes.CompareTo` | src/main/java/com/edira/edira_api/shared/error/ErrorCode.java:3-11 | `Enum.compareTo`, the difference of the ordinals |
| `ApiErrors.Serialize` | src/main/java/com/edira/edira_api/shared/error/ApiError.java:15-32 | the JSON properties Jackson writes, in record order, with `details` left out when it is empty (the `@JsonInclude(NON_EMPTY)` at line 28) |
| `ApiErrors.Deserialize` | src/main/java/com/edira/edira_api/shared/error/ApiError.java:15-32 | a client's reading of those properties, an absent `details` read as empty |
| `JavaText.IsBlank` | src/main/java/com/edira/edira_api/shared/error/GlobalExceptionHandler.java:109-110 | `String.isBlank`: every code point is `Character.isWhitespace` |
| `SecurityConfig.Decide` | src/main/java/com/edira/edira_api/security/SecurityConfig.java:32-36 | a rule chain's decision: the first matching rule's access test, 401 or 403 on refusal |
| `SecurityConfig.Authorize` | src/main/java/com/edira/edira_api/security/SecurityConfig.java:32-36 | `Decide` over the configured chain |

Modelling choices:

- Time and randomness are inputs. `Instant.now()` becomes a `now` parameter.
  `UUID.randomUUID()` becomes `IdSource.Fresh`, a generator that provably never
  hands out an id twice. The pure handler takes the id as a parameter.
- The handlers are functions of a closed `Failure` type with one variant per
  handler. This replaces Spring's choice of the closest `@ExceptionHandler`.
  Bean Validation's `ConstraintViolationException` (a 400) and Hibernate's
  `ConstraintViolationException` (a 409) are different variants.
- "Blank" is Java's `isBlank`: the string is empty, or every code point is a
  `Character.isWhitespace` code point. That set is written out.
- A `/x/**` pattern matches `/x` itself and every path that starts with `/x/`.
  `hasRole("ADMIN")` looks for the authority `ROLE_ADMIN`. A request the matched
  rule refuses goes to the 401 entry point when it is anonymous and to the
  403 handler when it is authenticated. This is how Spring Security's
  exception translation treats an access-denied failure.
- The JSON body is modelled as its sequence of properties in record order.
  Jackson's text encoding is not modelled. `Deserialize` is a client's reading
  of that sequence; it completes the round trip and shows what the
  "omit empty details" rule leaves recoverable.

Where the documentation and the code disagree, the model follows the code:

- The Javadoc of `ForbiddenException` and `UnauthorizedException` says each
  maps to 403 or 401, and an integration test expects 403. But the handler
  has no branch for either class, so the `Exception` fallback answers both
  with 500 INTERNAL_ERROR (`SecurityExceptionsFallBack`).
- `handleGeneric` has no last-resort hardcoded body for the case where
  building the `ApiError` itself fails, so the model has none either.

## Model

| member | source | states |
|---|---|---|
| ErrorCodes.Ordinal | src/main/java/com/edira/edira_api/shared/error/ErrorCode.java:4-10 | each constant's ordinal is its position in `values()` |
| ErrorCodes.ValueOf | src/main/java/com/edira/edira_api/shared/error/ErrorCode.java:3-11 | `valueOf` returns only a constant whose `name()` is the argument; any other string gives `None`, the `IllegalArgumentException` case |
| ErrorCodes.ExactlySeven | src/main/java/com/edira/edira_api/shared/error/ErrorCode.java:3-11 | there are exactly seven constants; `values()` lists every one of them, none twice |
| ErrorCodes.OrdinalsFollowDeclaration | src/main/java/com/edira/edira_api/shared/error/ErrorCode.java:4-10 | ordinals are 0..6 in declaration order, and no two constants share one |
| ErrorCodes.ValueOfName | src/test/java/com/edira/edira_api/shared/error/ErrorCodeTest.java:53-83 | `valueOf(name(c)) == c`, and `valueOf` succeeds exactly on the seven names |
| ErrorCodes.NamesDistinct | src/test/java/com/edira/edira_api/shared/error/ErrorCodeTest.java:37-59 | two constants have the same name exactly when they are the same constant |
| ErrorCodes.CompareFollowsDeclaration | src/test/java/com/edira/edira_api/shared/error/ErrorCodeTest.java:122-127 | `compareTo` is negative exactly when the first constant is declared earlier, and zero only for the same constant |
| ValidationErrorDetails.FromFieldError | src/main/java/com/edira/edira_api/shared/validation/ValidationErrorDetail.java:14-18 | `field` is the field name and `message` the default message (possibly null), both verbatim |
| ValidationErrorDetails.FromConstraintViolation | src/main/java/com/edira/edira_api/shared/validation/ValidationErrorDetail.java:21-25 | `field` is the rendered property path and `message` the interpolated message, both verbatim |
| ValidationErrorDetails.FromFieldErrors | src/main/java/com/edira/edira_api/shared/error/GlobalExceptionHandler.java:39-44 | one detail per field error, same length, same order, element i built from field error i |
| ValidationErrorDetails.FromConstraintViolations | src/main/java/com/edira/edira_api/shared/error/GlobalExceptionHandler.java:71-75 | one detail per violation, same length, element i built from violation i of the set's iteration order |
| ValidationErrorDetails.DetailEquality | src/main/java/com/edira/edira_api/shared/validation/ValidationErrorDetail.java:11 | two details are equal exactly when both field and message are equal |
| ValidationErrorDetails.FromFieldErrorsAppend | src/main/java/com/edira/edira_api/shared/error/GlobalExceptionHandler.java:39-44 | the mapping works element by element: mapping a concatenation is concatenating the mappings |
| ValidationErrorDetails.NoDeduplication | src/main/java/com/edira/edira_api/shared/error/GlobalExceptionHandler.java:39-44 | two identical field errors still give two details |
| ApiErrors.Of | src/main/java/com/edira/edira_api/shared/error/ApiError.java:34-44 | the 5-argument `of` stores status, code, message, path and errorId unchanged, stamps the given instant, and has no details |
| ApiErrors.Validation | src/main/java/com/edira/edira_api/shared/error/ApiError.java:52-63 | a null details list gives empty details; a list is kept with its length and its elements in order; the other fields as in `of` |
| ApiErrors.ValidationWithoutDetailsIsOf | src/main/java/com/edira/edira_api/shared/error/ApiError.java:52-63 | `validation` with null or empty details builds exactly what `of` builds |
| ApiErrors.IdSource.Fresh | src/main/java/com/edira/edira_api/shared/error/ApiError.java:48 | a generated id was never issued before and is recorded as issued |
| ApiErrors.OfFresh | src/main/java/com/edira/edira_api/shared/error/ApiError.java:47-49 | the 4-argument `of` is the 5-argument `of` with a never-issued id |
| ApiErrors.ValidationFresh | src/main/java/com/edira/edira_api/shared/error/ApiError.java:65-68 | the 5-argument `validation` is the 6-argument one with a never-issued id |
| ApiErrors.TwoGeneratedIdsDiffer | src/test/java/com/edira/edira_api/shared/error/ApiErrorTest.java:159-168 | for any statuses, codes, messages and paths, two errors built with generated ids are the `of` errors of those arguments and have different ids |
| ApiErrors.DetailsAreCopied | src/test/java/com/edira/edira_api/shared/error/ApiErrorTest.java:184-200 | for any arguments, overwriting the caller's list after building the error leaves the error equal to `validation` of the list as it was (the copy is immediate in a value model) |
| ApiErrors.Keys | src/main/java/com/edira/edira_api/shared/error/ApiError.java:15-32 | the key list of a serialised body, one key per property in order |
| ApiErrors.DetailsKeyOmittedWhenEmpty | src/main/java/com/edira/edira_api/shared/error/ApiError.java:28 | the `details` key is written exactly when details is non-empty; the keys follow record order |
| ApiErrors.SerializeRoundTrip | src/main/java/com/edira/edira_api/shared/error/ApiError.java:15-32 | reading a written body back gives the same error, including empty details for an omitted key |
| Exceptions.ToString | src/main/java/com/edira/edira_api/shared/error/NotFoundException.java:22-24 | a cause renders as its class name, followed by ": " and its message when it has one |
| Exceptions.WithMessage | src/main/java/com/edira/edira_api/shared/error/NotFoundException.java:14-16 | the message constructor keeps the message, null or empty as given, and leaves no cause (the same in all three classes) |
| Exceptions.WithMessageAndCause | src/main/java/com/edira/edira_api/shared/error/UnauthorizedException.java:18-20 | the message-and-cause constructor keeps both (the same in all three classes) |
| Exceptions.WithCause | src/main/java/com/edira/edira_api/shared/error/ForbiddenException.java:22-24 | the cause constructor keeps the cause; the message is the cause's `toString()`, or null for a null cause (the same in all three classes) |
| Exceptions.ConstructorsKeepMessageAndCause | src/test/java/com/edira/edira_api/shared/error/CustomExceptionsTest.java:18-180 | each constructor returns the message and cause it was given, an empty message included |
| GlobalExceptionHandler.EchoOr | src/main/java/com/edira/edira_api/shared/error/GlobalExceptionHandler.java:109-111 | the failure's message when it is non-null and not blank, otherwise the fallback |
| GlobalExceptionHandler.HandleMethodArgumentNotValid | src/main/java/com/edira/edira_api/shared/error/GlobalExceptionHandler.java:34-60 | 400 in both response and body, VALIDATION_ERROR, the fixed message, one detail per field error in order, the request URI as path |
| GlobalExceptionHandler.HandleConstraintViolation | src/main/java/com/edira/edira_api/shared/error/GlobalExceptionHandler.java:66-92 | 400 in both, VALIDATION_ERROR, the fixed message, one detail per violation in the set's iteration order, the request URI as path |
| GlobalExceptionHandler.HandleNotFound | src/main/java/com/edira/edira_api/shared/error/GlobalExceptionHandler.java:96-121 | 404 in both, NOT_FOUND, the failure's message if it is non-null and not blank, else "Recurso no encontrado.", no details |
| GlobalExceptionHandler.HandleIllegalArgument | src/main/java/com/edira/edira_api/shared/error/GlobalExceptionHandler.java:125-139 | 400 in both, BAD_REQUEST, the failure's message if it is non-null and not blank, else "Solicitud inválida.", no details |
| GlobalExceptionHandler.HandleDataIntegrity | src/main/java/com/edira/edira_api/shared/error/GlobalExceptionHandler.java:143-154 | 409 in both, CONFLICT, the fixed message, no details |
| GlobalExceptionHandler.HandleGeneric | src/main/java/com/edira/edira_api/shared/error/GlobalExceptionHandler.java:157-168 | 500 in both, INTERNAL_ERROR, the fixed message, no details |
| GlobalExceptionHandler.Handle | src/main/java/com/edira/edira_api/shared/error/GlobalExceptionHandler.java:34-168 | every failure is answered; the body's path is the request URI, and its id and timestamp are the ones supplied |
| GlobalExceptionHandler.Classify | src/main/java/com/edira/edira_api/shared/error/GlobalExceptionHandler.java:96-100 | a `NotFoundException` goes to the not-found handler and the other two application exceptions to the fallback, with their message |
| GlobalExceptionHandler.StatusIsCanonical | src/main/java/com/edira/edira_api/shared/error/GlobalExceptionHandler.java:46-59 | in every branch the response status equals `body.status`, which is the code's canonical status |
| GlobalExceptionHandler.CodeIdentifiesFailure | src/main/java/com/edira/edira_api/shared/error/GlobalExceptionHandler.java:48-164 | the code identifies the kind of failure, in both directions; the handler never answers UNAUTHORIZED or FORBIDDEN |
| GlobalExceptionHandler.DetailsOnlyForValidation | src/main/java/com/edira/edira_api/shared/error/GlobalExceptionHandler.java:113-164 | non-validation bodies have no details and no `details` key; validation bodies have one detail per reported failure |
| GlobalExceptionHandler.BodyValidationDetails | src/main/java/com/edira/edira_api/shared/error/GlobalExceptionHandler.java:39-52 | the body's details are exactly the mapped field errors |
| GlobalExceptionHandler.MessageNeverBlank | src/main/java/com/edira/edira_api/shared/error/GlobalExceptionHandler.java:50-163 | no body carries an empty or blank message |
| GlobalExceptionHandler.FixedMessagesDoNotEcho | src/main/java/com/edira/edira_api/shared/error/GlobalExceptionHandler.java:143-168 | the CONFLICT and INTERNAL_ERROR responses do not depend on the failure's text at all |
| GlobalExceptionHandler.NotFoundExceptionReachesClient | src/main/java/com/edira/edira_api/shared/error/NotFoundException.java:14-24 | a `NotFoundException` answers 404 and echoes its message, or the cause's `toString()`, when that has text |
| GlobalExceptionHandler.SecurityExceptionsFallBack | src/main/java/com/edira/edira_api/shared/error/ForbiddenException.java:10-20 | an `UnauthorizedException` or `ForbiddenException` thrown by a controller is answered 500 INTERNAL_ERROR |
| ApiErrorAuthenticationEntryPoint.Commence | src/main/java/com/edira/edira_api/security/ApiErrorAuthenticationEntryPoint.java:29-43 | a 401 UNAUTHORIZED body with the fixed message, the request URI, no details and a new id, whatever the exception; the response status equals the body's; JSON and UTF-8 are set; the body is written and reads back |
| ApiErrorAccessDeniedHandler.Handle | src/main/java/com/edira/edira_api/security/ApiErrorAccessDeniedHandler.java:24-38 | a 403 FORBIDDEN body with "Acceso denegado", the request URI, no details and a new id, whatever the exception; the response status equals the body's; JSON and UTF-8 are set; the body is written and reads back |
| SecurityConfig.ParsePattern | src/main/java/com/edira/edira_api/security/SecurityConfig.java:33-34 | a pattern ending in `/**` is the subtree of what precedes it; any other is an exact path |
| SecurityConfig.FirstMatch | src/main/java/com/edira/edira_api/security/SecurityConfig.java:32-36 | the index of the first rule whose patterns match, with no earlier rule matching; none only if no rule matches |
| SecurityConfig.RulesAsWritten | src/main/java/com/edira/edira_api/security/SecurityConfig.java:33-34 | the configured patterns are the health path and the api-docs, swagger-ui and admin subtrees |
| SecurityConfig.RuleMatchesAsIntended | src/main/java/com/edira/edira_api/security/SecurityConfig.java:33-35 | the first rule matches exactly the public paths, the second exactly the admin subtree, the third every path |
| SecurityConfig.PublicAndAdminDisjoint | src/main/java/com/edira/edira_api/security/SecurityConfig.java:33-34 | no public path is in the admin subtree |
| SecurityConfig.AuthorizeCharacterized | src/main/java/com/edira/edira_api/security/SecurityConfig.java:27-36 | allowed exactly when the path is public or the user is authenticated and, on the admin subtree, has ROLE_ADMIN; 401 exactly for anonymous on non-public paths; 403 exactly for non-admin users on the admin subtree |
| SecurityConfig.PublicPathsNeverChallenged | src/main/java/com/edira/edira_api/security/SecurityConfig.java:33 | the health and documentation paths are allowed for everyone, so they never produce 401 |
| SecurityConfig.AdminNeedsRole | src/main/java/com/edira/edira_api/security/SecurityConfig.java:34 | on the admin subtree a user with ROLE_ADMIN is allowed and one without it is denied (403) |
| SecurityConfig.AnonymousChallenged | src/main/java/com/edira/edira_api/security/SecurityConfig.java:28-35 | a request without credentials on any non-public path goes to the 401 entry point |
| SecurityConfig.AuthenticatedAllowedElsewhere | src/main/java/com/edira/edira_api/security/SecurityConfig.java:35 | any authenticated user is allowed outside the admin subtree |
| SecurityConfig.LaterRulesIgnored | src/main/java/com/edira/edira_api/security/SecurityConfig.java:32-36 | once a rule matches, rules appended after the chain do not change the first match |
| SecurityConfig.AppendedRulesDoNotChangeDecision | src/main/java/com/edira/edira_api/security/SecurityConfig.java:32-36 | the first matching rule decides: appending rules never changes the decision for a path that already matches |
| SecurityConfig.Filter | src/main/java/com/edira/edira_api/security/SecurityConfig.java:27-29 | an allowed request leaves status, content type, encoding, output and the issued ids untouched; a challenged one gets the entry point's 401 UNAUTHORIZED body and a denied one the handler's 403 FORBIDDEN body: fixed message, request URI as path, no details, a never-issued id, JSON in UTF-8, appended to the output and reading back as that body |

## Left out

- Logging: the `log.warn`/`log.error` calls of the handler and the entry point are side-effect I/O.
- Jackson's text output, `ObjectMapper.writeValue` and the servlet output stream: the body is kept as the properties it writes, and the timestamp and id as values (not as ISO-8601 and UUID strings).
- Time bounds on the timestamp: the clock is an input.
- Uuid: an id is a natural number. The 128-bit width and version-4 layout are not modelled; uniqueness comes from the generator rather than from probability.
- Spring's handler dispatch is replaced by the closed `Failure` type. The class hierarchy behind it is not modelled, including the fact that the three application exceptions are unchecked `RuntimeException`s, which has no counterpart in Dafny.
- `@ResponseStatus` on the exception classes: each of the three classes is handled by an `@ExceptionHandler` of the advice (`handleNotFound` for `NotFoundException`, `handleGeneric` for the other two) before the annotation could matter.
- CSRF, the session policy, HTTP Basic and credential checking: `Principal` is the result of authentication.
- Path-matcher internals: trailing slashes, the servlet context path, and URL decoding.
- The order of constraint violations: `getConstraintViolations()` is a `Set` with no defined order; the model's `seq` is one iteration order of it, and nothing is promised about which.
- `ErrorCode.valueOf(null)`: Java throws `NullPointerException`; the model's names are never null.
- Rendering of a Bean Validation property path: the path arrives as the string `getPropertyPath().toString()` gives.
- Null strings passed to the `ApiError` factories as message or path, and null elements in a details list, on which `List.copyOf` throws: no caller in the layer passes them, so the model's messages, paths and details are never null.
- Java strings are UTF-16; the model's strings are sequences of Unicode scalar values, and `isBlank` is applied per code point as Java does.
- Documentation annotations, the OpenAPI configuration and the probe controllers.
