/**
 * `ApiErrorAuthenticationEntryPoint.java`: what the security filter chain
 * answers when a request has no valid credentials.
 */
module ApiErrorAuthenticationEntryPoint {
  import opened Wrappers
  import opened ErrorCodes
  import opened ApiErrors
  import opened Exceptions
  import opened Servlet
  import HttpStatus

  const Message: string := "No autenticado. Inicia sesión."

  /**
   * `commence`: builds a 401 UNAUTHORIZED body with a fresh id, sets the
   * status, content type and encoding, then writes the body. The
   * authentication exception does not influence the answer. `body` names
   * the error that was written.
   */
  method Commence(requestUri: string, response: HttpResponse, authException: Throwable, ids: IdSource, now: Instant)
    returns (ghost body: ApiError)
    requires ids.Valid()
    modifies response, ids
    ensures ids.Valid()
    ensures body == Of(HttpStatus.Unauthorized, Unauthorized, Message, requestUri, body.errorId, now)
    ensures body.errorId !in old(ids.issued) && ids.issued == old(ids.issued) + {body.errorId}
    ensures response.status == body.status
    ensures response.contentType == Some("application/json") && response.characterEncoding == Some("UTF-8")
    ensures response.output == old(response.output) + Serialize(body)
    ensures Deserialize(response.output[|old(response.output)|..]) == Some(body)
  {
    var path := requestUri;
    var status := HttpStatus.Unauthorized;
    var e := OfFresh(ids, status, Unauthorized, Message, path, now);
    response.SetStatus(status);
    response.SetContentType("application/json");
    response.SetCharacterEncoding("UTF-8");
    response.WriteValue(e);
    body := e;
    assert response.output[|old(response.output)|..] == Serialize(body);
    SerializeRoundTrip(body);
  }
}

/**
 * `ApiErrorAccessDeniedHandler.java`: what the security filter chain
 * answers when an authenticated user lacks the required role.
 */
module ApiErrorAccessDeniedHandler {
  import opened Wrappers
  import opened ErrorCodes
  import opened ApiErrors
  import opened Exceptions
  import opened Servlet
  import HttpStatus

  const Message: string := "Acceso denegado"

  /**
   * `handle`: builds a 403 FORBIDDEN body with a fresh id, sets the status,
   * content type and encoding, then writes the body. The access-denied
   * exception does not influence the answer.
   */
  method Handle(requestUri: string, response: HttpResponse, accessDeniedException: Throwable, ids: IdSource, now: Instant)
    returns (ghost body: ApiError)
    requires ids.Valid()
    modifies response, ids
    ensures ids.Valid()
    ensures body == Of(HttpStatus.Forbidden, Forbidden, Message, requestUri, body.errorId, now)
    ensures body.errorId !in old(ids.issued) && ids.issued == old(ids.issued) + {body.errorId}
    ensures response.status == body.status
    ensures response.contentType == Some("application/json") && response.characterEncoding == Some("UTF-8")
    ensures response.output == old(response.output) + Serialize(body)
    ensures Deserialize(response.output[|old(response.output)|..]) == Some(body)
  {
    var path := requestUri;
    var status := HttpStatus.Forbidden;
    var e := OfFresh(ids, status, Forbidden, Message, path, now);
    response.SetStatus(status);
    response.SetContentType("application/json");
    response.SetCharacterEncoding("UTF-8");
    response.WriteValue(e);
    body := e;
    assert response.output[|old(response.output)|..] == Serialize(body);
    SerializeRoundTrip(body);
  }
}
