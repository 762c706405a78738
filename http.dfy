/** The status codes the error layer uses (`HttpStatus` / `HttpServletResponse.SC_*`). */
module HttpStatus {
  const Ok: int := 200
  const BadRequest: int := 400
  const Unauthorized: int := 401
  const Forbidden: int := 403
  const NotFound: int := 404
  const Conflict: int := 409
  const InternalServerError: int := 500
}

/**
 * The part of a servlet `HttpServletResponse` the security adapters touch:
 * the status, the content type, the character encoding and what has been
 * written to the output stream (as the serialised properties of a body).
 */
module Servlet {
  import opened Wrappers
  import opened ApiErrors
  import HttpStatus

  class HttpResponse {
    var status: int
    var contentType: Option<string>
    var characterEncoding: Option<string>
    var output: seq<Property>

    /** A response nobody has touched yet: 200, no content type, no encoding, nothing written. */
    constructor ()
      ensures status == HttpStatus.Ok && contentType == None && characterEncoding == None && output == []
    {
      status := HttpStatus.Ok;
      contentType := None;
      characterEncoding := None;
      output := [];
    }

    method SetStatus(sc: int)
      modifies this
      ensures status == sc
      ensures contentType == old(contentType) && characterEncoding == old(characterEncoding) && output == old(output)
    {
      status := sc;
    }

    method SetContentType(t: string)
      modifies this
      ensures contentType == Some(t)
      ensures status == old(status) && characterEncoding == old(characterEncoding) && output == old(output)
    {
      contentType := Some(t);
    }

    method SetCharacterEncoding(enc: string)
      modifies this
      ensures characterEncoding == Some(enc)
      ensures status == old(status) && contentType == old(contentType) && output == old(output)
    {
      characterEncoding := Some(enc);
    }

    /** `objectMapper.writeValue(getOutputStream(), body)`: appends the serialised body. */
    method WriteValue(body: ApiError)
      modifies this
      ensures output == old(output) + Serialize(body)
      ensures status == old(status) && contentType == old(contentType) && characterEncoding == old(characterEncoding)
    {
      output := output + Serialize(body);
    }
  }
}
