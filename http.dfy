/** The HTTP status codes the item service answers with (RFC 9110). */
module Http {

  /** 200 OK (section 15.3.1 of RFC 9110): Express's default status for `res.json`. */
  const OK: int := 200

  /** 201 Created (section 15.3.2 of RFC 9110): a report was stored. */
  const Created: int := 201

  /** 401 Unauthorized (section 15.5.2 of RFC 9110): no token, or the token was not verified. */
  const Unauthorized: int := 401

  /** 403 Forbidden (section 15.5.4 of RFC 9110): authenticated, but not an admin. */
  const Forbidden: int := 403

  /** 404 Not Found (section 15.5.5 of RFC 9110): no item has the requested id. */
  const NotFound: int := 404
}
