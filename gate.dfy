/** The request gates of the item service (item-service/middleware/auth.js):
    `auth` authenticates a request by asking the remote auth service about its
    `x-auth-token` header, and `admin` lets a request through only when the
    claim that `auth` attached has the role "admin". */
module Gate {
  import opened Wrappers
  import Http

  /** The identity the auth service answers with: `{ id, role }`. */
  datatype Claim = Claim(id: string, role: string)

  /** What the remote verification call gives back for one token: the claim in
      the response body, or a failure of any kind (a rejected token, an
      unreachable service, a non-success status). */
  datatype VerifyResult = Verified(claim: Claim) | VerifyFailed

  /** A response a gate sends instead of passing the request on. */
  datatype Reply = Reply(status: int, msg: string)

  /** What a gate (or a chain of gates) decides: pass the request on to the next
      handler with the claim attached, or answer it. */
  datatype Decision = Continue(claim: Claim) | Reject(reply: Reply)

  const AdminRole: string := "admin"

  const NoTokenMsg: string := "No token, authorization denied"
  const InvalidTokenMsg: string := "Token is not valid"
  const NotAdminMsg: string := "Access denied. Not an admin."

  /** A header value that JavaScript treats as true: present and not empty. */
  predicate HasToken(token: Option<string>)
  {
    token.Some? && token.value != ""
  }

  /** `auth` as a decision over the header and the verifier's answers. */
  function Authenticate(token: Option<string>, verify: string -> VerifyResult): (d: Decision)
    ensures d.Continue? <==> HasToken(token) && verify(token.value).Verified?
    ensures d.Continue? ==> d.claim == verify(token.value).claim
    ensures !HasToken(token) ==> d == Reject(Reply(Http.Unauthorized, NoTokenMsg))
    ensures HasToken(token) && verify(token.value).VerifyFailed? ==>
              d == Reject(Reply(Http.Unauthorized, InvalidTokenMsg))
  {
    if !HasToken(token) then
      Reject(Reply(Http.Unauthorized, NoTokenMsg))
    else
      match verify(token.value)
      case Verified(claim) => Continue(claim)
      case VerifyFailed => Reject(Reply(Http.Unauthorized, InvalidTokenMsg))
  }

  /** Without a usable token the verifier is never consulted: any two verifiers
      give the same decision. */
  lemma AuthenticateIgnoresVerifierWithoutToken(token: Option<string>,
                                                 v1: string -> VerifyResult,
                                                 v2: string -> VerifyResult)
    requires !HasToken(token)
    ensures Authenticate(token, v1) == Authenticate(token, v2)
    ensures Authenticate(token, v1).Reject? && Authenticate(token, v1).reply.status == Http.Unauthorized
  {
  }

  /** With a token, the verifier is consulted about that token and nothing else. */
  lemma AuthenticateConsultsOnlyTheToken(token: Option<string>,
                                          v1: string -> VerifyResult,
                                          v2: string -> VerifyResult)
    requires HasToken(token) && v1(token.value) == v2(token.value)
    ensures Authenticate(token, v1) == Authenticate(token, v2)
  {
  }

  /** `admin` as a decision over the attached claim. */
  function Authorize(user: Claim): (d: Decision)
    ensures d.Continue? <==> user.role == AdminRole
    ensures d.Continue? ==> d.claim == user
    ensures d.Reject? ==> d.reply == Reply(Http.Forbidden, NotAdminMsg)
  {
    if user.role != AdminRole then Reject(Reply(Http.Forbidden, NotAdminMsg)) else Continue(user)
  }

  /** Runs the next gate only when the previous one let the request through,
      as Express does with a middleware array. */
  function AndThen(first: Decision, next: Claim -> Decision): (d: Decision)
    ensures first.Reject? ==> d == first
    ensures first.Continue? ==> d == next(first.claim)
  {
    match first
    case Reject(reply) => Reject(reply)
    case Continue(claim) => next(claim)
  }

  /** The `[auth, admin]` chain of the admin routes. */
  function AuthThenAdmin(token: Option<string>, verify: string -> VerifyResult): (d: Decision)
    ensures d.Continue? <==>
              HasToken(token) && verify(token.value).Verified? && verify(token.value).claim.role == AdminRole
    ensures d.Continue? ==> d.claim == verify(token.value).claim
    ensures d.Reject? ==> d.reply.status == Http.Unauthorized || d.reply.status == Http.Forbidden
    ensures d.Reject? && d.reply.status == Http.Forbidden <==>
              HasToken(token) && verify(token.value).Verified? && verify(token.value).claim.role != AdminRole
  {
    AndThen(Authenticate(token, verify), Authorize)
  }

  /** The part of an Express request the gates read and write. */
  class Request {
    /** The `x-auth-token` header, if the client sent one. */
    const token: Option<string>
    /** `req.user`, attached by `auth`. */
    var user: Option<Claim>
    /** The response a gate sent, if one did. */
    var sent: Option<Reply>

    constructor (token: Option<string>)
      ensures this.token == token && user == None && sent == None
    {
      this.token := token;
      user := None;
      sent := None;
    }

    /** `auth`: answers 401 without a token or when verification fails;
        otherwise attaches the verified claim and passes the request on. */
    method Auth(verify: string -> VerifyResult) returns (next: bool)
      modifies this
      ensures next <==> Authenticate(token, verify).Continue?
      ensures next ==> user == Some(Authenticate(token, verify).claim) && sent == old(sent)
      ensures !next ==> sent == Some(Authenticate(token, verify).reply) && user == old(user)
    {
      if token.None? || token.value == "" {
        sent := Some(Reply(Http.Unauthorized, NoTokenMsg));
        return false;
      }
      var answer := verify(token.value);
      match answer {
        case VerifyFailed =>
          sent := Some(Reply(Http.Unauthorized, InvalidTokenMsg));
          next := false;
        case Verified(claim) =>
          user := Some(claim);
          next := true;
      }
    }

    /** `admin`: answers 403 unless the attached claim's role is "admin";
        otherwise passes the request on unchanged. */
    method Admin() returns (next: bool)
      requires user.Some?
      modifies this`sent
      ensures next <==> Authorize(user.value).Continue?
      ensures next ==> sent == old(sent)
      ensures !next ==> sent == Some(Authorize(user.value).reply)
    {
      if user.value.role != AdminRole {
        sent := Some(Reply(Http.Forbidden, NotAdminMsg));
        return false;
      }
      next := true;
    }
  }
}
