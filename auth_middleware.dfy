/**
 * The bearer-token middleware: take the second word of the Authorization
 * header, verify it, and admit the request only for an existing, active
 * user, recording that user's identity on the request.
 */
module AuthMiddleware {
  import opened Wrappers
  import opened Http
  import opened Jwt
  import opened UserModel
  import opened UserService

  const TOKEN_REQUIRED := "Access token is required"
  const USER_REJECTED := "User not found or account deactivated"

  /** The identity `req.user` carries: never the password. */
  datatype RequestUser = RequestUser(id: UserId, email: string, firstName: string, lastName: string)

  /**
   * `authHeader && authHeader.split(' ')[1]`: the header is given as its
   * space-separated words; a missing word or an empty one (two blanks in a
   * row) yields no token. The scheme word is never looked at.
   */
  function BearerToken(header: Option<seq<TokenText>>): (r: Option<TokenText>)
    ensures r.Some? <==> header.Some? && |header.value| >= 2 && header.value[1] != Other("")
    ensures r.Some? ==> r.value == header.value[1]
  {
    if header.Some? && |header.value| >= 2 && header.value[1] != Other("") then Some(header.value[1]) else None
  }

  function ClaimedId(c: Claims): UserId {
    match c
    case AccessClaims(id, _, _, _) => id
    case RefreshClaims(id) => id
  }

  /** The decision of `authenticateToken`: the identity to record, or the 401 reply. */
  function Authenticate(users: seq<User>, header: Option<seq<TokenText>>, key: string, now: nat): (r: Result<RequestUser, Response>)
    ensures r.Err? ==> r.error.status == 401
    ensures r.Err? ==> r.error.message in {TOKEN_REQUIRED, INVALID_TOKEN, USER_REJECTED}
    ensures BearerToken(header).None? ==> r == Err(Response(401, TOKEN_REQUIRED))
    ensures r.Ok? ==>
      BearerToken(header).Some? && Verify(BearerToken(header).value, key, now).Ok?
      && var id := ClaimedId(Verify(BearerToken(header).value, key, now).value);
         id < |users| && users[id].isActive
         && r.value == RequestUser(users[id].id, users[id].email, users[id].firstName, users[id].lastName)
  {
    var token := BearerToken(header);
    if token.None? then Err(Response(401, TOKEN_REQUIRED))
    else
      var decoded := Verify(token.value, key, now);
      if decoded.Err? then Err(Response(401, decoded.error))
      else
        var id := ClaimedId(decoded.value);
        if id >= |users| || !users[id].isActive then Err(Response(401, USER_REJECTED))
        else Ok(RequestUser(users[id].id, users[id].email, users[id].firstName, users[id].lastName))
  }

  /**
   * A request is admitted exactly when it carries a token signed with the
   * key, unexpired, whose id names an active user; a refresh token admits
   * just as an access token does, and a deactivated user is refused
   * whatever token is sent.
   */
  lemma AuthenticateMeaning(users: seq<User>, words: seq<TokenText>, key: string, now: nat)
    requires Consistent(users) && |words| >= 2 && words[1] != Other("")
    ensures Authenticate(users, Some(words), key, now).Ok? <==>
      words[1].Signed? && words[1].token.key == key && Seconds(now) < words[1].token.exp
      && ClaimedId(words[1].token.claims) < |users| && users[ClaimedId(words[1].token.claims)].isActive
    ensures Authenticate(users, Some(words), key, now).Ok? ==>
      Authenticate(users, Some(words), key, now).value.id == ClaimedId(words[1].token.claims)
    ensures forall id: nat, issued: nat, lifetime: nat ::
      id < |users| && Seconds(now) < Seconds(issued) + lifetime && words[1] == Sign(RefreshClaims(id), key, issued, lifetime) ==>
      (Authenticate(users, Some(words), key, now).Ok? <==> users[id].isActive)
  {
  }

  /** What the middleware leaves on the request, and whether the handler runs. */
  class Request {
    var user: Option<RequestUser>

    constructor ()
      ensures user.None?
    {
      user := None;
    }
  }

  /** `authenticateToken`: on success `req.user` is set and `next` runs; otherwise the 401 reply is sent and `req.user` is untouched. */
  method AuthenticateToken(req: Request, users: seq<User>, tokens: TokenService, header: Option<seq<TokenText>>, now: nat)
    returns (next: bool, reply: Option<Response>)
    requires tokens.WarnedOnce()
    modifies req, tokens
    ensures tokens.WarnedOnce()
    ensures var r := Authenticate(users, header, tokens.Secret(), now);
      (r.Ok? ==> next && reply.None? && req.user == Some(r.value))
      && (r.Err? ==> !next && reply == Some(r.error) && req.user == old(req.user))
  {
    var token := BearerToken(header);
    if token.None? {
      return false, Some(Response(401, TOKEN_REQUIRED));
    }
    var decoded := tokens.VerifyToken(token.value, now);
    if decoded.Err? {
      return false, Some(Response(401, decoded.error));
    }
    var id := ClaimedId(decoded.value);
    if id >= |users| || !users[id].isActive {
      return false, Some(Response(401, USER_REJECTED));
    }
    req.user := Some(RequestUser(users[id].id, users[id].email, users[id].firstName, users[id].lastName));
    next, reply := true, None;
  }
}
