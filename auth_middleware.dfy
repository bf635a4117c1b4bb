/** The `protect` middleware of the backend: it reads a bearer token from
    the Authorization header, verifies it, loads the user it names, and
    either passes the request on with that user attached or answers 401.
    Token verification and the user lookup are parameters. */
module AuthMiddleware {
  import opened Text
  import opened Js

  const BearerPrefix: string := "Bearer "

  /** `authHeader.split(' ')[1]` once the header starts with "Bearer ":
      the text after the prefix up to the next space. */
  function BearerToken(header: string): (token: Option<string>)
    ensures token.Some? <==> StartsWith(header, BearerPrefix)
    ensures token.Some? ==> token.value == UpTo(header[|BearerPrefix|..], ' ')
  {
    if !StartsWith(header, BearerPrefix) then None
    else
      SplitBearer(header);
      Some(Split(header, ' ')[1])
  }

  /** A header starting with "Bearer " splits into "Bearer", then the
      pieces of the rest. */
  lemma SplitBearer(header: string)
    requires StartsWith(header, BearerPrefix)
    ensures Split(header, ' ') == ["Bearer"] + Split(header[|BearerPrefix|..], ' ')
    ensures Split(header, ' ')[1] == UpTo(header[|BearerPrefix|..], ' ')
  {
    var rest := header[|BearerPrefix|..];
    assert header == "Bearer" + [' '] + rest;
    SplitAfterWord("Bearer", ' ', rest);
    SplitFirst(rest, ' ');
  }

  /** Examples: the token stops at the next space, may be empty, and the
      prefix is matched with its case and its single space. */
  lemma BearerExamples()
    ensures BearerToken("Bearer a b") == Some("a")
    ensures BearerToken("Bearer ") == Some("")
    ensures BearerToken("Bearer  x") == Some("")
    ensures BearerToken("bearer x") == None
    ensures BearerToken("Bearer") == None
  {
    assert "Bearer a b"[7..] == "a b";
    assert UpTo("a b", ' ') == "a";
    assert "Bearer "[7..] == "";
    assert "Bearer  x"[7..] == " x";
    assert "bearer x"[0] != "Bearer "[0];
  }

  datatype User = User(id: string, role: string)

  /** How the user lookup ended: a user, no user, or a thrown error. */
  datatype Lookup = Found(user: User) | NoUser | LookupFailed

  /** The middleware's decision: call `next` with the user attached, or
      answer 401 with a message. */
  datatype Decision = Next(user: User) | Unauthorized(message: string)

  const NoToken: string := "Not authorized, no token"
  const TokenFailed: string := "Not authorized, token failed"
  const UserNotFound: string := "User not found"

  /** `protect`, with `verify` giving the id a token decodes to (None when
      `jwt.verify` throws) and `findUser` the lookup of that id. A missing
      header counts as empty. */
  function Protect(authorization: Option<string>, verify: string -> Option<string>, findUser: string -> Lookup)
    : (d: Decision)
    ensures BearerToken(OrEmpty(authorization)).None? ==> d == Unauthorized(NoToken)
    ensures d.Next? <==>
              BearerToken(OrEmpty(authorization)).Some? &&
              verify(BearerToken(OrEmpty(authorization)).value).Some? &&
              findUser(verify(BearerToken(OrEmpty(authorization)).value).value).Found?
    ensures d.Next? ==> d.user == findUser(verify(BearerToken(OrEmpty(authorization)).value).value).user
    ensures var token := BearerToken(OrEmpty(authorization));
            token.Some? && verify(token.value).None? ==> d == Unauthorized(TokenFailed)
    ensures var token := BearerToken(OrEmpty(authorization));
            token.Some? && verify(token.value).Some? && findUser(verify(token.value).value).NoUser? ==>
              d == Unauthorized(UserNotFound)
    ensures var token := BearerToken(OrEmpty(authorization));
            token.Some? && verify(token.value).Some? && findUser(verify(token.value).value).LookupFailed? ==>
              d == Unauthorized(TokenFailed)
    ensures d.Unauthorized? ==> d.message in {NoToken, TokenFailed, UserNotFound}
  {
    var token := BearerToken(OrEmpty(authorization));
    if token.None? then Unauthorized(NoToken)
    else
      var decoded := verify(token.value);
      if decoded.None? then Unauthorized(TokenFailed)
      else
        match findUser(decoded.value)
        case Found(u) => Next(u)
        case NoUser => Unauthorized(UserNotFound)
        case LookupFailed => Unauthorized(TokenFailed)
  }

  /** Without an Authorization header the request is refused before any
      token is verified. */
  lemma MissingHeaderRefused(verify: string -> Option<string>, findUser: string -> Lookup)
    ensures Protect(None, verify, findUser) == Unauthorized(NoToken)
  {
    assert !StartsWith("", BearerPrefix);
  }

  /** A request as the middleware sees it; `user` is `req.user`. */
  class Request {
    var authorization: Option<string>
    var user: Option<User>

    constructor (authorization: Option<string>)
      ensures this.authorization == authorization && user == None
    {
      this.authorization := authorization;
      user := None;
    }

    /** Runs `protect` on this request: `req.user` is set exactly when the
        request is passed on, and to the user found. */
    method RunProtect(verify: string -> Option<string>, findUser: string -> Lookup) returns (d: Decision)
      modifies this
      ensures d == Protect(authorization, verify, findUser)
      ensures d.Next? ==> user == Some(d.user)
      ensures d.Unauthorized? ==> user == old(user)
      ensures authorization == old(authorization)
    {
      d := Protect(authorization, verify, findUser);
      if d.Next? {
        user := Some(d.user);
      }
    }
  }
}
