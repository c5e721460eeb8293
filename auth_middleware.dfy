/** `AuthMiddleware`: finds the bearer token in the Authorization header,
    verifies it with the token library and attaches its claims to the request. */
module AuthMiddleware {
  import opened Errors
  import opened Jwt
  import opened ApiErrors

  /** `s.split(' ')`: the pieces between single spaces, empty pieces included. */
  function SplitSpace(s: string): (pieces: seq<string>)
    ensures |pieces| >= 1
    ensures forall i :: 0 <= i < |pieces| ==> ' ' !in pieces[i]
    decreases |s|
  {
    if s == [] then [[]]
    else
      var rest := SplitSpace(s[1..]);
      if s[0] == ' ' then [[]] + rest else [[s[0]] + rest[0]] + rest[1..]
  }

  /** A word without spaces splits into itself. */
  lemma {:induction false} SplitWord(w: string)
    requires ' ' !in w
    ensures SplitSpace(w) == [w]
    decreases |w|
  {
    if w != [] {
      assert ' ' !in w[1..] by {
        forall k | 0 <= k < |w[1..]| ensures w[1..][k] != ' ' { assert w[1..][k] == w[k + 1]; }
      }
      SplitWord(w[1..]);
      assert w[0] != ' ' && [w[0]] + w[1..] == w;
    }
  }

  /** Splitting at a first word splits off exactly that word. */
  lemma {:induction false} SplitAfterWord(w: string, t: string)
    requires ' ' !in w
    ensures SplitSpace(w + " " + t) == [w] + SplitSpace(t)
    decreases |w|
  {
    var s := w + " " + t;
    if w == [] {
      assert s[0] == ' ' && s[1..] == t;
    } else {
      assert ' ' !in w[1..] by {
        forall k | 0 <= k < |w[1..]| ensures w[1..][k] != ' ' { assert w[1..][k] == w[k + 1]; }
      }
      assert s[1..] == w[1..] + " " + t;
      SplitAfterWord(w[1..], t);
      assert [w[0]] + w[1..] == w;
    }
  }

  /** `req.headers.authorization?.split(' ')[1]`, kept only when truthy: the
      second space-separated piece of the header, whatever the first one is. */
  function BearerToken(header: Option<string>): (token: Option<string>)
    ensures token.Some? ==> header.Some? && token.value != [] && ' ' !in token.value
  {
    if header.None? then None
    else
      var pieces := SplitSpace(header.value);
      if |pieces| >= 2 && pieces[1] != [] then Some(pieces[1]) else None
  }

  /** "<scheme> <token>" yields the token for any scheme word. */
  lemma TokenAfterAnyScheme(scheme: string, token: string)
    requires ' ' !in scheme && ' ' !in token && token != []
    ensures BearerToken(Some(scheme + " " + token)) == Some(token)
  {
    SplitAfterWord(scheme, token);
    SplitWord(token);
  }

  /** The scheme word is never looked at: two headers that differ only in it
      give the same token. */
  lemma SchemeIsNotChecked(scheme1: string, scheme2: string, rest: string)
    requires ' ' !in scheme1 && ' ' !in scheme2
    ensures BearerToken(Some(scheme1 + " " + rest)) == BearerToken(Some(scheme2 + " " + rest))
  {
    SplitAfterWord(scheme1, rest);
    SplitAfterWord(scheme2, rest);
  }

  /** A header without a space has no second piece. */
  lemma NoSpaceNoToken(header: string)
    requires ' ' !in header
    ensures BearerToken(Some(header)) == None
  {
    SplitWord(header);
  }

  /** What the middleware decides for a request. */
  datatype Decision =
    | Preflight                      // OPTIONS: passed on untouched
    | Anonymous                      // no token: req.user = null
    | Authenticated(claims: Claims)  // token verified: req.user = claims
    | Rejected                       // token did not verify

  /** The decision for a request; `verify` is `jwt.verify` with the server's
      secret, None when it throws (bad signature, expired). */
  function Decide(httpMethod: string, header: Option<string>, verify: string -> Option<Claims>): (d: Decision)
    ensures d.Preflight? <==> httpMethod == "OPTIONS"
    ensures d.Authenticated? ==> BearerToken(header).Some? && verify(BearerToken(header).value) == Some(d.claims)
    ensures d.Rejected? ==> BearerToken(header).Some? && verify(BearerToken(header).value).None?
  {
    if httpMethod == "OPTIONS" then Preflight
    else match BearerToken(header)
      case None => Anonymous
      case Some(token) =>
        match verify(token)
        case Some(claims) => Authenticated(claims)
        case None => Rejected
  }

  /** Each outcome, stated by what it depends on: a preflight never reads the
      header; a request is rejected exactly when it carries a token that does
      not verify, and authenticated exactly with the claims of one that does. */
  lemma DecisionCases(httpMethod: string, header: Option<string>, verify: string -> Option<Claims>)
    ensures Decide(httpMethod, header, verify).Preflight? <==> httpMethod == "OPTIONS"
    ensures httpMethod == "OPTIONS" ==> forall h :: Decide(httpMethod, h, verify) == Preflight
    ensures Decide(httpMethod, header, verify).Anonymous?
            <==> httpMethod != "OPTIONS" && BearerToken(header).None?
    ensures Decide(httpMethod, header, verify).Rejected?
            <==> httpMethod != "OPTIONS" && BearerToken(header).Some? && verify(BearerToken(header).value).None?
    ensures forall c :: (Decide(httpMethod, header, verify) == Authenticated(c)
            <==> httpMethod != "OPTIONS" && BearerToken(header).Some? && verify(BearerToken(header).value) == Some(c))
    ensures header.None? && httpMethod != "OPTIONS" ==> Decide(httpMethod, header, verify) == Anonymous
  {
  }

  /** The request as the middleware sees it; `user` is `req.user`, None for
      null or not yet set. */
  class Request {
    const httpMethod: string
    const authorization: Option<string>
    var user: Option<Claims>

    constructor (httpMethod: string, authorization: Option<string>)
      ensures this.httpMethod == httpMethod && this.authorization == authorization && user.None?
    {
      this.httpMethod := httpMethod;
      this.authorization := authorization;
      user := None;
    }
  }

  /** How the middleware ends: `next()`, or an error handed on to the error
      handler. */
  datatype Next = Proceed | Fail(err: Thrown)

  /** The message of the middleware's catch block. */
  const NotAuthorized := "User is not authorized"

  /** The middleware. A token that fails verification lands in the catch
      block, whose `ApiError.unauthorized` call throws in turn; Express passes
      that TypeError on, so the request never proceeds. */
  method Authenticate(req: Request, verify: string -> Option<Claims>) returns (next: Next)
    modifies req`user
    ensures var d := Decide(req.httpMethod, req.authorization, verify);
            && (d.Preflight? ==> next == Proceed && req.user == old(req.user))
            && (d.Anonymous? ==> next == Proceed && req.user == None)
            && (d.Authenticated? ==> next == Proceed && req.user == Some(d.claims))
            && (d.Rejected? ==> next == Fail(Call(Unauthorized, NotAuthorized)) && req.user == old(req.user))
  {
    if req.httpMethod == "OPTIONS" {
      return Proceed;
    }
    var token := BearerToken(req.authorization);
    if token.None? {
      req.user := None;
      return Proceed;
    }
    var decoded := verify(token.value);
    if decoded.None? {
      return Fail(Call(Unauthorized, NotAuthorized));
    }
    req.user := decoded;
    return Proceed;
  }
}
