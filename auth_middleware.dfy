/** The auth middleware of middleware/auth.js: which header's token is
    verified, and what the request carries afterwards. `verify` stands for
    `jwt.verify(token, "privateKey")`, `None` for the exception it throws. */
module AuthMiddleware {
  import opened Common

  /** `s.split(" ")`: the pieces between single spaces, empty ones kept. */
  function Split(s: string): (parts: seq<string>)
    ensures |parts| >= 1
    ensures forall i :: 0 <= i < |parts| ==> ' ' !in parts[i]
    decreases |s|
  {
    if s == [] then [[]]
    else if s[0] == ' ' then [[]] + Split(s[1..])
    else
      var rest := Split(s[1..]);
      [[s[0]] + rest[0]] + rest[1..]
  }

  /** The pieces glued back together with single spaces. */
  function Join(parts: seq<string>): string
  {
    if |parts| == 0 then []
    else if |parts| == 1 then parts[0]
    else parts[0] + " " + Join(parts[1..])
  }

  /** Splitting loses nothing: joining the pieces gives back the header. */
  lemma {:induction false} JoinSplit(s: string)
    ensures Join(Split(s)) == s
    decreases |s|
  {
    if s == [] {
    } else if s[0] == ' ' {
      JoinSplit(s[1..]);
      var rest := Split(s[1..]);
      assert Split(s) == [[]] + rest;
      assert Join(Split(s)) == [] + " " + Join(rest);
    } else {
      JoinSplit(s[1..]);
      var rest := Split(s[1..]);
      if |rest| == 1 {
        assert Split(s) == [[s[0]] + rest[0]];
      } else {
        var parts := [[s[0]] + rest[0]] + rest[1..];
        assert Split(s) == parts;
        assert parts[1..] == rest[1..];
        assert Join(rest) == rest[0] + " " + Join(rest[1..]);
        assert Join(parts) == [s[0]] + rest[0] + " " + Join(rest[1..]);
      }
    }
  }

  /** A word without spaces in front of text that starts with a space (or is
      empty) is the first piece, and the rest is split on its own. */
  lemma {:induction false} SplitAfterWord(w: string, rest: string)
    requires ' ' !in w
    requires rest == [] || rest[0] == ' '
    ensures Split(w + rest)[0] == w
    ensures rest == [] ==> Split(w + rest) == [w]
    ensures rest != [] ==> Split(w + rest) == [w] + Split(rest[1..])
    decreases |w|
  {
    if w == [] {
      assert w + rest == rest;
    } else {
      assert w[0] != ' ';
      assert (w + rest)[1..] == w[1..] + rest;
      SplitAfterWord(w[1..], rest);
      assert [w[0]] + w[1..] == w;
    }
  }

  /** `authorization.split(" ")[1]` of "Bearer <t> ..." is <t>. */
  lemma SecondWord(scheme: string, t: string, rest: string)
    requires ' ' !in scheme && ' ' !in t
    requires rest == [] || rest[0] == ' '
    ensures |Split(scheme + " " + t + rest)| >= 2
    ensures Split(scheme + " " + t + rest)[1] == t
  {
    var tail := t + rest;
    var r := " " + tail;
    assert scheme + " " + t + rest == scheme + r;
    assert r[0] == ' ' && r[1..] == tail;
    SplitAfterWord(scheme, r);
    SplitAfterWord(t, rest);
    assert Split(scheme + r) == [scheme] + Split(tail);
  }

  /** A header value JavaScript treats as true: present and not "". */
  predicate Truthy(v: Option<string>)
  {
    v.Some? && v.value != ""
  }

  /** The `swagger` variable: the second piece of a truthy `authorization`
      header, `undefined` when there is none. */
  function BearerPart(authorization: Option<string>): (t: Option<string>)
    ensures t.Some? ==> Truthy(authorization) && |Split(authorization.value)| >= 2
                        && t.value == Split(authorization.value)[1]
    ensures Truthy(authorization) && |Split(authorization.value)| >= 2 ==> t.Some?
  {
    if Truthy(authorization) && |Split(authorization.value)| >= 2
    then Some(Split(authorization.value)[1]) else None
  }

  /** The token `jwt.verify` is called on, or `None` for the 401 "no token"
      answer. A truthy `x-auth-token` wins even when `authorization` is also
      sent; otherwise the second word of `authorization`, if truthy. */
  function SelectToken(xAuthToken: Option<string>, authorization: Option<string>): (t: Option<string>)
    ensures Truthy(xAuthToken) ==> t == xAuthToken
    ensures !Truthy(xAuthToken) && Truthy(BearerPart(authorization)) ==> t == BearerPart(authorization)
    ensures t.None? <==> !Truthy(xAuthToken) && !Truthy(BearerPart(authorization))
    ensures t.Some? ==> t.value != ""
  {
    var swagger := BearerPart(authorization);
    if !Truthy(xAuthToken) && !Truthy(swagger) then None
    else if !Truthy(xAuthToken) then swagger
    else xAuthToken
  }

  /** With only `authorization: <scheme> <t>` sent, `t` is verified. */
  lemma BearerHeaderSelected(scheme: string, t: string, rest: string)
    requires ' ' !in scheme && ' ' !in t && t != ""
    requires rest == [] || rest[0] == ' '
    ensures SelectToken(None, Some(scheme + " " + t + rest)) == Some(t)
  {
    SecondWord(scheme, t, rest);
  }

  /** A lone word in `authorization` carries no token: 401. */
  lemma SingleWordHeaderRejected(w: string)
    requires ' ' !in w
    ensures SelectToken(None, Some(w)) == None
  {
    SplitAfterWord(w, []);
    assert w + [] == w;
  }

  /** What the middleware does with the request: `next()`, or an answer. */
  datatype Outcome = Proceed | Reject(status: Status)

  /** The parts of an incoming request the middleware touches. */
  class Request {
    /** header name (lower case) to value; `req.header` is `None` when absent */
    var headers: map<string, string>
    /** `req.user`; not yet set on arrival */
    var user: Option<Claims>

    constructor (headers: map<string, string>)
      ensures this.headers == headers && user == None
    {
      this.headers := headers;
      user := None;
    }

    function Header(name: string): (v: Option<string>)
      reads this
      ensures v.Some? <==> name in headers
      ensures v.Some? ==> v.value == headers[name]
    {
      if name in headers then Some(headers[name]) else None
    }
  }

  /** The middleware: 401 without a token, 400 "Invalid token" when
      verification fails (the user is then left unset), otherwise
      `req.user` becomes the decoded payload and the handler runs. */
  method Authenticate(req: Request, verify: string -> Option<Claims>) returns (outcome: Outcome)
    modifies req`user
    ensures var t := SelectToken(req.Header("x-auth-token"), req.Header("authorization"));
      && (t.None? ==> outcome == Reject(Unauthorized) && req.user == old(req.user))
      && (t.Some? && verify(t.value).None? ==> outcome == Reject(BadRequest) && req.user == old(req.user))
      && (t.Some? && verify(t.value).Some? ==> outcome == Proceed && req.user == verify(t.value))
  {
    var token := req.Header("x-auth-token");
    var swagger := BearerPart(req.Header("authorization"));
    if !Truthy(token) && !Truthy(swagger) {
      return Reject(Unauthorized);
    }
    var key := if !Truthy(token) then swagger.value else token.value;
    var decoded := verify(key);
    if decoded.None? {
      return Reject(BadRequest);
    }
    req.user := decoded;
    return Proceed;
  }
}
