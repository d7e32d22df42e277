/**
 * The token gate in front of every cart route (src/middlewares/auth.js).
 * The token is the second space-separated field of the `Authorization`
 * header; a missing or empty token is refused with 401, a token the
 * verifier rejects with 400, and otherwise the decoded claims are attached
 * to the request and the next handler runs. The JWT check itself is a
 * parameter: `verify` stands for `jwt.verify` with the server's secret.
 */
module Auth {
  import opened Wrappers

  /** The decoded JWT payload; the routes read its `id`. */
  datatype Claims = Claims(id: string)

  /** A status and a JSON `{ message }` body written by the gate. */
  datatype Reply = Reply(status: int, message: string)

  /** What the gate does with one request. */
  datatype Decision = Deny(reply: Reply) | Proceed(user: Claims)

  const NoTokenReply := Reply(401, "Access Denied: No Token Provided")
  const InvalidTokenReply := Reply(400, "Invalid Token")

  /** The fields joined back with single spaces. */
  function Join(fields: seq<string>): string
    requires |fields| >= 1
  {
    if |fields| == 1 then fields[0] else fields[0] + " " + Join(fields[1..])
  }

  /** `s.split(" ")`: the maximal space-free runs, empty ones included. */
  function Fields(s: string): (r: seq<string>)
    ensures |r| >= 1
    ensures forall k :: 0 <= k < |r| ==> ' ' !in r[k]
    ensures Join(r) == s
    ensures |r| == 1 <==> ' ' !in s
  {
    if s == [] then [""]
    else
      var rest := Fields(s[1..]);
      assert s == [s[0]] + s[1..];
      if s[0] == ' ' then
        assert ([""] + rest)[1..] == rest;
        [""] + rest
      else
        var r := [[s[0]] + rest[0]] + rest[1..];
        assert r[1..] == rest[1..];
        assert |rest| > 1 ==> Join(rest) == rest[0] + " " + Join(rest[1..]);
        assert |r| > 1 ==> Join(r) == ([s[0]] + rest[0]) + " " + Join(rest[1..]);
        r
  }

  /** `header?.split(" ")[1]`: undefined without a header or without a second field. */
  function Token(header: Option<string>): Option<string>
  {
    match header
    case None => None
    case Some(h) =>
      var fields := Fields(h);
      if |fields| >= 2 then Some(fields[1]) else None
  }

  /** The 401 / 400 / next branching, with `verify` in place of `jwt.verify`. */
  function Decide(header: Option<string>, verify: string -> Option<Claims>): Decision
  {
    match Token(header)
    case None => Deny(NoTokenReply)
    case Some(token) =>
      if token == "" then Deny(NoTokenReply)
      else
        match verify(token)
        case None => Deny(InvalidTokenReply)
        case Some(claims) => Proceed(claims)
  }

  // ---------------------------------------------------------------------
  // Splitting

  /** A word without spaces is one field. */
  lemma FieldsOfWord(a: string)
    requires ' ' !in a
    ensures Fields(a) == [a]
  {
  }

  /** A space-free word followed by a space splits off as the first field. */
  lemma {:induction false} FieldsCons(a: string, s: string)
    requires ' ' !in a
    ensures Fields(a + " " + s) == [a] + Fields(s)
  {
    if a == [] {
      assert a + " " + s == [' '] + s;
      assert (a + " " + s)[1..] == s;
    } else {
      assert (a + " " + s)[1..] == a[1..] + " " + s;
      assert a[0] != ' ' && ' ' !in a[1..] by { assert a == [a[0]] + a[1..]; }
      FieldsCons(a[1..], s);
      assert [a[0]] + a[1..] == a;
    }
  }

  /** Splitting undoes joining for space-free fields: the split is a faithful inverse. */
  lemma {:induction false} FieldsJoin(fields: seq<string>)
    requires |fields| >= 1
    requires forall k :: 0 <= k < |fields| ==> ' ' !in fields[k]
    ensures Fields(Join(fields)) == fields
  {
    if |fields| == 1 {
      FieldsOfWord(fields[0]);
    } else {
      FieldsJoin(fields[1..]);
      FieldsCons(fields[0], Join(fields[1..]));
      assert [fields[0]] + fields[1..] == fields;
    }
  }

  // ---------------------------------------------------------------------
  // Token extraction

  /** The token is the run after the first space; the scheme word before it is never looked at. */
  lemma TokenAfterScheme(scheme: string, token: string, rest: string)
    requires ' ' !in scheme && ' ' !in token
    ensures Token(Some(scheme + " " + token)) == Some(token)
    ensures Token(Some(scheme + " " + token + " " + rest)) == Some(token)
  {
    FieldsCons(scheme, token);
    FieldsOfWord(token);
    assert scheme + " " + token + " " + rest == scheme + " " + (token + " " + rest);
    FieldsCons(scheme, token + " " + rest);
    FieldsCons(token, rest);
  }

  /** A header is given a token exactly when it holds a space. */
  lemma TokenNeedsSpace(h: string)
    ensures Token(Some(h)).Some? <==> ' ' in h
  {
  }

  // ---------------------------------------------------------------------
  // The decision

  /** No header, no space, or an empty second field: 401 and nothing else. */
  lemma DenyWithoutToken(header: Option<string>, verify: string -> Option<Claims>)
    requires header.None? || ' ' !in header.value || Token(header) == Some("")
    ensures Decide(header, verify) == Deny(NoTokenReply)
  {
  }

  /** `"Bearer "` and a double space both leave the token empty. */
  lemma EmptyTokenHeaders(scheme: string, rest: string)
    requires ' ' !in scheme
    ensures Token(Some(scheme + " ")) == Some("")
    ensures Token(Some(scheme + "  " + rest)) == Some("")
  {
    TokenAfterScheme(scheme, "", "");
    assert scheme + " " + "" == scheme + " ";
    TokenAfterScheme(scheme, "", rest);
    assert scheme + " " + "" + " " + rest == scheme + "  " + rest;
  }

  /** A present token: 400 when verification fails, the decoded claims when it succeeds. */
  lemma DecideOnToken(header: Option<string>, verify: string -> Option<Claims>, token: string)
    requires Token(header) == Some(token) && token != ""
    ensures verify(token).None? ==> Decide(header, verify) == Deny(InvalidTokenReply)
    ensures verify(token).Some? ==> Decide(header, verify) == Proceed(verify(token).value)
  {
  }

  /** The request passes only with a non-empty token that verifies, and then carries its claims. */
  lemma ProceedOnlyVerified(header: Option<string>, verify: string -> Option<Claims>)
    ensures Decide(header, verify).Proceed? <==>
      Token(header).Some? && Token(header).value != "" && verify(Token(header).value).Some?
    ensures Decide(header, verify).Proceed? ==>
      Decide(header, verify).user == verify(Token(header).value).value
  {
  }

  /** Any scheme word, or none at all, gives the same outcome for the same token. */
  lemma SchemeIgnored(a: string, b: string, token: string, verify: string -> Option<Claims>)
    requires ' ' !in a && ' ' !in b && ' ' !in token
    ensures Decide(Some(a + " " + token), verify) == Decide(Some(b + " " + token), verify)
  {
    TokenAfterScheme(a, token, "");
    TokenAfterScheme(b, token, "");
  }

  // ---------------------------------------------------------------------
  // The middleware on a request

  /** The parts of an Express request/response pair the gate touches. */
  class Exchange {
    /** `req.header("Authorization")`. */
    const authorization: Option<string>
    /** `req.user`. */
    var user: Option<Claims>
    /** The response written, if any. */
    var reply: Option<Reply>
    /** How many times `next()` was called. */
    var nextCalls: nat

    constructor (authorization: Option<string>)
      ensures this.authorization == authorization
      ensures user == None && reply == None && nextCalls == 0
    {
      this.authorization := authorization;
      user := None;
      reply := None;
      nextCalls := 0;
    }
  }

  /**
   * `auth(req, res, next)`: either a reply is written, or `req.user` is set
   * and `next` is called once; never both, never neither.
   */
  method Authenticate(req: Exchange, verify: string -> Option<Claims>)
    modifies req
    ensures match Decide(req.authorization, verify)
      case Deny(reply) =>
        req.reply == Some(reply) && req.user == old(req.user) && req.nextCalls == old(req.nextCalls)
      case Proceed(claims) =>
        req.user == Some(claims) && req.nextCalls == old(req.nextCalls) + 1 && req.reply == old(req.reply)
  {
    var token := Token(req.authorization);
    if token.None? || token.value == "" {
      req.reply := Some(NoTokenReply);
      return;
    }
    var verified := verify(token.value);
    if verified.None? {
      req.reply := Some(InvalidTokenReply);
    } else {
      req.user := verified;
      req.nextCalls := req.nextCalls + 1;
    }
  }
}
