/** The authentication gate in front of the protected routes: a Cookie
    header, a non-empty cookie under the configured name, and a token the
    codec accepts. Cookie parsing and the token codec are outside calls and
    arrive as functions: `parse` maps a header to its cookies, `decode` maps a
    token to its claims or to `None` for the codec's `false`. */
module IsAuthenticated {
  import opened Values
  import opened HttpError

  const CookieMissing := "Cookie não encontrado"
  const TokenMissing := "Token não encontrado"

  /** The value under `name` in the parsed header, if non-empty. */
  function NamedCookie(header: string, name: string, parse: string -> map<string, string>): (t: Option<string>)
    ensures t.Some? <==> name in parse(header) && parse(header)[name] != ""
    ensures t.Some? ==> t.value == parse(header)[name]
  {
    var cookies := parse(header);
    if name in cookies && cookies[name] != "" then Some(cookies[name]) else None
  }

  /** Claims the codec answered that the gate accepts: an object whose `err`
      property is falsy. */
  predicate Accepted(claims: Option<Record>)
  {
    claims.Some? && !Truthy(Get(claims.value, "err"))
  }

  /** The guard chain: the decoded claims, or the 401 it stops at. */
  function Gate(header: Option<string>, name: string, parse: string -> map<string, string>,
                decode: string -> Option<Record>): (r: Result<Record, Err>)
    ensures header.None? || header.value == "" ==> r == Fail(Err(401, CookieMissing))
    ensures header.Some? && header.value != "" && NamedCookie(header.value, name, parse).None? ==>
      r == Fail(Err(401, TokenMissing))
    ensures r.Ok? <==>
      header.Some? && header.value != "" && NamedCookie(header.value, name, parse).Some?
      && Accepted(decode(NamedCookie(header.value, name, parse).value))
    ensures r.Ok? ==> r == Ok(decode(NamedCookie(header.value, name, parse).value).value)
    ensures r.Fail? ==> r.error.status == 401
    ensures r.Fail? && r.error.message != CookieMissing && r.error.message != TokenMissing ==>
      r.error == Err(401, "Unauthorized")
  {
    if header.None? || header.value == "" then Fail(NewHttpError(401, CookieMissing))
    else
      match NamedCookie(header.value, name, parse)
      case None => Fail(NewHttpError(401, TokenMissing))
      case Some(token) =>
        var claims := decode(token);
        if !Accepted(claims) then
          UsedCodes();
          Fail(NewHttpError(401, ""))
        else Ok(claims.value)
  }

  /** Without a named cookie the codec is never consulted: any two decoders
      give the same verdict. */
  lemma NoTokenNoDecode(header: Option<string>, name: string, parse: string -> map<string, string>,
                        decode1: string -> Option<Record>, decode2: string -> Option<Record>)
    requires header.None? || header.value == "" || NamedCookie(header.value, name, parse).None?
    ensures Gate(header, name, parse, decode1) == Gate(header, name, parse, decode2)
    ensures Gate(header, name, parse, decode1).Fail?
  {
  }

  /** The codec sees exactly the named cookie's value: decoders that agree on
      it give the same verdict. */
  lemma DecodesNamedCookie(header: string, name: string, parse: string -> map<string, string>,
                           decode1: string -> Option<Record>, decode2: string -> Option<Record>)
    requires header != "" && name in parse(header)
    requires decode1(parse(header)[name]) == decode2(parse(header)[name])
    ensures Gate(Some(header), name, parse, decode1) == Gate(Some(header), name, parse, decode2)
  {
  }

  /** The request as the gate sees it: its Cookie header, and the claims the
      gate attaches. */
  class Request {
    const cookieHeader: Option<string>
    var auth: Option<Record>

    constructor(cookieHeader: Option<string>)
      ensures this.cookieHeader == cookieHeader && auth == None
    {
      this.cookieHeader := cookieHeader;
      auth := None;
    }
  }

  /** `isAuthenticated(req, res, next)`: on success the claims are attached to
      the request and `next()` is called without an error; otherwise the 401
      goes to `next(err)` and the request is left as it was. The result is the
      argument given to `next`. */
  method Authenticate(req: Request, name: string, parse: string -> map<string, string>,
                      decode: string -> Option<Record>) returns (next: Option<Err>)
    modifies req
    ensures var verdict := Gate(req.cookieHeader, name, parse, decode);
      (verdict.Ok? ==> next == None && req.auth == Some(verdict.value))
      && (verdict.Fail? ==> next == Some(verdict.error) && req.auth == old(req.auth))
  {
    var header := req.cookieHeader;
    if header.None? || header.value == "" {
      next := Some(NewHttpError(401, CookieMissing));
      return;
    }
    var cookies := parse(header.value);
    if name !in cookies || cookies[name] == "" {
      next := Some(NewHttpError(401, TokenMissing));
      return;
    }
    var decoded := decode(cookies[name]);
    if !Accepted(decoded) {
      next := Some(NewHttpError(401, ""));
      return;
    }
    req.auth := decoded;
    next := None;
  }
}
