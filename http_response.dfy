/** The part of an Express response that the handlers drive: its status, the
    `Location` of a redirect, the cookies it sets or clears, and its body.
    Header serialisation is not modelled; each call is recorded as the
    handler made it. */
module Express {
  import opened Values
  import opened HttpError

  /** The options a handler passes to `res.cookie` / `res.clearCookie`. */
  datatype CookieOptions = CookieOptions(httpOnly: bool, secure: bool, sameSite: Option<string>, maxAge: Option<int>)

  datatype CookieChange =
    | CookieSet(name: string, value: string, options: CookieOptions)
    | CookieCleared(name: string, options: CookieOptions)

  /** What has been sent: nothing yet, a JSON document, or the bare status
      (`res.sendStatus`). */
  datatype Payload = NoPayload | JsonPayload(json: Json) | StatusPayload(code: int)

  /** How a request handler ends: it answers with `res.json`, or it hands an
      error to `next(err)` for the central responder. */
  datatype Answer = JsonAnswer(body: Json) | NextError(error: Err)

  class Response {
    var statusCode: int
    var location: Option<string>
    var cookies: seq<CookieChange>
    var payload: Payload

    /** A fresh response: status 200, no redirect, no cookies, nothing sent. */
    constructor()
      ensures statusCode == 200 && location == None && cookies == [] && payload == NoPayload
    {
      statusCode := 200;
      location := None;
      cookies := [];
      payload := NoPayload;
    }

    /** `res.status(code)`. */
    method Status(code: int)
      modifies this
      ensures statusCode == code
      ensures location == old(location) && cookies == old(cookies) && payload == old(payload)
    {
      statusCode := code;
    }

    /** `res.json(body)`: sends the document with the current status. */
    method SendJson(body: Json)
      modifies this
      ensures payload == JsonPayload(body)
      ensures statusCode == old(statusCode) && location == old(location) && cookies == old(cookies)
    {
      payload := JsonPayload(body);
    }

    /** `res.sendStatus(code)`: sets the status and sends it as the body. */
    method SendStatus(code: int)
      modifies this
      ensures statusCode == code && payload == StatusPayload(code)
      ensures location == old(location) && cookies == old(cookies)
    {
      statusCode := code;
      payload := StatusPayload(code);
    }

    /** `res.redirect(url)`: a 302 whose `Location` is `url`. */
    method Redirect(url: string)
      modifies this
      ensures statusCode == 302 && location == Some(url)
      ensures cookies == old(cookies) && payload == old(payload)
    {
      statusCode := 302;
      location := Some(url);
    }

    /** `res.cookie(name, value, options)`. */
    method Cookie(name: string, value: string, options: CookieOptions)
      modifies this
      ensures cookies == old(cookies) + [CookieSet(name, value, options)]
      ensures statusCode == old(statusCode) && location == old(location) && payload == old(payload)
    {
      cookies := cookies + [CookieSet(name, value, options)];
    }

    /** `res.clearCookie(name, options)`. */
    method ClearCookie(name: string, options: CookieOptions)
      modifies this
      ensures cookies == old(cookies) + [CookieCleared(name, options)]
      ensures statusCode == old(statusCode) && location == old(location) && payload == old(payload)
    {
      cookies := cookies + [CookieCleared(name, options)];
    }
  }
}
