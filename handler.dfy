/** The application's wiring: controllers mounted from the files of a folder,
    the central error responder and the fallback for unmatched routes. The
    file system is an outside call: the folder's listing arrives as a value,
    `None` when the folder does not exist. */
module Handler {
  import opened Values
  import opened HttpError
  import opened Express

  // ----- controllers() -----

  /** `name.split('.')[0]`: the text before the first dot, or all of it. */
  function BeforeDot(name: string): (r: string)
    ensures |r| <= |name| && name[..|r|] == r
    ensures forall i :: 0 <= i < |r| ==> r[i] != '.'
    ensures |r| < |name| ==> name[|r|] == '.'
  {
    if name == [] || name[0] == '.' then ""
    else [name[0]] + BeforeDot(name[1..])
  }

  /** The controller names a listing yields: the entries ending in `.js`, in
      listing order, each cut at its first dot. */
  function ControllerNames(listing: seq<string>): (names: seq<string>)
    ensures |names| <= |listing|
  {
    if listing == [] then []
    else
      (if EndsWith(listing[0], ".js") then [BeforeDot(listing[0])] else [])
      + ControllerNames(listing[1..])
  }

  /** Every controller name comes from a `.js` entry, and every `.js` entry
      gives its name. */
  lemma {:induction false} ControllerNamesFromScripts(listing: seq<string>)
    ensures forall n :: n in ControllerNames(listing) ==>
      exists f :: f in listing && EndsWith(f, ".js") && n == BeforeDot(f)
    ensures forall f :: f in listing && EndsWith(f, ".js") ==> BeforeDot(f) in ControllerNames(listing)
  {
    if listing != [] {
      ControllerNamesFromScripts(listing[1..]);
      forall f | f in listing[1..]
        ensures f in listing
      {
      }
    }
  }

  /** A registered route: the path it answers under and the module loaded
      for it. */
  datatype Mount = Mount(route: string, script: string)

  function MountOf(folder: string, name: string): (m: Mount)
    ensures m.route == "/" + name && m.script == folder + "/" + name
  {
    Mount("/" + name, folder + "/" + name)
  }

  /** The mounts for `names`, in order. */
  function Mounts(folder: string, names: seq<string>): (ms: seq<Mount>)
    ensures |ms| == |names|
    ensures forall i :: 0 <= i < |names| ==> ms[i] == MountOf(folder, names[i])
  {
    seq(|names|, i requires 0 <= i < |names| => MountOf(folder, names[i]))
  }

  lemma InternalServerErrorText()
    ensures NewHttpError(500, "") == Err(500, "InternalServerError")
  {
    UsedCodes();
  }

  class App {
    /** The routes registered with `app.use`, in order. */
    var mounts: seq<Mount>
    /** The errors handed to the monitor, in order. */
    var reported: seq<Err>

    constructor()
      ensures mounts == [] && reported == []
    {
      mounts := [];
      reported := [];
    }

    /** `controllers()`: mounts every `.js` file of the folder at `/` plus
        its name before the first dot. A missing folder setting or a folder
        that does not exist is reported as a 500 and swallowed: nothing is
        mounted and nothing is thrown. */
    method Controllers(folder: Option<string>, listing: Option<seq<string>>)
      modifies this
      ensures folder.None? || folder.value == "" || listing.None? ==>
        mounts == old(mounts) && reported == old(reported) + [Err(500, "InternalServerError")]
      ensures folder.Some? && folder.value != "" && listing.Some? ==>
        mounts == old(mounts) + Mounts(folder.value, ControllerNames(listing.value))
        && reported == old(reported)
    {
      if folder.None? || folder.value == "" || listing.None? {
        InternalServerErrorText();
        reported := reported + [NewHttpError(500, "")];
        return;
      }
      var names := ControllerNames(listing.value);
      var k := 0;
      while k < |names|
        invariant 0 <= k <= |names|
        invariant mounts == old(mounts) + Mounts(folder.value, names[..k])
        invariant reported == old(reported)
      {
        assert names[..k + 1] == names[..k] + [names[k]];
        mounts := mounts + [MountOf(folder.value, names[k])];
        k := k + 1;
      }
      assert names[..k] == names;
    }
  }

  // ----- the error responder and the 404 fallback -----

  /** What the responder sends: the HTTP status, the text in the body, and
      whether the monitor is told. */
  datatype ErrorResponse = ErrorResponse(statusCode: int, statusText: string, notify: bool)

  /** The central responder: the error's status or 500; the error's message,
      else the status's name, else `InternalServerError`; the monitor hears
      of every 500. */
  function Respond(err: Err): (r: ErrorResponse)
    ensures r.statusCode == (if err.status != 0 then err.status else 500)
    ensures err.message != "" ==> r.statusText == err.message
    ensures err.message == "" && StatusName(r.statusCode).Some? ==> r.statusText == StatusName(r.statusCode).value
    ensures err.message == "" && StatusName(r.statusCode).None? ==> r.statusText == "InternalServerError"
    ensures r.notify <==> r.statusCode == 500
    ensures r.statusText != ""
  {
    var statusCode := if err.status != 0 then err.status else 500;
    var statusText :=
      if err.message != "" then err.message
      else
        (match StatusName(statusCode)
         case Some(name) => name
         case None => "InternalServerError");
    ErrorResponse(statusCode, statusText, statusCode == 500)
  }

  /** The body the responder sends: exactly `{statusCode, statusText}`. */
  function ErrorBody(r: ErrorResponse): (j: Json)
    ensures j.JsonObject? && j.fields.Keys == {"statusCode", "statusText"}
    ensures j.fields["statusCode"] == JsonScalar(Num(r.statusCode))
    ensures j.fields["statusText"] == JsonScalar(Str(r.statusText))
  {
    JsonObject(map["statusCode" := JsonScalar(Num(r.statusCode)), "statusText" := JsonScalar(Str(r.statusText))])
  }

  /** An error built by `HttpError` reaches the client with its own status
      and text; the monitor hears of it only when that status is 500. */
  lemma HttpErrorsKeepStatusAndText(statusCode: int, message: string)
    ensures var e := NewHttpError(statusCode, message);
      e.message != "" ==> Respond(e) == ErrorResponse(e.status, e.message, e.status == 500)
    ensures statusCode != 0 && message != "" ==>
      Respond(NewHttpError(statusCode, message)) == ErrorResponse(statusCode, message, statusCode == 500)
  {
  }

  /** An error without a status (a database error, a `TypeError`) is a 500
      the monitor hears of, and its own message is sent. */
  lemma UntypedErrorsAre500(message: string)
    ensures Respond(Err(0, message)).statusCode == 500 && Respond(Err(0, message)).notify
    ensures message != "" ==> Respond(Err(0, message)).statusText == message
    ensures message == "" ==> Respond(Err(0, message)).statusText == "InternalServerError"
  {
    UsedCodes();
  }

  /** The error middleware: `res.status(code).json({statusCode, statusText})`. */
  method SendError(res: Response, err: Err) returns (notify: bool)
    modifies res
    ensures res.statusCode == Respond(err).statusCode
    ensures res.payload == JsonPayload(ErrorBody(Respond(err)))
    ensures notify == Respond(err).notify
    ensures res.location == old(res.location) && res.cookies == old(res.cookies)
  {
    var r := Respond(err);
    res.Status(r.statusCode);
    res.SendJson(ErrorBody(r));
    notify := r.notify;
  }

  /** The fallback for unmatched routes: 404 named `NotFound`, no monitor. */
  function NotFound(): (r: ErrorResponse)
    ensures r == ErrorResponse(404, "NotFound", false)
  {
    UsedCodes();
    var statusText :=
      (match StatusName(404)
       case Some(name) => name
       case None => "NotFound");
    ErrorResponse(404, statusText, false)
  }

  method SendNotFound(res: Response)
    modifies res
    ensures res.statusCode == 404
    ensures res.payload == JsonPayload(ErrorBody(ErrorResponse(404, "NotFound", false)))
    ensures res.location == old(res.location) && res.cookies == old(res.cookies)
  {
    var r := NotFound();
    res.Status(r.statusCode);
    res.SendJson(ErrorBody(r));
  }
}
