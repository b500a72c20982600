/** The error record every handler passes to `next` (server/utils/ErrorHandler.ts)
    and the central error responder that turns it into the JSON error envelope
    (server/middleware/error.ts). */
module Errors {
  import opened Js

  /** An error as the responder sees it: the fields error.ts reads. A number
      or string that is absent is 0 or "" (both falsy, as `undefined` is). */
  datatype Err = Err(statusCode: int, message: string, name: string, code: int, path: string, keyValue: seq<string>)

  /** `new ErrorHandler(statusCode, message)`: an `Error`, so its name is "Error". */
  function Handler(statusCode: int, message: string): Err {
    Err(statusCode, message, "Error", 0, "", [])
  }

  /** An error thrown by a library: it has a name and a message, no status code. */
  function Thrown(name: string, message: string): Err {
    Err(0, message, name, 0, "", [])
  }

  /** The response error.ts sends: `res.status(statusCode).json({ success, message })`. */
  datatype Envelope = Envelope(statusCode: int, success: bool, message: string)

  const CastMessage := "Resource not found. Invalid: "
  const JwtInvalidMessage := "JSON Web Token is invalid. Try again!!!"
  const JwtExpiredMessage := "JSON Web Token is expired. Try again!!!"
  const DefaultMessage := "Internal Server Error"

  /** The envelope for `err`, as a decision table: the first rule that the
      incoming error matches decides; an error no rule matches keeps its own
      status and message, or 500 and "Internal Server Error" when they are absent. */
  function Normalise(err: Err): Envelope {
    if err.name == "CastError" then Envelope(404, false, CastMessage + err.path)
    else if err.code == 11000 then Envelope(400, false, "Duplicate " + Join(err.keyValue, ",") + " entered")
    else if err.name == "JsonWebTokenError" then Envelope(400, false, JwtInvalidMessage)
    else if err.name == "TokenExpiredError" then Envelope(400, false, JwtExpiredMessage)
    else Envelope(if err.statusCode == 0 then 500 else err.statusCode, false,
                  if err.message == "" then DefaultMessage else err.message)
  }

  /** error.ts step by step: defaults are filled in place, then four tests each
      may replace `err` by a fresh ErrorHandler. A replacement carries none of
      the names the tests look for and no code, so no later test fires after one has. */
  method ErrorMiddleware(incoming: Err) returns (res: Envelope)
    ensures res == Normalise(incoming)
    ensures !res.success
    ensures incoming.name == "CastError" ==> res.statusCode == 404 && res.message == CastMessage + incoming.path
    ensures incoming.name != "CastError" && incoming.code == 11000 ==>
              res.statusCode == 400 && res.message == "Duplicate " + Join(incoming.keyValue, ",") + " entered"
    ensures incoming.name !in {"CastError", "JsonWebTokenError", "TokenExpiredError"} && incoming.code != 11000 ==>
              res.statusCode == (if incoming.statusCode == 0 then 500 else incoming.statusCode) &&
              res.message == (if incoming.message == "" then DefaultMessage else incoming.message)
  {
    var err := incoming;
    err := err.(statusCode := if err.statusCode != 0 then err.statusCode else 500);
    err := err.(message := if err.message != "" then err.message else DefaultMessage);
    if err.name == "CastError" {
      err := Handler(404, CastMessage + err.path);
    }
    if err.code == 11000 {
      err := Handler(400, "Duplicate " + Join(err.keyValue, ",") + " entered");
    }
    if err.name == "JsonWebTokenError" {
      err := Handler(400, JwtInvalidMessage);
    }
    if err.name == "TokenExpiredError" {
      err := Handler(400, JwtExpiredMessage);
    }
    res := Envelope(err.statusCode, false, err.message);
  }

  /** An ErrorHandler with a status and a message reaches the client as it is. */
  lemma HandlerPassesThrough(statusCode: int, message: string)
    requires statusCode != 0 && message != ""
    ensures Normalise(Handler(statusCode, message)) == Envelope(statusCode, false, message)
  {
  }

  /** The two token-library errors become 400 with their fixed messages. */
  lemma TokenErrorsNormalise(message: string)
    ensures Normalise(Thrown("JsonWebTokenError", message)) == Envelope(400, false, JwtInvalidMessage)
    ensures Normalise(Thrown("TokenExpiredError", message)) == Envelope(400, false, JwtExpiredMessage)
  {
  }
}
