/** What the document store does with a schema: the errors its validators
    report and the errors it throws. */
module Mongoose {
  import opened Js
  import opened Errors

  /** One failed validator: the path and the message the schema gives it. */
  datatype FieldError = FieldError(path: string, message: string)

  /** A `required` string path rejects both an absent and an empty value. */
  predicate Present(s: Option<string>) {
    s.Some? && s.value != ""
  }

  function Describe(errs: seq<FieldError>): (lines: seq<string>)
    ensures |lines| == |errs|
    ensures forall i :: 0 <= i < |errs| ==> lines[i] == errs[i].path + ": " + errs[i].message
  {
    if errs == [] then [] else [errs[0].path + ": " + errs[0].message] + Describe(errs[1..])
  }

  /** The ValidationError that `save` and `create` throw when a validator fails:
      "<Model> validation failed: <path>: <message>, ...". */
  function ValidationError(model: string, errs: seq<FieldError>): Err {
    Thrown("ValidationError", model + " validation failed: " + Join(Describe(errs), ", "))
  }

  /** The error a unique index raises on a second document with the same key. */
  function DuplicateKey(keys: seq<string>): Err {
    Err(0, "E11000 duplicate key error", "MongoServerError", 11000, "", keys)
  }
}
