/** The order, notification and layout documents the handlers create, and the
    view of a stored document as the JavaScript object a handler reads
    properties from. */
module Documents {
  import opened Js
  import opened Errors

  /** The order record `{ courseId, userId }`. */
  datatype Order = Order(courseId: nat, userId: nat)

  /** A notification for the administrators. */
  datatype Notification = Notification(userId: nat, title: string, message: string)

  datatype Image = Image(publicId: string, url: string)

  datatype Banner = Banner(image: Image, title: string, subTitle: string)

  datatype FaqItem = FaqItem(question: string, answer: string)

  datatype Category = Category(title: string)

  /** A layout record. `type` names which of the three parts it holds; the
      other parts keep their empty defaults. */
  datatype Layout = Layout(id: nat, kind: string, banner: Option<Banner>,
                           faq: seq<FaqItem>, categories: seq<Category>)

  // ---------------------------------------------------------------------------
  // Documents as JavaScript objects.

  datatype Json = Str(s: string) | Obj(fields: map<string, Json>) | Null | Undefined

  /** The TypeError a property read on `null` or `undefined` throws. */
  function ReadError(what: string, key: string): Err {
    Thrown("TypeError", "Cannot read properties of " + what + " (reading '" + key + "')")
  }

  /** `j[key]`: a missing property reads as `undefined`; reading any property
      of `null` or `undefined` throws. */
  function Prop(j: Json, key: string): (r: Result<Json, Err>)
    ensures r.Failure? <==> j.Null? || j.Undefined?
    ensures j.Obj? ==> r == Success(if key in j.fields then j.fields[key] else Undefined)
  {
    match j
    case Obj(f) => Success(if key in f then f[key] else Undefined)
    case Str(_) => Success(Undefined)
    case Null => Failure(ReadError("null", key))
    case Undefined => Failure(ReadError("undefined", key))
  }

  /** `j.k1.k2...`, failing at the first read on `null` or `undefined`. */
  function Path(j: Json, keys: seq<string>): Result<Json, Err>
    decreases |keys|
  {
    if keys == [] then Success(j)
    else
      match Prop(j, keys[0])
      case Failure(e) => Failure(e)
      case Success(v) => Path(v, keys[1..])
  }

  function ImageDoc(i: Image): Json {
    Obj(map["public_id" := Str(i.publicId), "url" := Str(i.url)])
  }

  function BannerDoc(b: Banner): Json {
    Obj(map["image" := ImageDoc(b.image), "title" := Str(b.title), "subTitle" := Str(b.subTitle)])
  }

  /** A stored layout as the object `findOne` returns: the banner, when there
      is one, sits under `banner`. The list parts are left out of this view. */
  function LayoutDoc(l: Layout): (j: Json)
    ensures j.Obj? && "type" in j.fields && j.fields["type"] == Str(l.kind)
    ensures "image" !in j.fields
  {
    var base := map["type" := Str(l.kind)];
    Obj(if l.banner.Some? then base["banner" := BannerDoc(l.banner.value)] else base)
  }
}
