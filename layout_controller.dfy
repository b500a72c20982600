/** The layout handlers (server/controller/layout.controller.ts) over the
    layout collection, which holds at most one record per type. The layout
    schema is not part of this model: a record holds a banner, a FAQ list or
    a category list. */
module LayoutController {
  import opened Js
  import opened Errors
  import opened Documents
  import opened Http
  import opened Store

  /** An item of the request's `faq` or `categories` array: its string fields;
      a field the client leaves out reads as "". */
  type Item = map<string, string>

  function Field(item: Item, key: string): string {
    if key in item then item[key] else ""
  }

  /** The request body the handlers read. An absent `faq` or `categories`
      array is `None`. */
  datatype LayoutBody = LayoutBody(kind: string, image: string, title: string, subTitle: string,
                                   faq: Option<seq<Item>>, categories: Option<seq<Item>>)

  const LayoutExists := Handler(400, "Layout already exists! Please edit it instead.")

  /** `faq.map(item => ({ question: item.question, answer: item.answer }))`
      under `Promise.all`: one item per request item, in the same order. */
  function FaqItems(items: seq<Item>): (r: seq<FaqItem>)
    ensures |r| == |items|
    ensures forall i :: 0 <= i < |items| ==>
              r[i].question == Field(items[i], "question") && r[i].answer == Field(items[i], "answer")
  {
    if items == [] then [] else [FaqItem(Field(items[0], "question"), Field(items[0], "answer"))] + FaqItems(items[1..])
  }

  /** `categories.map(item => ({ title: item.title }))`: one category per
      request item, in the same order. */
  function Categories(items: seq<Item>): (r: seq<Category>)
    ensures |r| == |items|
    ensures forall i :: 0 <= i < |items| ==> r[i].title == Field(items[i], "title")
  {
    if items == [] then [] else [Category(Field(items[0], "title"))] + Categories(items[1..])
  }

  /** The request item a stored FAQ item would be sent back as. */
  function FaqRequestItem(f: FaqItem): Item {
    map["question" := f.question, "answer" := f.answer]
  }

  /** Only `question` and `answer` are kept: any other fields of the request
      items are dropped, so projecting the projection gives it back. */
  lemma {:induction false} FaqItemsRoundTrip(faq: seq<FaqItem>)
    ensures FaqItems(seq(|faq|, i requires 0 <= i < |faq| => FaqRequestItem(faq[i]))) == faq
  {
    var items := seq(|faq|, i requires 0 <= i < |faq| => FaqRequestItem(faq[i]));
    var r := FaqItems(items);
    forall i | 0 <= i < |faq|
      ensures r[i] == faq[i]
    {
      assert items[i] == FaqRequestItem(faq[i]);
    }
  }

  /** Two request lists that agree on every `question` and `answer` give the
      same stored list. */
  lemma {:induction false} FaqItemsIgnoreOtherFields(a: seq<Item>, b: seq<Item>)
    requires |a| == |b|
    requires forall i :: 0 <= i < |a| ==>
               Field(a[i], "question") == Field(b[i], "question") && Field(a[i], "answer") == Field(b[i], "answer")
    ensures FaqItems(a) == FaqItems(b)
  {
    var ra, rb := FaqItems(a), FaqItems(b);
    forall i | 0 <= i < |a|
      ensures ra[i] == rb[i]
    {
    }
  }

  /** The stored category list read back by title. */
  lemma {:induction false} CategoriesRoundTrip(cats: seq<Category>)
    ensures Categories(seq(|cats|, i requires 0 <= i < |cats| => map["title" := cats[i].title])) == cats
  {
    var items := seq(|cats|, i requires 0 <= i < |cats| => map["title" := cats[i].title]);
    var r := Categories(items);
    forall i | 0 <= i < |cats|
      ensures r[i] == cats[i]
    {
      assert items[i] == map["title" := cats[i].title];
    }
  }

  /** `faq.map(...)` or `categories.map(...)` on an absent array throws. */
  const NoItems := ReadError("undefined", "map")

  /** The new layout record `layoutModel.create` stores for a request, when
      the type is one of the three. */
  function NewLayout(id: nat, body: LayoutBody, upload: UploadOutcome): Option<Layout>
    requires body.kind == "Banner" ==> upload.Uploaded?
    requires body.kind == "Faq" ==> body.faq.Some?
    requires body.kind == "Categories" ==> body.categories.Some?
  {
    if body.kind == "Banner" then
      Some(Layout(id, "Banner", Some(Banner(Image(upload.publicId, upload.url), body.title, body.subTitle)), [], []))
    else if body.kind == "Faq" then Some(Layout(id, "Faq", None, FaqItems(body.faq.value), []))
    else if body.kind == "Categories" then Some(Layout(id, "Categories", None, [], Categories(body.categories.value)))
    else None
  }

  /** `createLayout`: a type that already has a record is refused; a banner is
      uploaded into "layout" first; an absent list throws; a type that is
      none of the three creates nothing and is still answered as created.
      `calls` are the media store calls made. */
  method CreateLayout(w: World, body: LayoutBody, upload: UploadOutcome) returns (reply: Reply, calls: seq<MediaCall>)
    requires w.Valid()
    modifies w`layouts
    ensures w.Valid()
    ensures FindLayout(old(w.layouts), body.kind).Some? ==>
              reply == Forwarded(LayoutExists) && calls == [] && w.layouts == old(w.layouts)
    ensures FindLayout(old(w.layouts), body.kind).None? ==>
              calls == (if body.kind == "Banner" then [Upload(body.image, "layout")] else [])
    ensures FindLayout(old(w.layouts), body.kind).None? && body.kind == "Banner" && upload.UploadFailed? ==>
              reply == Forwarded(Handler(500, upload.message)) && w.layouts == old(w.layouts)
    ensures FindLayout(old(w.layouts), body.kind).None? &&
            ((body.kind == "Faq" && body.faq.None?) || (body.kind == "Categories" && body.categories.None?)) ==>
              reply == Forwarded(Handler(500, NoItems.message)) && w.layouts == old(w.layouts)
    ensures FindLayout(old(w.layouts), body.kind).None? &&
            (body.kind == "Banner" ==> upload.Uploaded?) &&
            (body.kind == "Faq" ==> body.faq.Some?) &&
            (body.kind == "Categories" ==> body.categories.Some?) ==>
              reply == Sent(200, Message("Layout created successfully")) &&
              match NewLayout(|old(w.layouts)|, body, upload)
              case Some(l) => w.layouts == old(w.layouts) + [l]
              case None => w.layouts == old(w.layouts)
  {
    calls := [];
    if FindLayout(w.layouts, body.kind).Some? {
      return Forwarded(LayoutExists), calls;
    }
    var created: Option<Layout> := None;
    if body.kind == "Banner" {
      calls := [Upload(body.image, "layout")];
      if upload.UploadFailed? {
        return Forwarded(Handler(500, upload.message)), calls;
      }
      var banner := Banner(Image(upload.publicId, upload.url), body.title, body.subTitle);
      created := Some(Layout(|w.layouts|, "Banner", Some(banner), [], []));
    } else if body.kind == "Faq" {
      if body.faq.None? {
        return Forwarded(Handler(500, NoItems.message)), calls;
      }
      created := Some(Layout(|w.layouts|, "Faq", None, FaqItems(body.faq.value), []));
    } else if body.kind == "Categories" {
      if body.categories.None? {
        return Forwarded(Handler(500, NoItems.message)), calls;
      }
      created := Some(Layout(|w.layouts|, "Categories", None, [], Categories(body.categories.value)));
    }
    if created.Some? {
      w.InsertLayout(created.value);
    }
    reply := Sent(200, Message("Layout created successfully"));
  }

  // ---------------------------------------------------------------------------
  // Reading the stored banner's image id.

  /** `bannerData.image.public_id` as `editLayout` reads it: the record keeps
      its image under `banner`, so `image` is undefined. */
  function StoredImageIdAsWritten(l: Layout): Result<Json, Err> {
    Path(LayoutDoc(l), ["image", "public_id"])
  }

  /** Whatever the record holds, that read throws. */
  lemma AsWrittenImageReadThrows(l: Layout)
    ensures StoredImageIdAsWritten(l) == Failure(ReadError("undefined", "public_id"))
  {
    var j := LayoutDoc(l);
    assert Prop(j, "image") == Success(Undefined);
    assert Path(Undefined, ["public_id"]) == Failure(ReadError("undefined", "public_id"));
  }

  /** `bannerData.banner.image.public_id`: the image id of the stored banner. */
  function StoredImageId(l: Layout): Result<Json, Err> {
    Path(LayoutDoc(l), ["banner", "image", "public_id"])
  }

  /** The corrected read finds the stored image's public id, and throws only
      for a record without a banner. */
  lemma StoredImageIdReads(l: Layout)
    ensures l.banner.Some? ==> StoredImageId(l) == Success(Str(l.banner.value.image.publicId))
    ensures l.banner.None? ==> StoredImageId(l) == Failure(ReadError("undefined", "image"))
  {
    var j := LayoutDoc(l);
    if l.banner.Some? {
      var b := BannerDoc(l.banner.value);
      assert Prop(j, "banner") == Success(b);
      assert Prop(b, "image") == Success(ImageDoc(l.banner.value.image));
      assert Path(ImageDoc(l.banner.value.image), ["public_id"]) == Success(Str(l.banner.value.image.publicId));
      assert Path(b, ["image", "public_id"]) == Path(ImageDoc(l.banner.value.image), ["public_id"]);
    } else {
      assert Prop(j, "banner") == Success(Undefined);
      assert Path(Undefined, ["image", "public_id"]) == Failure(ReadError("undefined", "image"));
    }
  }

  /** `x._id` on the `null` a failed `findOne` returns. */
  const NoRecord := ReadError("null", "_id")

  /** `editLayout`, with the banner's image id read from `banner.image`. For a
      banner the stored image is destroyed before the new one is uploaded into
      "layout", and the record is then updated by id; a list type finds its
      record, maps the request items and replaces the list. A missing record
      throws when its id is read, after the upload or the mapping. */
  method EditLayout(w: World, body: LayoutBody, upload: UploadOutcome) returns (reply: Reply, calls: seq<MediaCall>)
    requires w.Valid()
    modifies w`layouts
    ensures w.Valid()
    ensures body.kind == "Banner" ==>
              var k := FindLayout(old(w.layouts), "Banner");
              var destroyed := if k.Some? && old(w.layouts)[k.value].banner.Some? then
                                 [Destroy(old(w.layouts)[k.value].banner.value.image.publicId)] else [];
              if k.Some? && old(w.layouts)[k.value].banner.None? then
                reply == Forwarded(Handler(500, ReadError("undefined", "image").message)) && calls == [] &&
                w.layouts == old(w.layouts)
              else if upload.UploadFailed? then
                reply == Forwarded(Handler(500, upload.message)) && calls == destroyed + [Upload(body.image, "layout")] &&
                w.layouts == old(w.layouts)
              else if k.None? then
                reply == Forwarded(Handler(500, NoRecord.message)) && calls == [Upload(body.image, "layout")] &&
                w.layouts == old(w.layouts)
              else
                reply == Sent(200, Message("Layout Updated successfully")) &&
                calls == destroyed + [Upload(body.image, "layout")] &&
                w.layouts == old(w.layouts)[k.value := old(w.layouts)[k.value].(banner :=
                  Some(Banner(Image(upload.publicId, upload.url), body.title, body.subTitle)))]
    ensures body.kind == "Faq" ==>
              var k := FindLayout(old(w.layouts), "Faq");
              calls == [] &&
              if body.faq.None? then
                reply == Forwarded(Handler(500, NoItems.message)) && w.layouts == old(w.layouts)
              else if k.None? then
                reply == Forwarded(Handler(500, NoRecord.message)) && w.layouts == old(w.layouts)
              else
                reply == Sent(200, Message("Layout Updated successfully")) &&
                w.layouts == old(w.layouts)[k.value := old(w.layouts)[k.value].(faq := FaqItems(body.faq.value))]
    ensures body.kind == "Categories" ==>
              var k := FindLayout(old(w.layouts), "Categories");
              calls == [] &&
              if body.categories.None? then
                reply == Forwarded(Handler(500, NoItems.message)) && w.layouts == old(w.layouts)
              else if k.None? then
                reply == Forwarded(Handler(500, NoRecord.message)) && w.layouts == old(w.layouts)
              else
                reply == Sent(200, Message("Layout Updated successfully")) &&
                w.layouts == old(w.layouts)[k.value := old(w.layouts)[k.value].(categories :=
                  Categories(body.categories.value))]
    ensures body.kind != "Banner" && body.kind != "Faq" && body.kind != "Categories" ==>
              reply == Sent(200, Message("Layout Updated successfully")) && calls == [] && w.layouts == old(w.layouts)
  {
    calls := [];
    if body.kind == "Banner" {
      var found := FindLayout(w.layouts, "Banner");
      if found.Some? {
        var stored := w.layouts[found.value];
        StoredImageIdReads(stored);
        match StoredImageId(stored)
        case Failure(e) =>
          return Forwarded(Handler(500, e.message)), calls;
        case Success(id) =>
          calls := calls + [Destroy(id.s)];
      }
      calls := calls + [Upload(body.image, "layout")];
      if upload.UploadFailed? {
        return Forwarded(Handler(500, upload.message)), calls;
      }
      var banner := Banner(Image(upload.publicId, upload.url), body.title, body.subTitle);
      if found.None? {
        return Forwarded(Handler(500, NoRecord.message)), calls;
      }
      w.UpdateLayout(found.value, w.layouts[found.value].(banner := Some(banner)));
    } else if body.kind == "Faq" {
      var found := FindLayout(w.layouts, "Faq");
      if body.faq.None? {
        return Forwarded(Handler(500, NoItems.message)), calls;
      }
      var items := FaqItems(body.faq.value);
      if found.None? {
        return Forwarded(Handler(500, NoRecord.message)), calls;
      }
      w.UpdateLayout(found.value, w.layouts[found.value].(faq := items));
    } else if body.kind == "Categories" {
      var found := FindLayout(w.layouts, "Categories");
      if body.categories.None? {
        return Forwarded(Handler(500, NoItems.message)), calls;
      }
      var items := Categories(body.categories.value);
      if found.None? {
        return Forwarded(Handler(500, NoRecord.message)), calls;
      }
      w.UpdateLayout(found.value, w.layouts[found.value].(categories := items));
    }
    reply := Sent(200, Message("Layout Updated successfully"));
  }

  /** `getLayoutByType`: the record of the requested type, or `null`. */
  method GetLayoutByType(w: World, kind: string) returns (reply: Reply)
    requires w.Valid()
    ensures reply.Sent? && reply.status == 201 && reply.body.LayoutFound?
    ensures reply.body.layout.None? <==> forall i :: 0 <= i < |w.layouts| ==> w.layouts[i].kind != kind
    ensures reply.body.layout.Some? ==> reply.body.layout.value in w.layouts && reply.body.layout.value.kind == kind
  {
    var found := FindLayout(w.layouts, kind);
    if found.None? {
      return Sent(201, LayoutFound(None));
    }
    reply := Sent(201, LayoutFound(Some(w.layouts[found.value])));
  }
}
