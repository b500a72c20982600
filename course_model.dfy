/** The course document (server/models/course.model.ts): nested records for
    reviews, content items, their question threads and links; required paths
    with their messages, and defaults. */
module CourseModel {
  import opened Js
  import opened Mongoose
  import opened UserModel

  datatype Link = Link(title: string, url: string)

  /** An entry of `benefits` or `prerequisites`: `{ title }`. */
  datatype TitleItem = TitleItem(title: string)

  /** A question on a content item, or a reply to one; `user` is the user object
      stored with it. Each comment owns its ordered list of replies. */
  datatype Comment = Comment(user: User, comment: string, commentReplies: seq<Comment>)

  /** A review. The schema declares no `commentReplies` path for reviews, so
      none is stored even though the document interface names one. */
  datatype Review = Review(user: User, rating: int, comment: string)

  datatype Thumbnail = Thumbnail(publicId: string, url: string)

  /** A content item (a video section); it owns its ordered list of questions. */
  datatype CourseData = CourseData(title: string, description: string, videoUrl: string,
                                   videoThumbnail: Option<Thumbnail>, videoSection: string,
                                   videoLength: int, videoPlayer: string, links: seq<Link>,
                                   suggestion: string, questions: seq<Comment>)

  datatype Course = Course(id: nat, name: string, description: string, price: int,
                           estimatedPrice: Option<int>, thumbnail: Thumbnail, tags: string,
                           level: string, demoUrl: string, benefits: seq<TitleItem>,
                           prerequisites: seq<TitleItem>, reviews: seq<Review>,
                           courseData: seq<CourseData>, ratings: int, purchased: int)

  /** The fields a course is created from, any of which may be absent. */
  datatype CourseInput = CourseInput(name: Option<string>, description: Option<string>,
                                     price: Option<int>, estimatedPrice: Option<int>,
                                     thumbnailPublicId: Option<string>, thumbnailUrl: Option<string>,
                                     tags: Option<string>, level: Option<string>,
                                     demoUrl: Option<string>, benefits: seq<TitleItem>,
                                     prerequisites: seq<TitleItem>, reviews: seq<Review>,
                                     courseData: seq<CourseData>, ratings: Option<int>,
                                     purchased: Option<int>)

  const NameRequired := FieldError("name", "Please enter course name")
  const DescriptionRequired := FieldError("description", "Please enter course description")
  const PriceRequired := FieldError("price", "Please enter course price")
  const ThumbnailIdRequired := FieldError("thumbnail.public_id", "Please upload course thumbnail")
  const ThumbnailUrlRequired := FieldError("thumbnail.url", "Please upload course thumbnail")
  const TagsRequired := FieldError("tags", "Please enter course tags")
  const LevelRequired := FieldError("level", "Please enter course level")
  const DemoUrlRequired := FieldError("demoUrl", "Please enter course demo url")

  /** The schema's required paths, in the order the schema declares them. */
  datatype RequiredPath = NamePath | DescriptionPath | PricePath | ThumbnailIdPath
                        | ThumbnailUrlPath | TagsPath | LevelPath | DemoUrlPath

  const RequiredPaths := [NamePath, DescriptionPath, PricePath, ThumbnailIdPath,
                          ThumbnailUrlPath, TagsPath, LevelPath, DemoUrlPath]

  /** A path's position in the schema. */
  function Rank(p: RequiredPath): nat {
    match p
    case NamePath => 0
    case DescriptionPath => 1
    case PricePath => 2
    case ThumbnailIdPath => 3
    case ThumbnailUrlPath => 4
    case TagsPath => 5
    case LevelPath => 6
    case DemoUrlPath => 7
  }

  /** The error a path's `required` validator reports. */
  function RequiredError(p: RequiredPath): FieldError {
    match p
    case NamePath => NameRequired
    case DescriptionPath => DescriptionRequired
    case PricePath => PriceRequired
    case ThumbnailIdPath => ThumbnailIdRequired
    case ThumbnailUrlPath => ThumbnailUrlRequired
    case TagsPath => TagsRequired
    case LevelPath => LevelRequired
    case DemoUrlPath => DemoUrlRequired
  }

  /** Whether the input holds a value for the path: a non-empty string, or
      any number for the price. */
  predicate Supplied(c: CourseInput, p: RequiredPath) {
    match p
    case NamePath => Present(c.name)
    case DescriptionPath => Present(c.description)
    case PricePath => c.price.Some?
    case ThumbnailIdPath => Present(c.thumbnailPublicId)
    case ThumbnailUrlPath => Present(c.thumbnailUrl)
    case TagsPath => Present(c.tags)
    case LevelPath => Present(c.level)
    case DemoUrlPath => Present(c.demoUrl)
  }

  predicate InPathOrder(ps: seq<RequiredPath>) {
    forall i, j :: 0 <= i < j < |ps| ==> Rank(ps[i]) < Rank(ps[j])
  }

  /** No two paths report the same error. */
  lemma RequiredErrorsDistinct()
    ensures forall p, q :: RequiredError(p) == RequiredError(q) ==> p == q
  {
  }

  /** The paths of `ps` the input leaves out, in the order of `ps`. */
  function Missing(c: CourseInput, ps: seq<RequiredPath>): (r: seq<RequiredPath>)
    ensures forall p :: p in r <==> p in ps && !Supplied(c, p)
    ensures InPathOrder(ps) ==> InPathOrder(r)
    ensures |r| <= |ps|
  {
    if ps == [] then []
    else if Supplied(c, ps[0]) then Missing(c, ps[1..])
    else
      var rest := Missing(c, ps[1..]);
      assert InPathOrder(ps) ==> forall p :: p in rest ==> Rank(ps[0]) < Rank(p);
      [ps[0]] + rest
  }

  /** The schema's required paths the input leaves out, in path order, and
      none exactly when every required path is present. */
  lemma MissingRequired(c: CourseInput)
    ensures InPathOrder(Missing(c, RequiredPaths))
    ensures forall p :: p in Missing(c, RequiredPaths) <==> !Supplied(c, p)
    ensures Missing(c, RequiredPaths) == [] <==>
              Present(c.name) && Present(c.description) && c.price.Some? &&
              Present(c.thumbnailPublicId) && Present(c.thumbnailUrl) &&
              Present(c.tags) && Present(c.level) && Present(c.demoUrl)
  {
    var m := Missing(c, RequiredPaths);
    assert InPathOrder(RequiredPaths);
    assert forall p :: p in RequiredPaths by {
      forall p ensures p in RequiredPaths {
        match p
        case NamePath => assert RequiredPaths[0] == p;
        case DescriptionPath => assert RequiredPaths[1] == p;
        case PricePath => assert RequiredPaths[2] == p;
        case ThumbnailIdPath => assert RequiredPaths[3] == p;
        case ThumbnailUrlPath => assert RequiredPaths[4] == p;
        case TagsPath => assert RequiredPaths[5] == p;
        case LevelPath => assert RequiredPaths[6] == p;
        case DemoUrlPath => assert RequiredPaths[7] == p;
      }
    }
    if m == [] {
      assert NamePath !in m && DescriptionPath !in m && PricePath !in m && ThumbnailIdPath !in m;
      assert ThumbnailUrlPath !in m && TagsPath !in m && LevelPath !in m && DemoUrlPath !in m;
    } else {
      assert m[0] in m;
    }
  }

  /** The errors of the listed paths, one per path and in the same order. */
  function Errors(ps: seq<RequiredPath>): (errs: seq<FieldError>)
    ensures InPathOrder(ps) ==>
              forall i, j, p, q ::
                (0 <= i < j < |errs| && errs[i] == RequiredError(p) && errs[j] == RequiredError(q)) ==>
                Rank(p) < Rank(q)
    ensures forall p :: RequiredError(p) in errs <==> p in ps
    ensures |errs| == |ps|
  {
    RequiredErrorsDistinct();
    var errs := seq(|ps|, i requires 0 <= i < |ps| => RequiredError(ps[i]));
    assert forall p :: p in ps ==> RequiredError(p) in errs by {
      forall p | p in ps ensures RequiredError(p) in errs {
        var k :| 0 <= k < |ps| && ps[k] == p;
        assert errs[k] == RequiredError(p);
      }
    }
    errs
  }

  /** The failed `required` validators, in the schema's path order: a path's
      error is listed exactly when the input leaves that path out, errors come
      in the order of their paths, and there is none when every required path
      is present. */
  function CourseErrors(c: CourseInput): (errs: seq<FieldError>)
    ensures forall p :: RequiredError(p) in errs <==> !Supplied(c, p)
    ensures forall i, j, p, q ::
              (0 <= i < j < |errs| && errs[i] == RequiredError(p) && errs[j] == RequiredError(q)) ==>
              Rank(p) < Rank(q)
    ensures errs == [] <==>
              Present(c.name) && Present(c.description) && c.price.Some? &&
              Present(c.thumbnailPublicId) && Present(c.thumbnailUrl) &&
              Present(c.tags) && Present(c.level) && Present(c.demoUrl)
    ensures |errs| <= 8
  {
    MissingRequired(c);
    Errors(Missing(c, RequiredPaths))
  }

  function GetOr(o: Option<int>, d: int): int {
    if o.Some? then o.value else d
  }

  /** `courseModel.create(input)`: the ValidationError's field list when a
      required path is missing, otherwise the document with its defaults. */
  function NewCourse(id: nat, c: CourseInput): (r: Result<Course, seq<FieldError>>)
    ensures r.Success? <==>
              Present(c.name) && Present(c.description) && c.price.Some? &&
              Present(c.thumbnailPublicId) && Present(c.thumbnailUrl) &&
              Present(c.tags) && Present(c.level) && Present(c.demoUrl)
    ensures r.Failure? ==> r.error != [] && r.error == CourseErrors(c)
    ensures r.Success? ==> r.value.id == id && r.value.name == c.name.value && r.value.price == c.price.value
    ensures r.Success? ==> r.value.estimatedPrice == c.estimatedPrice
    ensures r.Success? ==> r.value.description == c.description.value &&
                           r.value.thumbnail == Thumbnail(c.thumbnailPublicId.value, c.thumbnailUrl.value) &&
                           r.value.tags == c.tags.value && r.value.level == c.level.value &&
                           r.value.demoUrl == c.demoUrl.value
    ensures r.Success? ==> r.value.benefits == c.benefits && r.value.prerequisites == c.prerequisites &&
                           r.value.reviews == c.reviews && r.value.courseData == c.courseData
    ensures r.Success? ==> r.value.ratings == (if c.ratings.Some? then c.ratings.value else 0)
    ensures r.Success? ==> r.value.purchased == (if c.purchased.Some? then c.purchased.value else 0)
  {
    var errs := CourseErrors(c);
    if errs != [] then Failure(errs)
    else
      Success(Course(id, c.name.value, c.description.value, c.price.value, c.estimatedPrice,
                     Thumbnail(c.thumbnailPublicId.value, c.thumbnailUrl.value), c.tags.value,
                     c.level.value, c.demoUrl.value, c.benefits, c.prerequisites, c.reviews,
                     c.courseData, GetOr(c.ratings, 0), GetOr(c.purchased, 0)))
  }

  /** A review as the schema stores it: `rating` defaults to 0. */
  function NewReview(user: User, rating: Option<int>, comment: string): (r: Review)
    ensures r.rating == (if rating.Some? then rating.value else 0)
    ensures r.user == user && r.comment == comment
  {
    Review(user, GetOr(rating, 0), comment)
  }
}
