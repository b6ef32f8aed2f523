/**
 * The Course document schema: which request bodies pass validation (with the error messages the
 * store reports), how defaults fill a new course, and how a partial update is merged.
 */
module CourseSchema {
  import opened Records
  import opened Text

  const Skills: set<string> := {"beginner", "intermediate", "advanced"}
  const TitleMaxLength: nat := 50
  const DefaultImage: string := "no-photo.jpg"
  /** The declared default rating; it lies outside the declared bounds [1, 5] and means "unrated". */
  const DefaultRating: real := 0.0

  /** An embedded review as supplied by a client: every field may be missing. */
  datatype Review = Review(user: Option<Id>, name: Option<string>, rating: Option<real>, comment: Option<string>)

  /** A request body for create or update: a field is `Some` exactly when the body supplies it. */
  datatype CourseFields = CourseFields(
    title: Option<string>,
    description: Option<string>,
    weeks: Option<real>,
    tuition: Option<real>,
    minimumSkill: Option<string>,
    scholarshipAvailable: Option<bool>,
    createdAt: Option<int>,
    category: Option<Id>,
    instructor: Option<Id>,
    enrolledStudents: Option<seq<Id>>,
    rating: Option<real>,
    numReviews: Option<real>,
    reviews: Option<seq<Review>>,
    isFree: Option<bool>,
    image: Option<string>)

  /** A stored course: every path has a value. */
  datatype Course = Course(
    title: string,
    description: string,
    weeks: real,
    tuition: real,
    minimumSkill: string,
    scholarshipAvailable: bool,
    createdAt: int,
    category: Id,
    instructor: Id,
    enrolledStudents: seq<Id>,
    rating: real,
    numReviews: real,
    reviews: seq<Review>,
    isFree: bool,
    image: string)

  /** One failed validator: the document path and the message reported for it. */
  datatype FieldError = FieldError(path: string, message: string)

  /** Create checks every required path; an update runs the validators of the supplied paths only. */
  datatype Mode = OnCreate | OnUpdate

  // ----- the validators, path by path, in schema order -----

  /** `required` on a String path: a missing value only counts on create; an empty string always fails. */
  function RequiredString(path: string, v: Option<string>, message: string, mode: Mode): seq<FieldError> {
    match v
    case None => if mode == OnCreate then [FieldError(path, message)] else []
    case Some(s) => if s == "" then [FieldError(path, message)] else []
  }

  /** `required` on a Number, ObjectId or other non-string path. */
  function Required<T>(path: string, v: Option<T>, message: string, mode: Mode): seq<FieldError> {
    if v.None? && mode == OnCreate then [FieldError(path, message)] else []
  }

  /** `title`: trimmed, then required and at most 50 characters. */
  function TitleErrors(v: Option<string>, mode: Mode): seq<FieldError> {
    match v
    case None => if mode == OnCreate then [FieldError("title", "Please add a course title")] else []
    case Some(s) =>
      var t := Trim(s);
      if t == "" then [FieldError("title", "Please add a course title")]
      else if |t| > TitleMaxLength then [FieldError("title", "Title cannot be more than 50 characters")]
      else []
  }

  /** `minimumSkill`: required, and one of the three enum values. */
  function SkillErrors(v: Option<string>, mode: Mode): seq<FieldError> {
    match v
    case None => if mode == OnCreate then [FieldError("minimumSkill", "Please add a minimum skill")] else []
    case Some(s) =>
      if s == "" then [FieldError("minimumSkill", "Please add a minimum skill")]
      else if s !in Skills then [FieldError("minimumSkill", "`" + s + "` is not a valid enum value for path `minimumSkill`.")]
      else []
  }

  /** `rating`: `min: 1` and `max: 5`, checked on a supplied value. */
  function RatingErrors(v: Option<real>): seq<FieldError> {
    match v
    case None => []
    case Some(r) =>
      if r < 1.0 then [FieldError("rating", "Rating must be at least 1")]
      else if r > 5.0 then [FieldError("rating", "Rating must can not be more than 5")]
      else []
  }

  /** The four required paths of the review at position `index`. */
  function ReviewErrorsAt(r: Review, index: nat): seq<FieldError> {
    var prefix := "reviews." + IntToString(index) + ".";
    Required(prefix + "user", r.user, "Path `user` is required.", OnCreate)
    + RequiredString(prefix + "name", r.name, "Path `name` is required.", OnCreate)
    + Required(prefix + "rating", r.rating, "Path `rating` is required.", OnCreate)
    + RequiredString(prefix + "comment", r.comment, "Path `comment` is required.", OnCreate)
  }

  function ReviewsErrors(rs: seq<Review>, from: nat): seq<FieldError>
    decreases |rs|
  {
    if rs == [] then [] else ReviewErrorsAt(rs[0], from) + ReviewsErrors(rs[1..], from + 1)
  }

  /** Every failed validator of a request body, in schema order. */
  function Errors(p: CourseFields, mode: Mode): seq<FieldError> {
    TitleErrors(p.title, mode)
    + RequiredString("description", p.description, "Please add a description", mode)
    + Required("weeks", p.weeks, "Please add number of weeks", mode)
    + Required("tuition", p.tuition, "Please add a tuition cost", mode)
    + SkillErrors(p.minimumSkill, mode)
    + Required("category", p.category, "Path `category` is required.", mode)
    + Required("instructor", p.instructor, "Path `instructor` is required.", mode)
    + RatingErrors(p.rating)
    + (if p.reviews.Some? then ReviewsErrors(p.reviews.value, 0) else [])
  }

  /**
   * The `err.message` of a validation failure: every `path: message`, after the model name when a
   * document is saved, after a bare "Validation failed" when update validators run on a query.
   */
  function ValidationMessage(errors: seq<FieldError>, mode: Mode): string {
    (if mode == OnCreate then "Course validation failed: " else "Validation failed: ") + JoinErrors(errors)
  }

  function JoinErrors(errors: seq<FieldError>): string {
    if errors == [] then ""
    else if |errors| == 1 then errors[0].path + ": " + errors[0].message
    else errors[0].path + ": " + errors[0].message + ", " + JoinErrors(errors[1..])
  }

  // ----- the declarative reading of the schema -----

  /** A review with its four required paths present (and its strings non-empty). */
  predicate CompleteReview(r: Review) {
    r.user.Some? && r.name.Some? && r.name.value != "" && r.rating.Some? && r.comment.Some? && r.comment.value != ""
  }

  predicate AcceptableTitle(s: string) {
    Trim(s) != "" && |Trim(s)| <= TitleMaxLength
  }

  /** What the schema demands of a request body, stated path by path. */
  predicate Acceptable(p: CourseFields, mode: Mode) {
    && (p.title.Some? ==> AcceptableTitle(p.title.value))
    && (p.description.Some? ==> p.description.value != "")
    && (p.minimumSkill.Some? ==> p.minimumSkill.value in Skills)
    && (p.rating.Some? ==> 1.0 <= p.rating.value <= 5.0)
    && (p.reviews.Some? ==> forall i :: 0 <= i < |p.reviews.value| ==> CompleteReview(p.reviews.value[i]))
    && (mode == OnCreate ==>
          && p.title.Some? && p.description.Some? && p.weeks.Some? && p.tuition.Some?
          && p.minimumSkill.Some? && p.category.Some? && p.instructor.Some?)
  }

  /** The invariant of a stored course: what create and update let through. */
  predicate ValidCourse(c: Course) {
    && c.title != "" && |c.title| <= TitleMaxLength && !IsSpace(c.title[0]) && !IsSpace(c.title[|c.title| - 1])
    && c.description != ""
    && c.minimumSkill in Skills
    && (c.rating == DefaultRating || 1.0 <= c.rating <= 5.0)
    && forall i :: 0 <= i < |c.reviews| ==> CompleteReview(c.reviews[i])
  }

  lemma {:induction false} ReviewsErrorsEmpty(rs: seq<Review>, from: nat)
    ensures ReviewsErrors(rs, from) == [] <==> forall i :: 0 <= i < |rs| ==> CompleteReview(rs[i])
    decreases |rs|
  {
    if rs != [] {
      ReviewsErrorsEmpty(rs[1..], from + 1);
      assert forall i :: 1 <= i < |rs| ==> rs[i] == rs[1..][i - 1];
    }
  }

  lemma TitleErrorsEmpty(v: Option<string>, mode: Mode)
    ensures TitleErrors(v, mode) == [] <==> (v.Some? ==> AcceptableTitle(v.value)) && (mode == OnCreate ==> v.Some?)
  {
  }

  lemma SkillErrorsEmpty(v: Option<string>, mode: Mode)
    ensures SkillErrors(v, mode) == [] <==> (v.Some? ==> v.value in Skills) && (mode == OnCreate ==> v.Some?)
  {
  }

  lemma RequiredEmpty<T>(path: string, v: Option<T>, message: string, mode: Mode)
    ensures Required(path, v, message, mode) == [] <==> (mode == OnCreate ==> v.Some?)
  {
  }

  lemma RequiredStringEmpty(path: string, v: Option<string>, message: string, mode: Mode)
    ensures RequiredString(path, v, message, mode) == [] <==>
      (v.Some? ==> v.value != "") && (mode == OnCreate ==> v.Some?)
  {
  }

  lemma RatingErrorsEmpty(v: Option<real>)
    ensures RatingErrors(v) == [] <==> (v.Some? ==> 1.0 <= v.value <= 5.0)
  {
  }

  /** A body produces no validation error exactly when it is acceptable. */
  lemma ErrorsEmptyIff(p: CourseFields, mode: Mode)
    ensures Errors(p, mode) == [] <==> Acceptable(p, mode)
  {
    var t := TitleErrors(p.title, mode);
    var d := RequiredString("description", p.description, "Please add a description", mode);
    var w := Required("weeks", p.weeks, "Please add number of weeks", mode);
    var u := Required("tuition", p.tuition, "Please add a tuition cost", mode);
    var k := SkillErrors(p.minimumSkill, mode);
    var c := Required("category", p.category, "Path `category` is required.", mode);
    var i := Required("instructor", p.instructor, "Path `instructor` is required.", mode);
    var r := RatingErrors(p.rating);
    var v := if p.reviews.Some? then ReviewsErrors(p.reviews.value, 0) else [];
    assert Errors(p, mode) == t + d + w + u + k + c + i + r + v;
    TitleErrorsEmpty(p.title, mode);
    RequiredStringEmpty("description", p.description, "Please add a description", mode);
    RequiredEmpty("weeks", p.weeks, "Please add number of weeks", mode);
    RequiredEmpty("tuition", p.tuition, "Please add a tuition cost", mode);
    SkillErrorsEmpty(p.minimumSkill, mode);
    RequiredEmpty("category", p.category, "Path `category` is required.", mode);
    RequiredEmpty("instructor", p.instructor, "Path `instructor` is required.", mode);
    RatingErrorsEmpty(p.rating);
    if p.reviews.Some? {
      ReviewsErrorsEmpty(p.reviews.value, 0);
    }
    assert |Errors(p, mode)| == |t| + |d| + |w| + |u| + |k| + |c| + |i| + |r| + |v|;
  }

  /** A new course from an accepted body: trimmed title, supplied values, and the declared defaults. */
  function Fill(p: CourseFields, now: int): (c: Course)
    requires Acceptable(p, OnCreate)
    ensures ValidCourse(c)
    ensures c.instructor == p.instructor.value && c.category == p.category.value
    ensures p.scholarshipAvailable.None? ==> !c.scholarshipAvailable
    ensures p.isFree.None? ==> !c.isFree
    ensures p.numReviews.None? ==> c.numReviews == 0.0
    ensures p.image.None? ==> c.image == DefaultImage
    ensures p.rating.None? ==> c.rating == DefaultRating
    ensures p.enrolledStudents.None? ==> c.enrolledStudents == []
    ensures p.createdAt.None? ==> c.createdAt == now
  {
    Course(
      Trim(p.title.value),
      p.description.value,
      p.weeks.value,
      p.tuition.value,
      p.minimumSkill.value,
      p.scholarshipAvailable.GetOr(false),
      p.createdAt.GetOr(now),
      p.category.value,
      p.instructor.value,
      p.enrolledStudents.GetOr([]),
      p.rating.GetOr(DefaultRating),
      p.numReviews.GetOr(0.0),
      p.reviews.GetOr([]),
      p.isFree.GetOr(false),
      p.image.GetOr(DefaultImage))
  }

  /** `findByIdAndUpdate`: each supplied path replaces the stored one (the title trimmed); nothing else changes. */
  function Apply(c: Course, p: CourseFields): (u: Course)
    requires ValidCourse(c) && Acceptable(p, OnUpdate)
    ensures ValidCourse(u)
    ensures p.title.Some? ==> u.title == Trim(p.title.value)
    ensures p.title.None? ==> u.title == c.title
    ensures p.description.Some? ==> u.description == p.description.value
    ensures p.description.None? ==> u.description == c.description
    ensures p.weeks.Some? ==> u.weeks == p.weeks.value
    ensures p.weeks.None? ==> u.weeks == c.weeks
    ensures p.tuition.Some? ==> u.tuition == p.tuition.value
    ensures p.tuition.None? ==> u.tuition == c.tuition
    ensures p.minimumSkill.Some? ==> u.minimumSkill == p.minimumSkill.value
    ensures p.minimumSkill.None? ==> u.minimumSkill == c.minimumSkill
    ensures p.scholarshipAvailable.Some? ==> u.scholarshipAvailable == p.scholarshipAvailable.value
    ensures p.scholarshipAvailable.None? ==> u.scholarshipAvailable == c.scholarshipAvailable
    ensures p.createdAt.Some? ==> u.createdAt == p.createdAt.value
    ensures p.createdAt.None? ==> u.createdAt == c.createdAt
    ensures p.category.Some? ==> u.category == p.category.value
    ensures p.category.None? ==> u.category == c.category
    ensures p.instructor.Some? ==> u.instructor == p.instructor.value
    ensures p.instructor.None? ==> u.instructor == c.instructor
    ensures p.enrolledStudents.Some? ==> u.enrolledStudents == p.enrolledStudents.value
    ensures p.enrolledStudents.None? ==> u.enrolledStudents == c.enrolledStudents
    ensures p.rating.Some? ==> u.rating == p.rating.value
    ensures p.rating.None? ==> u.rating == c.rating
    ensures p.numReviews.Some? ==> u.numReviews == p.numReviews.value
    ensures p.numReviews.None? ==> u.numReviews == c.numReviews
    ensures p.reviews.Some? ==> u.reviews == p.reviews.value
    ensures p.reviews.None? ==> u.reviews == c.reviews
    ensures p.isFree.Some? ==> u.isFree == p.isFree.value
    ensures p.isFree.None? ==> u.isFree == c.isFree
    ensures p.image.Some? ==> u.image == p.image.value
    ensures p.image.None? ==> u.image == c.image
    ensures p == CourseFields(None, None, None, None, None, None, None, None, None, None, None, None, None, None, None) ==> u == c
  {
    Course(
      if p.title.Some? then Trim(p.title.value) else c.title,
      p.description.GetOr(c.description),
      p.weeks.GetOr(c.weeks),
      p.tuition.GetOr(c.tuition),
      p.minimumSkill.GetOr(c.minimumSkill),
      p.scholarshipAvailable.GetOr(c.scholarshipAvailable),
      p.createdAt.GetOr(c.createdAt),
      p.category.GetOr(c.category),
      p.instructor.GetOr(c.instructor),
      p.enrolledStudents.GetOr(c.enrolledStudents),
      p.rating.GetOr(c.rating),
      p.numReviews.GetOr(c.numReviews),
      p.reviews.GetOr(c.reviews),
      p.isFree.GetOr(c.isFree),
      p.image.GetOr(c.image))
  }

  // ----- the default rating -----

  /**
   * The schema as written validates the filled-in document, default included: the default
   * rating 0 then fails `min: 1`, so a body without a rating can never be stored.
   */
  function ErrorsAsWritten(p: CourseFields): seq<FieldError> {
    Errors(p.(rating := Some(p.rating.GetOr(DefaultRating))), OnCreate)
  }

  lemma DefaultRatingRejectedAsWritten(p: CourseFields)
    requires p.rating.None?
    ensures FieldError("rating", "Rating must be at least 1") in ErrorsAsWritten(p)
  {
    var q := p.(rating := Some(DefaultRating));
    assert RatingErrors(q.rating) == [FieldError("rating", "Rating must be at least 1")];
    var before := TitleErrors(q.title, OnCreate)
      + RequiredString("description", q.description, "Please add a description", OnCreate)
      + Required("weeks", q.weeks, "Please add number of weeks", OnCreate)
      + Required("tuition", q.tuition, "Please add a tuition cost", OnCreate)
      + SkillErrors(q.minimumSkill, OnCreate)
      + Required("category", q.category, "Path `category` is required.", OnCreate)
      + Required("instructor", q.instructor, "Path `instructor` is required.", OnCreate);
    var after := if q.reviews.Some? then ReviewsErrors(q.reviews.value, 0) else [];
    assert ErrorsAsWritten(p) == before + RatingErrors(q.rating) + after;
    assert ErrorsAsWritten(p)[|before|] == FieldError("rating", "Rating must be at least 1");
  }

  /** The corrected reading: an otherwise acceptable body without a rating is stored as unrated (0). */
  lemma DefaultRatingAccepted(p: CourseFields, now: int)
    requires Acceptable(p, OnCreate) && p.rating.None?
    ensures Errors(p, OnCreate) == []
    ensures Fill(p, now).rating == DefaultRating && !(1.0 <= Fill(p, now).rating <= 5.0)
  {
    ErrorsEmptyIff(p, OnCreate);
  }
}
