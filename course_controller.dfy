/** The course handlers: get, create, update, delete and enroll, each one request against the store. */
module CourseController {
  import opened Records
  import opened CourseSchema
  import opened Store

  const CourseNotFound: string := "Course not found"
  const AlreadyEnrolled: string := "You are already enrolled in this course"
  const NotAuthorizedToUpdate: string := "Not authorized to update this course"
  const NotAuthorizedToDelete: string := "Not authorized to delete this course"

  /** The outcome of the two checks update and delete share, in the order they run. */
  datatype OwnerGate = Proceed | Missing | NotOwner

  /** Existence first, then ownership (caller is the course's instructor, or an admin). */
  function CheckOwner(courses: map<Id, Course>, id: Id, caller: Caller): (g: OwnerGate)
    ensures g == Missing <==> id !in courses
    ensures g == NotOwner <==> id in courses && !MayModify(caller, courses[id].instructor)
    ensures g == Proceed <==> id in courses && MayModify(caller, courses[id].instructor)
  {
    if id !in courses then Missing
    else if !MayModify(caller, courses[id].instructor) then NotOwner
    else Proceed
  }

  /** A missing course is reported as missing whoever asks, admins and owners included. */
  lemma NotFoundBeforeOwnership(courses: map<Id, Course>, id: Id, caller: Caller)
    requires id !in courses
    ensures CheckOwner(courses, id, caller) == Missing
  {
  }

  /** The enroll step on a loaded course: a caller already listed is refused, anyone else is appended. */
  function EnrollIn(c: Course, user: Id): (r: Reply<Course>)
    ensures r.Ok? || r.BadRequest?
    ensures r.BadRequest? <==> user in c.enrolledStudents
    ensures r.BadRequest? ==> r.error == AlreadyEnrolled
    ensures r.Ok? ==> r.data.enrolledStudents == c.enrolledStudents + [user]
    ensures r.Ok? ==> r.data.(enrolledStudents := c.enrolledStudents) == c
  {
    if user in c.enrolledStudents then BadRequest(AlreadyEnrolled)
    else Ok(c.(enrolledStudents := c.enrolledStudents + [user]))
  }

  /** How often `x` appears in `s`. */
  function Occurrences(s: seq<Id>, x: Id): nat {
    if s == [] then 0 else (if s[0] == x then 1 else 0) + Occurrences(s[1..], x)
  }

  lemma {:induction false} OccurrencesZero(s: seq<Id>, x: Id)
    ensures Occurrences(s, x) == 0 <==> x !in s
  {
    if s != [] {
      OccurrencesZero(s[1..], x);
      assert s == [s[0]] + s[1..];
    }
  }

  lemma {:induction false} OccurrencesAppend(s: seq<Id>, x: Id, y: Id)
    ensures Occurrences(s + [y], x) == Occurrences(s, x) + (if y == x then 1 else 0)
  {
    if s != [] {
      assert (s + [y])[1..] == s[1..] + [y];
      OccurrencesAppend(s[1..], x, y);
    }
  }

  /** Enrolling the same user twice: the first call appends them once, the second is refused. */
  lemma EnrollTwice(c: Course, user: Id)
    requires Occurrences(c.enrolledStudents, user) == 0
    ensures EnrollIn(c, user).Ok?
    ensures EnrollIn(EnrollIn(c, user).data, user) == BadRequest(AlreadyEnrolled)
    ensures Occurrences(EnrollIn(c, user).data.enrolledStudents, user) == 1
  {
    OccurrencesZero(c.enrolledStudents, user);
    OccurrencesAppend(c.enrolledStudents, user, user);
  }

  /** No id appears twice. */
  predicate Distinct(s: seq<Id>) {
    forall i, j :: 0 <= i < j < |s| ==> s[i] != s[j]
  }

  /** Enrollment keeps a duplicate-free student list duplicate-free. */
  lemma EnrollKeepsDistinct(c: Course, user: Id)
    requires Distinct(c.enrolledStudents)
    ensures EnrollIn(c, user).Ok? ==> Distinct(EnrollIn(c, user).data.enrolledStudents)
  {
  }

  /** GET /api/courses: every stored course and their count. */
  method GetCourses(db: Database) returns (count: nat, data: map<Id, Course>)
    ensures data == db.courses && count == |db.courses|
  {
    data := db.courses;
    count := |data|;
  }

  /** GET /api/courses/:id */
  method GetCourse(db: Database, id: Id) returns (r: Reply<Course>)
    ensures id in db.courses ==> r == Ok(db.courses[id])
    ensures id !in db.courses ==> r == NotFound(CourseNotFound)
  {
    if id !in db.courses {
      return NotFound(CourseNotFound);
    }
    r := Ok(db.courses[id]);
  }

  /** POST /api/courses: the body's instructor is overwritten with the caller before validation. */
  method CreateCourse(db: Database, caller: Caller, body: CourseFields, now: int) returns (r: Reply<Course>)
    requires db.Valid()
    modifies db
    ensures db.Valid()
    ensures db.users == old(db.users) && db.categories == old(db.categories)
    ensures var p := body.(instructor := Some(caller.id));
      if Acceptable(p, OnCreate) then
        && r == Ok(Fill(p, now))
        && r.data.instructor == caller.id
        && old(db.nextId) !in old(db.courses)
        && db.courses == old(db.courses)[old(db.nextId) := r.data]
      else
        && r == BadRequest(ValidationMessage(Errors(p, OnCreate), OnCreate))
        && db.courses == old(db.courses)
  {
    var p := body.(instructor := Some(caller.id));
    var errors := Errors(p, OnCreate);
    ErrorsEmptyIff(p, OnCreate);
    if errors != [] {
      return BadRequest(ValidationMessage(errors, OnCreate));
    }
    var course := Fill(p, now);
    var id := db.NewId();
    db.courses := db.courses[id := course];
    r := Ok(course);
  }

  /** The instructor of the stored course is whoever created it, whatever the body said. */
  lemma CreatedCourseBelongsToCaller(body: CourseFields, caller: Caller, now: int)
    requires Acceptable(body.(instructor := Some(caller.id)), OnCreate)
    ensures Fill(body.(instructor := Some(caller.id)), now).instructor == caller.id
  {
  }

  /** PUT /api/courses/:id: existence, ownership, then a validated partial update. */
  method UpdateCourse(db: Database, caller: Caller, id: Id, body: CourseFields) returns (r: Reply<Course>)
    requires db.Valid()
    modifies db
    ensures db.Valid()
    ensures db.users == old(db.users) && db.categories == old(db.categories)
    ensures var g := CheckOwner(old(db.courses), id, caller);
      && (g == Missing ==> r == NotFound(CourseNotFound) && db.courses == old(db.courses))
      && (g == NotOwner ==> r == Unauthorized(NotAuthorizedToUpdate) && db.courses == old(db.courses))
      && (g == Proceed && !Acceptable(body, OnUpdate) ==>
            r == BadRequest(ValidationMessage(Errors(body, OnUpdate), OnUpdate)) && db.courses == old(db.courses))
      && (g == Proceed && Acceptable(body, OnUpdate) ==>
            r == Ok(Apply(old(db.courses)[id], body)) && db.courses == old(db.courses)[id := r.data])
  {
    var g := CheckOwner(db.courses, id, caller);
    if g == Missing {
      return NotFound(CourseNotFound);
    }
    if g == NotOwner {
      return Unauthorized(NotAuthorizedToUpdate);
    }
    var errors := Errors(body, OnUpdate);
    ErrorsEmptyIff(body, OnUpdate);
    if errors != [] {
      return BadRequest(ValidationMessage(errors, OnUpdate));
    }
    var updated := Apply(db.courses[id], body);
    db.courses := db.courses[id := updated];
    r := Ok(updated);
  }

  /** DELETE /api/courses/:id: existence, ownership, then removal; the data is empty. */
  method DeleteCourse(db: Database, caller: Caller, id: Id) returns (r: Reply<Empty>)
    requires db.Valid()
    modifies db
    ensures db.Valid()
    ensures db.users == old(db.users) && db.categories == old(db.categories)
    ensures var g := CheckOwner(old(db.courses), id, caller);
      && (g == Missing ==> r == NotFound(CourseNotFound) && db.courses == old(db.courses))
      && (g == NotOwner ==> r == Unauthorized(NotAuthorizedToDelete) && db.courses == old(db.courses))
      && (g == Proceed ==> r == Ok(Empty) && db.courses == old(db.courses) - {id} && id !in db.courses)
  {
    var g := CheckOwner(db.courses, id, caller);
    if g == Missing {
      return NotFound(CourseNotFound);
    }
    if g == NotOwner {
      return Unauthorized(NotAuthorizedToDelete);
    }
    db.courses := db.courses - {id};
    r := Ok(Empty);
  }

  /**
   * POST /api/courses/:id/enroll: the duplicate-guarded append, saved back. The save re-validates
   * the course, which cannot fail since only `enrolledStudents` changed.
   */
  method EnrollCourse(db: Database, caller: Caller, id: Id) returns (r: Reply<Course>)
    requires db.Valid()
    modifies db
    ensures db.Valid()
    ensures db.users == old(db.users) && db.categories == old(db.categories)
    ensures id !in old(db.courses) ==> r == NotFound(CourseNotFound) && db.courses == old(db.courses)
    ensures id in old(db.courses) ==> r == EnrollIn(old(db.courses)[id], caller.id)
    ensures id in old(db.courses) && r.Ok? ==> db.courses == old(db.courses)[id := r.data]
    ensures id in old(db.courses) && !r.Ok? ==> db.courses == old(db.courses)
  {
    if id !in db.courses {
      return NotFound(CourseNotFound);
    }
    r := EnrollIn(db.courses[id], caller.id);
    if r.Ok? {
      db.courses := db.courses[id := r.data];
    }
  }
}
