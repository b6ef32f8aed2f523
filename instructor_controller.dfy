/**
 * The instructor handlers. Instructors are the users whose `role` is "instructor"; a user is a
 * schemaless document here, so forcing, stripping and hiding fields are operations on maps.
 */
module InstructorController {
  import opened Records
  import opened CourseSchema
  import opened Store

  const RoleKey: string := "role"
  const PasswordKey: string := "password"
  const InstructorRole: string := "instructor"
  const InstructorNotFound: string := "Instructor not found"
  const HasCourses: string := "Cannot delete instructor with existing courses"

  predicate IsInstructor(u: Document) {
    RoleKey in u && u[RoleKey] == InstructorRole
  }

  /** `select('-password')`: the document without its password field. */
  function WithoutPassword(u: Document): (v: Document)
    ensures PasswordKey !in v
    ensures forall k :: k in v <==> k in u && k != PasswordKey
    ensures forall k :: k in v ==> v[k] == u[k]
  {
    u - {PasswordKey}
  }

  /** `User.find({ role: 'instructor' })` with the password hidden. */
  function Instructors(users: map<Id, Document>): (m: map<Id, Document>)
    ensures forall k :: k in m <==> k in users && IsInstructor(users[k])
    ensures forall k :: k in m ==> m[k] == WithoutPassword(users[k])
  {
    map k | k in users && IsInstructor(users[k]) :: WithoutPassword(users[k])
  }

  /** `Course.find({ instructor: id })`. */
  function CoursesTaughtBy(courses: map<Id, Course>, id: Id): (m: map<Id, Course>)
    ensures forall k :: k in m <==> k in courses && courses[k].instructor == id
    ensures forall k :: k in m ==> m[k] == courses[k]
  {
    map k | k in courses && courses[k].instructor == id :: courses[k]
  }

  /** An instructor teaches nothing exactly when no stored course names them. */
  lemma NoCoursesIff(courses: map<Id, Course>, id: Id)
    ensures CoursesTaughtBy(courses, id) == map[] <==> forall k :: k in courses ==> courses[k].instructor != id
  {
    if CoursesTaughtBy(courses, id) != map[] {
      var k :| k in CoursesTaughtBy(courses, id);
      assert k in courses && courses[k].instructor == id;
    }
  }

  /** The body a create stores: whatever was sent, with the role forced to instructor. */
  function CreatePayload(body: Document): (d: Document)
    ensures IsInstructor(d)
    ensures forall k :: k in body && k != RoleKey ==> k in d && d[k] == body[k]
  {
    body[RoleKey := InstructorRole]
  }

  /** The stored user after an update: every supplied field except the role replaces the old one. */
  function Merge(stored: Document, body: Document): (d: Document)
    ensures RoleKey in stored ==> RoleKey in d && d[RoleKey] == stored[RoleKey]
    ensures RoleKey !in stored ==> RoleKey !in d
    ensures forall k :: k in body && k != RoleKey ==> k in d && d[k] == body[k]
    ensures forall k :: k in stored && k !in body ==> k in d && d[k] == stored[k]
  {
    stored + (body - {RoleKey})
  }

  /** An update keeps an instructor an instructor, whatever role the body asks for. */
  lemma UpdateKeepsInstructor(stored: Document, body: Document)
    requires IsInstructor(stored)
    ensures IsInstructor(Merge(stored, body))
  {
  }

  datatype InstructorAndCourses = InstructorAndCourses(instructor: Document, courses: map<Id, Course>)

  /** GET /api/instructors */
  method GetInstructors(db: Database) returns (count: nat, data: map<Id, Document>)
    ensures data == Instructors(db.users) && count == |data|
  {
    data := Instructors(db.users);
    count := |data|;
  }

  /** GET /api/instructors/:id: a user who is not an instructor is not found. */
  method GetInstructor(db: Database, id: Id) returns (r: Reply<InstructorAndCourses>)
    ensures !(id in db.users && IsInstructor(db.users[id])) ==> r == NotFound(InstructorNotFound)
    ensures id in db.users && IsInstructor(db.users[id]) ==>
      r == Ok(InstructorAndCourses(WithoutPassword(db.users[id]), CoursesTaughtBy(db.courses, id)))
  {
    if !(id in db.users && IsInstructor(db.users[id])) {
      return NotFound(InstructorNotFound);
    }
    r := Ok(InstructorAndCourses(WithoutPassword(db.users[id]), CoursesTaughtBy(db.courses, id)));
  }

  /**
   * POST /api/instructors. The User model's validation is not part of this model: `storeError`
   * is the message it reports for this body, if any.
   */
  method CreateInstructor(db: Database, body: Document, storeError: Option<string>) returns (r: Reply<Document>)
    requires db.Valid()
    modifies db
    ensures db.Valid()
    ensures db.courses == old(db.courses) && db.categories == old(db.categories)
    ensures storeError.Some? ==> r == BadRequest(storeError.value) && db.users == old(db.users)
    ensures storeError.None? ==>
      && r == Ok(CreatePayload(body))
      && old(db.nextId) !in old(db.users)
      && db.users == old(db.users)[old(db.nextId) := CreatePayload(body)]
  {
    var doc := CreatePayload(body);
    if storeError.Some? {
      return BadRequest(storeError.value);
    }
    var id := db.NewId();
    db.users := db.users[id := doc];
    r := Ok(doc);
  }

  /** PUT /api/instructors/:id: the role key is dropped from the body before the merge. */
  method UpdateInstructor(db: Database, id: Id, body: Document, storeError: Option<string>) returns (r: Reply<Document>)
    requires db.Valid()
    modifies db
    ensures db.Valid()
    ensures db.courses == old(db.courses) && db.categories == old(db.categories)
    ensures !(id in old(db.users) && IsInstructor(old(db.users)[id])) ==>
      r == NotFound(InstructorNotFound) && db.users == old(db.users)
    ensures id in old(db.users) && IsInstructor(old(db.users)[id]) && storeError.Some? ==>
      r == BadRequest(storeError.value) && db.users == old(db.users)
    ensures id in old(db.users) && IsInstructor(old(db.users)[id]) && storeError.None? ==>
      && db.users == old(db.users)[id := Merge(old(db.users)[id], body)]
      && r == Ok(WithoutPassword(db.users[id]))
      && IsInstructor(db.users[id])
  {
    if !(id in db.users && IsInstructor(db.users[id])) {
      return NotFound(InstructorNotFound);
    }
    if storeError.Some? {
      return BadRequest(storeError.value);
    }
    var updated := Merge(db.users[id], body);
    db.users := db.users[id := updated];
    r := Ok(WithoutPassword(updated));
  }

  /** DELETE /api/instructors/:id: refused while any course names the instructor. */
  method DeleteInstructor(db: Database, id: Id) returns (r: Reply<Empty>)
    requires db.Valid()
    modifies db
    ensures db.Valid()
    ensures db.courses == old(db.courses) && db.categories == old(db.categories)
    ensures !(id in old(db.users) && IsInstructor(old(db.users)[id])) ==>
      r == NotFound(InstructorNotFound) && db.users == old(db.users)
    ensures id in old(db.users) && IsInstructor(old(db.users)[id]) ==>
      (r == BadRequest(HasCourses) <==> exists k :: k in db.courses && db.courses[k].instructor == id)
    ensures (&& id in old(db.users) && IsInstructor(old(db.users)[id])
             && forall k :: k in old(db.courses) ==> old(db.courses)[k].instructor != id) ==>
      r == Ok(Empty) && db.users == old(db.users) - {id}
    ensures r.BadRequest? ==> db.users == old(db.users) && id in db.users
    ensures r.Ok? ==>
      && r == Ok(Empty)
      && (forall k :: k in db.courses ==> db.courses[k].instructor != id)
      && db.users == old(db.users) - {id}
  {
    if !(id in db.users && IsInstructor(db.users[id])) {
      return NotFound(InstructorNotFound);
    }
    NoCoursesIff(db.courses, id);
    if CoursesTaughtBy(db.courses, id) != map[] {
      return BadRequest(HasCourses);
    }
    db.users := db.users - {id};
    r := Ok(Empty);
  }
}
