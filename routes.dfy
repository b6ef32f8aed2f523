/**
 * The route tables of the Node backend: which middleware chain guards each endpoint, and how the
 * chain and the course controller's ownership check together decide who may change a course.
 */
module Routes {
  import opened Records

  /** The middleware before a handler: none, `protect`, or `protect` then `authorize(roles)`. */
  datatype Gate = Public | Protect | ProtectAuthorize(roles: set<string>)

  /** Why a request is stopped before its handler, if it is. */
  datatype GateOutcome = Pass | NoToken | RoleNotAllowed

  /**
   * `protect` stops a request without an authenticated user; `authorize` stops one whose role is
   * not listed. The middleware itself is not part of this model (only this order and effect).
   */
  function Enter(g: Gate, who: Option<Caller>): (o: GateOutcome)
    ensures o == Pass <==> g.Public? || (who.Some? && (g.ProtectAuthorize? ==> who.value.role in g.roles))
    ensures o == NoToken <==> !g.Public? && who.None?
  {
    match g
    case Public => Pass
    case Protect => if who.None? then NoToken else Pass
    case ProtectAuthorize(roles) =>
      if who.None? then NoToken else if who.value.role !in roles then RoleNotAllowed else Pass
  }

  datatype CourseRoute = ListCourses | CreateCourse | GetCourse | UpdateCourse | DeleteCourse | EnrollCourse

  function CourseGate(r: CourseRoute): Gate {
    match r
    case ListCourses => Public
    case CreateCourse => ProtectAuthorize({"instructor", "admin"})
    case GetCourse => Public
    case UpdateCourse => ProtectAuthorize({"instructor", "admin"})
    case DeleteCourse => ProtectAuthorize({"instructor", "admin"})
    case EnrollCourse => Protect
  }

  datatype InstructorRoute = ListInstructors | CreateInstructor | GetInstructor | UpdateInstructor | DeleteInstructor

  function InstructorGate(r: InstructorRoute): Gate {
    match r
    case ListInstructors => Public
    case CreateInstructor => ProtectAuthorize({"admin"})
    case GetInstructor => Public
    case UpdateInstructor => ProtectAuthorize({"admin", "instructor"})
    case DeleteInstructor => ProtectAuthorize({"admin"})
  }

  datatype UserRoute = ListUsers | CreateUser | GetUser | UpdateUser | DeleteUser

  function UserGate(r: UserRoute): Gate {
    match r
    case ListUsers => ProtectAuthorize({"admin"})
    case CreateUser => ProtectAuthorize({"admin"})
    case GetUser => Protect
    case UpdateUser => Protect
    case DeleteUser => ProtectAuthorize({"admin"})
  }

  predicate Admits(g: Gate, who: Option<Caller>) {
    Enter(g, who) == Pass
  }

  /** Reading courses is open to anyone; changing them needs an instructor or admin; enrolling any login. */
  lemma CourseGates(r: CourseRoute, who: Option<Caller>)
    ensures (r == ListCourses || r == GetCourse) ==> Admits(CourseGate(r), who)
    ensures (r == CreateCourse || r == UpdateCourse || r == DeleteCourse) ==>
      (Admits(CourseGate(r), who) <==> who.Some? && (who.value.role == "instructor" || who.value.role == "admin"))
    ensures r == EnrollCourse ==> (Admits(CourseGate(r), who) <==> who.Some?)
  {
  }

  /** Reading instructors is open; create and delete are for admins; update for admins and any instructor. */
  lemma InstructorGates(r: InstructorRoute, who: Option<Caller>)
    ensures (r == ListInstructors || r == GetInstructor) ==> Admits(InstructorGate(r), who)
    ensures (r == CreateInstructor || r == DeleteInstructor) ==>
      (Admits(InstructorGate(r), who) <==> who.Some? && who.value.role == "admin")
    ensures r == UpdateInstructor ==>
      (Admits(InstructorGate(r), who) <==> who.Some? && (who.value.role == "admin" || who.value.role == "instructor"))
    ensures !(r == ListInstructors || r == GetInstructor) ==> Enter(InstructorGate(r), None) == NoToken
  {
  }

  /** Every user route needs a login; listing, creating and deleting also need an admin. */
  lemma UserGates(r: UserRoute, who: Option<Caller>)
    ensures Enter(UserGate(r), None) == NoToken
    ensures (r == GetUser || r == UpdateUser) ==> (Admits(UserGate(r), who) <==> who.Some?)
    ensures (r == ListUsers || r == CreateUser || r == DeleteUser) ==>
      (Admits(UserGate(r), who) <==> who.Some? && who.value.role == "admin")
  {
  }

  /** What a request to change a course ends in, from the route gate through the controller's checks. */
  datatype Decision = Refused(why: GateOutcome) | CourseMissing | NotOwner | Allowed

  /**
   * Update or delete of the course whose stored instructor is `owner` (`None` when there is no such
   * course): the gate runs first, then the existence check, then the ownership check.
   */
  function ChangeCourse(r: CourseRoute, who: Option<Caller>, owner: Option<Id>): (d: Decision)
    requires r == UpdateCourse || r == DeleteCourse
    ensures d == Allowed <==>
      who.Some? && (who.value.role == "instructor" || who.value.role == "admin")
      && owner.Some? && MayModify(who.value, owner.value)
  {
    var o := Enter(CourseGate(r), who);
    if o != Pass then Refused(o)
    else if owner.None? then CourseMissing
    else if !MayModify(who.value, owner.value) then NotOwner
    else Allowed
  }

  /** An instructor who is not an admin may change a course exactly when it is theirs. */
  lemma InstructorChangesOnlyOwnCourses(r: CourseRoute, me: Id, owner: Id)
    requires r == UpdateCourse || r == DeleteCourse
    ensures ChangeCourse(r, Some(Caller(me, "instructor")), Some(owner)) == Allowed <==> owner == me
    ensures owner != me ==> ChangeCourse(r, Some(Caller(me, "instructor")), Some(owner)) == NotOwner
  {
  }

  /** An admin may change any existing course. */
  lemma AdminChangesAnyCourse(r: CourseRoute, me: Id, owner: Id)
    requires r == UpdateCourse || r == DeleteCourse
    ensures ChangeCourse(r, Some(Caller(me, "admin")), Some(owner)) == Allowed
  {
  }

  /** A student is stopped at the gate, even one recorded as the course's instructor. */
  lemma StudentChangesNoCourse(r: CourseRoute, me: Id, owner: Option<Id>)
    requires r == UpdateCourse || r == DeleteCourse
    ensures ChangeCourse(r, Some(Caller(me, "student")), owner) == Refused(RoleNotAllowed)
  {
  }
}
