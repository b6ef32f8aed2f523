/**
 * The separate Flask backend: its own tables (users, courses, assignments, submissions, support
 * requests, notifications) and the handlers that change records in place. Clock reads are the
 * `now` parameter; a missing row is what `get_or_404` turns into a 404.
 */
module FlaskApp {
  import opened Records

  datatype User = User(name: string, email: string, passwordHash: string, role: string, status: string, createdAt: int)
  datatype Course = Course(name: string, description: string, facultyId: nat, status: string, createdAt: int)
  datatype Assignment = Assignment(courseId: nat, name: string, description: string, dueDate: int, filePath: string)
  datatype Submission = Submission(
    assignmentId: nat, studentId: nat, filePath: string, submittedAt: int, grade: Option<int>, feedback: Option<string>)
  datatype SupportRequest = SupportRequest(userId: nat, issue: string, status: string, createdAt: int, resolvedAt: Option<int>)
  datatype Notification = Notification(
    title: string, content: string, kind: string, targetAudience: string, schedule: string,
    scheduledAt: Option<int>, status: string, createdAt: int, sentAt: Option<int>, userId: Option<nat>)

  /** The `scheduled_datetime` form field: not sent, sent and read by `fromisoformat`, or sent but not ISO. */
  datatype DatetimeField = Absent | Parsed(at: int) | Malformed

  /** The form fields of a new notification. */
  datatype NotificationForm = NotificationForm(
    title: string, content: string, kind: string, targetAudience: string, schedule: string, scheduledAt: DatetimeField)

  datatype Stats = Stats(totalUsers: nat, activeCourses: nat, totalAssignments: nat)

  const DefaultUserStatus: string := "active"
  const Resolved: string := "resolved"
  const Pending: string := "pending"
  const Sent: string := "sent"
  const Immediate: string := "immediate"
  const Scheduled: string := "scheduled"

  /** `handle_support_request` on one row: the status is replaced; `resolved_at` moves only on "resolved". */
  function Handle(r: SupportRequest, status: string, now: int): (u: SupportRequest)
    ensures u.status == status
    ensures status == Resolved ==> u.resolvedAt == Some(now)
    ensures status != Resolved ==> u.resolvedAt == r.resolvedAt
    ensures u.userId == r.userId && u.issue == r.issue && u.createdAt == r.createdAt
  {
    var s := r.(status := status);
    if status == Resolved then s.(resolvedAt := Some(now)) else s
  }

  /** A resolved request carries its resolution time. */
  predicate ResolvedHasTime(r: SupportRequest) {
    r.status == Resolved ==> r.resolvedAt.Some?
  }

  lemma HandleKeepsResolvedHasTime(r: SupportRequest, status: string, now: int)
    requires ResolvedHasTime(r)
    ensures ResolvedHasTime(Handle(r, status, now))
  {
  }

  /** The row `create_notification` adds before it is sent: default status, and a time only when scheduled. */
  function NewNotification(form: NotificationForm, now: int): (n: Notification)
    ensures n.status == Pending && n.sentAt.None? && n.createdAt == now && n.userId.None?
    ensures n.scheduledAt.Some? <==> form.schedule == Scheduled && form.scheduledAt.Parsed?
    ensures n.scheduledAt.Some? ==> n.scheduledAt.value == form.scheduledAt.at
    ensures n.title == form.title && n.content == form.content && n.kind == form.kind
    ensures n.targetAudience == form.targetAudience && n.schedule == form.schedule
  {
    Notification(
      form.title, form.content, form.kind, form.targetAudience, form.schedule,
      if form.schedule == Scheduled && form.scheduledAt.Parsed? then Some(form.scheduledAt.at) else None,
      Pending, now, None, None)
  }

  /** `send_notification`: the row becomes sent at `now`; nothing else changes. */
  function Send(n: Notification, now: int): (m: Notification)
    ensures m.status == Sent && m.sentAt == Some(now)
    ensures m.(status := n.status, sentAt := n.sentAt) == n
  {
    n.(status := Sent, sentAt := Some(now))
  }

  /** A scheduled form whose datetime `fromisoformat` rejects: the request fails before anything is stored. */
  predicate Rejected(form: NotificationForm) {
    form.schedule == Scheduled && form.scheduledAt.Malformed?
  }

  /**
   * The row `create_notification` stores, or `None` when it raises: sent right away exactly when
   * immediate.
   */
  function Created(form: NotificationForm, now: int): (r: Option<Notification>)
    ensures r.None? <==> Rejected(form)
    ensures r.Some? && form.schedule == Immediate ==> r.value.status == Sent && r.value.sentAt == Some(now)
    ensures r.Some? && form.schedule != Immediate ==> r.value.status == Pending && r.value.sentAt.None?
    ensures r.Some? ==> (r.value.scheduledAt.Some? <==> form.schedule == Scheduled && form.scheduledAt.Parsed?)
  {
    if Rejected(form) then None
    else
      var n := NewNotification(form, now);
      Some(if n.schedule == Immediate then Send(n, now) else n)
  }

  /** The life-cycle invariant of a notification row: sent exactly when it has a send time. */
  predicate WellFormed(n: Notification) {
    && (n.status == Sent <==> n.sentAt.Some?)
    && (n.schedule == Immediate ==> n.status == Sent)
    && (n.scheduledAt.Some? ==> n.schedule == Scheduled)
  }

  lemma CreatedWellFormed(form: NotificationForm, now: int)
    ensures Created(form, now).Some? ==> WellFormed(Created(form, now).value)
  {
  }

  /** The courses whose status is "active". */
  function ActiveCourses(courses: map<nat, Course>): (ks: set<nat>)
    ensures forall k :: k in ks <==> k in courses && courses[k].status == "active"
  {
    set k | k in courses && courses[k].status == "active"
  }

  lemma {:induction false} SubsetSmaller(a: set<nat>, b: set<nat>)
    requires a <= b
    ensures |a| <= |b|
    decreases |b|
  {
    if a != {} {
      var x :| x in a;
      SubsetSmaller(a - {x}, b - {x});
    }
  }

  /** There are never more active courses than courses. */
  lemma ActiveCoursesBounded(courses: map<nat, Course>)
    ensures |ActiveCourses(courses)| <= |courses|
  {
    SubsetSmaller(ActiveCourses(courses), courses.Keys);
  }

  /** Some stored user already has this email. */
  predicate EmailTaken(users: map<nat, User>, email: string)
  {
    exists k :: k in users && users[k].email == email
  }

  /** The `unique=True` constraint on the email column: no two users share an email. */
  predicate UniqueEmails(users: map<nat, User>)
  {
    forall j, k :: j in users && k in users && j != k ==> users[j].email != users[k].email
  }

  class AppDb {
    var users: map<nat, User>
    var courses: map<nat, Course>
    var assignments: map<nat, Assignment>
    var submissions: map<nat, Submission>
    var supportRequests: map<nat, SupportRequest>
    var notifications: map<nat, Notification>
    /** The next primary key; every stored key is below it. */
    var nextId: nat

    ghost predicate Valid()
      reads this
    {
      && (forall k :: k in users ==> k < nextId)
      && UniqueEmails(users)
      && (forall k :: k in notifications ==> k < nextId)
      && (forall k :: k in notifications ==> WellFormed(notifications[k]))
      && (forall k :: k in supportRequests ==> ResolvedHasTime(supportRequests[k]))
    }

    constructor ()
      ensures Valid()
      ensures users == map[] && courses == map[] && assignments == map[] && submissions == map[]
      ensures supportRequests == map[] && notifications == map[]
    {
      users, courses, assignments, submissions := map[], map[], map[], map[];
      supportRequests, notifications := map[], map[];
      nextId := 0;
    }

    /**
     * POST /api/users: the status is the column default "active"; `passwordHash` is the hashed
     * password. The email column is unique, so a taken email makes the commit fail and nothing
     * is stored (`stored` is false).
     */
    method CreateUser(name: string, email: string, role: string, passwordHash: string, now: int)
      returns (stored: bool, id: nat, u: User)
      requires Valid()
      modifies this
      ensures Valid()
      ensures u == User(name, email, passwordHash, role, DefaultUserStatus, now)
      ensures stored <==> !EmailTaken(old(users), email)
      ensures stored ==> id !in old(users) && users == old(users)[id := u]
      ensures !stored ==> users == old(users)
      ensures courses == old(courses) && assignments == old(assignments) && submissions == old(submissions)
      ensures supportRequests == old(supportRequests) && notifications == old(notifications)
    {
      u := User(name, email, passwordHash, role, DefaultUserStatus, now);
      if EmailTaken(users, email) {
        return false, 0, u;
      }
      stored, id := true, nextId;
      nextId := nextId + 1;
      users := users[id := u];
    }

    /** GET /api/stats */
    method GetStats() returns (s: Stats)
      ensures s.totalUsers == |users| && s.totalAssignments == |assignments|
      ensures s.activeCourses == |ActiveCourses(courses)| && s.activeCourses <= |courses|
    {
      ActiveCoursesBounded(courses);
      s := Stats(|users|, |ActiveCourses(courses)|, |assignments|);
    }

    /** POST /api/support-requests/<id>: `found` is false for the 404. */
    method HandleSupportRequest(id: nat, status: string, now: int) returns (found: bool)
      requires Valid()
      modifies this`supportRequests
      ensures Valid()
      ensures found <==> id in old(supportRequests)
      ensures found ==> supportRequests == old(supportRequests)[id := Handle(old(supportRequests)[id], status, now)]
      ensures !found ==> supportRequests == old(supportRequests)
    {
      if id !in supportRequests {
        return false;
      }
      HandleKeepsResolvedHasTime(supportRequests[id], status, now);
      supportRequests := supportRequests[id := Handle(supportRequests[id], status, now)];
      found := true;
    }

    /**
     * POST /api/notifications: stored pending, then sent in the same request when immediate.
     * `stored` is false for the error a malformed datetime raises; nothing is stored then.
     */
    method CreateNotification(form: NotificationForm, now: int) returns (stored: bool, id: nat, n: Notification)
      requires Valid()
      modifies this`notifications, this`nextId
      ensures Valid()
      ensures stored <==> !Rejected(form)
      ensures stored ==> Created(form, now) == Some(n)
      ensures stored ==> id !in old(notifications) && notifications == old(notifications)[id := n]
      ensures !stored ==> notifications == old(notifications)
    {
      if Rejected(form) {
        return false, 0, NewNotification(form, now);
      }
      stored := true;
      n := NewNotification(form, now);
      id := nextId;
      nextId := nextId + 1;
      notifications := notifications[id := n];
      if n.schedule == Immediate {
        n := SendStored(id, n, now);
      }
      CreatedWellFormed(form, now);
    }

    /** `send_notification` on the stored row `id`. */
    method SendStored(id: nat, n: Notification, now: int) returns (m: Notification)
      requires id in notifications && notifications[id] == n
      modifies this`notifications
      ensures m == Send(n, now)
      ensures notifications == old(notifications)[id := m]
    {
      m := Send(n, now);
      notifications := notifications[id := m];
    }

    /** DELETE /api/notifications/<id>: exactly that row goes. */
    method DeleteNotification(id: nat) returns (found: bool)
      requires Valid()
      modifies this`notifications
      ensures Valid()
      ensures found <==> id in old(notifications)
      ensures notifications == old(notifications) - {id}
    {
      found := id in notifications;
      notifications := notifications - {id};
    }

    /**
     * POST /api/submissions/<id>/grade: the JSON grade is stored as sent. Any integer is accepted (the
     * server checks no range), and `null` (`None`) clears the grade.
     */
    method GradeSubmission(id: nat, grade: Option<int>) returns (found: bool)
      modifies this`submissions
      ensures found <==> id in old(submissions)
      ensures found ==> submissions == old(submissions)[id := old(submissions)[id].(grade := grade)]
      ensures !found ==> submissions == old(submissions)
    {
      if id !in submissions {
        return false;
      }
      submissions := submissions[id := submissions[id].(grade := grade)];
      found := true;
    }
  }
}
