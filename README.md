# Learning platform core, modelled in Dafny

This project models the rule-bearing core of a small learning-management platform and proves
properties of that model. It has four parts.

- **Node/Express backend.** The course, instructor and category controllers run against one
  document store (`Store.Database`: users, courses and categories keyed by id). Each handler is
  a method that returns the uniform envelope `Reply`: `Ok(data)`, `NotFound`, `Unauthorized` or
  `BadRequest(error)`. Around them sit:
  - the Course schema (`CourseSchema`): validation with the store's error messages, default
    filling on create, and the partial update;
  - the route tables of the course, instructor and user routers (`Routes`), which combine with
    the controller's ownership check into one access decision.
- **Flask backend.** `FlaskApp` is a separate backend with its own tables, modelled on its own:
  - support-request handling;
  - the notification life cycle (`pending` to `sent` on an immediate schedule);
  - deleting notifications, the stats counts, grading, and the default user status.
- **Browser scripts.**
  - Student dashboard: status badges, action buttons, the quiz countdown and its `HH:MM:SS`
    text, the time-ago unit rule, score colours, course search, the pending-assignment alert,
    the chat send guard and the notification feed.
  - Admin dashboard: the label maps, the schedule text, the schedule-field toggle and the list
    updates.
  - Faculty dashboard: the grade prompt, the grade label and the performance-fetch guard.
  - Signup page: the validation order and the redirect.
  - Public courses page: the course cards, the in-place show/hide filter and the category
    dropdown.
- **Shared helpers.** `Text` holds the JavaScript string operations used throughout:
  `trim`, `toLowerCase`, `includes`, `toString` and `padStart`, and the property lookup of an
  object literal, including the properties it inherits from `Object.prototype`. It also holds
  `Split`, which the source never calls: together with `QuizTimer.ParseClock` it is the model's
  own reader of the clock text, the inverse that `QuizTimer.ClockRoundTrip` needs.

Clock reads, prompts, confirmations, server responses and validation done by models outside this
code become parameters: `now`, `input`, `confirmed`/`ok`, `storeError`.

Instructor update is marked `@access Private/Admin` in its handler's header comment
(backend/controllers/instructors.js:83). The route, however, also admits instructors
(backend/routes/instructors.js:22), and the handler adds no self check. The model follows the
code: any instructor may update any instructor. `Routes.InstructorGates` and
`InstructorController.UpdateInstructor` state exactly this.

For the default course rating the model follows the corrected reading, not the schema as
written (see Findings): a body without a rating is accepted and stored with the unrated value 0.
`CourseSchema.Fill`, `CourseController.CreateCourse` and the store invariant rely on this.

## Model

| member | source | states |
|---|---|---|
| Store.Database.constructor | backend/controllers/courses.js:62 | The store starts with three empty collections and satisfies its invariant: ids are below `nextId` and every course is schema-valid. Schema-valid follows the corrected reading of the default rating (Findings), so an unrated course with rating 0 is valid. |
| Store.Database.NewId | backend/controllers/categories.js:54 | A create gets an id used in no collection; the invariant is kept. |
| CourseController.CheckOwner | backend/controllers/courses.js:81-96 | Existence is checked first, then ownership. The outcome is Missing iff the id is absent, NotOwner iff the course exists and the caller is neither its instructor nor an admin, and Proceed otherwise. |
| CourseController.NotFoundBeforeOwnership | backend/controllers/courses.js:120-135 | For a missing course, every caller (admins and owners included) gets Missing. |
| CourseController.EnrollIn | backend/controllers/courses.js:166-174 | The call is refused with "You are already enrolled in this course" iff the caller is already listed. Otherwise exactly the caller is appended at the end and every other course field is unchanged. |
| CourseController.OccurrencesZero | backend/controllers/courses.js:166 | An id occurs zero times in a list iff `includes` is false for it. |
| CourseController.OccurrencesAppend | backend/controllers/courses.js:173 | A push adds one occurrence of the pushed id and none of any other id. |
| CourseController.EnrollTwice | backend/controllers/courses.js:166-174 | Starting with no occurrence of the user, the first enroll succeeds and leaves exactly one occurrence. The second enroll is refused. |
| CourseController.EnrollKeepsDistinct | backend/controllers/courses.js:166-174 | A successful enroll keeps a duplicate-free student list duplicate-free. |
| CourseController.GetCourses | backend/controllers/courses.js:6-23 | The response holds every stored course, and its count equals the number of courses. |
| CourseController.GetCourse | backend/controllers/courses.js:28-52 | Returns the stored course, or NotFound "Course not found" when the id is absent. |
| CourseController.CreateCourse | backend/controllers/courses.js:57-74 | The body's instructor is replaced by the caller before validation. An acceptable body is stored under a fresh id as the filled course, whose instructor is the caller. Any other body yields BadRequest with the validation message, and the store is unchanged. Acceptance follows the corrected reading of the default rating (Findings): a body without a rating is accepted, which the schema as written would reject. |
| CourseController.CreatedCourseBelongsToCaller | backend/controllers/courses.js:60-62 | Whatever the payload says, a created course's instructor is the caller id. |
| CourseController.UpdateCourse | backend/controllers/courses.js:79-113 | Missing gives NotFound; not owner and not admin gives Unauthorized; an invalid patch gives BadRequest. In these three cases the store is unchanged. Otherwise only that course changes, to the merged, still valid course. |
| CourseController.DeleteCourse | backend/controllers/courses.js:118-149 | Missing gives NotFound and not-owner gives Unauthorized, each with the store unchanged. Otherwise exactly that course is removed and the data is empty. |
| CourseController.EnrollCourse | backend/controllers/courses.js:154-185 | Missing gives NotFound and changes nothing. Otherwise the reply is the enroll step, and only a success writes the course back. |
| InstructorController.WithoutPassword | backend/controllers/instructors.js:9 | The projection has exactly the user's fields except `password`, with the same values. |
| InstructorController.Instructors | backend/controllers/instructors.js:7-22 | The list holds exactly the users whose role is "instructor", each without its password. |
| InstructorController.CoursesTaughtBy | backend/controllers/instructors.js:42-50 | Exactly the courses whose instructor is the id. |
| InstructorController.NoCoursesIff | backend/controllers/instructors.js:136-142 | The owned-course query is empty iff no stored course names the instructor. |
| InstructorController.CreatePayload | backend/controllers/instructors.js:65-67 | The stored body has role "instructor" whatever was sent, and every other supplied field is kept. |
| InstructorController.Merge | backend/controllers/instructors.js:99-104 | For a flat body (update operators are left out): supplied fields other than role replace stored ones and unsupplied fields stay. The stored role (or its absence) is kept. |
| InstructorController.UpdateKeepsInstructor | backend/controllers/instructors.js:98-101 | After an update with a flat body (no update operators, see Left out) an instructor is still an instructor, whatever role the body asks for. |
| InstructorController.GetInstructors | backend/controllers/instructors.js:7-22 | Returns the instructor projection of the users, and the count equals its size. |
| InstructorController.GetInstructor | backend/controllers/instructors.js:27-57 | An absent id, or a user who is not an instructor, gives NotFound. Otherwise the reply is the instructor without password plus exactly their courses. |
| InstructorController.CreateInstructor | backend/controllers/instructors.js:62-79 | A store error gives BadRequest and changes nothing. Otherwise one user with the forced role is added under a fresh id and nothing else changes. |
| InstructorController.UpdateInstructor | backend/controllers/instructors.js:84-116 | A non-instructor id gives NotFound and a store error gives BadRequest, each leaving the users unchanged. Otherwise that user becomes the role-preserving merge of a flat body (update operators are left out) and is still an instructor, and the reply hides the password. |
| InstructorController.DeleteInstructor | backend/controllers/instructors.js:121-155 | A non-instructor id gives NotFound. The reply is BadRequest "Cannot delete instructor with existing courses" iff some course names the instructor, and the user then remains. An instructor that no course names is removed with Ok(Empty), and only that user goes. |
| CategoryController.GetCategories | backend/controllers/categories.js:6-21 | Returns every category, and the count equals the number returned. |
| CategoryController.GetCategory | backend/controllers/categories.js:26-47 | Returns the stored category, or NotFound "Category not found". |
| CategoryController.CreateCategory | backend/controllers/categories.js:52-66 | A store error gives BadRequest with nothing changed. Otherwise exactly one record is added under a fresh id, the collection grows by one, and the other records are untouched. |
| CategoryController.UpdateCategory | backend/controllers/categories.js:71-97 | Missing gives NotFound and a store error gives BadRequest, each with nothing changed. Otherwise the supplied fields of a flat body (update operators are left out) replace the stored ones, the other fields stay, and no other category changes. |
| CategoryController.DeleteCategory | backend/controllers/categories.js:102-124 | Missing gives NotFound. Otherwise the category is removed and courses are untouched, even ones that reference it. |
| CourseSchema.ReviewsErrorsEmpty | backend/models/Course.js:59-79 | The review validators report nothing iff every review has its user, name, rating and comment. |
| CourseSchema.TitleErrorsEmpty | backend/models/Course.js:4-9 | The title passes iff it is present on create and, once trimmed, is non-empty and at most 50 characters. |
| CourseSchema.SkillErrorsEmpty | backend/models/Course.js:22-26 | `minimumSkill` passes iff it is present on create and is beginner, intermediate or advanced. |
| CourseSchema.RequiredEmpty | backend/models/Course.js:14-21 | A required non-string path fails only when it is missing on create. |
| CourseSchema.RequiredStringEmpty | backend/models/Course.js:10-13 | A required string path passes iff it is non-empty and, on create, present. |
| CourseSchema.RatingErrorsEmpty | backend/models/Course.js:49-54 | A supplied rating passes iff it lies in [1, 5]. |
| CourseSchema.Errors | backend/models/Course.js:3-88 | No contract of its own: every failed validator of a body, in schema order. `ErrorsEmptyIff` states when it is empty. |
| CourseSchema.ValidationMessage | backend/controllers/courses.js:68-72 | No contract of its own: the `err.message` returned as the 400 (also at courses.js:107-111), "Course validation failed: " on create and "Validation failed: " on update, then every `path: message`. |
| CourseSchema.ErrorsEmptyIff | backend/models/Course.js:3-88 | The validators report no error iff the body is acceptable, path by path. On create, title, description, weeks, tuition, minimumSkill, category and instructor must also be present. |
| CourseSchema.Fill | backend/models/Course.js:27-34 | An accepted body gives a valid course. Absent fields get their defaults: scholarshipAvailable and isFree false, numReviews 0, image "no-photo.jpg", rating 0, no students, createdAt now. |
| CourseSchema.Apply | backend/controllers/courses.js:98-101 | Each supplied path takes its supplied value, the title trimmed. Each path not supplied keeps its stored value. A valid course updated by an acceptable patch stays valid, and an empty patch changes nothing. |
| CourseSchema.DefaultRatingRejectedAsWritten | backend/models/Course.js:49-54 | With the schema as written, a body without a rating gets the default 0, which fails "Rating must be at least 1". |
| CourseSchema.DefaultRatingAccepted | backend/models/Course.js:49-54 | In the corrected reading, an acceptable body without a rating passes and is stored with the unrated value 0, outside [1, 5]. |
| Routes.Admits | backend/routes/courses.js:13-24 | No contract of its own: a gate admits a caller iff `Enter` passes. `CourseGates`, `InstructorGates` and `UserGates` state each table. |
| Routes.Enter | backend/routes/courses.js:13-24 | `protect` stops exactly the requests without a user, and then `authorize` stops exactly the roles not listed. Public routes pass everyone. |
| Routes.CourseGates | backend/routes/courses.js:15-24 | List and get are public. Create, update and delete admit exactly logged-in instructors and admins. Enroll admits any logged-in user. |
| Routes.InstructorGates | backend/routes/instructors.js:16-23 | List and get are public. Create and delete are admin-only. Update admits admins and any instructor. Every mutating route refuses an anonymous caller. |
| Routes.UserGates | backend/routes/users.js:16-23 | Every user route refuses an anonymous caller. Get and update need only a login; list, create and delete need an admin. |
| Routes.ChangeCourse | backend/routes/courses.js:21-22 | A course update or delete is allowed iff the caller is a logged-in instructor or admin, the course exists, and the caller owns it or is an admin. |
| Routes.InstructorChangesOnlyOwnCourses | backend/controllers/courses.js:91 | A non-admin instructor is allowed exactly on their own courses and gets NotOwner on the others. |
| Routes.AdminChangesAnyCourse | backend/controllers/courses.js:91 | An admin may change any existing course. |
| Routes.StudentChangesNoCourse | backend/routes/courses.js:21-22 | A student is stopped at the gate even when recorded as the course's instructor. |
| FlaskApp.Handle | backend/app.py:202-204 | The status becomes the supplied value. `resolved_at` becomes now only for "resolved" and is otherwise unchanged; all other fields are kept. |
| FlaskApp.HandleKeepsResolvedHasTime | backend/app.py:202-204 | Handling keeps the invariant "a resolved request has a resolution time". |
| FlaskApp.NewNotification | backend/app.py:263-275 | A new row is pending, unsent, unowned and created now. It has a scheduled time iff the schedule is "scheduled" and the datetime was sent and parsed, and then it is that time. The form fields are copied. |
| FlaskApp.Send | backend/app.py:302-309 | The row becomes "sent" with `sent_at` now, and nothing else changes. |
| FlaskApp.Created | backend/app.py:260-291 | Nothing is stored iff the schedule is "scheduled" and the datetime sent does not parse, since `fromisoformat` raises. Otherwise the stored row is sent at now iff the schedule is "immediate", and stays pending and unsent otherwise. |
| FlaskApp.CreatedWellFormed | backend/app.py:104 | Every row that is created satisfies the life-cycle invariant: sent iff it has a send time, immediate implies sent, and a scheduled time only when scheduled. |
| FlaskApp.ActiveCourses | backend/app.py:182 | Exactly the courses whose status is "active". |
| FlaskApp.SubsetSmaller | backend/app.py:182 | A filtered key set is no larger than the set it filters. |
| FlaskApp.ActiveCoursesBounded | backend/app.py:182 | There are never more active courses than courses. |
| FlaskApp.AppDb.constructor | backend/app.py:19-107 | Every table starts empty and the invariants hold. |
| FlaskApp.AppDb.CreateUser | backend/app.py:125-144 | The user is stored iff no stored user has the email (the column is unique at backend/app.py:22, so the commit fails otherwise). Then it is added under a fresh key with the default status "active". Otherwise the users are unchanged. Emails stay unique, and the other tables are unchanged. |
| FlaskApp.AppDb.GetStats | backend/app.py:179-184 | The counts are the number of users, the number of active courses (at most the number of courses) and the number of assignments. |
| FlaskApp.AppDb.HandleSupportRequest | backend/app.py:198-207 | A missing id is the 404 and changes nothing. Otherwise only that request is handled, and the invariant is kept. |
| FlaskApp.AppDb.CreateNotification | backend/app.py:260-291 | A malformed scheduled datetime makes the request fail with nothing stored. Otherwise one row is added under a fresh key; it equals the created row (sent right away iff immediate), and every row stays well formed. |
| FlaskApp.AppDb.SendStored | backend/app.py:302-309 | Only the stored row changes, to its sent form. |
| FlaskApp.AppDb.DeleteNotification | backend/app.py:294-300 | 404 iff the id is absent; exactly that row is removed. |
| FlaskApp.AppDb.GradeSubmission | backend/app.py:422-429 | 404 iff the id is absent. Otherwise only that submission's grade changes, to the JSON value sent: any integer with no range check, or `null`, which clears it. |
| StudentDashboard.FormatStatus | js/student-dashboard.js:241-255 | A listed status gets its class and label. The tables are object literals, so a status naming an `Object.prototype` property ("constructor", "toString", "__proto__", …) gets that property's text as both class and label. Any other status gets "badge bg-secondary" and its raw text. |
| StudentDashboard.FallbackIffUnknown | js/student-dashboard.js:241-255 | With a coherent table, the fallback class appears iff the status is neither listed nor inherited, and then the text is raw. An inherited name shows the inherited text twice. |
| StudentDashboard.ConstructorStatusBadge | js/student-dashboard.js:241-255 | An enrollment status "constructor" renders with class and text "function Object() { [native code] }", not the fallback. |
| StudentDashboard.CourseTablesCoherent | js/student-dashboard.js:241-255 | The enrollment table labels exactly the statuses it colours, with no fallback colour among them. |
| StudentDashboard.AssignmentTablesCoherent | js/student-dashboard.js:565-581 | The assignment table is coherent in the same sense. |
| StudentDashboard.QuizTablesCoherent | js/student-dashboard.js:809-823 | The quiz table is coherent in the same sense. |
| StudentDashboard.AssignmentButton | js/student-dashboard.js:490-516 | Submit iff pending, View iff submitted, View Grade iff graded, and the disabled Expired button for anything else. |
| StudentDashboard.QuizButton | js/student-dashboard.js:650-670 | Start iff upcoming, View Results iff completed, and Expired for anything else. |
| StudentDashboard.UnitSeconds | js/student-dashboard.js:1043-1062 | Every unit is at least one second long. |
| StudentDashboard.PickUnit | js/student-dashboard.js:1043-1062 | The chosen unit is one of which strictly more than one has elapsed (seconds when none has), and no larger unit qualifies. |
| StudentDashboard.TimeAgo | js/student-dashboard.js:1043-1062 | No contract of its own: `getTimeAgo`, the whole units elapsed in the unit `PickUnit` chooses, then the unit name and "ago". `TimeAgoAmount` and `ExactlyOneUnitFallsThrough` state its meaning. |
| StudentDashboard.TimeAgoAmount | js/student-dashboard.js:1043-1062 | The amount shown is the number of whole units elapsed, and at least one unless the unit is seconds. |
| StudentDashboard.ExactlyOneUnitFallsThrough | js/student-dashboard.js:1043-1062 | Exactly one unit falls to the next smaller unit: 60 s is "60 seconds ago", and an hour, a day, 30 days and 365 days fall to the previous unit. |
| StudentDashboard.ScoreColor | js/student-dashboard.js:1469-1473 | bg-success iff the score is at least 90, bg-warning iff it is in [70, 90), bg-danger iff it is below 70. |
| StudentDashboard.ScoreColorMonotone | js/student-dashboard.js:1469-1473 | A higher score never gets a worse colour. |
| StudentDashboard.FilterCourses | js/student-dashboard.js:162-170 | Keeps exactly the courses whose lowercased name, faculty or description contains the lowercased term. |
| StudentDashboard.FilterAppend | js/student-dashboard.js:166-170 | Filtering distributes over concatenation, so the kept courses keep their original order. |
| StudentDashboard.EmptyTermKeepsAll | js/student-dashboard.js:166-170 | An empty term keeps every course, in order. |
| StudentDashboard.AlertVisibleIff | js/student-dashboard.js:474-488 | The alert is shown iff some assignment is pending and due after now. |
| StudentDashboard.PendingCountBounded | js/student-dashboard.js:475-477 | The pending count never exceeds the number of assignments. |
| StudentDashboard.MessageToSend | js/student-dashboard.js:1360-1375 | A message is sent only with a chat partner, and it is the trimmed input sent to that partner. |
| StudentDashboard.SendsIff | js/student-dashboard.js:1361-1365 | Something is sent iff the partner id is present and non-zero and the input has a character that is not white space. |
| StudentDashboard.NotificationFeed.constructor | js/student-dashboard.js:1064-1067 | The feed starts with the given notifications. |
| StudentDashboard.NotificationFeed.AddNotification | js/student-dashboard.js:1064-1067 | The new notification goes first and the others keep their order. |
| QuizTimer.JsRem | js/student-dashboard.js:751-752 | JavaScript `%`: equal to the mathematical remainder for a non-negative dividend, and in (-b, 0] for a negative one. |
| QuizTimer.ClockFields | js/student-dashboard.js:750-752 | For t ≥ 0, 3600·h + 60·m + s = t with 0 ≤ m, s < 60. |
| QuizTimer.FieldValue | js/student-dashboard.js:754 | A padded field is all digits and reads back as its number. |
| QuizTimer.SplitFields | js/student-dashboard.js:754 | Three digit fields joined by colons split back into those fields. |
| QuizTimer.ParseFields | js/student-dashboard.js:754 | A text splitting into three digit fields reads back as hours, minutes and seconds. |
| QuizTimer.ParseJoined | js/student-dashboard.js:754 | Reading a colon-joined text of three digit fields gives 3600·h + 60·m + s. |
| QuizTimer.FieldsRoundTrip | js/student-dashboard.js:754 | The text built from fields that recombine to t reads back as t. |
| QuizTimer.FormatClock | js/student-dashboard.js:750-754 | No contract of its own: the `HH:MM:SS` text of the seconds left. `ClockRoundTrip` states that the text loses nothing. |
| QuizTimer.ClockRoundTrip | js/student-dashboard.js:750-754 | For every t ≥ 0, the HH:MM:SS text shown reads back as t, so the display loses nothing. |
| QuizTimer.Countdown | js/student-dashboard.js:744-762 | The values shown start at the initial time. |
| QuizTimer.CountdownShape | js/student-dashboard.js:744-762 | From d seconds the timer shows d+1 values, d, d−1, …, 0. |
| QuizTimer.ZeroClock | js/student-dashboard.js:754 | The last text of a full countdown is "00:00:00". |
| QuizTimer.Timer.Start | js/student-dashboard.js:744-745 | The countdown starts at duration×60, running, with nothing shown or submitted. |
| QuizTimer.Timer.Texts | js/student-dashboard.js:754 | Each text shown is the clock format of the value then left. |
| QuizTimer.Timer.Submit | js/student-dashboard.js:765-766 | Clears the interval and counts one submission; the time left and the display are unchanged. |
| QuizTimer.Timer.Tick | js/student-dashboard.js:749-762 | A tick shows the current value and submits iff time ≤ 0, then decrements. The interval stays scheduled iff time was left. |
| QuizTimer.Timer.RunOut | js/student-dashboard.js:744-762 | Running the interval until it clears shows the whole countdown and submits exactly once. |
| AdminDashboard.Label | js/admin-dashboard.js:322 | A listed key with a non-empty label shows that label. An unlisted `Object.prototype` name shows the inherited property's text. Any other key shows as it came. |
| AdminDashboard.FormatNotificationType | js/admin-dashboard.js:315-323 | class, assignment, exam and general map to their labels, and an inherited name to its inherited text. Anything else is returned unchanged. |
| AdminDashboard.FormatTargetAudience | js/admin-dashboard.js:325-332 | all, students and faculty map to their labels, and an inherited name to its inherited text. Anything else is returned unchanged. |
| AdminDashboard.LabelsAreNotKeys | js/admin-dashboard.js:315-332 | The output equals the input iff the key is neither listed nor an `Object.prototype` name. |
| AdminDashboard.ProtoTypeLabel | js/admin-dashboard.js:315-323 | A notification type "__proto__" is shown as "[object Object]", not as the raw type. |
| AdminDashboard.FormatSchedule | js/admin-dashboard.js:334-341 | "Immediate" iff immediate. A local time iff "scheduled" with a non-empty datetime. Otherwise (including "scheduled" without a datetime) the raw value. |
| AdminDashboard.NotificationManager.constructor | js/admin-dashboard.js:245-248 | The list starts as the given rows, with the datetime field hidden. The source starts with `[]`, one case of `loaded`. The field's initial hidden state comes from page markup that is not part of this model. |
| AdminDashboard.NotificationManager.ScheduleChanged | js/admin-dashboard.js:257-264 | The datetime field is visible iff the selection is "scheduled"; the list is unchanged. |
| AdminDashboard.NotificationManager.Created | js/admin-dashboard.js:267-287 | A success appends exactly the returned row and hides the field again. A failure changes nothing. |
| AdminDashboard.NotificationManager.Deleted | js/admin-dashboard.js:348-363 | A confirmed, successful delete leaves the old list minus every entry with that id. Anything else changes nothing. |
| ClientLists.WithoutId | js/admin-dashboard.js:356 | The entries kept are exactly the old ones whose id differs, and the list never grows. |
| ClientLists.WithoutIdAppend | js/admin-dashboard.js:356 | The filter distributes over concatenation, so the order is preserved. |
| ClientLists.WithoutIdLength | js/admin-dashboard.js:356 | The list shrinks by exactly the number of entries with that id. |
| ClientLists.WithoutAbsentId | js/admin-dashboard.js:356 | Deleting an id that is not listed leaves the list as it was. |
| ClientLists.ItemList.constructor | js/admin-dashboard.js:3-6 | The list starts as the given items. The managers start with `[]` here and at js/admin-dashboard.js:65, js/faculty-dashboard.js:4 and 65; that empty start is one case of `loaded`. |
| ClientLists.ItemList.Created | js/admin-dashboard.js:25-27 | A success appends exactly the returned item at the end; a failure changes nothing. The same push appears at js/admin-dashboard.js:88 and 392 and js/faculty-dashboard.js:28 and 89. |
| FacultyDashboard.Pow10 | js/faculty-dashboard.js:180 | Powers of ten are positive, so exponent scaling never divides by zero. |
| FacultyDashboard.DigitRun | js/faculty-dashboard.js:187 | The leading run `parseInt` reads is all digits and is followed by a non-digit or the end. |
| FacultyDashboard.UnsignedDecimalDigits | js/faculty-dashboard.js:180 | A plain run of digits converts to its decimal value. |
| FacultyDashboard.GradeRequest | js/faculty-dashboard.js:177-197 | A request is sent iff the input is non-empty and converts to a finite number in [0, 100]. The value sent is `parseInt` of that same input. |
| FacultyDashboard.Thousand | js/faculty-dashboard.js:180 | "1000" is all digits with value 1000. |
| FacultyDashboard.DigitRunPrefix | js/faculty-dashboard.js:187 | On digits followed by a non-digit, the digit run is exactly the digits. |
| FacultyDashboard.TrimNoEdgeSpace | js/faculty-dashboard.js:180 | A string with no white space at either end is its own trimmed form. |
| FacultyDashboard.WholeThenExponent | js/faculty-dashboard.js:180 | For digits followed by a non-digit other than `.`, the rest is read as the exponent part. |
| FacultyDashboard.NegativeExponent | js/faculty-dashboard.js:180 | `e-k` divides the mantissa by 10^k. |
| FacultyDashboard.WholeMantissa | js/faculty-dashboard.js:180 | A mantissa without a fraction is its whole value. |
| FacultyDashboard.ToNumber | js/faculty-dashboard.js:180 | No contract of its own: `Number` of the prompt answer, behind `isNaN` and the range comparisons. `ToNumberUnsigned`, `ScaledDownNumber` and `BlankSentAsNull` state its values. |
| FacultyDashboard.ParseInt | js/faculty-dashboard.js:187 | No contract of its own: `parseInt` of the answer, the value sent. `ParseIntUnsigned` and `ScaledDownParseInt` state its values. |
| FacultyDashboard.ToNumberUnsigned | js/faculty-dashboard.js:180 | `Number` of a trimmed string starting with a digit is its unsigned decimal value, or NaN. |
| FacultyDashboard.ParseIntUnsigned | js/faculty-dashboard.js:187 | `parseInt` of a string starting with a digit reads its leading digit run. |
| FacultyDashboard.ScaledDown | js/faculty-dashboard.js:180-187 | On `d e- k`, `Number` gives d/10^k while `parseInt` gives d. |
| FacultyDashboard.ExponentLiteralTrimmed | js/faculty-dashboard.js:180 | A literal `d e- k` has no white space to trim. |
| FacultyDashboard.ScaledDownNumber | js/faculty-dashboard.js:180 | `Number` of `d e- k` is d/10^k. |
| FacultyDashboard.ScaledDownParseInt | js/faculty-dashboard.js:187 | `parseInt` of `d e- k` is d, the digits before the `e`. |
| FacultyDashboard.NonNegativeQuotient | js/faculty-dashboard.js:180 | A scaled non-negative literal stays non-negative. |
| FacultyDashboard.ExponentGradeSent | js/faculty-dashboard.js:180-187 | A grade in exponent form is range-checked on its scaled value but sent as the digits before the `e`. |
| FacultyDashboard.ExponentGradeSentOutOfRange | js/faculty-dashboard.js:180-187 | "1000e-1" passes the range check as 100 but is sent as 1000. |
| FacultyDashboard.BlankTrims | js/faculty-dashboard.js:180 | A string of white space trims to nothing at the start and at both ends. |
| FacultyDashboard.BlankSentAsNull | js/faculty-dashboard.js:180-187 | Any non-empty answer of white space passes the check (it converts to 0) and is sent as `null`. |
| FacultyDashboard.BlankGradeSentAsNull | js/faculty-dashboard.js:180-187 | The answer " " is sent as `null`. |
| FacultyDashboard.CorrectedGradeRequest | js/faculty-dashboard.js:180-187 | The corrected request sends only a value in [0, 100], and that value is the whole part of the number that was checked. |
| FacultyDashboard.TrimDigits | js/faculty-dashboard.js:180 | A digit string is unchanged by trimming. |
| FacultyDashboard.DigitRunAll | js/faculty-dashboard.js:187 | On a string of digits, the digit run covers the whole string. |
| FacultyDashboard.CorrectedAgreesOnWholeNumbers | js/faculty-dashboard.js:180-187 | On a plain whole number in range, the written and the corrected request both send that number. |
| FacultyDashboard.GradeLabel | js/faculty-dashboard.js:163 | No contract of its own: the grade's text, or "Not graded" when the grade is falsy. `GradeLabelIff` states when it reads "Not graded". |
| FacultyDashboard.GradeLabelIff | js/faculty-dashboard.js:163 | "Not graded" is shown iff the grade is missing or 0; a falsy grade reads as ungraded. |
| FacultyDashboard.ShouldFetchPerformance | js/faculty-dashboard.js:136-140 | The fetch runs iff both a course and an assignment are selected. |
| Signup.SignupError | js/signup.js:29-41 | An empty field gives "Please fill in all fields". Otherwise a mismatch gives "Passwords do not match", and otherwise a password shorter than 6 gives the length error. No error iff all three checks pass. |
| Signup.Checks | js/signup.js:28-41 | The handler has three guards. |
| Signup.FirstFailure | js/signup.js:28-41 | No error iff no guard fails. An error is the message of a failing guard. |
| Signup.SignupErrorIsFirstFailure | js/signup.js:28-41 | The error shown is that of the first failing guard in source order. |
| Signup.EmptyFieldFirst | js/signup.js:29-31 | An empty field is reported whatever the passwords are. |
| Signup.OnLoad | js/signup.js:5-8 | An authenticated visitor is redirected iff no submit handler is installed. |
| Signup.Submit | js/signup.js:14-57 | `register` is called iff the checks pass, with username, email and password. The visitor goes home iff it succeeds. Otherwise the check's or the register call's message is shown. |
| Signup.SentPasswordIsConfirmed | js/signup.js:34-44 | A registration that is sent carries a confirmed password of at least six characters and non-empty names. |
| CourseCatalog.Interpolated | js/courses.js:98 | A missing property is written as "undefined". |
| CourseCatalog.OrElse | js/courses.js:87 | A missing or empty value gives the fallback; any other value is kept. |
| CourseCatalog.CardFor | js/courses.js:79-112 | Fallbacks: "img/course-1.jpg", "Unknown Instructor", "N/A" and rating 0. The student count is always 0, since a course has no `students` path (its list is `enrolledStudents`). The title doubles as alt text, the link is "single.html?id=" + id, and there is no data-category. |
| CourseCatalog.Filtered | js/courses.js:138-146 | The same cards in the same order; only the display flag changes, to the visibility predicate. |
| CourseCatalog.FilterCards | js/courses.js:132-147 | The in-place `forEach` leaves the array equal to the filtered cards. |
| CourseCatalog.LoadCourses | js/courses.js:31-34 | One card per course, in the order received. |
| CourseCatalog.FilterIdempotent | js/courses.js:138-146 | Filtering twice with the same inputs is the same as filtering once. |
| CourseCatalog.EmptyFilterShowsAll | js/courses.js:142-143 | An empty search with no category shows every card. |
| CourseCatalog.CategoryHidesBuiltCards | js/courses.js:140-143 | Cards are built without data-category, so any non-empty category hides every one. |
| CourseCatalog.LowerCharIdempotent | js/courses.js:133 | Lowercasing twice is lowercasing once. |
| CourseCatalog.SearchIgnoresCase | js/courses.js:133-142 | A term and its lowercase form show the same cards. |
| CourseCatalog.CategoryFilter.constructor | js/courses.js:65 | The dropdown starts empty. |
| CourseCatalog.CategoryFilter.Load | js/courses.js:65-71 | First "All Categories" with an empty value, then one option per category in order. |
| Text.TrimStart | backend/models/Course.js:7 | The result is a suffix, starting at a non-space, and only white space was removed. |
| Text.TrimEnd | backend/models/Course.js:7 | The result is a prefix, ending at a non-space, and only white space was removed. |
| Text.Trim | backend/models/Course.js:7 | The result is the infix of the input left after dropping the leading and trailing white space: everything before and after it is white space, and it neither starts nor ends with white space. |
| Text.TrimEmpty | js/student-dashboard.js:1364-1365 | Trimming gives nothing iff every character is white space. |
| Text.LowerChar | js/courses.js:133 | Upper-case ASCII letters map to lower case; everything else is unchanged. |
| Text.ToLower | js/courses.js:133 | Same length, lowercased character by character. |
| Text.LookupOr | js/student-dashboard.js:254 | A property of an object literal, or the fallback when it is falsy: an own truthy property wins, an own empty one gives the fallback. An `Object.prototype` name that is not own gives the inherited property's text, and any other key the fallback. The same lookup backs js/admin-dashboard.js:322 and 331. |
| Text.InheritedRendering | js/student-dashboard.js:254 | An inherited property is truthy and never renders as its own name: its text starts with `function` or `[object`. |
| Text.IncludesEmpty | js/courses.js:142 | Every string includes the empty string. |
| Text.DigitChar | js/student-dashboard.js:754 | The character of a digit is a decimal digit of that value. |
| Text.DigitValue | js/faculty-dashboard.js:187 | A digit's value is below ten. |
| Text.NatToString | js/student-dashboard.js:754 | Non-empty and all digits, with no leading zero. |
| Text.IntToString | js/student-dashboard.js:754 | Non-empty; all digits iff non-negative; a leading minus otherwise. |
| Text.NatToStringRoundTrip | js/student-dashboard.js:754 | The decimal text of n reads back as n. |
| Text.LeadingZero | js/student-dashboard.js:754 | A leading zero does not change a digit string's value. |
| Text.PadStart2 | js/student-dashboard.js:754 | The result is padded to length 2 with leading zeros and ends with the input. |
| Text.Split | js/student-dashboard.js:754 | The model's own splitter for reading back the clock text, not a source call: splitting gives at least one part. |
| Text.SplitAfter | js/student-dashboard.js:754 | Of the model's clock-text reader: a separator-free part followed by the separator splits off as the first part. |
| Text.SplitNone | js/student-dashboard.js:754 | Of the model's clock-text reader: a string without the separator splits into itself. |

## Left out

- All I/O: fetch calls, redirects, alerts, prompts and confirmations, `localStorage`, DOM rendering and HTML markup. Prompt answers, confirmations and response success are parameters. js/api.js, js/login.js, js/logout.js and js/single.js are I/O plumbing only and are not part of this model.
- `setInterval` scheduling: each firing of the quiz interval is one call of `Timer.Tick`, and `Timer.RunOut` runs them until the interval clears itself.
- `new Date()`, `Date.now` and `datetime.utcnow()` are the integer parameter `now`; a single `now` serves a whole request. `toLocaleString` formatting is left as the raw datetime (`AdminDashboard.ScheduleText.LocalTime`).
- `formatFileSize` in the student dashboard: it depends on floating-point `Math.log` and `Math.pow`.
- The read-then-write race of two concurrent enroll requests: the model is sequential.
- Mongoose `populate`/`select` projections (other than hiding the password) and SQLAlchemy query plumbing: the store is abstract maps keyed by id. Casting a malformed id (the 400 from the `catch` blocks) is not modelled.
- CourseSchema.Errors, CourseController.CreateCourse and CourseController.UpdateCourse: a body is a typed record in which a path is either supplied with a value of its declared type or not supplied, so two behaviours are not modelled. Failed casts (`{"weeks": "six"}` fails with "Cast to Number failed …") and an explicit `null` (a `{"title": null}` update fails the required validator, whereas the model keeps the title) are left out, together with their messages.
- Inherited-property texts (`Text.InheritedText`) follow the form browsers print for built-in functions, `function name() { [native code] }`, with `constructor` being `Object`.
- The validation of the User and Category models, whose schemas are not part of this model: it is the `storeError` parameter of the create and update methods. The users controller is not part of this model either; only its route gates are.
- The `protect`/`authorize` middleware internals: only their order and effect are modelled (`Routes.Enter`).
- Password hashing: `CreateUser` receives the hash. File uploads, the notification-sending `print` placeholder and the chat WebSocket placeholder are left out, as are the Flask routes outside the named handlers.
- JSON values of schemaless documents are strings, and the order of list responses is not modelled (collections are maps).
- InstructorController.Merge, InstructorController.UpdateInstructor, InstructorController.UpdateKeepsInstructor and CategoryController.UpdateCategory: a body is a flat field map, so update operators in the body are not modelled. `findByIdAndUpdate` honours them, so `{"$set": {"role": ...}}` survives `delete req.body.role` and changes the stored role, and `$unset` removes category fields the model says stay. The role preservation and the field merge are proved only for operator-free bodies.
- FlaskApp.AppDb.CreateUser, FlaskApp.AppDb.CreateNotification, FlaskApp.AppDb.HandleSupportRequest and FlaskApp.AppDb.GradeSubmission: every form or JSON field is a parameter that is always present. In the source a missing key (`data['...']`) fails the request before the commit: a 400 for `request.form`, a 500 for `request.json`. Nothing is then stored, and that error path is not modelled.
- `toLowerCase` is modelled on ASCII letters only, and string lengths count characters, not UTF-16 code units.
- `Number(...)` is modelled for decimal literals, signs and `Infinity`. Hexadecimal, binary and octal literals, and floating-point rounding, are left out. Card ratings are integers.
- The error branches of `loadCourses` and `loadCategories`, the category cards (`createCategoryElement`) and the loading spinner are rendering only.
- QuizTimer.Timer: records the seconds-left values shown; the texts follow through `Texts()`, which applies `FormatClock` to each value.

## Findings

| source | as written | input that shows it | evidently intended | confidence | as-written member | corrected member |
|---|---|---|---|---|---|---|
| backend/models/Course.js:49-54 | `rating` has `min: 1` but `default: 0`, and defaults are validated when a document is saved | any course body without a rating | 0 is the "unrated" value and a body without a rating is stored | not executed; low-medium | CourseSchema.DefaultRatingRejectedAsWritten | CourseSchema.DefaultRatingAccepted |
| js/faculty-dashboard.js:180,187 | the range check converts the answer with `Number`, but the value sent is `parseInt` of it | "1000e-1" passes as 100 and is sent as 1000; " " passes as 0 and is sent as `null` | the value sent is the value that was checked, so it lies in 0..100 | not executed | FacultyDashboard.ExponentGradeSentOutOfRange | FacultyDashboard.CorrectedGradeRequest |
