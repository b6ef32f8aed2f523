/**
 * The pure helpers of the student dashboard (status badges, action buttons, the time-ago text,
 * the originality colour, course search, the pending-assignment alert, the chat send guard) and
 * its notification feed.
 */
module StudentDashboard {
  import opened Records
  import opened Text

  // ----- status badges -----

  /** A rendered status: the badge's CSS class and its label. */
  datatype Badge = Badge(cls: string, text: string)

  const FallbackBadge: string := "badge bg-secondary"

  /**
   * `statusClasses[status] || 'badge bg-secondary'` and `statusText[status] || status`. The tables
   * are object literals, so a status naming an `Object.prototype` property finds that property.
   */
  function FormatStatus(classes: map<string, string>, texts: map<string, string>, status: string): (b: Badge)
    ensures status in classes && classes[status] != "" ==> b.cls == classes[status]
    ensures status !in classes && status !in InheritedNames ==> b.cls == FallbackBadge
    ensures status !in classes && status in InheritedNames ==> b.cls == InheritedText(status)
    ensures status in texts && texts[status] != "" ==> b.text == texts[status]
    ensures status !in texts && status !in InheritedNames ==> b.text == status
    ensures status !in texts && status in InheritedNames ==> b.text == InheritedText(status)
  {
    Badge(LookupOr(classes, status, FallbackBadge), LookupOr(texts, status, status))
  }

  const CourseClasses: map<string, string> :=
    map["active" := "badge bg-success", "completed" := "badge bg-primary", "pending" := "badge bg-warning"]
  const CourseTexts: map<string, string> :=
    map["active" := "Active", "completed" := "Completed", "pending" := "Pending"]

  const AssignmentClasses: map<string, string> :=
    map["pending" := "badge bg-warning", "submitted" := "badge bg-info", "graded" := "badge bg-success",
        "expired" := "badge bg-danger"]
  const AssignmentTexts: map<string, string> :=
    map["pending" := "Pending", "submitted" := "Submitted", "graded" := "Graded", "expired" := "Expired"]

  const QuizClasses: map<string, string> :=
    map["upcoming" := "badge bg-primary", "completed" := "badge bg-success", "expired" := "badge bg-danger"]
  const QuizTexts: map<string, string> :=
    map["upcoming" := "Upcoming", "completed" := "Completed", "expired" := "Expired"]

  /** Each table labels the same statuses it colours, and no known status gets the fallback colour. */
  predicate Coherent(classes: map<string, string>, texts: map<string, string>) {
    && classes.Keys == texts.Keys
    && forall k :: k in classes ==> classes[k] != "" && classes[k] != FallbackBadge && texts[k] != ""
  }

  /**
   * With a coherent table, a status gets the fallback colour exactly when it is neither listed nor
   * inherited, and then shows raw; an inherited name shows the inherited property's text twice.
   */
  lemma FallbackIffUnknown(classes: map<string, string>, texts: map<string, string>, status: string)
    requires Coherent(classes, texts)
    ensures FormatStatus(classes, texts, status).cls == FallbackBadge <==>
      status !in classes && status !in InheritedNames
    ensures status !in classes && status !in InheritedNames ==>
      FormatStatus(classes, texts, status) == Badge(FallbackBadge, status)
    ensures status !in classes && status in InheritedNames ==>
      FormatStatus(classes, texts, status) == Badge(InheritedText(status), InheritedText(status))
    ensures status in classes ==> FormatStatus(classes, texts, status) == Badge(classes[status], texts[status])
  {
    if status !in classes && status in InheritedNames {
      InheritedRendering(status);
      assert FallbackBadge[0] == 'b';
    }
  }

  /** The status "constructor" finds the inherited `Object` function in both tables. */
  lemma ConstructorStatusBadge()
    ensures FormatStatus(CourseClasses, CourseTexts, "constructor")
      == Badge("function Object() { [native code] }", "function Object() { [native code] }")
  {
  }

  /** The enrollment-status table is coherent. */
  lemma CourseTablesCoherent()
    ensures Coherent(CourseClasses, CourseTexts)
  {
  }

  /** The assignment-status table is coherent. */
  lemma AssignmentTablesCoherent()
    ensures Coherent(AssignmentClasses, AssignmentTexts)
  {
  }

  /** The quiz-status table is coherent. */
  lemma QuizTablesCoherent()
    ensures Coherent(QuizClasses, QuizTexts)
  {
  }

  // ----- action buttons -----

  datatype AssignmentAction = SubmitAssignment | ViewSubmission | ViewGrade | AssignmentExpired

  /** `getAssignmentActionButton`: any status other than the three live ones gets the disabled button. */
  function AssignmentButton(status: string): (a: AssignmentAction)
    ensures a == SubmitAssignment <==> status == "pending"
    ensures a == ViewSubmission <==> status == "submitted"
    ensures a == ViewGrade <==> status == "graded"
    ensures a == AssignmentExpired <==> status !in {"pending", "submitted", "graded"}
  {
    if status == "pending" then SubmitAssignment
    else if status == "submitted" then ViewSubmission
    else if status == "graded" then ViewGrade
    else AssignmentExpired
  }

  datatype QuizAction = StartQuiz | ViewResults | QuizExpired

  /** `getQuizActionButton`: only an upcoming quiz can be started. */
  function QuizButton(status: string): (a: QuizAction)
    ensures a == StartQuiz <==> status == "upcoming"
    ensures a == ViewResults <==> status == "completed"
    ensures a == QuizExpired <==> status != "upcoming" && status != "completed"
  {
    if status == "upcoming" then StartQuiz else if status == "completed" then ViewResults else QuizExpired
  }

  // ----- time ago -----

  datatype TimeUnit = Years | Months | Days | Hours | Minutes | Seconds

  /** Largest unit first. */
  function Rank(u: TimeUnit): nat {
    match u
    case Years => 0
    case Months => 1
    case Days => 2
    case Hours => 3
    case Minutes => 4
    case Seconds => 5
  }

  function UnitSeconds(u: TimeUnit): (n: nat)
    ensures n >= 1
  {
    match u
    case Years => 31536000
    case Months => 2592000
    case Days => 86400
    case Hours => 3600
    case Minutes => 60
    case Seconds => 1
  }

  function UnitName(u: TimeUnit): string {
    match u
    case Years => "years"
    case Months => "months"
    case Days => "days"
    case Hours => "hours"
    case Minutes => "minutes"
    case Seconds => "seconds"
  }

  /**
   * The unit `getTimeAgo` reports `seconds` in: the first one, largest first, of which strictly more
   * than one has elapsed; seconds when there is none.
   */
  function PickUnit(seconds: int): (u: TimeUnit)
    ensures u != Seconds ==> seconds > UnitSeconds(u)
    ensures forall v :: Rank(v) < Rank(u) ==> seconds <= UnitSeconds(v)
  {
    if seconds > 31536000 then Years
    else if seconds > 2592000 then Months
    else if seconds > 86400 then Days
    else if seconds > 3600 then Hours
    else if seconds > 60 then Minutes
    else Seconds
  }

  /** `getTimeAgo` for `seconds` elapsed (the whole seconds between the date and now). */
  function TimeAgo(seconds: int): string {
    var u := PickUnit(seconds);
    IntToString(seconds / UnitSeconds(u)) + " " + UnitName(u) + " ago"
  }

  /** The amount shown is the number of whole units elapsed, and at least one unless in seconds. */
  lemma TimeAgoAmount(seconds: int)
    ensures var u := PickUnit(seconds); var n := seconds / UnitSeconds(u);
      && n * UnitSeconds(u) <= seconds < (n + 1) * UnitSeconds(u)
      && (u != Seconds ==> n >= 1)
  {
    var u := PickUnit(seconds);
    var L := UnitSeconds(u);
    var n := seconds / L;
    assert seconds == n * L + seconds % L;
    assert 0 <= seconds % L < L;
  }

  /** Exactly one unit falls through to the next smaller one: a minute is "60 seconds ago". */
  lemma ExactlyOneUnitFallsThrough()
    ensures PickUnit(60) == Seconds && PickUnit(3600) == Minutes && PickUnit(86400) == Hours
    ensures PickUnit(2592000) == Days && PickUnit(31536000) == Months
    ensures TimeAgo(60) == "60 seconds ago"
  {
    assert NatToString(6) == "6";
    assert NatToString(60) == NatToString(6) + [DigitChar(0)];
    assert IntToString(60) == "60";
    assert 60 / UnitSeconds(Seconds) == 60;
  }

  // ----- originality score -----

  /** `getScoreColor` */
  function ScoreColor(score: real): (c: string)
    ensures c == "bg-success" <==> score >= 90.0
    ensures c == "bg-warning" <==> 70.0 <= score < 90.0
    ensures c == "bg-danger" <==> score < 70.0
  {
    if score >= 90.0 then "bg-success" else if score >= 70.0 then "bg-warning" else "bg-danger"
  }

  function ColorRank(c: string): nat {
    if c == "bg-success" then 2 else if c == "bg-warning" then 1 else 0
  }

  /** A higher score never gets a worse colour. */
  lemma ScoreColorMonotone(a: real, b: real)
    requires a <= b
    ensures ColorRank(ScoreColor(a)) <= ColorRank(ScoreColor(b))
  {
  }

  // ----- course search -----

  datatype AvailableCourse = AvailableCourse(id: nat, name: string, faculty: string, description: string)

  /** The search predicate: the lower-cased term occurs in the lower-cased name, faculty or description. */
  predicate Matches(c: AvailableCourse, term: string) {
    var t := ToLower(term);
    Includes(ToLower(c.name), t) || Includes(ToLower(c.faculty), t) || Includes(ToLower(c.description), t)
  }

  /** `filterAvailableCourses`: the matching courses, in their original order. */
  function FilterCourses(cs: seq<AvailableCourse>, term: string): (r: seq<AvailableCourse>)
    ensures |r| <= |cs|
    ensures forall c :: c in r <==> c in cs && Matches(c, term)
  {
    if cs == [] then []
    else (if Matches(cs[0], term) then [cs[0]] else []) + FilterCourses(cs[1..], term)
  }

  /** Filtering a concatenation filters each part: the kept courses stay in their relative order. */
  lemma {:induction false} FilterAppend(a: seq<AvailableCourse>, b: seq<AvailableCourse>, term: string)
    ensures FilterCourses(a + b, term) == FilterCourses(a, term) + FilterCourses(b, term)
  {
    if a != [] {
      assert (a + b)[1..] == a[1..] + b;
      FilterAppend(a[1..], b, term);
    } else {
      assert a + b == b;
    }
  }

  /** An empty search keeps every course. */
  lemma {:induction false} EmptyTermKeepsAll(cs: seq<AvailableCourse>)
    ensures FilterCourses(cs, "") == cs
  {
    if cs != [] {
      IncludesEmpty(ToLower(cs[0].name));
      EmptyTermKeepsAll(cs[1..]);
    }
  }

  // ----- pending assignments -----

  datatype StudentAssignment = StudentAssignment(id: nat, name: string, status: string, dueDate: int)

  /** Pending and not yet due at `now`. */
  predicate Outstanding(a: StudentAssignment, now: int) {
    a.status == "pending" && a.dueDate > now
  }

  function PendingCount(assignments: seq<StudentAssignment>, now: int): nat {
    if assignments == [] then 0
    else (if Outstanding(assignments[0], now) then 1 else 0) + PendingCount(assignments[1..], now)
  }

  /** `updatePendingAssignmentsAlert`: the alert is displayed exactly when the count is positive. */
  predicate AlertVisible(assignments: seq<StudentAssignment>, now: int) {
    PendingCount(assignments, now) > 0
  }

  lemma {:induction false} AlertVisibleIff(assignments: seq<StudentAssignment>, now: int)
    ensures AlertVisible(assignments, now) <==> exists i :: 0 <= i < |assignments| && Outstanding(assignments[i], now)
  {
    if assignments != [] {
      AlertVisibleIff(assignments[1..], now);
      if Outstanding(assignments[0], now) {
        assert Outstanding(assignments[0], now);
      } else if AlertVisible(assignments[1..], now) {
        var i :| 0 <= i < |assignments[1..]| && Outstanding(assignments[1..][i], now);
        assert Outstanding(assignments[i + 1], now);
      } else {
        assert forall i :: 1 <= i < |assignments| ==> assignments[i] == assignments[1..][i - 1];
      }
    }
  }

  lemma {:induction false} PendingCountBounded(assignments: seq<StudentAssignment>, now: int)
    ensures PendingCount(assignments, now) <= |assignments|
  {
    if assignments != [] {
      PendingCountBounded(assignments[1..], now);
    }
  }

  // ----- chat -----

  /**
   * `sendMessage`: nothing is sent without a chat partner (a missing or zero id is falsy) or when the
   * input trims to nothing; otherwise the trimmed text goes to that partner.
   */
  function MessageToSend(currentChat: Option<int>, input: string): (m: Option<(int, string)>)
    ensures m.Some? ==> currentChat.Some? && m.value == (currentChat.value, Trim(input))
  {
    if currentChat.None? || currentChat.value == 0 then None
    else
      var content := Trim(input);
      if content == "" then None else Some((currentChat.value, content))
  }

  lemma SendsIff(currentChat: Option<int>, input: string)
    ensures MessageToSend(currentChat, input).Some? <==>
      && currentChat.Some? && currentChat.value != 0
      && exists i :: 0 <= i < |input| && !IsSpace(input[i])
  {
    TrimEmpty(input);
  }

  // ----- notifications -----

  datatype FeedItem = FeedItem(title: string, content: string, createdAt: int, link: Option<string>)

  class NotificationFeed {
    var notifications: seq<FeedItem>

    constructor (initial: seq<FeedItem>)
      ensures notifications == initial
    {
      notifications := initial;
    }

    /** `addNotification`: the newest notification goes first; the others keep their order. */
    method AddNotification(n: FeedItem)
      modifies this
      ensures notifications == [n] + old(notifications)
      ensures notifications[0] == n && notifications[1..] == old(notifications)
    {
      notifications := [n] + notifications;
    }
  }
}
