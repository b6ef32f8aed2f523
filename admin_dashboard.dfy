/** The admin dashboard's notification manager: the label maps, the schedule text and its form state. */
module AdminDashboard {
  import opened Records
  import opened ClientLists
  import opened Text

  /**
   * `table[key] || key` on an object literal: a known key's label, an `Object.prototype` name's
   * inherited property, anything else shown as it came.
   */
  function Label(table: map<string, string>, key: string): (s: string)
    ensures key in table && table[key] != "" ==> s == table[key]
    ensures key !in table && key in InheritedNames ==> s == InheritedText(key)
    ensures key !in table && key !in InheritedNames ==> s == key
  {
    LookupOr(table, key, key)
  }

  const NotificationTypes: map<string, string> :=
    map["class" := "Class Reminder", "assignment" := "Assignment Reminder", "exam" := "Exam Reminder",
        "general" := "General Notification"]

  const TargetAudiences: map<string, string> :=
    map["all" := "All Users", "students" := "Students Only", "faculty" := "Faculty Only"]

  function FormatNotificationType(kind: string): (s: string)
    ensures kind in NotificationTypes ==> s == NotificationTypes[kind]
    ensures kind !in NotificationTypes && kind in InheritedNames ==> s == InheritedText(kind)
    ensures kind !in NotificationTypes && kind !in InheritedNames ==> s == kind
  {
    Label(NotificationTypes, kind)
  }

  function FormatTargetAudience(audience: string): (s: string)
    ensures audience in TargetAudiences ==> s == TargetAudiences[audience]
    ensures audience !in TargetAudiences && audience in InheritedNames ==> s == InheritedText(audience)
    ensures audience !in TargetAudiences && audience !in InheritedNames ==> s == audience
  {
    Label(TargetAudiences, audience)
  }

  /**
   * No known label and no inherited property's text coincides with its key, so the output equals
   * the input exactly when the key is neither listed nor an `Object.prototype` name.
   */
  lemma LabelsAreNotKeys(kind: string, audience: string)
    ensures FormatNotificationType(kind) == kind <==> kind !in NotificationTypes && kind !in InheritedNames
    ensures FormatTargetAudience(audience) == audience <==>
      audience !in TargetAudiences && audience !in InheritedNames
  {
    if kind in InheritedNames && kind !in NotificationTypes {
      InheritedRendering(kind);
    }
    if audience in InheritedNames && audience !in TargetAudiences {
      InheritedRendering(audience);
    }
  }

  /** A posted type "__proto__" finds the prototype object, shown as "[object Object]". */
  lemma ProtoTypeLabel()
    ensures FormatNotificationType("__proto__") == "[object Object]"
  {
  }

  /** The schedule cell: a fixed word, a date shown in local time, or the raw schedule value. */
  datatype ScheduleText = Immediate | LocalTime(datetime: string) | Raw(schedule: string)

  /** `formatSchedule`: a missing or empty datetime is falsy and leaves "scheduled" shown raw. */
  function FormatSchedule(schedule: string, scheduledDatetime: Option<string>): (t: ScheduleText)
    ensures t == Immediate <==> schedule == "immediate"
    ensures t.LocalTime? <==> schedule == "scheduled" && scheduledDatetime.Some? && scheduledDatetime.value != ""
    ensures t.LocalTime? ==> t.datetime == scheduledDatetime.value
    ensures t.Raw? ==> t.schedule == schedule
  {
    if schedule == "immediate" then Immediate
    else if schedule == "scheduled" && scheduledDatetime.Some? && scheduledDatetime.value != "" then
      LocalTime(scheduledDatetime.value)
    else Raw(schedule)
  }

  class NotificationManager {
    var notifications: seq<Item>
    /** Whether the `.scheduled-datetime` field is displayed. */
    var scheduledFieldVisible: bool

    constructor (loaded: seq<Item>)
      ensures notifications == loaded && !scheduledFieldVisible
    {
      notifications := loaded;
      scheduledFieldVisible := false;
    }

    /** The change handler of the schedule select. */
    method ScheduleChanged(value: string)
      modifies this
      ensures scheduledFieldVisible <==> value == "scheduled"
      ensures notifications == old(notifications)
    {
      scheduledFieldVisible := value == "scheduled";
    }

    /** `createNotification`: on success the returned row is appended and the form hides the field again. */
    method Created(ok: bool, created: Item)
      modifies this
      ensures ok ==> notifications == old(notifications) + [created] && !scheduledFieldVisible
      ensures !ok ==> notifications == old(notifications) && scheduledFieldVisible == old(scheduledFieldVisible)
    {
      if ok {
        notifications := notifications + [created];
        scheduledFieldVisible := false;
      }
    }

    /** `deleteNotification`: a confirmed, successful delete drops every row with that id. */
    method Deleted(confirmed: bool, ok: bool, id: int)
      modifies this
      ensures confirmed && ok ==> notifications == WithoutId(old(notifications), id)
      ensures !(confirmed && ok) ==> notifications == old(notifications)
      ensures scheduledFieldVisible == old(scheduledFieldVisible)
    {
      if confirmed && ok {
        notifications := WithoutId(notifications, id);
      }
    }
  }
}
