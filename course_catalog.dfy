/**
 * The public courses page: the card built for each course, the search-and-category filter that
 * shows or hides each card in place, and the category dropdown.
 */
module CourseCatalog {
  import opened Records
  import opened Text

  /**
   * A course as the list endpoint returns it; `None` is a missing (undefined) property. A stored
   * course has no `students` path (its list is `enrolledStudents`), so the card's count reads nothing.
   */
  datatype CourseData = CourseData(
    id: string,
    title: Option<string>,
    image: Option<string>,
    rating: Option<int>,
    instructorName: Option<string>,
    duration: Option<string>)

  /**
   * One card element: the texts and attributes it is built with, the `data-category` attribute
   * the filter reads, and whether it is displayed.
   */
  datatype Card = Card(
    image: string,
    alt: string,
    rating: int,
    title: string,
    instructor: string,
    duration: string,
    students: nat,
    link: string,
    dataCategory: Option<string>,
    shown: bool)

  /** How a template literal writes a string property: a missing one becomes "undefined". */
  function Interpolated(v: Option<string>): (s: string)
    ensures v.Some? ==> s == v.value
    ensures v.None? ==> s == "undefined"
  {
    match v
    case Some(x) => x
    case None => "undefined"
  }

  /** `v || fallback` for a string property: missing and empty are both falsy. */
  function OrElse(v: Option<string>, fallback: string): (s: string)
    ensures v.Some? && v.value != [] ==> s == v.value
    ensures v.None? || v.value == [] ==> s == fallback
  {
    if v.Some? && v.value != [] then v.value else fallback
  }

  /**
   * `createCourseElement`: each missing or falsy property shown with its fallback, no `data-category`,
   * and `course.students?.length || 0` always 0 since a course has no `students` path.
   */
  function CardFor(course: CourseData): (c: Card)
    ensures c.title == c.alt == Interpolated(course.title)
    ensures c.dataCategory.None? && c.shown
    ensures c.link == "single.html?id=" + course.id
    ensures c.image == OrElse(course.image, "img/course-1.jpg")
    ensures c.instructor == OrElse(course.instructorName, "Unknown Instructor")
    ensures c.duration == OrElse(course.duration, "N/A")
    ensures course.rating.Some? ==> c.rating == course.rating.value
    ensures course.rating.None? ==> c.rating == 0
    ensures c.students == 0
  {
    Card(
      OrElse(course.image, "img/course-1.jpg"),
      Interpolated(course.title),
      course.rating.GetOr(0),
      Interpolated(course.title),
      OrElse(course.instructorName, "Unknown Instructor"),
      OrElse(course.duration, "N/A"),
      0,
      "single.html?id=" + course.id,
      None,
      true)
  }

  /**
   * `filterCourses`' test for one card: its lowercased title includes the lowercased term, and the
   * category filter is empty or equal to the card's `data-category` (an absent attribute equals no id).
   */
  predicate Visible(card: Card, term: string, categoryId: string) {
    Includes(ToLower(card.title), ToLower(term)) && (categoryId == [] || card.dataCategory == Some(categoryId))
  }

  /** The cards after filtering: the same cards in the same order, each displayed iff it is visible. */
  function Filtered(cards: seq<Card>, term: string, categoryId: string): (r: seq<Card>)
    ensures |r| == |cards|
    ensures forall i :: 0 <= i < |cards| ==> r[i].shown == Visible(cards[i], term, categoryId)
    ensures forall i :: 0 <= i < |cards| ==> r[i].(shown := cards[i].shown) == cards[i]
  {
    seq(|cards|, i requires 0 <= i < |cards| => cards[i].(shown := Visible(cards[i], term, categoryId)))
  }

  /** The `forEach` over the card elements, setting each one's display in place. */
  method FilterCards(cards: array<Card>, term: string, categoryId: string)
    modifies cards
    ensures cards[..] == Filtered(old(cards[..]), term, categoryId)
  {
    var i := 0;
    while i < cards.Length
      invariant 0 <= i <= cards.Length
      invariant forall j :: 0 <= j < i ==> cards[j] == old(cards[j]).(shown := Visible(old(cards[j]), term, categoryId))
      invariant forall j :: i <= j < cards.Length ==> cards[j] == old(cards[j])
    {
      cards[i] := cards[i].(shown := Visible(cards[i], term, categoryId));
      i := i + 1;
    }
  }

  /** `loadCourses`: one card per course, in the order received. */
  method LoadCourses(courses: seq<CourseData>) returns (cards: array<Card>)
    ensures fresh(cards)
    ensures cards.Length == |courses|
    ensures forall i :: 0 <= i < |courses| ==> cards[i] == CardFor(courses[i])
  {
    cards := new Card[|courses|](i requires 0 <= i < |courses| => CardFor(courses[i]));
  }

  /** The filter depends on nothing a filter changes: a second run with the same inputs changes nothing. */
  lemma FilterIdempotent(cards: seq<Card>, term: string, categoryId: string)
    ensures Filtered(Filtered(cards, term, categoryId), term, categoryId) == Filtered(cards, term, categoryId)
  {
    var once := Filtered(cards, term, categoryId);
    assert forall i :: 0 <= i < |cards| ==> Visible(once[i], term, categoryId) == Visible(cards[i], term, categoryId);
  }

  /** An empty search with no category shows every card. */
  lemma EmptyFilterShowsAll(cards: seq<Card>)
    ensures forall i :: 0 <= i < |cards| ==> Filtered(cards, "", "")[i].shown
  {
    forall i | 0 <= i < |cards|
      ensures Visible(cards[i], "", "")
    {
      assert ToLower("") == "";
      IncludesEmpty(ToLower(cards[i].title));
    }
  }

  /** The cards are built without `data-category`, so choosing any category hides every one of them. */
  lemma CategoryHidesBuiltCards(courses: seq<CourseData>, term: string, categoryId: string)
    requires categoryId != []
    ensures forall i :: 0 <= i < |courses| ==> !Visible(CardFor(courses[i]), term, categoryId)
  {
  }

  lemma LowerCharIdempotent(c: char)
    ensures LowerChar(LowerChar(c)) == LowerChar(c)
  {
  }

  /** The search ignores case: a term and its lowercase form show the same cards. */
  lemma SearchIgnoresCase(card: Card, term: string, categoryId: string)
    ensures Visible(card, term, categoryId) == Visible(card, ToLower(term), categoryId)
  {
    forall i | 0 <= i < |term|
      ensures ToLower(ToLower(term))[i] == ToLower(term)[i]
    {
      LowerCharIdempotent(term[i]);
    }
    assert ToLower(ToLower(term)) == ToLower(term);
  }

  /** A category as the list endpoint returns it. */
  datatype CategoryData = CategoryData(id: string, name: string)

  /** One `<option>`: its value and its text. */
  datatype SelectOption = SelectOption(value: string, text: string)

  const AllCategories := SelectOption("", "All Categories")

  /** The category filter select of the page. */
  class CategoryFilter {
    var options: seq<SelectOption>

    constructor ()
      ensures options == []
    {
      options := [];
    }

    /** `loadCategories`: reset to the "All Categories" option, then one option per category in order. */
    method Load(categories: seq<CategoryData>)
      modifies this
      ensures |options| == |categories| + 1
      ensures options[0] == AllCategories
      ensures forall i :: 0 <= i < |categories| ==>
        options[i + 1] == SelectOption(categories[i].id, categories[i].name)
    {
      options := [AllCategories];
      var i := 0;
      while i < |categories|
        invariant 0 <= i <= |categories|
        invariant |options| == i + 1 && options[0] == AllCategories
        invariant forall j :: 0 <= j < i ==> options[j + 1] == SelectOption(categories[j].id, categories[j].name)
      {
        options := options + [SelectOption(categories[i].id, categories[i].name)];
        i := i + 1;
      }
    }
  }
}
