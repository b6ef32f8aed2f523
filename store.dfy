/** The document store behind the Node controllers: three collections keyed by id. */
module Store {
  import opened Records
  import opened CourseSchema

  class Database {
    var users: map<Id, Document>
    var courses: map<Id, Course>
    var categories: map<Id, Document>
    /** The next id handed out; every stored id is below it. */
    var nextId: Id

    /** Ids in use are below `nextId`, and every stored course satisfies the schema. */
    ghost predicate Valid()
      reads this
    {
      && (forall k :: k in users ==> k < nextId)
      && (forall k :: k in courses ==> k < nextId)
      && (forall k :: k in categories ==> k < nextId)
      && (forall k :: k in courses ==> ValidCourse(courses[k]))
    }

    constructor ()
      ensures Valid()
      ensures users == map[] && courses == map[] && categories == map[]
    {
      users, courses, categories := map[], map[], map[];
      nextId := 0;
    }

    /** Hands out a fresh id, unused in every collection. */
    method NewId() returns (id: Id)
      requires Valid()
      modifies this`nextId
      ensures Valid()
      ensures id == old(nextId) && nextId == id + 1
      ensures id !in users && id !in courses && id !in categories
    {
      id := nextId;
      nextId := nextId + 1;
    }
  }
}
