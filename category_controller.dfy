/** The category handlers: a keyed collection of schemaless documents with a not-found check. */
module CategoryController {
  import opened Records
  import opened Store

  const CategoryNotFound: string := "Category not found"

  /** GET /api/categories */
  method GetCategories(db: Database) returns (count: nat, data: map<Id, Document>)
    ensures data == db.categories && count == |data|
  {
    data := db.categories;
    count := |data|;
  }

  /** GET /api/categories/:id */
  method GetCategory(db: Database, id: Id) returns (r: Reply<Document>)
    ensures id in db.categories ==> r == Ok(db.categories[id])
    ensures id !in db.categories ==> r == NotFound(CategoryNotFound)
  {
    if id !in db.categories {
      return NotFound(CategoryNotFound);
    }
    r := Ok(db.categories[id]);
  }

  /**
   * POST /api/categories. The Category model is not part of this model: `storeError` is the
   * message its validation reports for this body, if any.
   */
  method CreateCategory(db: Database, body: Document, storeError: Option<string>) returns (r: Reply<Document>)
    requires db.Valid()
    modifies db
    ensures db.Valid()
    ensures db.users == old(db.users) && db.courses == old(db.courses)
    ensures storeError.Some? ==> r == BadRequest(storeError.value) && db.categories == old(db.categories)
    ensures storeError.None? ==>
      && r == Ok(body)
      && old(db.nextId) !in old(db.categories)
      && db.categories == old(db.categories)[old(db.nextId) := body]
      && |db.categories| == |old(db.categories)| + 1
  {
    if storeError.Some? {
      return BadRequest(storeError.value);
    }
    var id := db.NewId();
    db.categories := db.categories[id := body];
    r := Ok(body);
  }

  /** PUT /api/categories/:id: the supplied fields replace the stored ones; the rest stay. */
  method UpdateCategory(db: Database, id: Id, body: Document, storeError: Option<string>) returns (r: Reply<Document>)
    requires db.Valid()
    modifies db
    ensures db.Valid()
    ensures db.users == old(db.users) && db.courses == old(db.courses)
    ensures id !in old(db.categories) ==> r == NotFound(CategoryNotFound) && db.categories == old(db.categories)
    ensures id in old(db.categories) && storeError.Some? ==>
      r == BadRequest(storeError.value) && db.categories == old(db.categories)
    ensures id in old(db.categories) && storeError.None? ==>
      && db.categories == old(db.categories)[id := old(db.categories)[id] + body]
      && r == Ok(db.categories[id])
      && (forall k :: k in body ==> k in r.data && r.data[k] == body[k])
      && (forall k :: k in old(db.categories)[id] && k !in body ==> k in r.data && r.data[k] == old(db.categories)[id][k])
  {
    if id !in db.categories {
      return NotFound(CategoryNotFound);
    }
    if storeError.Some? {
      return BadRequest(storeError.value);
    }
    var updated := db.categories[id] + body;
    db.categories := db.categories[id := updated];
    r := Ok(updated);
  }

  /** DELETE /api/categories/:id: courses are not consulted, so a referenced category goes too. */
  method DeleteCategory(db: Database, id: Id) returns (r: Reply<Empty>)
    requires db.Valid()
    modifies db
    ensures db.Valid()
    ensures db.users == old(db.users) && db.courses == old(db.courses)
    ensures id !in old(db.categories) ==> r == NotFound(CategoryNotFound) && db.categories == old(db.categories)
    ensures id in old(db.categories) ==> r == Ok(Empty) && db.categories == old(db.categories) - {id}
  {
    if id !in db.categories {
      return NotFound(CategoryNotFound);
    }
    db.categories := db.categories - {id};
    r := Ok(Empty);
  }
}
