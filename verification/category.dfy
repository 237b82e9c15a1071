/** The category aggregate: a named grouping owned by a user. Its contract
    is the one domain/category/category_test.go asserts. */
module Categories {
  import opened Wrappers
  import opened Clock
  import opened Rules

  datatype Category = Category(
    id: string,
    userID: string,
    name: string,
    registeredAt: Time,
    editedAt: Time)

  /** The required-name message, which boxes report as well. */
  const NameRequired: string := "カテゴリー名は必須です"

  /** A category the factory could have produced. */
  predicate Valid(c: Category) {
    c.name != ""
  }

  /** Creates a category; an empty name yields no category. */
  function NewCategory(id: string, userID: string, name: string, registeredAt: Time, editedAt: Time)
    : (r: Result<Category, Error>)
    ensures r.Success? <==> name != ""
    ensures r.Failure? ==> r.error == ValidationError(NameRequired)
    ensures r.Success? ==>
      && r.value.id == id && r.value.userID == userID && r.value.name == name
      && r.value.registeredAt == registeredAt && r.value.editedAt == editedAt
      && Valid(r.value)
  {
    match Require(name, NameRequired)
    case Some(e) => Failure(e)
    case None => Success(Category(id, userID, name, registeredAt, editedAt))
  }

  /** Renames the category and stamps `editedAt`; with an empty name the
      category, its `editedAt` included, is returned unchanged. */
  function Set(c: Category, name: string, editedAt: Time): (m: Mutation<Category, Error>)
    ensures m.Succeeded() <==> name != ""
    ensures !m.Succeeded() ==> m.error == Some(ValidationError(NameRequired)) && m.after == c
    ensures m.Succeeded() ==>
      && m.after.name == name && m.after.editedAt == editedAt
      && m.after.id == c.id && m.after.userID == c.userID
      && m.after.registeredAt == c.registeredAt
      && Valid(m.after)
  {
    match Require(name, NameRequired)
    case Some(e) => Mutation(c, Some(e))
    case None => Mutation(c.(name := name, editedAt := editedAt), None)
  }

  /** The category after a series of rename requests, accepted or not. */
  function SetAll(c: Category, edits: seq<(string, Time)>): Category
    decreases |edits|
  {
    if |edits| == 0 then c else SetAll(Set(c, edits[0].0, edits[0].1).after, edits[1..])
  }

  /** Across any series of renames a valid category stays valid and keeps
      its identity, owner and registration time. */
  lemma {:induction false} SetAllKeepsInvariants(c: Category, edits: seq<(string, Time)>)
    requires Valid(c)
    ensures Valid(SetAll(c, edits))
    ensures SetAll(c, edits).id == c.id && SetAll(c, edits).userID == c.userID
    ensures SetAll(c, edits).registeredAt == c.registeredAt
    decreases |edits|
  {
    if |edits| > 0 {
      SetAllKeepsInvariants(Set(c, edits[0].0, edits[0].1).after, edits[1..]);
    }
  }
}
