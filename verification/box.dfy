/** The box aggregate: a named container inside a category that follows a
    repetition pattern. Its contract is the one domain/box/box_test.go
    asserts. */
module Boxes {
  import opened Wrappers
  import opened Clock
  import opened Rules
  import Categories

  datatype Box = Box(
    id: string,
    userID: string,
    categoryID: string,
    patternID: string,
    name: string,
    registeredAt: Time,
    editedAt: Time)

  /** What `Set` returns: whether the requested pattern is the box's current
      one, and the box after the call. */
  datatype SetOutcome = SetOutcome(isSamePattern: bool, mutation: Mutation<Box, Error>)

  /** A box the factory could have produced. */
  predicate Valid(b: Box) {
    b.name != ""
  }

  /** Creates a box. The name rule and its message are the category's. */
  function NewBox(
    id: string, userID: string, categoryID: string, patternID: string, name: string,
    registeredAt: Time, editedAt: Time): (r: Result<Box, Error>)
    ensures r.Success? <==> name != ""
    ensures r.Failure? ==> r.error == ValidationError(Categories.NameRequired)
    ensures r.Success? ==>
      && r.value.id == id && r.value.userID == userID && r.value.categoryID == categoryID
      && r.value.patternID == patternID && r.value.name == name
      && r.value.registeredAt == registeredAt && r.value.editedAt == editedAt
      && Valid(r.value)
  {
    match Require(name, Categories.NameRequired)
    case Some(e) => Failure(e)
    case None => Success(Box(id, userID, categoryID, patternID, name, registeredAt, editedAt))
  }

  /** Moves the box to `patternID`, renames it and stamps `editedAt`. The
      pattern comparison is made against the current pattern before the
      name is checked, so it is reported on failure too; on failure the box
      is unchanged. */
  function Set(b: Box, patternID: string, name: string, editedAt: Time): (r: SetOutcome)
    ensures r.isSamePattern <==> patternID == b.patternID
    ensures r.mutation.Succeeded() <==> name != ""
    ensures !r.mutation.Succeeded() ==>
      r.mutation.error == Some(ValidationError(Categories.NameRequired)) && r.mutation.after == b
    ensures r.mutation.Succeeded() ==>
      && r.mutation.after.patternID == patternID && r.mutation.after.name == name
      && r.mutation.after.editedAt == editedAt
      && r.mutation.after.id == b.id && r.mutation.after.userID == b.userID
      && r.mutation.after.categoryID == b.categoryID
      && r.mutation.after.registeredAt == b.registeredAt
      && Valid(r.mutation.after)
  {
    var isSamePattern := patternID == b.patternID;
    match Require(name, Categories.NameRequired)
    case Some(e) => SetOutcome(isSamePattern, Mutation(b, Some(e)))
    case None => SetOutcome(isSamePattern, Mutation(b.(patternID := patternID, name := name, editedAt := editedAt), None))
  }

  /** Once an update to `patternID` has been accepted, repeating that
      pattern is reported as no pattern change, whatever the new name, so
      callers reschedule review dates at most once per pattern move. */
  lemma RepeatedPatternIsSame(
    b: Box, patternID: string, name: string, editedAt: Time,
    nextName: string, nextEditedAt: Time)
    requires Set(b, patternID, name, editedAt).mutation.Succeeded()
    ensures Set(Set(b, patternID, name, editedAt).mutation.after, patternID, nextName, nextEditedAt).isSamePattern
  {
  }
}
