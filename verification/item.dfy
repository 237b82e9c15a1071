/** The item aggregate (the unit being memorised) and its review dates.
    Their contracts are the ones domain/item/item_test.go asserts. */
module Items {
  import opened Wrappers
  import opened Clock
  import opened Rules

  datatype Item = Item(
    itemID: string,
    userID: string,
    categoryID: Option<string>,
    boxID: Option<string>,
    patternID: Option<string>,
    name: string,
    detail: string,
    learnedDate: Time,
    isFinished: bool,
    registeredAt: Time,
    editedAt: Time)

  const NameRequired: string := "復習物名は必須です"
  const LearnedDateRequired: string := "学習日は必須です"

  /** An item the factory could have produced. The detail is free text and
      the associations are optional. */
  predicate Valid(i: Item) {
    i.name != "" && !IsZero(i.learnedDate)
  }

  function ValidateLearnedDate(learnedDate: Time): (r: Option<Error>)
    ensures r.None? <==> !IsZero(learnedDate)
    ensures r.Some? ==> r.value == ValidationError(LearnedDateRequired)
  {
    if IsZero(learnedDate) then Some(ValidationError(LearnedDateRequired)) else None
  }

  /** The item checks, name first. */
  function ValidateItem(name: string, learnedDate: Time): (r: Option<Error>)
    ensures r.None? <==> name != "" && !IsZero(learnedDate)
    ensures name == "" ==> r == Some(ValidationError(NameRequired))
    ensures name != "" && IsZero(learnedDate) ==> r == Some(ValidationError(LearnedDateRequired))
  {
    var checks := [Require(name, NameRequired), ValidateLearnedDate(learnedDate)];
    assert checks[1..] == [checks[1]];
    assert checks[1..][1..] == [];
    FirstError(checks)
  }

  /** Creates an item; every field is taken from the input, and a missing
      category, box or pattern stays missing. */
  function NewItem(
    itemID: string, userID: string,
    categoryID: Option<string>, boxID: Option<string>, patternID: Option<string>,
    name: string, detail: string, learnedDate: Time, isFinished: bool,
    registeredAt: Time, editedAt: Time): (r: Result<Item, Error>)
    ensures r.Success? <==> name != "" && !IsZero(learnedDate)
    ensures name == "" ==> r == Failure(ValidationError(NameRequired))
    ensures name != "" && IsZero(learnedDate) ==> r == Failure(ValidationError(LearnedDateRequired))
    ensures r.Success? ==>
      && r.value.itemID == itemID && r.value.userID == userID
      && r.value.categoryID == categoryID && r.value.boxID == boxID && r.value.patternID == patternID
      && r.value.name == name && r.value.detail == detail && r.value.learnedDate == learnedDate
      && r.value.isFinished == isFinished
      && r.value.registeredAt == registeredAt && r.value.editedAt == editedAt
      && Valid(r.value)
  {
    match ValidateItem(name, learnedDate)
    case Some(e) => Failure(e)
    case None =>
      Success(Item(itemID, userID, categoryID, boxID, patternID, name, detail, learnedDate,
                   isFinished, registeredAt, editedAt))
  }

  /** Replaces the associations (possibly with none), name, detail, learned
      date and `editedAt` all at once, or, when a check fails, nothing. */
  function Set(
    i: Item, categoryID: Option<string>, boxID: Option<string>, patternID: Option<string>,
    name: string, detail: string, learnedDate: Time, editedAt: Time): (m: Mutation<Item, Error>)
    ensures m.Succeeded() <==> name != "" && !IsZero(learnedDate)
    ensures name == "" ==> m.error == Some(ValidationError(NameRequired))
    ensures name != "" && IsZero(learnedDate) ==> m.error == Some(ValidationError(LearnedDateRequired))
    ensures !m.Succeeded() ==> m.after == i
    ensures m.Succeeded() ==>
      && m.after.categoryID == categoryID && m.after.boxID == boxID && m.after.patternID == patternID
      && m.after.name == name && m.after.detail == detail
      && m.after.learnedDate == learnedDate && m.after.editedAt == editedAt
      && m.after.itemID == i.itemID && m.after.userID == i.userID
      && m.after.isFinished == i.isFinished && m.after.registeredAt == i.registeredAt
      && Valid(m.after)
  {
    match ValidateItem(name, learnedDate)
    case Some(e) => Mutation(i, Some(e))
    case None =>
      Mutation(i.(categoryID := categoryID, boxID := boxID, patternID := patternID,
                  name := name, detail := detail, learnedDate := learnedDate, editedAt := editedAt), None)
  }

  /** A scheduled review of an item at one step of its repetition plan. */
  datatype Reviewdate = Reviewdate(
    reviewdateID: string,
    userID: string,
    categoryID: Option<string>,
    boxID: Option<string>,
    itemID: string,
    stepNumber: int,
    initialScheduledDate: Time,
    scheduledDate: Time,
    isCompleted: bool)

  /** Step numbers stop below this bound. */
  const StepLimit: int := 32768

  const StepNumberRequired: string := "StepNumber: ステップ番号は必須です."
  const StepNumberInvalid: string := "StepNumber: ステップ番号の値が不正です."
  const StepNumberTooLarge: string := "StepNumber: ステップは32768回以上は指定できません."
  const ScheduledDateRequired: string := "ScheduledDate: スケジュール日は必須です."

  predicate ValidStep(stepNumber: int) {
    1 <= stepNumber < StepLimit
  }

  /** A review date the factory could have produced. */
  predicate ValidReviewdate(r: Reviewdate) {
    ValidStep(r.stepNumber) && !IsZero(r.scheduledDate)
  }

  /** Zero, negative and too-large step numbers each have their own message. */
  function ValidateStepNumber(stepNumber: int): (r: Option<Error>)
    ensures r.None? <==> ValidStep(stepNumber)
    ensures stepNumber == 0 ==> r == Some(ValidationError(StepNumberRequired))
    ensures stepNumber < 0 ==> r == Some(ValidationError(StepNumberInvalid))
    ensures stepNumber >= StepLimit ==> r == Some(ValidationError(StepNumberTooLarge))
  {
    if stepNumber == 0 then Some(ValidationError(StepNumberRequired))
    else if stepNumber < 1 then Some(ValidationError(StepNumberInvalid))
    else if stepNumber > StepLimit - 1 then Some(ValidationError(StepNumberTooLarge))
    else None
  }

  function ValidateScheduledDate(scheduledDate: Time): (r: Option<Error>)
    ensures r.None? <==> !IsZero(scheduledDate)
    ensures r.Some? ==> r.value == ValidationError(ScheduledDateRequired)
  {
    if IsZero(scheduledDate) then Some(ValidationError(ScheduledDateRequired)) else None
  }

  /** Creates a review date. Only the step number and the scheduled date
      are checked; the initial scheduled date is stored as given. */
  function NewReviewdate(
    reviewdateID: string, userID: string, categoryID: Option<string>, boxID: Option<string>,
    itemID: string, stepNumber: int, initialScheduledDate: Time, scheduledDate: Time,
    isCompleted: bool): (r: Result<Reviewdate, Error>)
    ensures r.Success? <==> ValidStep(stepNumber) && !IsZero(scheduledDate)
    ensures !ValidStep(stepNumber) && !IsZero(scheduledDate) ==>
      r == Failure(ValidateStepNumber(stepNumber).value)
    ensures ValidStep(stepNumber) && IsZero(scheduledDate) ==>
      r == Failure(ValidationError(ScheduledDateRequired))
    ensures r.Success? ==>
      && r.value.reviewdateID == reviewdateID && r.value.userID == userID
      && r.value.categoryID == categoryID && r.value.boxID == boxID && r.value.itemID == itemID
      && r.value.stepNumber == stepNumber
      && r.value.initialScheduledDate == initialScheduledDate
      && r.value.scheduledDate == scheduledDate && r.value.isCompleted == isCompleted
      && ValidReviewdate(r.value)
  {
    var checks := [ValidateStepNumber(stepNumber), ValidateScheduledDate(scheduledDate)];
    assert checks[1..] == [checks[1]];
    assert checks[1..][1..] == [];
    match FirstError(checks)
    case Some(e) => Failure(e)
    case None =>
      Success(Reviewdate(reviewdateID, userID, categoryID, boxID, itemID, stepNumber,
                         initialScheduledDate, scheduledDate, isCompleted))
  }

  /** The step-number boundaries: 0, -1 and 32768 are rejected with their
      own messages, 1 and 32767 are accepted, and a zero initial date is
      never rejected. */
  lemma StepNumberBoundaries(d: Time)
    requires !IsZero(d)
    ensures NewReviewdate("r", "u", None, None, "i", 0, d, d, false)
      == Failure(ValidationError(StepNumberRequired))
    ensures NewReviewdate("r", "u", None, None, "i", -1, d, d, false)
      == Failure(ValidationError(StepNumberInvalid))
    ensures NewReviewdate("r", "u", None, None, "i", 32768, d, d, false)
      == Failure(ValidationError(StepNumberTooLarge))
    ensures NewReviewdate("r", "u", None, None, "i", 1, d, d, false).Success?
    ensures NewReviewdate("r", "u", None, None, "i", 32767, Zero, d, false).Success?
  {
  }
}
