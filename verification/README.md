# review-setter domain entities in Dafny

This project models the domain layer of review-setter, a spaced-repetition
learning application. Users sort what they learn into categories and boxes,
record items to memorise, and the system keeps a scheduled review date for
each step of an item's repetition plan. The model covers the five
aggregates: User, Category, Box, Item and Reviewdate. Each is built by a
validating factory and changed by validating setters. A setter either
applies every change or none.

Layout, one module per Go package plus three shared modules:

- `wrappers.dfy` (`Wrappers`): `Option` stands in for Go's nil pointers.
  `Result` is what a factory returns: an entity or an error. `Mutation` is
  what a setter returns: the receiver after the call plus the error it
  returned, if any.
- `clock.dfy` (`Clock`): time as an opaque tick count. Tick 0 is Go's
  zero `time.Time`.
- `rules.dfy` (`Rules`): the two error kinds and the field rules of the
  validation library: required, rune length, allow-list and format.
  The split into `ValidationError` and `AuthenticationError` is a label of
  this model: domain/user/user.go returns the library's validation errors
  and plain `errors.New` values, and its callers tell them apart only by
  which operation returned them.
  `Validate` applies a field's rules in order and reports the first
  failure. `FirstError` chains whole field validators the same way.
- `user.dfy` (`Users`), `category.dfy` (`Categories`), `box.dfy`
  (`Boxes`), `item.dfy` (`Items`, which holds Item and Reviewdate, as the
  Go package does).

Strings are `seq<char>`, so a string's rune count is its length. Go methods
with a pointer receiver become pure functions. These take the receiver as
their first argument and return the receiver's new state. Each setter's
contract says the receiver is unchanged on failure and names exactly the
fields that change on success. Each entity also has an invariant
(`WellFormed`, `Valid` or `ValidReviewdate`) that its validating factory
establishes and its setters preserve. Reviewdate has no setter, so only
its factory is bound by `ValidReviewdate`. `ReconstructUser` does not
validate, so it does not establish `WellFormed`. Two lemmas carry these
invariants across any sequence of updates.

The sources for Item, Box, Category and Reviewdate are not part of this
model. Those four aggregates are modelled from the behaviour their tests
assert: field pass-through, optional foreign keys, the exact error strings,
and an unchanged receiver on failure.

## Model

| member | source | states |
|---|---|---|
| Rules.FirstError | domain/user/user.go:31-45 | The composite error is `None` exactly when every check passes. Otherwise it is the error of some check that every earlier check passed. So the first failure wins and nothing is aggregated. |
| Rules.Require | domain/category/category_test.go:45-55 | The required rule on its own: only the empty value fails, and it fails with the given message. Category, box and item names use it. |
| Rules.Validate | domain/user/user.go:160-219 | A field passes exactly when every one of its rules accepts it. Otherwise the message is the one of the first rejecting rule. Length and format rules let the empty value through, and `Required` catches it. |
| Users.ValidateEmail | domain/user/user.go:160-167 | Empty gives "メールアドレスは必須です". A non-empty value whose rune length is outside 7..254 gives the length message. Within that range the format check decides. It accepts exactly the 7..254-rune values the format check accepts. |
| Users.ValidatePassword | domain/user/user.go:169-175 | Empty gives "パスワードは必須です". 1 to 5 runes give "パスワードは6文字以上です". Any length of 6 or more is accepted, with no upper bound. |
| Users.ValidateTimezone | domain/user/user.go:177-190 | Only "Asia/Tokyo" is accepted. Empty gives the required message first. More than 64 runes gives the length message. Any other value gives the invalid-value message. |
| Users.ValidateThemeColor | domain/user/user.go:192-204 | Only "dark" and "light" are accepted. Empty gives the required message. Any other value gives the dark-or-light message. |
| Users.ValidateLanguage | domain/user/user.go:206-219 | Only "ja" is accepted. Empty gives the required message. More than 5 runes gives the length message. Any other value gives the invalid-tag message. |
| Users.NewUser | domain/user/user.go:22-61 | Succeeds exactly when all five fields are valid. Otherwise it returns the error of the first invalid field in the order e-mail, password, timezone, theme colour, language, and no user. On success the ID and settings are copied, the hash is `encrypt(password, salt)` for the caller's salt, the user is unverified and the user is well-formed. |
| Users.ReconstructUser | domain/user/user.go:63-80 | Never fails and validates nothing. Copies the given fields and leaves the password hash empty. |
| Users.ReconstructSkipsValidation | domain/user/user.go:63-80 | With an empty e-mail and empty settings, reconstruction succeeds and yields a user that is not well-formed, while `NewUser` rejects the same settings. |
| Users.Set | domain/user/user.go:82-102 | Succeeds exactly when the e-mail, timezone, theme colour and language are all valid, and reports the first failure in that order. On failure the user is unchanged. On success only the four settings change; the ID, password hash and verification time are kept. |
| Users.SetPassword | domain/user/user.go:104-113 | Fails exactly when the password is invalid, with the password validator's message, and leaves the user unchanged. On success the hash becomes `encrypt(password, salt)` for the caller's salt, and nothing else changes. |
| Users.RepeatedPasswordMayStoreNewHash | domain/user/user.go:104-149 | Setting the same password twice with different salts can store different hashes, so an equal password does not mean an unchanged user. |
| Users.IsValidPassword | domain/user/user.go:151-158 | No error exactly when the hasher matches the candidate against the stored hash. Otherwise the error is an authentication error "パスワードが一致しません". |
| Users.ReconstructDropsHash | domain/user/user.go:47-80 | Whenever `NewUser` succeeds, reconstructing the same ID and settings with no verification time gives exactly that user with an empty password hash: rehydration never carries the hash. |
| Users.IsVerified | domain/user/user.go:221-224 | Holds exactly when `verifiedAt` is present. |
| Users.OnlySetVerifiedVerifies | domain/user/user.go:47-113 | A new user is never verified, and the settings and password setters leave the verification flag as it was, whether they succeed or fail. |
| Users.SetVerified | domain/user/user.go:221-229 | Afterwards `IsVerified` holds and `verifiedAt` is the given time. No other field changes. |
| Users.SetVerifiedIdempotent | domain/user/user.go:221-229 | Verifying twice leaves the user verified. The result equals verifying once with the later time. |
| Users.ApplyAllKeepsInvariants | domain/user/user.go:82-229 | After any sequence of settings updates, password updates and verifications, accepted or rejected, a well-formed user stays well-formed, keeps its ID, and stays verified once verified. |
| Categories.NewCategory | domain/category/category_test.go:29-55 | Succeeds exactly when the name is non-empty, and the category's fields then equal the inputs. An empty name gives "カテゴリー名は必須です" and no category. |
| Categories.Set | domain/category/category_test.go:103-129 | Fails exactly on the empty name, with that message, and leaves the category unchanged, `editedAt` included. On success only the name and `editedAt` change; the ID, owner and `registeredAt` are kept. |
| Categories.SetAllKeepsInvariants | domain/category/category_test.go:103-129 | Across any sequence of renames, a valid category stays valid and keeps its ID, owner and registration time. |
| Boxes.NewBox | domain/box/box_test.go:33-65 | Succeeds exactly when the name is non-empty, and the box's fields then equal the inputs. An empty name gives the category's "カテゴリー名は必須です". |
| Boxes.Set | domain/box/box_test.go:115-166 | `isSamePattern` holds exactly when the requested pattern is the current one, whether or not the rename succeeds. An empty name gives the error and leaves the box unchanged. On success the pattern, name and `editedAt` change, while the ID, owner, category and `registeredAt` do not. |
| Boxes.RepeatedPatternIsSame | domain/box/box_test.go:115-148 | After an accepted update to a pattern, a further update naming the same pattern reports `isSamePattern = true`, whatever its name, so a pattern move is reported as a change only once. |
| Items.ValidateItem | domain/item/item_test.go:91-123 | Passes exactly when the name is non-empty and the learned date is not zero. The name is checked first, so an empty name reports "復習物名は必須です" even when the date is zero too. |
| Items.ValidateLearnedDate | domain/item/item_test.go:107-123 | Fails exactly on the zero learned date, with "学習日は必須です". |
| Items.NewItem | domain/item/item_test.go:34-151 | Succeeds exactly for a non-empty name and a non-zero learned date, whatever the detail, including an empty one. Every field then equals its input, including absent category, box and pattern IDs and either `isFinished` value. Otherwise it returns "復習物名は必須です" or "学習日は必須です". |
| Items.Set | domain/item/item_test.go:225-322 | Fails exactly on an empty name or a zero learned date, with the matching message, and leaves the item unchanged. On success the associations (absent ones included), name, detail, learned date and `editedAt` are replaced. The item ID, owner, `isFinished` and `registeredAt` are kept. |
| Items.ValidateStepNumber | domain/item/item_test.go:427-471 | Accepts exactly 1..32767. 0 gives "StepNumber: ステップ番号は必須です.". A negative number gives "StepNumber: ステップ番号の値が不正です.". 32768 or more gives "StepNumber: ステップは32768回以上は指定できません.". |
| Items.NewReviewdate | domain/item/item_test.go:379-486 | Succeeds exactly for a valid step number and a non-zero scheduled date; the initial date is never checked. With a non-zero scheduled date, a bad step number reports its own message. With a valid step number, a zero scheduled date gives "ScheduledDate: スケジュール日は必須です.". When both are bad only failure is promised. On success every field equals its input, absent IDs included, and the review date satisfies `ValidReviewdate`. |
| Items.ValidateScheduledDate | domain/item/item_test.go:472-486 | Fails exactly on the zero scheduled date, with "ScheduledDate: スケジュール日は必須です.". |
| Items.StepNumberBoundaries | domain/item/item_test.go:379-471 | Step numbers 0, -1 and 32768 are rejected with their three messages. Step numbers 1 and 32767 are accepted, the latter even with a zero initial date. |

## Left out

- Password hashing (bcrypt, domain/user/user.go:142-158): `encrypt` and the hash comparison are the two functions of a `Hasher` parameter. bcrypt draws a fresh random salt inside every hash. Here the salt is an explicit argument that `NewUser` and `SetPassword` take from their caller, so the model never claims that hashing a password twice gives the same hash. No other property of the two functions is claimed; in particular, nothing is said about a password matching its own hash. The panic on a hashing failure (domain/user/user.go:144-146) is not modelled.
- Users.NewUser and Users.SetPassword succeed for a valid password of any length, because the password validator has no upper bound. Current versions of the bcrypt package reject input over 72 bytes, so `encrypt` would panic on such a password (73 ASCII characters, or 25 Japanese runes). The "succeeds exactly when" clauses therefore assume a password of at most 72 bytes. This mismatch between the validator's bound and bcrypt's limit is an observation about the Go code, not executed; the bcrypt version in use is not part of this model.
- The e-mail check of the validation library is a `string -> bool` parameter. It is applied after the required and length checks, and only to a non-empty value. It is treated as a fixed function of the address. The library's check may also look up the address's domain over the network, so in the running system its answer could change between calls. Users.ApplyAllKeepsInvariants holds the check fixed across a whole command sequence.
- `SetVerified` takes the current time as a parameter instead of reading the clock.
- The generated hasher mock (domain/user/mock_user.go), the HTTP controller interface (controller/user/user_interface.go) and the repository interface (domain/user/user_repository.go) hold no domain logic and are not modelled.
- The sources of the Item, Reviewdate, Box and Category packages are not part of this model. Their contracts come from the test tables, which show one accepted value each (one category name, one box name, two items, step number 1). Every "succeeds exactly when" contract of these packages assumes there is no rule beyond the name, learned-date, step-number and scheduled-date checks: no name-length limit and no check on IDs or timestamps. That assumption comes from the domain design's list of rules, not from the tests. Where the tests are silent, a box update with an empty name and a different pattern reports `isSamePattern = false`, because the flag is always computed against the current pattern.
- Items.ValidateItem: when the name is empty and the learned date is zero together, the name's message "復習物名は必須です" is reported, and so by Items.NewItem and Items.Set. The tests break one field at a time; the name-before-date order comes from the order the domain design states for these checks, as in the user validators.
- Items.NewReviewdate: when both the step number and the scheduled date are bad, the contract promises a failure but not its message. The tests pin only single failures. The field-qualified messages suggest a struct validator, which would report both failures in one message. The function body happens to return the step number's message, but no contract relies on that.
- Some message texts disagree with the bounds the code enforces. The e-mail message says 1 to 254 runes, but 7 are required. The language message rejects "5 or more" runes, but 5 runes pass the length rule. The model enforces the coded bounds and keeps the messages verbatim.
- Go strings may hold invalid UTF-8. Here strings are sequences of code points, so rune counting never meets a bad byte.
- Pointer aliasing and in-place mutation are modelled as returning the new state. Concurrent calls on one instance are not modelled.
