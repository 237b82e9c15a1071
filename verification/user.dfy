/** The user aggregate: account identity, password hash, display settings
    and e-mail verification state (domain/user/user.go). */
module Users {
  import opened Wrappers
  import opened Clock
  import opened Rules

  datatype User = User(
    id: string,
    email: string,
    encryptedPassword: string,
    timezone: string,
    themeColor: string,
    language: string,
    verifiedAt: Option<Time>)

  /** The password-hashing capability (bcrypt in user.go): a one-way
      hash of a password under a salt, and the check of a plaintext
      candidate against a stored hash. bcrypt draws a fresh random salt for
      every hash, so here the salt is an input of each hashing operation and
      hashing the same password twice need not give the same hash. */
  datatype Hasher = Hasher(encrypt: (string, string) -> string, matches: (string, string) -> bool)

  // Allow-lists
  const TimeZoneTokyo: string := "Asia/Tokyo"
  const ThemeColorDark: string := "dark"
  const ThemeColorLight: string := "light"
  const LanguageJa: string := "ja"

  const AllowedTimeZones: set<string> := {TimeZoneTokyo}
  const AllowedThemeColors: set<string> := {ThemeColorDark, ThemeColorLight}
  const AllowedLanguages: set<string> := {LanguageJa}

  // Messages, verbatim. Two of them state bounds other than the enforced
  // ones: e-mail addresses need 7 runes, and 5-rune languages pass.
  const EmailRequired: string := "メールアドレスは必須です"
  const EmailLength: string := "メールアドレスは1〜254文字です"
  const EmailFormat: string := "メールアドレスを入力して下さい"
  const PasswordRequired: string := "パスワードは必須です"
  const PasswordLength: string := "パスワードは6文字以上です"
  const TimezoneRequired: string := "タイムゾーンは必須です"
  const TimezoneLength: string := "65文字以上のタイムゾーンは対応していません"
  const TimezoneInvalid: string := "タイムゾーンの値が不正です"
  const ThemeColorRequired: string := "テーマカラーは必須です"
  const ThemeColorInvalid: string := "テーマカラーは'dark'または'light'で指定してください"
  const LanguageRequired: string := "言語は必須です"
  const LanguageLength: string := "5文字以上の言語は対応していません"
  const LanguageInvalid: string := "言語タグの値が不正です"
  const PasswordMismatch: string := "パスワードが一致しません"

  // What each field validator accepts, stated independently of the rules.

  predicate ValidEmail(email: string, emailFormat: string -> bool) {
    7 <= |email| <= 254 && emailFormat(email)
  }

  predicate ValidPassword(password: string) {
    |password| >= 6
  }

  predicate ValidTimezone(timezone: string) {
    timezone == TimeZoneTokyo
  }

  predicate ValidThemeColor(themeColor: string) {
    themeColor == ThemeColorDark || themeColor == ThemeColorLight
  }

  predicate ValidLanguage(language: string) {
    language == LanguageJa
  }

  /** The profile fields of a user hold values the validators accept. */
  predicate WellFormed(u: User, emailFormat: string -> bool) {
    && ValidEmail(u.email, emailFormat)
    && ValidTimezone(u.timezone)
    && ValidThemeColor(u.themeColor)
    && ValidLanguage(u.language)
  }

  function ValidateEmail(email: string, emailFormat: string -> bool): (r: Option<Error>)
    ensures r.None? <==> ValidEmail(email, emailFormat)
    ensures email == "" ==> r == Some(ValidationError(EmailRequired))
    ensures email != "" && !(7 <= |email| <= 254) ==> r == Some(ValidationError(EmailLength))
    ensures 7 <= |email| <= 254 && !emailFormat(email) ==> r == Some(ValidationError(EmailFormat))
  {
    var rules := [
      Required(EmailRequired),
      RuneLength(7, 254, EmailLength),
      Format(emailFormat, EmailFormat)];
    assert rules[1..] == [rules[1], rules[2]];
    assert rules[1..][1..] == [rules[2]];
    assert rules[1..][1..][1..] == [];
    Validate(email, rules)
  }

  function ValidatePassword(password: string): (r: Option<Error>)
    ensures r.None? <==> ValidPassword(password)
    ensures password == "" ==> r == Some(ValidationError(PasswordRequired))
    ensures 0 < |password| < 6 ==> r == Some(ValidationError(PasswordLength))
  {
    var rules := [
      Required(PasswordRequired),
      RuneLength(6, 0, PasswordLength)];
    assert rules[1..] == [rules[1]];
    assert rules[1..][1..] == [];
    Validate(password, rules)
  }

  function ValidateTimezone(timezone: string): (r: Option<Error>)
    ensures r.None? <==> ValidTimezone(timezone)
    ensures timezone == "" ==> r == Some(ValidationError(TimezoneRequired))
    ensures |timezone| > 64 ==> r == Some(ValidationError(TimezoneLength))
    ensures 0 < |timezone| <= 64 && !ValidTimezone(timezone) ==> r == Some(ValidationError(TimezoneInvalid))
  {
    var rules := [
      Required(TimezoneRequired),
      RuneLength(1, 64, TimezoneLength),
      OneOf(AllowedTimeZones, TimezoneInvalid)];
    assert rules[1..] == [rules[1], rules[2]];
    assert rules[1..][1..] == [rules[2]];
    assert rules[1..][1..][1..] == [];
    Validate(timezone, rules)
  }

  function ValidateThemeColor(themeColor: string): (r: Option<Error>)
    ensures r.None? <==> ValidThemeColor(themeColor)
    ensures themeColor == "" ==> r == Some(ValidationError(ThemeColorRequired))
    ensures themeColor != "" && !ValidThemeColor(themeColor) ==> r == Some(ValidationError(ThemeColorInvalid))
  {
    var rules := [
      Required(ThemeColorRequired),
      OneOf(AllowedThemeColors, ThemeColorInvalid)];
    assert rules[1..] == [rules[1]];
    assert rules[1..][1..] == [];
    Validate(themeColor, rules)
  }

  function ValidateLanguage(language: string): (r: Option<Error>)
    ensures r.None? <==> ValidLanguage(language)
    ensures language == "" ==> r == Some(ValidationError(LanguageRequired))
    ensures |language| > 5 ==> r == Some(ValidationError(LanguageLength))
    ensures 0 < |language| <= 5 && !ValidLanguage(language) ==> r == Some(ValidationError(LanguageInvalid))
  {
    var rules := [
      Required(LanguageRequired),
      RuneLength(1, 5, LanguageLength),
      OneOf(AllowedLanguages, LanguageInvalid)];
    assert rules[1..] == [rules[1], rules[2]];
    assert rules[1..][1..] == [rules[2]];
    assert rules[1..][1..][1..] == [];
    Validate(language, rules)
  }

  /** Creates a user from sign-up input. The validators run in the order
      e-mail, password, timezone, theme colour, language, and the first
      failure is returned with no user; a new user is never verified. */
  function NewUser(
    id: string, email: string, password: string,
    timezone: string, themeColor: string, language: string,
    salt: string, hasher: Hasher, emailFormat: string -> bool): (r: Result<User, Error>)
    ensures r.Success? <==>
      && ValidEmail(email, emailFormat) && ValidPassword(password)
      && ValidTimezone(timezone) && ValidThemeColor(themeColor) && ValidLanguage(language)
    ensures !ValidEmail(email, emailFormat) ==>
      r == Failure(ValidateEmail(email, emailFormat).value)
    ensures ValidEmail(email, emailFormat) && !ValidPassword(password) ==>
      r == Failure(ValidatePassword(password).value)
    ensures ValidEmail(email, emailFormat) && ValidPassword(password) && !ValidTimezone(timezone) ==>
      r == Failure(ValidateTimezone(timezone).value)
    ensures (ValidEmail(email, emailFormat) && ValidPassword(password) && ValidTimezone(timezone)
      && !ValidThemeColor(themeColor)) ==>
      r == Failure(ValidateThemeColor(themeColor).value)
    ensures (ValidEmail(email, emailFormat) && ValidPassword(password) && ValidTimezone(timezone)
      && ValidThemeColor(themeColor) && !ValidLanguage(language)) ==>
      r == Failure(ValidateLanguage(language).value)
    ensures r.Success? ==>
      && r.value.id == id && r.value.email == email
      && r.value.encryptedPassword == hasher.encrypt(password, salt)
      && r.value.timezone == timezone && r.value.themeColor == themeColor
      && r.value.language == language
      && !IsVerified(r.value)
      && WellFormed(r.value, emailFormat)
  {
    var checks := [
      ValidateEmail(email, emailFormat),
      ValidatePassword(password),
      ValidateTimezone(timezone),
      ValidateThemeColor(themeColor),
      ValidateLanguage(language)];
    assert checks[1..] == [checks[1], checks[2], checks[3], checks[4]];
    assert checks[1..][1..] == [checks[2], checks[3], checks[4]];
    assert checks[1..][1..][1..] == [checks[3], checks[4]];
    assert checks[1..][1..][1..][1..] == [checks[4]];
    assert checks[1..][1..][1..][1..][1..] == [];
    match FirstError(checks)
    case Some(e) => Failure(e)
    case None => Success(User(id, email, hasher.encrypt(password, salt), timezone, themeColor, language, None))
  }

  /** Rebuilds a stored user. Nothing is validated and nothing can fail; the
      password hash is not part of the input and is left empty. */
  function ReconstructUser(
    id: string, email: string, timezone: string, themeColor: string, language: string,
    verifiedAt: Option<Time>): (r: Result<User, Error>)
    ensures r.Success?
    ensures r.value.id == id && r.value.email == email && r.value.timezone == timezone
    ensures r.value.themeColor == themeColor && r.value.language == language
    ensures r.value.verifiedAt == verifiedAt
    ensures r.value.encryptedPassword == ""
  {
    Success(User(id, email, "", timezone, themeColor, language, verifiedAt))
  }

  /** Replaces the four settings. All four are validated (e-mail, timezone,
      theme colour, language) before any is assigned; on failure the user is
      returned unchanged with the first error. */
  function Set(
    u: User, email: string, timezone: string, themeColor: string, language: string,
    emailFormat: string -> bool): (m: Mutation<User, Error>)
    ensures m.Succeeded() <==>
      ValidEmail(email, emailFormat) && ValidTimezone(timezone)
      && ValidThemeColor(themeColor) && ValidLanguage(language)
    ensures !ValidEmail(email, emailFormat) ==>
      m.error == ValidateEmail(email, emailFormat)
    ensures ValidEmail(email, emailFormat) && !ValidTimezone(timezone) ==>
      m.error == ValidateTimezone(timezone)
    ensures ValidEmail(email, emailFormat) && ValidTimezone(timezone) && !ValidThemeColor(themeColor) ==>
      m.error == ValidateThemeColor(themeColor)
    ensures (ValidEmail(email, emailFormat) && ValidTimezone(timezone) && ValidThemeColor(themeColor)
      && !ValidLanguage(language)) ==>
      m.error == ValidateLanguage(language)
    ensures !m.Succeeded() ==> m.after == u
    ensures m.Succeeded() ==>
      && m.after.email == email && m.after.timezone == timezone
      && m.after.themeColor == themeColor && m.after.language == language
      && m.after.id == u.id && m.after.encryptedPassword == u.encryptedPassword
      && m.after.verifiedAt == u.verifiedAt
      && WellFormed(m.after, emailFormat)
  {
    var checks := [
      ValidateEmail(email, emailFormat),
      ValidateTimezone(timezone),
      ValidateThemeColor(themeColor),
      ValidateLanguage(language)];
    assert checks[1..] == [checks[1], checks[2], checks[3]];
    assert checks[1..][1..] == [checks[2], checks[3]];
    assert checks[1..][1..][1..] == [checks[3]];
    assert checks[1..][1..][1..][1..] == [];
    var err := FirstError(checks);
    if err.Some? then Mutation(u, err)
    else Mutation(u.(email := email, timezone := timezone, themeColor := themeColor, language := language), None)
  }

  /** Replaces the password hash, computed under `salt`, after checking the
      new password; on failure the user is returned unchanged. */
  function SetPassword(u: User, password: string, salt: string, hasher: Hasher): (m: Mutation<User, Error>)
    ensures m.Succeeded() <==> ValidPassword(password)
    ensures !m.Succeeded() ==> m.error == ValidatePassword(password) && m.after == u
    ensures m.Succeeded() ==>
      m.after.encryptedPassword == hasher.encrypt(password, salt)
      && m.after.(encryptedPassword := u.encryptedPassword) == u
  {
    var err := ValidatePassword(password);
    if err.Some? then Mutation(u, err)
    else Mutation(u.(encryptedPassword := hasher.encrypt(password, salt)), None)
  }

  /** Setting the same password again stores a fresh hash: with another
      salt the stored hash can differ, as it does under bcrypt. */
  lemma RepeatedPasswordMayStoreNewHash(u: User)
    ensures var h := Hasher((p, salt) => p + salt, (hash, p) => false);
      var first := SetPassword(u, "secret1", "a", h).after;
      SetPassword(first, "secret1", "b", h).after.encryptedPassword != first.encryptedPassword
  {
    assert ("secret1" + "a")[7] != ("secret1" + "b")[7];
  }

  /** Checks a login password against the stored hash. A mismatch is an
      authentication error, never a validation error. */
  function IsValidPassword(u: User, password: string, hasher: Hasher): (r: Option<Error>)
    ensures r.None? <==> hasher.matches(u.encryptedPassword, password)
    ensures r.Some? ==> r.value == AuthenticationError(PasswordMismatch)
  {
    if hasher.matches(u.encryptedPassword, password) then None
    else Some(AuthenticationError(PasswordMismatch))
  }

  /** Whether the user's e-mail address has been verified. */
  function IsVerified(u: User): (r: bool)
    ensures r <==> u.verifiedAt != None
  {
    u.verifiedAt.Some?
  }

  /** Only `SetVerified` changes whether a user is verified: a new user is
      not, and the settings and password setters keep the flag, accepted or
      not. */
  lemma OnlySetVerifiedVerifies(
    u: User, email: string, password: string, timezone: string, themeColor: string,
    language: string, salt: string, hasher: Hasher, emailFormat: string -> bool)
    ensures NewUser(u.id, email, password, timezone, themeColor, language, salt, hasher, emailFormat).Success? ==>
      !IsVerified(NewUser(u.id, email, password, timezone, themeColor, language, salt, hasher, emailFormat).value)
    ensures IsVerified(Set(u, email, timezone, themeColor, language, emailFormat).after) == IsVerified(u)
    ensures IsVerified(SetPassword(u, password, salt, hasher).after) == IsVerified(u)
  {
  }

  /** Marks the user verified at `now` (the current time in user.go). */
  function SetVerified(u: User, now: Time): (r: User)
    ensures IsVerified(r)
    ensures r.verifiedAt == Some(now)
    ensures r.(verifiedAt := u.verifiedAt) == u
  {
    u.(verifiedAt := Some(now))
  }

  /** Verifying twice leaves the user verified; only the timestamp of the
      second call remains. */
  lemma SetVerifiedIdempotent(u: User, first: Time, second: Time)
    ensures IsVerified(SetVerified(SetVerified(u, first), second))
    ensures SetVerified(SetVerified(u, first), second) == SetVerified(u, second)
  {
  }

  /** A stored user rebuilt from the settings of a new, unverified user is
      that user without its password hash. */
  lemma ReconstructDropsHash(
    id: string, email: string, password: string, timezone: string, themeColor: string,
    language: string, salt: string, hasher: Hasher, emailFormat: string -> bool)
    requires NewUser(id, email, password, timezone, themeColor, language, salt, hasher, emailFormat).Success?
    ensures ReconstructUser(id, email, timezone, themeColor, language, None).value
      == NewUser(id, email, password, timezone, themeColor, language, salt, hasher, emailFormat).value.(encryptedPassword := "")
  {
  }

  /** Reconstruction skips validation: it accepts settings `NewUser` rejects. */
  lemma ReconstructSkipsValidation(emailFormat: string -> bool)
    ensures ReconstructUser("u1", "", "", "", "", None).Success?
    ensures !WellFormed(ReconstructUser("u1", "", "", "", "", None).value, emailFormat)
    ensures NewUser("u1", "", "secret", "", "", "", "salt",
      Hasher((p, salt) => p + salt, (h, p) => h == p + "salt"), emailFormat).Failure?
  {
  }

  /** The changes a user goes through after creation: the settings update,
      the password update and e-mail verification. */
  datatype Command =
    | UpdateSettings(email: string, timezone: string, themeColor: string, language: string)
    | UpdatePassword(password: string, salt: string)
    | VerifyEmail(at: Time)

  /** The user after one command, whether or not the command was accepted. */
  function Apply(u: User, c: Command, hasher: Hasher, emailFormat: string -> bool): User {
    match c
    case UpdateSettings(email, timezone, themeColor, language) =>
      Set(u, email, timezone, themeColor, language, emailFormat).after
    case UpdatePassword(password, salt) => SetPassword(u, password, salt, hasher).after
    case VerifyEmail(at) => SetVerified(u, at)
  }

  function ApplyAll(u: User, cs: seq<Command>, hasher: Hasher, emailFormat: string -> bool): User
    decreases |cs|
  {
    if |cs| == 0 then u else ApplyAll(Apply(u, cs[0], hasher, emailFormat), cs[1..], hasher, emailFormat)
  }

  /** Whatever commands a well-formed user goes through, it stays
      well-formed, keeps its ID, and once verified stays verified. */
  lemma {:induction false} ApplyAllKeepsInvariants(
    u: User, cs: seq<Command>, hasher: Hasher, emailFormat: string -> bool)
    requires WellFormed(u, emailFormat)
    ensures WellFormed(ApplyAll(u, cs, hasher, emailFormat), emailFormat)
    ensures ApplyAll(u, cs, hasher, emailFormat).id == u.id
    ensures IsVerified(u) ==> IsVerified(ApplyAll(u, cs, hasher, emailFormat))
    decreases |cs|
  {
    if |cs| > 0 {
      ApplyAllKeepsInvariants(Apply(u, cs[0], hasher, emailFormat), cs[1..], hasher, emailFormat);
    }
  }
}
