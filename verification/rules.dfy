/** The validation vocabulary every entity shares: the two error kinds, the
    single-field rules of the validation library the Go code uses, and their
    first-failure-wins composition. */
module Rules {
  import opened Wrappers

  /** A broken domain rule, or a credential that does not match. */
  datatype Error = ValidationError(message: string) | AuthenticationError(message: string)

  /** One rule on a string field, with the message it reports. */
  datatype Rule =
    | Required(message: string)
      /** Rune count within `min..max`. A zero `min` or `max` leaves that
          side unbounded, except that `RuneLength(0, 0)` admits only the
          empty value. */
    | RuneLength(min: nat, max: nat, message: string)
      /** Membership in an allow-list. */
    | OneOf(allowed: set<string>, message: string)
      /** A format check supplied from outside (such as an e-mail syntax check). */
    | Format(accepts: string -> bool, message: string)

  /** Whether `rule` accepts `value`. As in the validation library, the
      length and format rules let the empty value through (it is the
      business of `Required`), while an allow-list check sees every value. */
  predicate Accepts(rule: Rule, value: string) {
    match rule
    case Required(_) => value != ""
    case RuneLength(min, max, _) =>
      value == ""
      || ((min == 0 || min <= |value|) && (max == 0 || |value| <= max) && !(min == 0 && max == 0))
    case OneOf(allowed, _) => value in allowed
    case Format(accepts, _) => value == "" || accepts(value)
  }

  /** The first error of `checks` in declared order, or `None` when every
      check passed: no errors are aggregated. */
  function FirstError(checks: seq<Option<Error>>): (r: Option<Error>)
    ensures r.None? <==> forall i :: 0 <= i < |checks| ==> checks[i].None?
    ensures r.Some? ==>
      exists i :: 0 <= i < |checks| && checks[i] == r && forall j :: 0 <= j < i ==> checks[j].None?
  {
    if |checks| == 0 then None
    else if checks[0].Some? then checks[0]
    else
      var rest := FirstError(checks[1..]);
      assert forall i :: 1 <= i < |checks| ==> checks[i] == checks[1..][i - 1];
      rest
  }

  /** `rules[i]` is the first rule that rejects `value`. */
  predicate FirstRejecting(rules: seq<Rule>, value: string, i: int) {
    && 0 <= i < |rules|
    && !Accepts(rules[i], value)
    && forall j :: 0 <= j < i ==> Accepts(rules[j], value)
  }

  /** Validates `value` against `rules` in order and reports the message of
      the first rule that rejects it; later rules are not consulted. */
  function Validate(value: string, rules: seq<Rule>): (r: Option<Error>)
    ensures r.None? <==> forall i :: 0 <= i < |rules| ==> Accepts(rules[i], value)
    ensures r.Some? ==>
      exists i :: FirstRejecting(rules, value, i) && r == Some(ValidationError(rules[i].message))
  {
    if |rules| == 0 then None
    else if !Accepts(rules[0], value) then
      assert FirstRejecting(rules, value, 0);
      Some(ValidationError(rules[0].message))
    else
      var r := Validate(value, rules[1..]);
      assert forall i :: 1 <= i < |rules| ==> rules[i] == rules[1..][i - 1];
      assert r.Some? ==>
        exists i :: FirstRejecting(rules, value, i) && r == Some(ValidationError(rules[i].message))
      by {
        if r.Some? {
          var i :| FirstRejecting(rules[1..], value, i) && r == Some(ValidationError(rules[1..][i].message));
          assert FirstRejecting(rules, value, i + 1);
        }
      }
      r
  }

  /** The required rule alone: only the empty value fails, with `message`. */
  function Require(value: string, message: string): (r: Option<Error>)
    ensures r.None? <==> value != ""
    ensures r.Some? ==> r.value == ValidationError(message)
  {
    Validate(value, [Required(message)])
  }
}
