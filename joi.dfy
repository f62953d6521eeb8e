/**
 * The slice of joi the validators use: rule violations ("issues"), the messages joi renders for
 * them, and checks for strings and numbers. joi's own grammars (e-mail addresses, URIs, ISO 8601
 * dates) are parameters of the model, gathered in `Syntax`.
 */
module Joi {
  import opened Wrappers
  import opened Text

  /** What the model takes from joi as given: `string().email()`, `string().uri()`, `date().iso()`. */
  datatype Syntax = Syntax(isEmail: string -> bool, isUri: string -> bool, isoDate: string -> Option<int>)

  datatype Rule =
    | Required
    | Empty
    | Hex
    | Length(n: nat)
    | MinLength(n: nat)
    | MaxLength(n: nat)
    | Min(limit: int)
    | Max(limit: int)
    | IsoFormat
    | Greater(reference: string)
    | Email
    | Uri
    | OneOf(valids: seq<string>)
    | Pattern(value: string, regex: string)
    | ItemCount(n: nat)
    | NotAllowed
    | NoMatch

  /** A violated rule together with the path (path) of the value it was checked on. */
  datatype Issue = Issue(path: string, rule: Rule)

  /** The text joi puts in `error.details[i].message`. */
  function Message(i: Issue): string {
    var l := "\"" + i.path + "\"";
    match i.rule
    case Required => l + " is required"
    case Empty => l + " is not allowed to be empty"
    case Hex => l + " must only contain hexadecimal characters"
    case Length(n) => l + " length must be " + NatToString(n) + " characters long"
    case MinLength(n) => l + " length must be at least " + NatToString(n) + " characters long"
    case MaxLength(n) => l + " length must be less than or equal to " + NatToString(n) + " characters long"
    case Min(n) => l + " must be greater than or equal to " + IntToString(n)
    case Max(n) => l + " must be less than or equal to " + IntToString(n)
    case IsoFormat => l + " must be in ISO 8601 date format"
    case Greater(r) => l + " must be greater than \"ref:" + r + "\""
    case Email => l + " must be a valid email"
    case Uri => l + " must be a valid uri"
    case OneOf(vs) => l + (if |vs| == 1 then " must be [" else " must be one of [") + JoinWith(vs, ", ") + "]"
    case Pattern(v, re) => l + " with value \"" + v + "\" fails to match the required pattern: " + re
    case ItemCount(n) => l + " must contain " + NatToString(n) + " items"
    case NotAllowed => l + " is not allowed"
    case NoMatch => l + " does not match any of the allowed types"
  }

  function JoinWith(parts: seq<string>, sep: string): string {
    if parts == [] then ""
    else if |parts| == 1 then parts[0]
    else parts[0] + sep + JoinWith(parts[1..], sep)
  }

  /** `error.details.map(d => d.message).join(", ")`. */
  function Messages(issues: seq<Issue>): string {
    JoinWith(Map(issues), ", ")
  }

  function Map(issues: seq<Issue>): (r: seq<string>)
    ensures |r| == |issues|
  {
    if issues == [] then [] else [Message(issues[0])] + Map(issues[1..])
  }

  /** With `abortEarly` (joi's default) only the first issue is reported. */
  function First(issues: seq<Issue>): (r: Option<Issue>)
    ensures r.None? <==> issues == []
    ensures r.Some? ==> r.value == issues[0]
  {
    if issues == [] then None else Some(issues[0])
  }

  /** The rules a string schema can carry, in the order they were chained. */
  datatype StringRule =
    | HexRule
    | LengthRule(n: nat)
    | MinRule(n: nat)
    | MaxRule(n: nat)
    | EmailRule
    | UriRule
    | ValidRule(valids: seq<string>)
    | SlugRule

  /** `/^[a-z0-9\-]+$/i`. */
  predicate IsSlug(s: string) {
    |s| >= 1 && forall i :: 0 <= i < |s| ==> ('a' <= s[i] <= 'z') || ('A' <= s[i] <= 'Z') || ('0' <= s[i] <= '9') || s[i] == '-'
  }

  const SlugRegex := "/^[a-z0-9\\-]+$/i"

  predicate Holds(r: StringRule, s: string, sx: Syntax) {
    match r
    case HexRule => forall i :: 0 <= i < |s| ==> IsHexDigit(s[i])
    case LengthRule(n) => |s| == n
    case MinRule(n) => |s| >= n
    case MaxRule(n) => |s| <= n
    case EmailRule => sx.isEmail(s)
    case UriRule => sx.isUri(s)
    case ValidRule(vs) => s in vs
    case SlugRule => IsSlug(s)
  }

  function Violation(path: string, r: StringRule, s: string): Issue {
    match r
    case HexRule => Issue(path, Hex)
    case LengthRule(n) => Issue(path, Length(n))
    case MinRule(n) => Issue(path, MinLength(n))
    case MaxRule(n) => Issue(path, MaxLength(n))
    case EmailRule => Issue(path, Email)
    case UriRule => Issue(path, Uri)
    case ValidRule(vs) => Issue(path, OneOf(vs))
    case SlugRule => Issue(path, Pattern(s, SlugRegex))
  }

  /** The issues every failing rule raises, in chain order. */
  function RuleIssues(path: string, rules: seq<StringRule>, s: string, sx: Syntax): (r: seq<Issue>)
    ensures r == [] <==> forall k :: 0 <= k < |rules| ==> Holds(rules[k], s, sx)
  {
    if rules == [] then []
    else
      var rest := RuleIssues(path, rules[1..], s, sx);
      assert forall k :: 1 <= k < |rules| ==> rules[k] == rules[1..][k - 1];
      if Holds(rules[0], s, sx) then rest else [Violation(path, rules[0], s)] + rest
  }

  /**
   * A `joi.string()` key: absent is an issue only when required; "" is refused unless
   * `.allow("")` (a `.valid(...)` list refuses it first); otherwise every chained rule is checked.
   */
  function StringIssues(path: string, v: Option<string>, required: bool, allowEmpty: bool, rules: seq<StringRule>, sx: Syntax): (r: seq<Issue>)
    ensures r == [] <==> StringOk(v, required, allowEmpty, rules, sx)
  {
    match v
    case None => if required then [Issue(path, Required)] else []
    case Some(s) =>
      if s == "" then (if allowEmpty then [] else OnlyIssues(path, rules) + [Issue(path, Empty)])
      else RuleIssues(path, rules, s, sx)
  }

  /** The `.valid(...)` lists among `rules`: joi checks them before the type's own checks. */
  function OnlyIssues(path: string, rules: seq<StringRule>): seq<Issue> {
    if rules == [] then []
    else (if rules[0].ValidRule? then [Issue(path, OneOf(rules[0].valids))] else []) + OnlyIssues(path, rules[1..])
  }

  /** The same condition stated directly: what a string key must satisfy to pass. */
  predicate StringOk(v: Option<string>, required: bool, allowEmpty: bool, rules: seq<StringRule>, sx: Syntax) {
    match v
    case None => !required
    case Some(s) => (s == "" && allowEmpty) || (s != "" && forall k :: 0 <= k < |rules| ==> Holds(rules[k], s, sx))
  }

  /** A `joi.number()` key with optional `.min()` and `.max()`. */
  function NumberIssues(path: string, v: Option<real>, required: bool, min: Option<int>, max: Option<int>): (r: seq<Issue>)
    ensures r == [] <==> match v
                         case None => !required
                         case Some(x) => (min.None? || x >= min.value as real) && (max.None? || x <= max.value as real)
  {
    match v
    case None => if required then [Issue(path, Required)] else []
    case Some(x) =>
      (if min.Some? && x < min.value as real then [Issue(path, Min(min.value))] else [])
      + (if max.Some? && x > max.value as real then [Issue(path, Max(max.value))] else [])
  }

  /** Keys the object schema does not declare: joi refuses each of them. */
  function UnknownIssues(prefix: string, keys: seq<string>): (r: seq<Issue>)
    ensures |r| == |keys|
  {
    if keys == [] then [] else [Issue(prefix + keys[0], NotAllowed)] + UnknownIssues(prefix, keys[1..])
  }
}
