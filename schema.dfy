/**
 * The subset of the validation library's behaviour that the programs' input schemas
 * rely on, stated as explicit functions. A missing required value, a value of the wrong
 * type and a string outside an enumeration ABORT an object (its refinements are not
 * run); a string that is too short or too long only marks it invalid, and refinements
 * still run on the parsed value. Issues are reported in the order of the schema's keys.
 */
module Schema {
  import opened Wrappers
  import opened Json
  import Text

  datatype IssueCode = InvalidType | InvalidEnumValue | TooSmall(minimum: nat) | TooBig(maximum: nat) | Custom

  /** One validation issue: its code, the path of the offending field and its message. */
  datatype Issue = Issue(code: IssueCode, path: seq<string>, message: string)

  /**
   * The library's default message for an issue code. The library's own English text is not
   * part of this model; the issue code's wire name stands in for it.
   */
  function DefaultMessage(code: IssueCode): string {
    match code
    case InvalidType => "invalid_type"
    case InvalidEnumValue => "invalid_enum_value"
    case TooSmall(_) => "too_small"
    case TooBig(_) => "too_big"
    case Custom => "custom"
  }

  /** A refinement issue with the given message, as `ctx.addIssue({code: custom, ...})` makes it. */
  function CustomIssue(path: seq<string>, message: string): Issue {
    Issue(Custom, path, message)
  }

  /** `z.string().min(min).max(max)`, with the messages of the two bounds. */
  datatype StringRule = StringRule(min: nat, max: Option<nat>, tooSmallMessage: string, tooBigMessage: string)

  /** A string rule whose bounds use the library's default messages. */
  function Bounded(min: nat, max: Option<nat>): StringRule {
    StringRule(min, max, DefaultMessage(TooSmall(min)), DefaultMessage(TooBig(max.GetOr(0))))
  }

  predicate WithinBounds(s: string, rule: StringRule) {
    rule.min <= |s| && (rule.max.Some? ==> |s| <= rule.max.value)
  }

  /** The bound issues a present string raises: too short first, then too long. */
  function BoundIssues(s: string, path: seq<string>, rule: StringRule): (r: seq<Issue>)
    ensures r == [] <==> WithinBounds(s, rule)
  {
    (if |s| < rule.min then [Issue(TooSmall(rule.min), path, rule.tooSmallMessage)] else [])
    + (if rule.max.Some? && |s| > rule.max.value then [Issue(TooBig(rule.max.value), path, rule.tooBigMessage)] else [])
  }

  /** The result of parsing one part of the input: a value with the non-fatal issues met on the way, or an abort. */
  datatype Parsed<+T> = Parsed(value: T, issues: seq<Issue>) | Aborted(issues: seq<Issue>)

  /** The issue a value of the wrong type, or a missing required value, raises. */
  function TypeIssue(path: seq<string>): Issue {
    Issue(InvalidType, path, DefaultMessage(InvalidType))
  }

  /** A required string member `key` of an object. */
  function RequiredString(v: Option<Json>, path: seq<string>, rule: StringRule): (r: Parsed<string>)
    ensures r.Parsed? <==> v.Some? && v.value.JStr?
    ensures r.Parsed? ==> r.value == v.value.s && (r.issues == [] <==> WithinBounds(r.value, rule))
    ensures r.Aborted? ==> r.issues == [TypeIssue(path)]
  {
    match v
    case Some(JStr(s)) => Parsed(s, BoundIssues(s, path, rule))
    case _ => Aborted([TypeIssue(path)])
  }

  /** An optional string member: absence is accepted, any present value must be a string within bounds. */
  function OptionalString(v: Option<Json>, path: seq<string>, rule: StringRule): (r: Parsed<Option<string>>)
    ensures r.Parsed? <==> v.None? || v.value.JStr?
    ensures r.Parsed? && v.None? ==> r.value == None && r.issues == []
    ensures r.Parsed? && v.Some? ==> r.value == Some(v.value.s) && (r.issues == [] <==> WithinBounds(v.value.s, rule))
    ensures r.Aborted? ==> r.issues == [TypeIssue(path)]
  {
    match v
    case None => Parsed(None, [])
    case Some(JStr(s)) => Parsed(Some(s), BoundIssues(s, path, rule))
    case _ => Aborted([TypeIssue(path)])
  }

  /** `.optional().default(d)`: absence becomes `d`, which is then checked like a given value. */
  function DefaultedString(v: Option<Json>, default: string, path: seq<string>, rule: StringRule): (r: Parsed<string>)
    ensures v.None? ==> r == Parsed(default, BoundIssues(default, path, rule))
    ensures v.Some? ==> r == RequiredString(v, path, rule)
  {
    if v.None? then Parsed(default, BoundIssues(default, path, rule)) else RequiredString(v, path, rule)
  }

  /** The path of the `i`-th element of the array at `path`. */
  function ElementPath(path: seq<string>, i: nat): seq<string> {
    path + [Text.NatToString(i)]
  }

  /** The wire name of an issue code. */
  function CodeName(code: IssueCode): string {
    DefaultMessage(code)
  }

  /**
   * An issue reduced to its code, its path and its message; the library's own serialisation
   * also carries fields particular to the code (`minimum`, `inclusive`, `expected`, ...).
   */
  function IssueToJson(i: Issue): Json {
    JObj([("code", JStr(CodeName(i.code))),
          ("path", StrArr(i.path)),
          ("message", JStr(i.message))])
  }

  /** The message of the library's error: the reduced issue list, serialised with an indent of 2. */
  function IssuesMessage(issues: seq<Issue>): string {
    Stringify(JArr(seq(|issues|, k requires 0 <= k < |issues| => IssueToJson(issues[k]))), 2)
  }
}
