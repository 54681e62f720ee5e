/**
 * What the export configuration validator accepts, stated declaratively over the JSON
 * document, and what the accepted configuration then holds.
 */
module ExportSchemaProperties {
  import opened Wrappers
  import opened Json
  import opened Schema
  import opened ExportConstants
  import opened ExportSchema
  import Text

  // ---- A reference definition of an acceptable document --------------------------------

  /** A present string value whose length lies in `lo..hi`. */
  predicate StrIn(v: Option<Json>, lo: nat, hi: nat) {
    v.Some? && v.value.JStr? && lo <= |v.value.s| <= hi
  }

  /** An absent value, or a present string whose length lies in `lo..hi`. */
  predicate OptStrIn(v: Option<Json>, lo: nat, hi: nat) {
    v.None? || StrIn(v, lo, hi)
  }

  /** An absent value, or a present non-empty string. */
  predicate OptNonEmpty(v: Option<Json>) {
    v.None? || (v.value.JStr? && v.value.s != "")
  }

  predicate PrConforms(p: Json) {
    && p.JObj?
    && StrIn(Get(p, "title"), 1, 200)
    && StrIn(Get(p, "body"), 0, 10000)
    && StrIn(Get(p, "branch"), 1, 100)
    && OptStrIn(Get(p, "base"), 0, 100)
    && StrIn(Get(p, "repo"), 1, 200)
    && StrIn(Get(p, "repo_path"), 1, 200)
  }

  /** A non-empty array of action tokens. */
  predicate ActionsConform(v: Option<Json>) {
    && v.Some? && v.value.JArr? && |v.value.items| >= 1
    && forall k :: 0 <= k < |v.value.items| ==> IsActionToken(v.value.items[k])
  }

  /** Every field has the right type and lies within its bounds. */
  predicate FieldsConform(j: Json) {
    && j.JObj?
    && OptNonEmpty(Get(j, "linear_issue_id"))
    && StrIn(Get(j, "summary"), 1, 10000)
    && ActionsConform(Get(j, "actions"))
    && OptStrIn(Get(j, "report_content"), 0, 50000)
    && (Get(j, "pr").Some? ==> PrConforms(Get(j, "pr").value))
  }

  /** The actions a conforming array of tokens denotes. */
  function ActionsOf(items: seq<Json>): (r: seq<Action>)
    requires forall k :: 0 <= k < |items| ==> IsActionToken(items[k])
    ensures |r| == |items| && forall k :: 0 <= k < |r| ==> items[k] == JStr(Token(r[k]))
  {
    if items == [] then []
    else
      assert IsActionToken(items[0]);
      [ParseAction(items[0].s).value] + ActionsOf(items[1..])
  }

  function OptString(v: Option<Json>): Option<string>
    requires v.None? || v.value.JStr?
  {
    if v.None? then None else Some(v.value.s)
  }

  /** The cross-field rules, each stated on its own. */
  predicate CrossRulesHold(actions: seq<Action>, issueId: Option<string>, report: Option<string>, hasPr: bool) {
    && (|actions| > 1 ==> forall i :: 0 <= i < |actions| ==> !IsExclusive(actions[i]))
    && (forall i, j :: 0 <= i < j < |actions| ==> actions[i] != actions[j])
    && ((exists i :: 0 <= i < |actions| && RequiresIssue(actions[i])) ==> Truthy(issueId))
    && (Report in actions ==> Truthy(report))
    && (CreatePr in actions ==> hasPr)
  }

  /** A document the export configuration schema accepts. */
  predicate Conforms(j: Json) {
    && FieldsConform(j)
    && CrossRulesHold(ActionsOf(Get(j, "actions").value.items),
                      OptString(Get(j, "linear_issue_id")),
                      OptString(Get(j, "report_content")),
                      Get(j, "pr").Some?)
  }

  /** A configuration every field and cross-field rule of the schema admits. */
  predicate WellFormed(c: ExportConfig) {
    && (c.linearIssueId.Some? ==> c.linearIssueId.value != "")
    && 1 <= |c.summary| <= 10000
    && |c.actions| >= 1
    && (c.reportContent.Some? ==> |c.reportContent.value| <= 50000)
    && (c.pr.Some? ==> PrWellFormed(c.pr.value))
    && CrossRulesHold(c.actions, c.linearIssueId, c.reportContent, c.pr.Some?)
  }

  predicate PrWellFormed(p: PrConfig) {
    && 1 <= |p.title| <= 200
    && |p.body| <= 10000
    && 1 <= |p.branch| <= 100
    && |p.base| <= 100
    && 1 <= |p.repo| <= 200
    && 1 <= |p.repoPath| <= 200
  }

  // ---- Duplicates ---------------------------------------------------------------------

  lemma {:induction false} SetOfSeqSize(s: seq<Action>)
    ensures |set a | a in s| <= |s|
  {
    if s != [] {
      SetOfSeqSize(s[1..]);
      assert (set a | a in s) == {s[0]} + (set a | a in s[1..]);
    }
  }

  /** `new Set(actions).size !== actions.length` holds exactly when two positions hold the same action. */
  lemma {:induction false} SetSizeDiffersIff(s: seq<Action>)
    ensures SetSizeDiffers(s) <==> exists i, j :: 0 <= i < j < |s| && s[i] == s[j]
  {
    if s != [] {
      var t := s[1..];
      SetSizeDiffersIff(t);
      SetOfSeqSize(t);
      SetOfCons(s);
      if s[0] in t {
        var k :| 0 <= k < |t| && t[k] == s[0];
        assert s[0] == s[k + 1];
      } else {
        RepeatInTailIff(s);
      }
    }
  }

  /** The set of a non-empty list is its head added to the set of its tail. */
  lemma SetOfCons(s: seq<Action>)
    requires s != []
    ensures (set a | a in s) == {s[0]} + (set a | a in s[1..])
    ensures s[0] !in s[1..] ==> |set a | a in s| == 1 + |set a | a in s[1..]|
  {
    assert (set a | a in s) == {s[0]} + (set a | a in s[1..]);
  }

  /** When the head does not recur, a list repeats an action exactly when its tail does. */
  lemma RepeatInTailIff(s: seq<Action>)
    requires s != [] && s[0] !in s[1..]
    ensures (exists i, j :: 0 <= i < j < |s| && s[i] == s[j])
        <==> (exists i, j :: 0 <= i < j < |s[1..]| && s[1..][i] == s[1..][j])
  {
    var t := s[1..];
    if exists i, j :: 0 <= i < j < |s| && s[i] == s[j] {
      var i, j :| 0 <= i < j < |s| && s[i] == s[j];
      assert t[j - 1] == s[j];
      assert i > 0;
      assert t[i - 1] == s[i];
    }
    if exists i, j :: 0 <= i < j < |t| && t[i] == t[j] {
      var i, j :| 0 <= i < j < |t| && t[i] == t[j];
      assert s[i + 1] == s[j + 1];
    }
  }

  // ---- The refinement ----------------------------------------------------------------

  /**
   * When an exclusive action is not alone, the refinement reports that one issue, naming the
   * first exclusive action of the list, and no other rule is consulted.
   */
  lemma ExclusiveShortCircuits(c: ExportConfig, k: nat)
    requires |c.actions| > 1 && k < |c.actions| && IsExclusive(c.actions[k])
    requires forall i :: 0 <= i < k ==> !IsExclusive(c.actions[i])
    ensures RefineIssues(c) == [ExclusiveIssue(c.actions[k])]
  {
    var f := FirstExclusive(c.actions);
    assert !(f < k) && !(k < f);
  }

  /** `["none", "none"]` holds a duplicate, yet only the exclusivity issue is reported. */
  lemma RepeatedNoOpReportsOnlyExclusivity(summary: string)
    ensures var c := ExportConfig(None, summary, [NoOp, NoOp], None, None);
            SetSizeDiffers(c.actions) && RefineIssues(c) == [ExclusiveIssue(NoOp)]
  {
    var c := ExportConfig(None, summary, [NoOp, NoOp], None, None);
    SetSizeDiffersIff(c.actions);
    assert c.actions[0] == c.actions[1];
    ExclusiveShortCircuits(c, 0);
  }

  /** The duplicate rule reports nothing exactly when no action occurs twice. */
  lemma DuplicateIssuesEmptyIff(actions: seq<Action>)
    ensures DuplicateIssues(actions) == [] <==> forall i, j :: 0 <= i < j < |actions| ==> actions[i] != actions[j]
  {
    SetSizeDiffersIff(actions);
  }

  /** The issue-id rule reports nothing exactly when no issue-requiring action lacks an issue id. */
  lemma IssueIdIssuesEmptyIff(c: ExportConfig)
    ensures IssueIdIssues(c) == [] <==>
            ((exists i :: 0 <= i < |c.actions| && RequiresIssue(c.actions[i])) ==> Truthy(c.linearIssueId))
  {
    if exists i :: 0 <= i < |c.actions| && RequiresIssue(c.actions[i]) {
      var i :| 0 <= i < |c.actions| && RequiresIssue(c.actions[i]);
      assert c.actions[i] in IssueRequiring(c.actions);
    }
    if IssueRequiring(c.actions) != [] {
      var a := IssueRequiring(c.actions)[0];
      assert a in c.actions && RequiresIssue(a);
    }
  }

  /** The refinement reports nothing exactly when every cross-field rule holds. */
  lemma RefineIssuesEmptyIff(c: ExportConfig)
    ensures RefineIssues(c) == [] <==> CrossRulesHold(c.actions, c.linearIssueId, c.reportContent, c.pr.Some?)
  {
    if ExclusiveConflict(c.actions) {
      var k := FirstExclusive(c.actions);
      assert !CrossRulesHold(c.actions, c.linearIssueId, c.reportContent, c.pr.Some?);
    } else {
      DuplicateIssuesEmptyIff(c.actions);
      IssueIdIssuesEmptyIff(c);
      var d, n, r, p := DuplicateIssues(c.actions), IssueIdIssues(c), ReportContentIssues(c), PrIssues(c);
      assert RefineIssues(c) == d + n + r + p;
      assert |d + n + r + p| == |d| + |n| + |r| + |p|;
    }
  }

  /**
   * When no exclusive action conflicts and an issue-requiring action is present without an
   * issue id, one issue on `linear_issue_id` quotes every such action, in list order.
   */
  lemma IssueIdRuleListsOffenders(c: ExportConfig, i: nat)
    requires !ExclusiveConflict(c.actions)
    requires i < |c.actions| && RequiresIssue(c.actions[i]) && !Truthy(c.linearIssueId)
    ensures CustomIssue(["linear_issue_id"],
              "linear_issue_id is required when actions include "
              + Text.Join(QuotedTokens(IssueRequiring(c.actions)), ", ")) in RefineIssues(c)
    ensures forall a :: a in IssueRequiring(c.actions) <==> a in c.actions && RequiresIssue(a)
  {
    assert c.actions[i] in IssueRequiring(c.actions);
  }

  /** With `report` and no non-empty content, one issue on `report_content` is reported. */
  lemma ReportNeedsContent(c: ExportConfig)
    requires !ExclusiveConflict(c.actions) && Report in c.actions && !Truthy(c.reportContent)
    ensures CustomIssue(["report_content"], "report_content is required when actions include 'report'") in RefineIssues(c)
  {
  }

  /** With `create_pr` and no `pr`, one issue on `pr` is reported. */
  lemma CreatePrNeedsPr(c: ExportConfig)
    requires !ExclusiveConflict(c.actions) && CreatePr in c.actions && c.pr.None?
    ensures CustomIssue(["pr"], "pr config is required when actions include 'create_pr'") in RefineIssues(c)
  {
  }

  // ---- The field schema --------------------------------------------------------------

  lemma ParsePrIff(p: Json)
    ensures (ParsePr(p).Parsed? && ParsePr(p).issues == []) <==> PrConforms(p)
    ensures ParsePr(p).Parsed? && ParsePr(p).issues == [] ==>
              var c := ParsePr(p).value;
              && PrWellFormed(c)
              && c.title == Get(p, "title").value.s && c.body == Get(p, "body").value.s
              && c.branch == Get(p, "branch").value.s
              && c.base == (if Get(p, "base").None? then DefaultBase else Get(p, "base").value.s)
              && c.repo == Get(p, "repo").value.s && c.repoPath == Get(p, "repo_path").value.s
    ensures ParsePr(p).Aborted? ==> ParsePr(p).issues != []
  {
  }

  /** A parsed action list is the list of actions its tokens denote. */
  lemma ParseActionListValue(v: Option<Json>)
    ensures ParseActionList(v).Parsed? ==> ParseActionList(v).value == ActionsOf(v.value.items)
    ensures ParseActionList(v).Aborted? ==> ParseActionList(v).issues != []
  {
    var r := ParseActionList(v);
    if r.Parsed? {
      var items := v.value.items;
      forall k | 0 <= k < |items| ensures r.value[k] == ActionsOf(items)[k] {
        TokenInjective(r.value[k], ActionsOf(items)[k]);
      }
    } else if v.Some? && v.value.JArr? {
      assert ElementIssues(v.value.items, 0) != [];
    }
  }

  lemma ParseOptionalPrIff(v: Option<Json>)
    ensures (ParseOptionalPr(v).Parsed? && ParseOptionalPr(v).issues == []) <==> (v.Some? ==> PrConforms(v.value))
    ensures ParseOptionalPr(v).Parsed? ==> (ParseOptionalPr(v).value.Some? <==> v.Some?)
    ensures ParseOptionalPr(v).Parsed? && ParseOptionalPr(v).issues == [] && v.Some? ==> PrWellFormed(ParseOptionalPr(v).value.value)
    ensures ParseOptionalPr(v).Aborted? ==> ParseOptionalPr(v).issues != []
  {
    if v.Some? {
      ParsePrIff(v.value);
    }
  }

  /** The field schema reports nothing exactly when every field conforms. */
  lemma ParseFieldsIff(j: Json)
    ensures (ParseFields(j).Parsed? && ParseFields(j).issues == []) <==> FieldsConform(j)
    ensures ParseFields(j).Aborted? ==> ParseFields(j).issues != []
  {
    if j.JObj? {
      ParseOptionalPrIff(Get(j, "pr"));
      ParseActionListValue(Get(j, "actions"));
    }
  }

  /** A cleanly parsed configuration carries the document's values, within their bounds. */
  lemma ParseFieldsValue(j: Json)
    requires ParseFields(j).Parsed? && ParseFields(j).issues == []
    ensures FieldsConform(j)
    ensures var c := ParseFields(j).value;
            && c.linearIssueId == OptString(Get(j, "linear_issue_id"))
            && c.summary == Get(j, "summary").value.s
            && c.actions == ActionsOf(Get(j, "actions").value.items)
            && c.reportContent == OptString(Get(j, "report_content"))
            && (c.pr.Some? <==> Get(j, "pr").Some?)
            && (c.pr.Some? ==> c.pr.value == ParsePr(Get(j, "pr").value).value && PrWellFormed(c.pr.value))
            && (c.linearIssueId.Some? ==> c.linearIssueId.value != "")
            && 1 <= |c.summary| <= 10000 && |c.actions| >= 1
            && (c.reportContent.Some? ==> |c.reportContent.value| <= 50000)
  {
    ParseFieldsIff(j);
    ParseOptionalPrIff(Get(j, "pr"));
    ParseActionListValue(Get(j, "actions"));
  }

  lemma TokenInjective(a: Action, b: Action)
    requires Token(a) == Token(b)
    ensures a == b
  {
  }

  // ---- The whole validator -----------------------------------------------------------

  /** The validator accepts a document exactly when it conforms to the reference definition. */
  lemma ValidateOkIff(j: Json)
    ensures Validate(j).Ok? <==> Conforms(j)
  {
    ParseFieldsIff(j);
    if ParseFields(j).Parsed? && ParseFields(j).issues == [] {
      ParseFieldsValue(j);
      RefineIssuesEmptyIff(ParseFields(j).value);
    }
  }

  /** A rejected document always comes with at least one issue. */
  lemma RejectionHasIssues(j: Json)
    ensures Validate(j).Err? ==> Validate(j).error != []
  {
    ParseFieldsIff(j);
  }

  /**
   * An accepted configuration is well formed and carries the document's values; `pr.base`
   * is "main" exactly when the document leaves it out.
   */
  lemma AcceptedConfig(j: Json, c: ExportConfig)
    requires Validate(j) == Ok(c)
    ensures WellFormed(c)
    ensures c.summary == Get(j, "summary").value.s
    ensures c.actions == ActionsOf(Get(j, "actions").value.items)
    ensures c.pr.Some? <==> Get(j, "pr").Some?
    ensures c.pr.Some? ==> c.pr.value.base == (if Get(Get(j, "pr").value, "base").None? then DefaultBase else Get(Get(j, "pr").value, "base").value.s)
  {
    ParseFieldsValue(j);
    RefineIssuesEmptyIff(c);
    if c.pr.Some? {
      ParsePrIff(Get(j, "pr").value);
    }
  }

  // ---- Re-validation -----------------------------------------------------------------

  function PrToJson(p: PrConfig): Json {
    JObj([("title", JStr(p.title)), ("body", JStr(p.body)), ("branch", JStr(p.branch)),
          ("base", JStr(p.base)), ("repo", JStr(p.repo)), ("repo_path", JStr(p.repoPath))])
  }

  function OptionalMember(key: string, v: Option<string>): seq<(string, Json)> {
    if v.None? then [] else [(key, JStr(v.value))]
  }

  function Tokens(actions: seq<Action>): seq<string> {
    seq(|actions|, i requires 0 <= i < |actions| => Token(actions[i]))
  }

  /** The document a parsed configuration serialises to, with `base` written out. */
  function ToJson(c: ExportConfig): Json {
    JObj(TopMembers(c))
  }

  lemma PrToJsonMembers(p: PrConfig)
    ensures Get(PrToJson(p), "title") == Some(JStr(p.title))
    ensures Get(PrToJson(p), "body") == Some(JStr(p.body))
    ensures Get(PrToJson(p), "branch") == Some(JStr(p.branch))
    ensures Get(PrToJson(p), "base") == Some(JStr(p.base))
    ensures Get(PrToJson(p), "repo") == Some(JStr(p.repo))
    ensures Get(PrToJson(p), "repo_path") == Some(JStr(p.repoPath))
  {
    var m := PrToJson(p).members;
    LookupFindsLast(m, 0);
    LookupFindsLast(m, 1);
    LookupFindsLast(m, 2);
    LookupFindsLast(m, 3);
    LookupFindsLast(m, 4);
    LookupFindsLast(m, 5);
  }

  lemma PrRoundTrip(p: PrConfig)
    requires PrWellFormed(p)
    ensures ParsePr(PrToJson(p)) == Parsed(p, [])
  {
    PrToJsonMembers(p);
    ParsePrIff(PrToJson(p));
  }

  function TopMembers(c: ExportConfig): seq<(string, Json)> {
    OptionalMember("linear_issue_id", c.linearIssueId)
    + [("summary", JStr(c.summary)), ("actions", StrArr(Tokens(c.actions)))]
    + OptionalMember("report_content", c.reportContent)
    + (if c.pr.None? then [] else [("pr", PrToJson(c.pr.value))])
  }

  /** The key of every member of `ToJson(c)` is one of the five field names, each at most once. */
  lemma TopMembersKeys(c: ExportConfig)
    ensures var m := TopMembers(c);
            var n := |OptionalMember("linear_issue_id", c.linearIssueId)|;
            var r := |OptionalMember("report_content", c.reportContent)|;
            && |m| == n + 2 + r + (if c.pr.None? then 0 else 1)
            && (n == 1 ==> m[0] == ("linear_issue_id", JStr(c.linearIssueId.value)))
            && m[n] == ("summary", JStr(c.summary))
            && m[n + 1] == ("actions", StrArr(Tokens(c.actions)))
            && (r == 1 ==> m[n + 2] == ("report_content", JStr(c.reportContent.value)))
            && (c.pr.Some? ==> m[n + 2 + r] == ("pr", PrToJson(c.pr.value)))
  {
  }

  lemma ToJsonIssueId(c: ExportConfig)
    ensures Get(ToJson(c), "linear_issue_id") == (if c.linearIssueId.None? then None else Some(JStr(c.linearIssueId.value)))
  {
    TopMembersKeys(c);
    if c.linearIssueId.Some? {
      LookupFindsLast(TopMembers(c), 0);
    }
  }

  lemma ToJsonSummary(c: ExportConfig)
    ensures Get(ToJson(c), "summary") == Some(JStr(c.summary))
  {
    TopMembersKeys(c);
    LookupFindsLast(TopMembers(c), |OptionalMember("linear_issue_id", c.linearIssueId)|);
  }

  lemma ToJsonActions(c: ExportConfig)
    ensures Get(ToJson(c), "actions") == Some(StrArr(Tokens(c.actions)))
  {
    TopMembersKeys(c);
    LookupFindsLast(TopMembers(c), |OptionalMember("linear_issue_id", c.linearIssueId)| + 1);
  }

  lemma ToJsonReportContent(c: ExportConfig)
    ensures Get(ToJson(c), "report_content") == (if c.reportContent.None? then None else Some(JStr(c.reportContent.value)))
  {
    TopMembersKeys(c);
    if c.reportContent.Some? {
      LookupFindsLast(TopMembers(c), |OptionalMember("linear_issue_id", c.linearIssueId)| + 2);
    }
  }

  lemma ToJsonPr(c: ExportConfig)
    ensures Get(ToJson(c), "pr") == (if c.pr.None? then None else Some(PrToJson(c.pr.value)))
  {
    TopMembersKeys(c);
    if c.pr.Some? {
      LookupFindsLast(TopMembers(c), |TopMembers(c)| - 1);
    }
  }

  lemma ActionsRoundTrip(actions: seq<Action>)
    requires |actions| >= 1
    ensures ParseActionList(Some(StrArr(Tokens(actions)))) == Parsed(actions, [])
  {
    var items := StrArr(Tokens(actions)).items;
    forall k | 0 <= k < |items| ensures items[k] == JStr(Token(actions[k])) && IsActionToken(items[k]) {
      ParseActionRoundTrip(actions[k], "");
    }
    var r := ParseActionList(Some(StrArr(Tokens(actions))));
    assert r.Parsed? && |r.value| == |actions|;
    forall k | 0 <= k < |actions| ensures r.value[k] == actions[k] {
      TokenInjective(r.value[k], actions[k]);
    }
    assert r.value == actions;
  }

  lemma IssueIdRoundTrip(c: ExportConfig)
    requires WellFormed(c)
    ensures OptionalString(Get(ToJson(c), "linear_issue_id"), ["linear_issue_id"], Bounded(1, None)) == Parsed(c.linearIssueId, [])
  {
    ToJsonIssueId(c);
  }

  lemma SummaryRoundTrip(c: ExportConfig)
    requires WellFormed(c)
    ensures RequiredString(Get(ToJson(c), "summary"), ["summary"], Bounded(1, Some(MaxSummaryLength))) == Parsed(c.summary, [])
  {
    ToJsonSummary(c);
  }

  lemma ActionListRoundTrip(c: ExportConfig)
    requires WellFormed(c)
    ensures ParseActionList(Get(ToJson(c), "actions")) == Parsed(c.actions, [])
  {
    ToJsonActions(c);
    ActionsRoundTrip(c.actions);
  }

  lemma ReportContentRoundTrip(c: ExportConfig)
    requires WellFormed(c)
    ensures OptionalString(Get(ToJson(c), "report_content"), ["report_content"], Bounded(0, Some(MaxReportContentLength))) == Parsed(c.reportContent, [])
  {
    ToJsonReportContent(c);
  }

  lemma OptionalPrRoundTrip(c: ExportConfig)
    requires WellFormed(c)
    ensures ParseOptionalPr(Get(ToJson(c), "pr")) == Parsed(c.pr, [])
  {
    ToJsonPr(c);
    if c.pr.Some? {
      PrRoundTrip(c.pr.value);
    }
  }

  lemma ParseFieldsRoundTrip(c: ExportConfig)
    requires WellFormed(c)
    ensures ParseFields(ToJson(c)) == Parsed(c, [])
  {
    IssueIdRoundTrip(c);
    SummaryRoundTrip(c);
    ActionListRoundTrip(c);
    ReportContentRoundTrip(c);
    OptionalPrRoundTrip(c);
    ParseFieldsOfParts(ToJson(c), c);
  }

  /** The field schema only looks at its five members. */
  lemma ParseFieldsOfParts(j: Json, c: ExportConfig)
    requires j.JObj?
    requires OptionalString(Get(j, "linear_issue_id"), ["linear_issue_id"], Bounded(1, None)) == Parsed(c.linearIssueId, [])
    requires RequiredString(Get(j, "summary"), ["summary"], Bounded(1, Some(MaxSummaryLength))) == Parsed(c.summary, [])
    requires ParseActionList(Get(j, "actions")) == Parsed(c.actions, [])
    requires OptionalString(Get(j, "report_content"), ["report_content"], Bounded(0, Some(MaxReportContentLength))) == Parsed(c.reportContent, [])
    requires ParseOptionalPr(Get(j, "pr")) == Parsed(c.pr, [])
    ensures ParseFields(j) == Parsed(c, [])
  {
  }

  /** A well-formed configuration, written back out as a document, validates to itself. */
  lemma WellFormedRoundTrip(c: ExportConfig)
    requires WellFormed(c)
    ensures Validate(ToJson(c)) == Ok(c)
  {
    ParseFieldsRoundTrip(c);
    RefineIssuesEmptyIff(c);
  }

  /** Re-validating an accepted configuration yields the same configuration, `pr.base` included. */
  lemma RevalidationIsIdentity(j: Json, c: ExportConfig)
    requires Validate(j) == Ok(c)
    ensures Validate(ToJson(c)) == Ok(c)
  {
    AcceptedConfig(j, c);
    WellFormedRoundTrip(c);
  }
}
