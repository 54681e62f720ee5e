/** The values the MCP server's services exchange with the tools, and their JSON forms. */
module ServiceTypes {
  import opened Wrappers
  import opened Json

  /** A feature request's priority, one constructor per token. */
  datatype Priority = Urgent | High | Medium | Low | NoPriority

  function PriorityToken(p: Priority): string {
    match p
    case Urgent => "urgent"
    case High => "high"
    case Medium => "medium"
    case Low => "low"
    case NoPriority => "none"
  }

  /** The enumeration test of the priority field: the priority whose token is `s`, if any. */
  function ParsePriority(s: string): (r: Option<Priority>)
    ensures r.Some? ==> PriorityToken(r.value) == s
    ensures forall p :: s == PriorityToken(p) ==> r == Some(p)
  {
    if s == "urgent" then Some(Urgent)
    else if s == "high" then Some(High)
    else if s == "medium" then Some(Medium)
    else if s == "low" then Some(Low)
    else if s == "none" then Some(NoPriority)
    else None
  }

  /** `CreateIssueInput`. */
  datatype FeatureRequest = FeatureRequest(title: string, reason: string, priority: Option<Priority>)

  /** `CreateIssueResult`. */
  datatype CreatedIssue = CreatedIssue(issueId: string, issueUrl: string, issueIdentifier: string)

  datatype User = User(id: string, name: string, email: string)
  datatype Label = Label(id: string, name: string, color: string)
  datatype IssueState = IssueState(name: string, stateType: string)

  /** `IssueResult`; absent optional members are left out of its JSON form. */
  datatype IssueResult = IssueResult(
    id: string, identifier: string, title: string, description: Option<string>,
    state: IssueState, priority: int, priorityLabel: string, labels: seq<Label>,
    assignee: Option<User>, url: string, createdAt: string, updatedAt: string,
    dueDate: Option<string>, estimate: Option<int>)

  /** `CommentResult`. */
  datatype CommentResult = CommentResult(id: string, body: string, user: Option<User>, createdAt: string, updatedAt: string, url: string)

  /** An optional member: present with its value, or left out as `JSON.stringify` leaves out `undefined`. */
  function Opt(key: string, v: Option<Json>): seq<(string, Json)> {
    if v.Some? then [(key, v.value)] else []
  }

  function UserToJson(u: User): Json {
    JObj([("id", JStr(u.id)), ("name", JStr(u.name)), ("email", JStr(u.email))])
  }

  function LabelToJson(l: Label): Json {
    JObj([("id", JStr(l.id)), ("name", JStr(l.name)), ("color", JStr(l.color))])
  }

  function OptUser(u: Option<User>): Option<Json> {
    if u.Some? then Some(UserToJson(u.value)) else None
  }

  function OptStr(s: Option<string>): Option<Json> {
    if s.Some? then Some(JStr(s.value)) else None
  }

  function IssueToJson(i: IssueResult): Json {
    JObj([("id", JStr(i.id)), ("identifier", JStr(i.identifier)), ("title", JStr(i.title))]
         + Opt("description", OptStr(i.description))
         + [("state", JObj([("name", JStr(i.state.name)), ("type", JStr(i.state.stateType))])),
            ("priority", JNum(i.priority)), ("priorityLabel", JStr(i.priorityLabel)),
            ("labels", JArr(seq(|i.labels|, k requires 0 <= k < |i.labels| => LabelToJson(i.labels[k]))))]
         + Opt("assignee", OptUser(i.assignee))
         + [("url", JStr(i.url)), ("createdAt", JStr(i.createdAt)), ("updatedAt", JStr(i.updatedAt))]
         + Opt("dueDate", OptStr(i.dueDate))
         + Opt("estimate", if i.estimate.Some? then Some(JNum(i.estimate.value)) else None))
  }

  function CommentToJson(c: CommentResult): Json {
    JObj([("id", JStr(c.id)), ("body", JStr(c.body))]
         + Opt("user", OptUser(c.user))
         + [("createdAt", JStr(c.createdAt)), ("updatedAt", JStr(c.updatedAt)), ("url", JStr(c.url))])
  }

  function CommentsToJson(cs: seq<CommentResult>): (r: Json)
    ensures r.JArr? && |r.items| == |cs|
  {
    JArr(seq(|cs|, k requires 0 <= k < |cs| => CommentToJson(cs[k])))
  }

  /** The issue's JSON form carries its id as the `id` member. */
  lemma {:induction false} IssueJsonId(i: IssueResult)
    ensures Get(IssueToJson(i), "id") == Some(JStr(i.id))
  {
    var ms := IssueToJson(i).members;
    assert ms[0] == ("id", JStr(i.id));
    forall j | 0 < j < |ms| ensures ms[j].0 != "id" {
      assert ms[j].0 in {"identifier", "title", "description", "state", "priority", "priorityLabel", "labels",
                         "assignee", "url", "createdAt", "updatedAt", "dueDate", "estimate"};
    }
    LookupFindsLast(ms, 0);
  }
}
