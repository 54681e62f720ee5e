/**
 * The MCP server's Linear service: it turns a feature request into an issue-creation
 * request, reads an issue and its comments back into plain results, and posts comments.
 * The Linear client is a set of oracles; every request the service makes is recorded.
 */
module LinearService {
  import opened Wrappers
  import opened Errors
  import opened ServiceTypes

  /** The input the service hands to the client's `createIssue`. */
  datatype IssueCreateInput = IssueCreateInput(
    teamId: string, title: string, description: string, priority: int,
    projectId: Option<string>, labelIds: Option<seq<string>>)

  /** An issue as the client returns it, its lazy relations already resolved. */
  datatype IssueNode = IssueNode(
    id: string, identifier: string, title: string, description: Option<string>,
    state: Option<IssueState>, priority: int, priorityLabel: string, labels: seq<Label>,
    assignee: Option<User>, url: string, createdAt: string, updatedAt: string,
    dueDate: Option<string>, estimate: Option<int>)

  /** A comment as the client returns it, its author already resolved. */
  datatype CommentNode = CommentNode(id: string, body: string, user: Option<User>, createdAt: string, updatedAt: string, url: string)

  /** The payload of the client's `createComment`. */
  datatype CommentPayload = CommentPayload(success: bool, commentId: Option<string>)

  /** The three client methods the service uses, plus the issue's `comments()` relation. */
  datatype Client = Client(
    createIssue: IssueCreateInput -> Outcome<Option<CreatedIssue>>,
    issue: string -> Outcome<IssueNode>,
    comments: string -> Outcome<seq<CommentNode>>,
    createComment: (string, string) -> Outcome<CommentPayload>)

  /** A request the service made of the client. */
  datatype ClientCall =
    | CreateIssueCall(input: IssueCreateInput)
    | IssueCall(issueId: string)
    | CommentsCall(issueId: string)
    | CreateCommentCall(issueId: string, body: string)

  datatype LinearRun<+T> = LinearRun(outcome: Outcome<T>, calls: seq<ClientCall>)

  /** Linear's numeric priority for each token. */
  function PriorityValue(p: Priority): (r: int)
    ensures 0 <= r <= 4
    ensures r == 0 <==> p == NoPriority
  {
    match p
    case Urgent => 1
    case High => 2
    case Medium => 3
    case Low => 4
    case NoPriority => 0
  }

  /** Distinct priorities map to distinct numbers. */
  lemma PriorityValueInjective(p: Priority, q: Priority)
    ensures PriorityValue(p) == PriorityValue(q) ==> p == q
  {
  }

  function DescriptionOf(reason: string): string {
    "## Reason\n\n" + reason
  }

  /** A JavaScript string is truthy exactly when it is present and not empty. */
  predicate Truthy(v: Option<string>) {
    v.Some? && v.value != ""
  }

  /** A comment request that succeeded and returned its comment. */
  predicate Posted(o: Outcome<CommentPayload>) {
    o.Returned? && o.value.success && o.value.commentId.Some?
  }

  function IssueFailed(): string { "Failed to create Linear issue" }
  function StateMissing(): string { "Failed to fetch issue state" }
  function CommentFailed(): string { "Failed to create comment on Linear issue" }
  function CommentMissing(): string { "Comment was created but could not be retrieved" }

  function ToIssueResult(n: IssueNode): (r: IssueResult)
    requires n.state.Some?
    ensures r.id == n.id && r.identifier == n.identifier && r.title == n.title
    ensures r.state == n.state.value && r.labels == n.labels && r.assignee == n.assignee
    ensures r.dueDate == n.dueDate && r.estimate == n.estimate && r.description == n.description
  {
    IssueResult(n.id, n.identifier, n.title, n.description, n.state.value, n.priority, n.priorityLabel,
                n.labels, n.assignee, n.url, n.createdAt, n.updatedAt, n.dueDate, n.estimate)
  }

  function ToCommentResult(n: CommentNode): (r: CommentResult)
    ensures r.id == n.id && r.body == n.body && r.user == n.user && r.url == n.url
  {
    CommentResult(n.id, n.body, n.user, n.createdAt, n.updatedAt, n.url)
  }

  class LinearService {
    const client: Client
    const teamId: string
    const defaultProjectId: Option<string>
    const defaultLabelId: Option<string>

    constructor(client: Client, teamId: string, defaultProjectId: Option<string>, defaultLabelId: Option<string>)
      ensures this.client == client && this.teamId == teamId
      ensures this.defaultProjectId == defaultProjectId && this.defaultLabelId == defaultLabelId
    {
      this.client := client;
      this.teamId := teamId;
      this.defaultProjectId := defaultProjectId;
      this.defaultLabelId := defaultLabelId;
    }

    /** The issue-creation request for a feature request. */
    function CreateInput(req: FeatureRequest): (r: IssueCreateInput)
      ensures r.teamId == teamId && r.title == req.title
      ensures r.description == "## Reason\n\n" + req.reason
      ensures r.priority == (if req.priority.Some? then PriorityValue(req.priority.value) else 3)
      ensures r.projectId.Some? <==> Truthy(defaultProjectId)
      ensures r.projectId.Some? ==> r.projectId == defaultProjectId
      ensures r.labelIds.Some? <==> Truthy(defaultLabelId)
      ensures r.labelIds.Some? ==> r.labelIds.value == [defaultLabelId.value]
    {
      IssueCreateInput(
        teamId, req.title, DescriptionOf(req.reason),
        if req.priority.Some? then PriorityValue(req.priority.value) else PriorityValue(Medium),
        if Truthy(defaultProjectId) then defaultProjectId else None,
        if Truthy(defaultLabelId) then Some([defaultLabelId.value]) else None)
    }

    /** `createFeatureRequest`: one `createIssue` request; an absent issue is an error. */
    function CreateFeatureRequest(req: FeatureRequest): (r: LinearRun<CreatedIssue>)
      ensures r.calls == [CreateIssueCall(CreateInput(req))]
      ensures r.outcome.Returned? <==> client.createIssue(CreateInput(req)).Returned? && client.createIssue(CreateInput(req)).value.Some?
      ensures r.outcome.Returned? ==> r.outcome.value == client.createIssue(CreateInput(req)).value.value
      ensures client.createIssue(CreateInput(req)) == Returned(None) ==> r.outcome == Threw(Fail(IssueFailed()))
      ensures client.createIssue(CreateInput(req)).Threw? ==> r.outcome == Threw(client.createIssue(CreateInput(req)).error)
    {
      var input := CreateInput(req);
      var calls := [CreateIssueCall(input)];
      match client.createIssue(input)
      case Threw(e) => LinearRun(Threw(e), calls)
      case Returned(None) => LinearRun(Threw(Fail(IssueFailed())), calls)
      case Returned(Some(issue)) => LinearRun(Returned(issue), calls)
    }

    /** `getIssue`: the issue with its relations; a missing state is an error. */
    function GetIssue(issueId: string): (r: LinearRun<IssueResult>)
      ensures r.calls == [IssueCall(issueId)]
      ensures client.issue(issueId).Threw? ==> r.outcome == Threw(client.issue(issueId).error)
      ensures r.outcome.Returned? <==> client.issue(issueId).Returned? && client.issue(issueId).value.state.Some?
      ensures client.issue(issueId).Returned? && client.issue(issueId).value.state.None? ==>
                r.outcome == Threw(Fail(StateMissing()))
      ensures r.outcome.Returned? ==> r.outcome.value == ToIssueResult(client.issue(issueId).value)
    {
      var calls := [IssueCall(issueId)];
      match client.issue(issueId)
      case Threw(e) => LinearRun(Threw(e), calls)
      case Returned(node) =>
        if node.state.None? then LinearRun(Threw(Fail(StateMissing())), calls)
        else LinearRun(Returned(ToIssueResult(node)), calls)
    }

    /** `createComment`: an unsuccessful payload and a payload without its comment are errors. */
    function CreateComment(issueId: string, body: string): (r: LinearRun<string>)
      ensures r.calls == [CreateCommentCall(issueId, body)]
      ensures r.outcome.Returned? <==> Posted(client.createComment(issueId, body))
      ensures r.outcome.Returned? ==> r.outcome.value == client.createComment(issueId, body).value.commentId.value
      ensures client.createComment(issueId, body).Returned? && !client.createComment(issueId, body).value.success ==>
                r.outcome == Threw(Fail(CommentFailed()))
      ensures client.createComment(issueId, body) == Returned(CommentPayload(true, None)) ==>
                r.outcome == Threw(Fail(CommentMissing()))
    {
      var calls := [CreateCommentCall(issueId, body)];
      match client.createComment(issueId, body)
      case Threw(e) => LinearRun(Threw(e), calls)
      case Returned(p) =>
        if !p.success then LinearRun(Threw(Fail(CommentFailed())), calls)
        else if p.commentId.None? then LinearRun(Threw(Fail(CommentMissing())), calls)
        else LinearRun(Returned(p.commentId.value), calls)
    }

    /** `getIssueComments`: the issue, then its comments, each mapped in order. */
    function GetIssueComments(issueId: string): (r: LinearRun<seq<CommentResult>>)
      ensures client.issue(issueId).Threw? ==> r == LinearRun(Threw(client.issue(issueId).error), [IssueCall(issueId)])
      ensures client.issue(issueId).Returned? ==> r.calls == [IssueCall(issueId), CommentsCall(issueId)]
      ensures r.outcome.Returned? <==> client.issue(issueId).Returned? && client.comments(issueId).Returned?
      ensures r.outcome.Returned? ==>
                var cs := client.comments(issueId).value;
                |r.outcome.value| == |cs| && forall k :: 0 <= k < |cs| ==> r.outcome.value[k] == ToCommentResult(cs[k])
    {
      match client.issue(issueId)
      case Threw(e) => LinearRun(Threw(e), [IssueCall(issueId)])
      case Returned(_) =>
        var calls := [IssueCall(issueId), CommentsCall(issueId)];
        match client.comments(issueId)
        case Threw(e) => LinearRun(Threw(e), calls)
        case Returned(cs) => LinearRun(Returned(seq(|cs|, k requires 0 <= k < |cs| => ToCommentResult(cs[k]))), calls)
    }
  }
}
