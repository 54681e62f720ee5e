/**
 * Hooks that run after every tool call, on the tool's full response (metadata included). The
 * session-comment hook posts the agent session's id as a comment on the issue a tool reported;
 * the hook runner runs every hook in order and isolates their failures from one another.
 */
module McpPostToolHooks {
  import opened Wrappers
  import opened Errors
  import opened McpTypes

  /** `PostToolHook`: it may make requests and may throw. */
  type Hook = (Response, Context) -> McpRun<()>

  /** The comment posted on the issue. */
  function SessionCommentBody(sessionId: string): string {
    "**Claude Code Session ID:** `" + sessionId + "`"
  }

  /** The response names an issue (a non-empty id) and is not an error. */
  predicate NamesIssue(response: Response) {
    && response.meta.Some? && response.meta.value.issueId.Some? && response.meta.value.issueId.value != ""
    && response.isError != Some(true)
  }

  /** The session id is known: present and non-empty. */
  predicate SessionKnown(ctx: Context) {
    ctx.sessionId.Some? && ctx.sessionId.value != ""
  }

  /**
   * `sessionCommentHook`. It reads the session only for a response that names an issue, comments
   * only when the session is known, and never throws: a failed comment is ignored.
   */
  function SessionCommentHook(response: Response, ctx: Context): (r: McpRun<()>)
    ensures r.outcome == Returned(())
    ensures !NamesIssue(response) ==> r.calls == []
    ensures NamesIssue(response) && !SessionKnown(ctx) ==> r.calls == [ReadSessionId]
    ensures NamesIssue(response) && SessionKnown(ctx) ==>
              r.calls == [ReadSessionId, CreateComment(response.meta.value.issueId.value, SessionCommentBody(ctx.sessionId.value))]
  {
    if !NamesIssue(response) then McpRun(Returned(()), [])
    else if !SessionKnown(ctx) then McpRun(Returned(()), [ReadSessionId])
    else
      var issueId := response.meta.value.issueId.value;
      var body := SessionCommentBody(ctx.sessionId.value);
      // The comment's own outcome is discarded whether it succeeded or threw.
      McpRun(Returned(()), [ReadSessionId, CreateComment(issueId, body)])
  }

  /** The requests of running `hooks` in order; each hook runs whatever the earlier ones did. */
  function HooksTrace(hooks: seq<Hook>, response: Response, ctx: Context): seq<McpCall> {
    if hooks == [] then []
    else HooksTrace(hooks[..|hooks| - 1], response, ctx) + hooks[|hooks| - 1](response, ctx).calls
  }

  /** The values the hooks threw, in order; the runner logs each one and carries on. */
  function HookFailures(hooks: seq<Hook>, response: Response, ctx: Context): seq<Thrown> {
    if hooks == [] then []
    else
      var last := hooks[|hooks| - 1](response, ctx);
      HookFailures(hooks[..|hooks| - 1], response, ctx) + (if last.outcome.Threw? then [last.outcome.error] else [])
  }

  /**
   * `runPostToolHooks`: each hook in turn, a throw caught and recorded. It has no way to fail:
   * its results are the requests made and the failures logged.
   */
  method RunPostToolHooks(hooks: seq<Hook>, response: Response, ctx: Context) returns (calls: seq<McpCall>, failures: seq<Thrown>)
    ensures calls == HooksTrace(hooks, response, ctx)
    ensures failures == HookFailures(hooks, response, ctx)
  {
    calls, failures := [], [];
    var i := 0;
    while i < |hooks|
      invariant 0 <= i <= |hooks|
      invariant calls == HooksTrace(hooks[..i], response, ctx)
      invariant failures == HookFailures(hooks[..i], response, ctx)
    {
      var run := hooks[i](response, ctx);
      calls := calls + run.calls;
      if run.outcome.Threw? {
        failures := failures + [run.outcome.error];
      }
      assert hooks[..i + 1][..i] == hooks[..i];
      i := i + 1;
    }
    assert hooks[..i] == hooks;
  }

  /** Running two lists of hooks one after the other is running their concatenation. */
  lemma {:induction false} HooksTraceAppend(a: seq<Hook>, b: seq<Hook>, response: Response, ctx: Context)
    ensures HooksTrace(a + b, response, ctx) == HooksTrace(a, response, ctx) + HooksTrace(b, response, ctx)
    ensures HookFailures(a + b, response, ctx) == HookFailures(a, response, ctx) + HookFailures(b, response, ctx)
    decreases |b|
  {
    if b == [] {
      assert a + b == a;
    } else {
      var b' := b[..|b| - 1];
      assert (a + b)[..|a + b| - 1] == a + b';
      HooksTraceAppend(a, b', response, ctx);
    }
  }

  /**
   * A hook that throws does not stop the next one: with `first` throwing, the second hook's
   * requests still follow, and only the first's failure is recorded.
   */
  lemma ThrowingHookIsIsolated(first: Hook, second: Hook, response: Response, ctx: Context)
    requires first(response, ctx).outcome.Threw?
    requires second(response, ctx).outcome.Returned?
    ensures HooksTrace([first, second], response, ctx) == first(response, ctx).calls + second(response, ctx).calls
    ensures HookFailures([first, second], response, ctx) == [first(response, ctx).outcome.error]
  {
    HooksTraceAppend([first], [second], response, ctx);
    assert [first] + [second] == [first, second];
    assert [first][..0] == [] && [second][..0] == [];
  }

  /** A comment is posted exactly when the response names an issue and the session is known, and it goes to that issue. */
  lemma CommentPostedIff(response: Response, ctx: Context)
    ensures (exists i, b :: CreateComment(i, b) in SessionCommentHook(response, ctx).calls) <==> NamesIssue(response) && SessionKnown(ctx)
    ensures forall c :: c in SessionCommentHook(response, ctx).calls && c.CreateComment? ==>
              c.issueId == response.meta.value.issueId.value && c.body == SessionCommentBody(ctx.sessionId.value)
  {
    if NamesIssue(response) && SessionKnown(ctx) {
      var i := response.meta.value.issueId.value;
      var b := SessionCommentBody(ctx.sessionId.value);
      assert CreateComment(i, b) in SessionCommentHook(response, ctx).calls;
    }
  }
}
