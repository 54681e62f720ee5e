/**
 * `processExport`: post the summary when the configuration names a Linear issue, then run
 * the configured actions in order — each one validated, then executed — merging their
 * results so that later keys win. The first failure ends the run.
 */
module Orchestrator {
  import opened Wrappers
  import opened Errors
  import opened Collaborators
  import opened ExportConstants
  import opened ExportSchema
  import opened ActionTypes
  import opened ActionRegistry
  import opened LinearComment
  import Templates

  /** The orchestrator's own test: the id is present and not the sentinel (an empty id counts as present). */
  predicate HasLinearIssue(id: Option<string>) {
    id.Some? && id.value != "none"
  }

  /** The one context shared by every handler of the run. */
  function ContextFor(config: ExportConfig, deps: ActionDeps): (ctx: ActionContext)
    ensures ctx.issueId == config.linearIssueId && ctx.config == config
    ensures ctx.workDir == deps.workDir && ctx.zipOutputPath == deps.zipOutputPath && ctx.githubToken == deps.githubToken
  {
    ActionContext(config.linearIssueId, config, deps.workDir, deps.zipOutputPath, deps.githubToken)
  }

  function ValidationFailure(a: Action): string {
    "Validation failed for action '" + Token(a) + "'"
  }

  // ---- Trace markers ----------------------------------------------------------------

  /** The validate and execute markers of a trace, in order, without the calls to the outside world. */
  function Markers(calls: seq<Call>): seq<Call> {
    if calls == [] then []
    else (if IsServiceCall(calls[0]) then [] else [calls[0]]) + Markers(calls[1..])
  }

  lemma {:induction false} MarkersAppend(a: seq<Call>, b: seq<Call>)
    ensures Markers(a + b) == Markers(a) + Markers(b)
  {
    if a == [] {
      assert a + b == b;
    } else {
      assert (a + b)[1..] == a[1..] + b;
      MarkersAppend(a[1..], b);
    }
  }

  lemma {:induction false} MarkersOfServiceCalls(calls: seq<Call>)
    requires forall i :: 0 <= i < |calls| ==> IsServiceCall(calls[i])
    ensures Markers(calls) == []
  {
    if calls != [] {
      MarkersOfServiceCalls(calls[1..]);
    }
  }

  /** The markers of running `actions` to completion: validate then execute, action by action. */
  function Steps(actions: seq<Action>): seq<Call> {
    if actions == [] then [] else [ValidateCall(actions[0]), ExecuteCall(actions[0])] + Steps(actions[1..])
  }

  lemma {:induction false} StepsAppend(a: seq<Action>, b: seq<Action>)
    ensures Steps(a + b) == Steps(a) + Steps(b)
  {
    if a == [] {
      assert a + b == b;
    } else {
      assert (a + b)[1..] == a[1..] + b;
      StepsAppend(a[1..], b);
    }
  }

  // ---- One action -------------------------------------------------------------------

  /**
   * One iteration of the loop: validate through the registry (a throw is wrapped with the
   * action's name), then execute (a throw passes through unchanged).
   */
  function Step(env: Env, ctx: ActionContext, a: Action): (r: Run<ActionResult>)
    ensures ValidateWith(Registry(a), ctx).Some? ==>
              r == Run(Threw(WrapError(ValidateWith(Registry(a), ctx).value, ValidationFailure(a))), [ValidateCall(a)])
    ensures ValidateWith(Registry(a), ctx).None? ==>
              && r.outcome == ExecuteWith(Registry(a), env, ctx).outcome
              && r.calls == [ValidateCall(a), ExecuteCall(a)] + ExecuteWith(Registry(a), env, ctx).calls
    ensures Markers(r.calls) == if ValidateWith(Registry(a), ctx).Some? then [ValidateCall(a)]
                                else [ValidateCall(a), ExecuteCall(a)]
  {
    match ValidateWith(Registry(a), ctx)
    case Some(e) =>
      assert Markers([ValidateCall(a)]) == [ValidateCall(a)] + Markers([]);
      Run(Threw(WrapError(e, ValidationFailure(a))), [ValidateCall(a)])
    case None =>
      var ex := ExecuteWith(Registry(a), env, ctx);
      var calls := [ValidateCall(a), ExecuteCall(a)] + ex.calls;
      MarkersAppend([ValidateCall(a), ExecuteCall(a)], ex.calls);
      MarkersOfServiceCalls(ex.calls);
      assert Markers([ValidateCall(a), ExecuteCall(a)]) == [ValidateCall(a)] + Markers([ExecuteCall(a)]);
      assert Markers([ExecuteCall(a)]) == [ExecuteCall(a)] + Markers([]);
      Run(ex.outcome, calls)
  }

  // ---- The whole run ----------------------------------------------------------------

  /** The step function of a run: every action is handled with the same world and context. */
  function StepOf(env: Env, ctx: ActionContext): Action -> Run<ActionResult> {
    a => Step(env, ctx, a)
  }

  /** A step function whose successful steps leave exactly a validate and an execute marker. */
  predicate WellMarked(step: Action -> Run<ActionResult>) {
    forall a :: step(a).outcome.Returned? ==> Markers(step(a).calls) == [ValidateCall(a), ExecuteCall(a)]
  }

  lemma StepOfWellMarked(env: Env, ctx: ActionContext)
    ensures WellMarked(StepOf(env, ctx))
  {
    forall a | StepOf(env, ctx)(a).outcome.Returned?
      ensures Markers(StepOf(env, ctx)(a).calls) == [ValidateCall(a), ExecuteCall(a)]
    {
      assert StepOf(env, ctx)(a) == Step(env, ctx, a);
    }
  }

  /** The loop over `actions`, starting from the accumulated results `acc`. */
  function RunActions(step: Action -> Run<ActionResult>, actions: seq<Action>, acc: ActionResult): Run<ActionResult>
    decreases |actions|
  {
    if actions == [] then Run(Returned(acc), [])
    else
      var s := step(actions[0]);
      match s.outcome
      case Threw(e) => Run(Threw(e), s.calls)
      case Returned(m) =>
        var rest := RunActions(step, actions[1..], acc + m);
        Run(rest.outcome, s.calls + rest.calls)
  }

  /** `processExport(config, client, deps)`: the summary gate, then the actions from an empty result. */
  function ProcessExportSpec(env: Env, config: ExportConfig, deps: ActionDeps): Run<ActionResult> {
    var run := RunActions(StepOf(env, ContextFor(config, deps)), config.actions, map[]);
    if HasLinearIssue(config.linearIssueId) then
      var post := PostLinearComment(env, config.linearIssueId.value, Templates.SummaryComment(config.summary), SummaryContext);
      match post.outcome
      case Threw(e) => Run(Threw(e), post.calls)
      case Returned(_) => Run(run.outcome, post.calls + run.calls)
    else run
  }

  /** One unfolding of the loop over a non-empty action list. */
  lemma RunActionsCons(step: Action -> Run<ActionResult>, actions: seq<Action>, acc: ActionResult)
    requires actions != []
    ensures var s := step(actions[0]);
            RunActions(step, actions, acc)
            == if s.outcome.Threw? then Run(Threw(s.outcome.error), s.calls)
               else var rest := RunActions(step, actions[1..], acc + s.outcome.value);
                    Run(rest.outcome, s.calls + rest.calls)
  {
  }

  /** The loop of `processExport`: validate then execute each action in turn, merging into `results`. */
  method RunActionLoop(env: Env, ctx: ActionContext, actions: seq<Action>) returns (outcome: Outcome<ActionResult>, calls: seq<Call>)
    ensures Run(outcome, calls) == RunActions(StepOf(env, ctx), actions, map[])
  {
    var step := StepOf(env, ctx);
    calls := [];
    var results: ActionResult := map[];
    var i := 0;
    while i < |actions|
      invariant 0 <= i <= |actions|
      invariant RunActions(step, actions, map[]).outcome == RunActions(step, actions[i..], results).outcome
      invariant RunActions(step, actions, map[]).calls == calls + RunActions(step, actions[i..], results).calls
    {
      var action := actions[i];
      RunActionsCons(step, actions[i..], results);
      assert actions[i..][0] == action && actions[i..][1..] == actions[i + 1..];
      assert step(action) == Step(env, ctx, action);
      var handler := Registry(action);
      var err := ValidateWith(handler, ctx);
      if err.Some? {
        calls := calls + [ValidateCall(action)];
        outcome := Threw(WrapError(err.value, ValidationFailure(action)));
        return;
      }
      var ex := ExecuteWith(handler, env, ctx);
      calls := calls + ([ValidateCall(action), ExecuteCall(action)] + ex.calls);
      if ex.outcome.Threw? {
        outcome := Threw(ex.outcome.error);
        return;
      }
      results := results + ex.outcome.value;
      i := i + 1;
    }
    assert actions[i..] == [];
    outcome := Returned(results);
  }

  /** `processExport` as the program performs it: the summary gate, one shared context, then the loop. */
  method ProcessExport(env: Env, config: ExportConfig, deps: ActionDeps) returns (outcome: Outcome<ActionResult>, calls: seq<Call>)
    ensures Run(outcome, calls) == ProcessExportSpec(env, config, deps)
  {
    var summaryCalls: seq<Call> := [];
    if HasLinearIssue(config.linearIssueId) {
      var post := PostLinearComment(env, config.linearIssueId.value, Templates.SummaryComment(config.summary), SummaryContext);
      summaryCalls := post.calls;
      if post.outcome.Threw? {
        outcome, calls := Threw(post.outcome.error), post.calls;
        return;
      }
    }
    var ctx := ContextFor(config, deps);
    var actionCalls;
    outcome, actionCalls := RunActionLoop(env, ctx, config.actions);
    calls := summaryCalls + actionCalls;
    if !HasLinearIssue(config.linearIssueId) {
      assert calls == actionCalls;
    }
  }

  // ---- Properties -------------------------------------------------------------------

  /** `Object.assign` of each result in turn onto `acc`. */
  function MergeAll(acc: ActionResult, ms: seq<ActionResult>): ActionResult
    decreases |ms|
  {
    if ms == [] then acc else MergeAll(acc + ms[0], ms[1..])
  }

  /**
   * After merging, a key holds the value of the last result that has it; a key no result
   * has keeps its value in `acc`; and no other key appears.
   */
  lemma {:induction false} MergeLaterWins(acc: ActionResult, ms: seq<ActionResult>, key: string)
    ensures key in MergeAll(acc, ms) <==> key in acc || exists j :: 0 <= j < |ms| && key in ms[j]
    ensures forall j :: 0 <= j < |ms| && key in ms[j] && (forall l :: j < l < |ms| ==> key !in ms[l]) ==>
              MergeAll(acc, ms)[key] == ms[j][key]
    ensures key in acc && (forall j :: 0 <= j < |ms| ==> key !in ms[j]) ==> MergeAll(acc, ms)[key] == acc[key]
    decreases |ms|
  {
    if ms != [] {
      MergeLaterWins(acc + ms[0], ms[1..], key);
      forall j | 0 <= j < |ms| && key in ms[j] && (forall l :: j < l < |ms| ==> key !in ms[l])
        ensures MergeAll(acc, ms)[key] == ms[j][key]
      {
        if j > 0 {
          assert ms[1..][j - 1] == ms[j];
          assert forall l :: j - 1 < l < |ms| - 1 ==> ms[1..][l] == ms[l + 1];
        } else {
          assert forall l :: 0 <= l < |ms| - 1 ==> ms[1..][l] == ms[l + 1];
        }
      }
      if key in MergeAll(acc, ms) && key !in acc && key !in ms[0] {
        var j :| 0 <= j < |ms| - 1 && key in ms[1..][j];
        assert key in ms[j + 1];
      }
      if exists j :: 0 <= j < |ms| && key in ms[j] {
        var j :| 0 <= j < |ms| && key in ms[j];
        if j > 0 { assert key in ms[1..][j - 1]; }
      }
      if key in acc && (forall j :: 0 <= j < |ms| ==> key !in ms[j]) {
        assert forall j :: 0 <= j < |ms| - 1 ==> ms[1..][j] == ms[j + 1];
      }
    }
  }

  /** The results of the actions when every step succeeds. */
  predicate AllStepsSucceed(step: Action -> Run<ActionResult>, actions: seq<Action>) {
    forall i :: 0 <= i < |actions| ==> step(actions[i]).outcome.Returned?
  }

  function StepResults(step: Action -> Run<ActionResult>, actions: seq<Action>): (r: seq<ActionResult>)
    requires AllStepsSucceed(step, actions)
    ensures |r| == |actions|
  {
    seq(|actions|, i requires 0 <= i < |actions| && AllStepsSucceed(step, actions) => step(actions[i]).outcome.value)
  }

  /**
   * The loop succeeds exactly when every action's validate and execute succeed; then every
   * action was validated and executed, in list order, and the result is the merge of the
   * handlers' results onto `acc`, left to right.
   */
  lemma {:induction false} ActionsSucceed(step: Action -> Run<ActionResult>, actions: seq<Action>, acc: ActionResult)
    requires WellMarked(step)
    ensures RunActions(step, actions, acc).outcome.Returned? <==> AllStepsSucceed(step, actions)
    ensures AllStepsSucceed(step, actions) ==>
              && Markers(RunActions(step, actions, acc).calls) == Steps(actions)
              && RunActions(step, actions, acc).outcome.value == MergeAll(acc, StepResults(step, actions))
    decreases |actions|
  {
    if actions != [] {
      var s := step(actions[0]);
      var tail := actions[1..];
      assert forall i :: 0 <= i < |tail| ==> tail[i] == actions[i + 1];
      if s.outcome.Returned? {
        var rest := RunActions(step, tail, acc + s.outcome.value);
        ActionsSucceed(step, tail, acc + s.outcome.value);
        assert AllStepsSucceed(step, actions) <==> AllStepsSucceed(step, tail);
        if AllStepsSucceed(step, actions) {
          MarkersAppend(s.calls, rest.calls);
          assert StepResults(step, actions)[1..] == StepResults(step, tail);
        }
      } else {
        assert !AllStepsSucceed(step, actions);
      }
    }
  }

  /**
   * Fail-fast: when the actions before `k` succeed and action `k` fails, the run ends with
   * that action's error — wrapped with the action's name when `validate` threw, unchanged
   * when `execute` did — and nothing after it is validated or executed.
   */
  lemma {:induction false} FailsAtFirstFailure(step: Action -> Run<ActionResult>, actions: seq<Action>, acc: ActionResult, k: nat)
    requires WellMarked(step)
    requires k < |actions|
    requires forall i :: 0 <= i < k ==> step(actions[i]).outcome.Returned?
    requires step(actions[k]).outcome.Threw?
    ensures RunActions(step, actions, acc).outcome == step(actions[k]).outcome
    ensures Markers(RunActions(step, actions, acc).calls) == Steps(actions[..k]) + Markers(step(actions[k]).calls)
  {
    var s := step(actions[0]);
    if k == 0 {
      assert actions[..0] == [];
    } else {
      var tail := actions[1..];
      assert forall i :: 0 <= i < |tail| ==> tail[i] == actions[i + 1];
      FailsAtFirstFailure(step, tail, acc + s.outcome.value, k - 1);
      var rest := RunActions(step, tail, acc + s.outcome.value);
      MarkersAppend(s.calls, rest.calls);
      assert actions[..k] == [actions[0]] + tail[..k - 1];
      StepsAppend([actions[0]], tail[..k - 1]);
      assert Steps([actions[0]]) == [ValidateCall(actions[0]), ExecuteCall(actions[0])] + Steps([]);
    }
  }

  /**
   * The summary gate: with a usable issue id the first call of the run is the summary comment,
   * and when it fails nothing else happens; without one, the run is the action loop alone.
   */
  lemma SummaryGate(env: Env, config: ExportConfig, deps: ActionDeps)
    ensures var r := ProcessExportSpec(env, config, deps);
            HasLinearIssue(config.linearIssueId) ==>
              var body := Templates.SummaryComment(config.summary);
              var post := PostLinearComment(env, config.linearIssueId.value, body, SummaryContext);
              && |r.calls| >= 1 && r.calls[0] == CreateComment(config.linearIssueId.value, body)
              && (post.outcome.Threw? ==> r == Run(Threw(post.outcome.error), [CreateComment(config.linearIssueId.value, body)]))
    ensures !HasLinearIssue(config.linearIssueId) ==>
              ProcessExportSpec(env, config, deps) == RunActions(StepOf(env, ContextFor(config, deps)), config.actions, map[])
  {
  }

  /** Without a usable issue id, the run begins with the first action's validation, not with a comment. */
  lemma {:induction false} NoSummaryWithoutIssue(env: Env, config: ExportConfig, deps: ActionDeps)
    requires !HasLinearIssue(config.linearIssueId)
    ensures var r := ProcessExportSpec(env, config, deps);
            config.actions != [] ==> |r.calls| >= 1 && r.calls[0] == ValidateCall(config.actions[0])
  {
    if config.actions != [] {
      var ctx := ContextFor(config, deps);
      RunActionsCons(StepOf(env, ctx), config.actions, map[]);
      assert StepOf(env, ctx)(config.actions[0]) == Step(env, ctx, config.actions[0]);
    }
  }

  /**
   * A whole export run succeeds exactly when the summary (if any) is posted and every action
   * succeeds, and then its result is the left-to-right merge of the handlers' results, each
   * action having been validated and then executed, in list order.
   */
  lemma ProcessExportSucceeds(env: Env, config: ExportConfig, deps: ActionDeps)
    ensures var r := ProcessExportSpec(env, config, deps);
            var step := StepOf(env, ContextFor(config, deps));
            && (r.outcome.Returned? <==>
                  (HasLinearIssue(config.linearIssueId) ==>
                     env.createComment(config.linearIssueId.value, Templates.SummaryComment(config.summary)) == Returned(true))
                  && AllStepsSucceed(step, config.actions))
            && (r.outcome.Returned? ==>
                  && r.outcome.value == MergeAll(map[], StepResults(step, config.actions))
                  && Markers(r.calls) == Steps(config.actions))
  {
    var step := StepOf(env, ContextFor(config, deps));
    StepOfWellMarked(env, ContextFor(config, deps));
    ActionsSucceed(step, config.actions, map[]);
    var run := RunActions(step, config.actions, map[]);
    if HasLinearIssue(config.linearIssueId) {
      var post := PostLinearComment(env, config.linearIssueId.value, Templates.SummaryComment(config.summary), SummaryContext);
      MarkersAppend(post.calls, run.calls);
      MarkersOfServiceCalls(post.calls);
    }
  }

  /**
   * Fail-fast at the level of a whole run: when the actions before `k` succeed and action `k`'s
   * validation throws `e`, the run fails with `e` wrapped as "Validation failed for action
   * '<action>'", and that action is never executed, nor is anything after it. This holds with
   * or without a usable issue id, provided the summary, when there is one, is posted.
   */
  lemma ValidationFailureStopsRun(env: Env, config: ExportConfig, deps: ActionDeps, k: nat)
    requires HasLinearIssue(config.linearIssueId) ==>
               env.createComment(config.linearIssueId.value, Templates.SummaryComment(config.summary)) == Returned(true)
    requires k < |config.actions|
    requires forall i :: 0 <= i < k ==> Step(env, ContextFor(config, deps), config.actions[i]).outcome.Returned?
    requires ValidateWith(Registry(config.actions[k]), ContextFor(config, deps)).Some?
    ensures var r := ProcessExportSpec(env, config, deps);
            var e := ValidateWith(Registry(config.actions[k]), ContextFor(config, deps)).value;
            && r.outcome == Threw(WrapError(e, ValidationFailure(config.actions[k])))
            && Markers(r.calls) == Steps(config.actions[..k]) + [ValidateCall(config.actions[k])]
  {
    var ctx := ContextFor(config, deps);
    var step := StepOf(env, ctx);
    StepOfWellMarked(env, ctx);
    assert forall i :: 0 <= i < k ==> step(config.actions[i]) == Step(env, ctx, config.actions[i]);
    assert step(config.actions[k]) == Step(env, ctx, config.actions[k]);
    FailsAtFirstFailure(step, config.actions, map[], k);
    SummaryAddsNoMarkers(env, config, deps);
  }

  /**
   * An `execute` failure propagates unwrapped: when the actions before `k` succeed, action `k`
   * validates and its `execute` throws `e`, the run fails with exactly `e` and no later action
   * is validated, with or without a summary posted first.
   */
  lemma ExecuteFailurePropagates(env: Env, config: ExportConfig, deps: ActionDeps, k: nat, e: Thrown)
    requires HasLinearIssue(config.linearIssueId) ==>
               env.createComment(config.linearIssueId.value, Templates.SummaryComment(config.summary)) == Returned(true)
    requires k < |config.actions|
    requires forall i :: 0 <= i < k ==> Step(env, ContextFor(config, deps), config.actions[i]).outcome.Returned?
    requires ValidateWith(Registry(config.actions[k]), ContextFor(config, deps)).None?
    requires ExecuteWith(Registry(config.actions[k]), env, ContextFor(config, deps)).outcome == Threw(e)
    ensures ProcessExportSpec(env, config, deps).outcome == Threw(e)
    ensures Markers(ProcessExportSpec(env, config, deps).calls) == Steps(config.actions[..k + 1])
  {
    var ctx := ContextFor(config, deps);
    var step := StepOf(env, ctx);
    var a := config.actions[k];
    StepOfWellMarked(env, ctx);
    assert forall i :: 0 <= i < k ==> step(config.actions[i]) == Step(env, ctx, config.actions[i]);
    assert step(a) == Step(env, ctx, a);
    assert step(a).outcome == Threw(e);
    assert Markers(step(a).calls) == [ValidateCall(a), ExecuteCall(a)];
    FailsAtFirstFailure(step, config.actions, map[], k);
    StepsPrefixSnoc(config.actions, k);
    SummaryAddsNoMarkers(env, config, deps);
  }

  /**
   * A summary that is posted changes neither the outcome of the run nor its markers: the run
   * ends as the action loop does, after the same validations and executions.
   */
  lemma SummaryAddsNoMarkers(env: Env, config: ExportConfig, deps: ActionDeps)
    requires HasLinearIssue(config.linearIssueId) ==>
               env.createComment(config.linearIssueId.value, Templates.SummaryComment(config.summary)) == Returned(true)
    ensures var run := RunActions(StepOf(env, ContextFor(config, deps)), config.actions, map[]);
            && ProcessExportSpec(env, config, deps).outcome == run.outcome
            && Markers(ProcessExportSpec(env, config, deps).calls) == Markers(run.calls)
  {
    var run := RunActions(StepOf(env, ContextFor(config, deps)), config.actions, map[]);
    if HasLinearIssue(config.linearIssueId) {
      var post := PostLinearComment(env, config.linearIssueId.value, Templates.SummaryComment(config.summary), SummaryContext);
      MarkersAppend(post.calls, run.calls);
      MarkersOfServiceCalls(post.calls);
    }
  }

  /** The markers of the first `k + 1` actions extend those of the first `k` by action `k`'s pair. */
  lemma StepsPrefixSnoc(actions: seq<Action>, k: nat)
    requires k < |actions|
    ensures Steps(actions[..k + 1]) == Steps(actions[..k]) + [ValidateCall(actions[k]), ExecuteCall(actions[k])]
  {
    var a := actions[k];
    assert actions[..k + 1] == actions[..k] + [a];
    StepsAppend(actions[..k], [a]);
    assert Steps([a]) == [ValidateCall(a), ExecuteCall(a)] + Steps([]);
  }
}
