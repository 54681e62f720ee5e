/** The `none` action: nothing to do. */
module NoneAction {
  import opened Wrappers
  import opened Errors
  import opened Collaborators
  import opened ActionTypes

  /** `noneHandler.validate`: accepts every context. */
  function Validate(ctx: ActionContext): (r: Option<Thrown>)
    ensures r.None?
  {
    None
  }

  /** `noneHandler.execute`: resolves with the empty result and calls nothing. */
  function Execute(env: Env, ctx: ActionContext): (r: Run<ActionResult>)
    ensures r.outcome == Returned(map[]) && r.calls == []
    ensures forall i :: 0 <= i < |r.calls| ==> IsServiceCall(r.calls[i])
  {
    Run(Returned(map[]), [])
  }

  /** The handler reads neither the context nor the world, and merging its result changes nothing. */
  lemma IgnoresContext(env1: Env, ctx1: ActionContext, env2: Env, ctx2: ActionContext, acc: ActionResult)
    ensures Validate(ctx1) == Validate(ctx2)
    ensures Execute(env1, ctx1) == Execute(env2, ctx2)
    ensures acc + Execute(env1, ctx1).outcome.value == acc
  {
  }
}
