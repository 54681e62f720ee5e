/** The registry that maps each export action to its handler, and dispatch through it. */
module ActionRegistry {
  import opened Wrappers
  import opened Errors
  import opened Collaborators
  import opened ExportConstants
  import opened ActionTypes
  import NoneAction
  import ContinueAction
  import ReportAction
  import UploadWorkspaceAction
  import CreatePrAction

  /** The five handlers, a closed set. */
  datatype Handler = NoneHandler | UploadWorkspaceHandler | ReportHandler | CreatePrHandler | ContinueHandler

  /** `actionRegistry[a]`: every action has a handler, so the lookup is total. */
  function Registry(a: Action): Handler {
    match a
    case NoOp => NoneHandler
    case UploadWorkspace => UploadWorkspaceHandler
    case Report => ReportHandler
    case CreatePr => CreatePrHandler
    case Continue => ContinueHandler
  }

  /** The action a handler is registered under. */
  function HandledAction(h: Handler): Action {
    match h
    case NoneHandler => NoOp
    case UploadWorkspaceHandler => UploadWorkspace
    case ReportHandler => Report
    case CreatePrHandler => CreatePr
    case ContinueHandler => Continue
  }

  /** The registry is a bijection between actions and handlers: no handler is shared or missing. */
  lemma RegistryIsBijection(a: Action, b: Action, h: Handler)
    ensures HandledAction(Registry(a)) == a
    ensures Registry(HandledAction(h)) == h
    ensures Registry(a) == Registry(b) ==> a == b
  {
  }

  /** `handler.validate(ctx)`: the error it throws, if any. */
  function ValidateWith(h: Handler, ctx: ActionContext): Option<Thrown> {
    match h
    case NoneHandler => NoneAction.Validate(ctx)
    case UploadWorkspaceHandler => UploadWorkspaceAction.Validate(ctx)
    case ReportHandler => ReportAction.Validate(ctx)
    case CreatePrHandler => CreatePrAction.Validate(ctx)
    case ContinueHandler => ContinueAction.Validate(ctx)
  }

  /** `handler.execute(ctx)`, after `validate` accepted the context; it calls only the outside world. */
  function ExecuteWith(h: Handler, env: Env, ctx: ActionContext): (r: Run<ActionResult>)
    requires ValidateWith(h, ctx).None?
    ensures forall i :: 0 <= i < |r.calls| ==> IsServiceCall(r.calls[i])
  {
    match h
    case NoneHandler => NoneAction.Execute(env, ctx)
    case UploadWorkspaceHandler => UploadWorkspaceAction.Execute(env, ctx)
    case ReportHandler => ReportAction.Execute(env, ctx)
    case CreatePrHandler => CreatePrAction.ExecuteCallsServices(env, ctx); CreatePrAction.Execute(env, ctx)
    case ContinueHandler => ContinueAction.Execute(env, ctx)
  }

  /** The handlers that never fail: `none` and `continue` accept every context and return the empty result. */
  lemma ExclusiveHandlersAreInert(a: Action, env: Env, ctx: ActionContext)
    requires IsExclusive(a)
    ensures ValidateWith(Registry(a), ctx).None?
    ensures ExecuteWith(Registry(a), env, ctx) == Run(Returned(map[]), [])
  {
  }
}
