/** The per-request context slot: one optional request context (tracing context plus entry span),
    overwritten by `set_global`, emptied by `remove_global` and updated in place through `with_global`.
    A request id other than `None` is not supported by the agent, so every operation requires it to
    be absent. */
module Context {
  import opened Wrappers

  /** The parts of the tracing library's context that a caller can change through the slot. */
  datatype TracingContext = TracingContext(traceId: string, nextSpanId: nat)
  datatype Span = Span(spanId: nat, operationName: string)

  datatype RequestContext = RequestContext(tracingContext: TracingContext, entrySpan: Span)

  const NOT_EXISTS_MESSAGE: string := "global tracing context not exists"

  /** The thread-local `REQUEST_CONTEXT` cell. */
  class RequestContextSlot {
    var slot: Option<RequestContext>

    constructor ()
      ensures slot == None
    {
      slot := None;
    }

    /** `set_global`: stores `ctx`, replacing whatever was there. */
    method SetGlobal(requestId: Option<nat>, ctx: RequestContext)
      requires requestId == None
      modifies this
      ensures slot == Some(ctx)
    {
      slot := Some(ctx);
    }

    /** `remove_global`: takes the stored context out, leaving the slot empty. */
    method RemoveGlobal(requestId: Option<nat>) returns (r: Option<RequestContext>)
      requires requestId == None
      modifies this
      ensures r == old(slot)
      ensures slot == None
    {
      r := slot;
      slot := None;
    }

    /** `with_global`: runs `f` on the stored context, if any. `f` receives the context and returns
        it, possibly changed, together with its result; the changed context stays in the slot. */
    method WithGlobal<T>(requestId: Option<nat>, f: RequestContext -> (RequestContext, T)) returns (r: Option<T>)
      requires requestId == None
      modifies this
      ensures old(slot).None? ==> r == None && slot == None
      ensures old(slot).Some? ==> r == Some(f(old(slot).value).1) && slot == Some(f(old(slot).value).0)
    {
      match slot
      case None =>
        r := None;
      case Some(ctx) =>
        var (changed, result) := f(ctx);
        slot := Some(changed);
        r := Some(result);
    }

    /** `try_with_global_tracing_context`: `with_global` on the tracing context alone, failing when
        the slot is empty. The entry span is left as it was. */
    method TryWithGlobalTracingContext<T>(requestId: Option<nat>, f: TracingContext -> (TracingContext, T))
      returns (r: Result<T, string>)
      requires requestId == None
      modifies this
      ensures r.Failure? <==> old(slot).None?
      ensures r.Failure? ==> r.error == NOT_EXISTS_MESSAGE && slot == None
      ensures old(slot).Some? ==>
        var ctx := old(slot).value;
        r == Success(f(ctx.tracingContext).1)
        && slot == Some(RequestContext(f(ctx.tracingContext).0, ctx.entrySpan))
    {
      var g := (ctx: RequestContext) =>
        var (tc, result) := f(ctx.tracingContext);
        (RequestContext(tc, ctx.entrySpan), result);
      var o := WithGlobal(requestId, g);
      match o
      case Some(v) => r := Success(v);
      case None => r := Failure(NOT_EXISTS_MESSAGE);
    }
  }
}
