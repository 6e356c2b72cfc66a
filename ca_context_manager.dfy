/** `CAContextManager` (src/epics/ca/ca_context_manager.cpp): creation,
    per-thread attachment and teardown of the Channel Access client
    context. The library's answers are oracle parameters. */
module CaContext {
  import opened Wrappers
  import opened PVTypes

  /** A `ca_client_context*` that is not null. */
  type ContextRef = nat

  /** The context calls the manager makes, in order. */
  datatype ContextCall = ContextCreate | ContextDestroy | AttachContext(ctx: ContextRef)

  /** The attach step of `EnsureAttached` on an initialised manager holding
      `stored`: nothing when it is already the caller's context, otherwise
      one attach that throws unless the library answers ECA_NORMAL. */
  function AttachStep(stored: Option<ContextRef>, callerCurrent: Option<ContextRef>, attachStatus: int): Outcome<Error>
  {
    if callerCurrent == stored || attachStatus == ECA_NORMAL then Pass else Fail(AttachFailed)
  }

  /** What `EnsureAttached` reports, from the manager's state before the
      call and the library's answers: an `Init` failure, or the attach
      step's outcome. */
  function AttachResult(initialized: bool, stored: Option<ContextRef>, createStatus: int,
                        createdCurrent: Option<ContextRef>, callerCurrent: Option<ContextRef>,
                        attachStatus: int): Outcome<Error>
  {
    if initialized then AttachStep(stored, callerCurrent, attachStatus)
    else if createStatus != ECA_NORMAL then Fail(ContextCreateFailed)
    else if createdCurrent.None? then Fail(NullCurrentContext)
    else AttachStep(createdCurrent, callerCurrent, attachStatus)
  }

  /** The context calls `EnsureAttached` makes: `Init`'s create (and the
      destroy after a null current context) when uninitialised, then one
      attach unless the caller already has the stored context. */
  function AttachCalls(initialized: bool, stored: Option<ContextRef>, createStatus: int,
                       createdCurrent: Option<ContextRef>, callerCurrent: Option<ContextRef>): seq<ContextCall>
  {
    var target := if initialized then stored else createdCurrent;
    var attach := if callerCurrent == target || target.None? then [] else [AttachContext(target.value)];
    if initialized then attach
    else if createStatus != ECA_NORMAL then [ContextCreate]
    else if createdCurrent.None? then [ContextCreate, ContextDestroy]
    else [ContextCreate] + attach
  }

  class CAContextManager {
    var initialized: bool
    /** `ctx_`; None is the null pointer. */
    var ctx: Option<ContextRef>
    ghost var calls: seq<ContextCall>

    /** An initialised manager holds a context. */
    ghost predicate Valid()
      reads this
    {
      initialized ==> ctx.Some?
    }

    constructor()
      ensures Valid() && !initialized && ctx == None && calls == []
    {
      initialized := false;
      ctx := None;
      calls := [];
    }

    /** `Init`: nothing once initialised. Otherwise creates a context; throws
        (and stays uninitialised) when the create status is not ECA_NORMAL,
        or, after destroying it again, when the current context is null;
        else stores the current context and becomes initialised. */
    method Init(createStatus: int, current: Option<ContextRef>) returns (r: Outcome<Error>)
      requires Valid()
      modifies this
      ensures Valid()
      ensures old(initialized) ==>
                r == Pass && initialized && ctx == old(ctx) && calls == old(calls)
      ensures !old(initialized) && createStatus != ECA_NORMAL ==>
                && r == Fail(ContextCreateFailed) && !initialized && ctx == old(ctx)
                && calls == old(calls) + [ContextCreate]
      ensures !old(initialized) && createStatus == ECA_NORMAL && current.None? ==>
                && r == Fail(NullCurrentContext) && !initialized && ctx == None
                && calls == old(calls) + [ContextCreate, ContextDestroy]
      ensures !old(initialized) && createStatus == ECA_NORMAL && current.Some? ==>
                && r == Pass && initialized && ctx == current
                && calls == old(calls) + [ContextCreate]
    {
      if initialized {
        return Pass;
      }
      calls := calls + [ContextCreate];
      if createStatus != ECA_NORMAL {
        return Fail(ContextCreateFailed);
      }
      ctx := current;
      if ctx.None? {
        calls := calls + [ContextDestroy];
        return Fail(NullCurrentContext);
      }
      initialized := true;
      return Pass;
    }

    /** `EnsureAttached`: initialises first when needed (an `Init` failure
        propagates); then attaches the stored context unless the caller's
        current context already is that one, throwing when the attach
        status is not ECA_NORMAL. */
    method EnsureAttached(createStatus: int, createdCurrent: Option<ContextRef>,
                          callerCurrent: Option<ContextRef>, attachStatus: int)
      returns (r: Outcome<Error>)
      requires Valid()
      modifies this
      ensures Valid()
      ensures r.Fail? ==> r.error in {ContextCreateFailed, NullCurrentContext, AttachFailed}
      ensures r == AttachResult(old(initialized), old(ctx), createStatus, createdCurrent, callerCurrent, attachStatus)
      ensures calls == old(calls) + AttachCalls(old(initialized), old(ctx), createStatus, createdCurrent, callerCurrent)
      ensures old(initialized) ==>
                && initialized && ctx == old(ctx)
                && (if callerCurrent == old(ctx) then r == Pass && calls == old(calls)
                    else calls == old(calls) + [AttachContext(old(ctx).value)]
                         && r == (if attachStatus == ECA_NORMAL then Pass else Fail(AttachFailed)))
      ensures !old(initialized) && (createStatus != ECA_NORMAL || createdCurrent.None?) ==>
                && r == Fail(if createStatus != ECA_NORMAL then ContextCreateFailed else NullCurrentContext)
                && !initialized
                && calls == old(calls) + [ContextCreate] + (if createStatus == ECA_NORMAL then [ContextDestroy] else [])
      ensures !old(initialized) && createStatus == ECA_NORMAL && createdCurrent.Some? ==>
                && initialized && ctx == createdCurrent
                && (if callerCurrent == createdCurrent then r == Pass && calls == old(calls) + [ContextCreate]
                    else calls == old(calls) + [ContextCreate, AttachContext(createdCurrent.value)]
                         && r == (if attachStatus == ECA_NORMAL then Pass else Fail(AttachFailed)))
    {
      if !initialized {
        var init := Init(createStatus, createdCurrent);
        if init.Fail? {
          return init;
        }
      }
      if callerCurrent == ctx {
        return Pass;
      }
      calls := calls + [AttachContext(ctx.value)];
      if attachStatus != ECA_NORMAL {
        return Fail(AttachFailed);
      }
      return Pass;
    }

    /** `Shutdown`: nothing when uninitialised; otherwise destroys the
        context, forgets it and becomes uninitialised, so that the next
        `Init` creates a context again. */
    method Shutdown()
      requires Valid()
      modifies this
      ensures Valid()
      ensures !old(initialized) ==>
                !initialized && ctx == old(ctx) && calls == old(calls)
      ensures old(initialized) ==>
                !initialized && ctx == None && calls == old(calls) + [ContextDestroy]
    {
      if !initialized {
        return;
      }
      calls := calls + [ContextDestroy];
      ctx := None;
      initialized := false;
    }
  }
}
