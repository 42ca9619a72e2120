/** ThrowOnExceptionInterceptor: a command-service interceptor whose only effect is to rethrow,
    after execution, the exception the execution step recorded on the command context. Each hook
    is a function from the context it is handed (null is `None`) to the way the hook ends and the
    context as the hook leaves it. */
module ThrowOnExceptionInterceptor {
  import opened Wrappers

  /** An exception object the program created, which the execution step may record on the
      context; `id` stands for its reference identity. A recorded NullReferenceException is one
      of these too. */
  datatype ExceptionObject = ExceptionObject(id: nat)

  /** The per-dispatch command context: the command, the executor resolved for it (if any yet),
      and the exception its execution recorded (null when none). */
  datatype CommandContext = CommandContext(theCommand: nat, theExecutor: Option<nat>, exception: Option<ExceptionObject>)

  /** What a hook throws: a recorded exception object itself, or the new NullReferenceException
      the runtime creates when a statement `throw e;` finds `e` null. The latter is a fresh
      object, so it is none of the objects a context can record. */
  datatype Thrown = Rethrown(exception: ExceptionObject) | FreshNullReference

  datatype Outcome = Normal | Throws(thrown: Thrown)

  /** How a hook ends, and the context it leaves behind. */
  datatype HookResult = HookResult(outcome: Outcome, context: Option<CommandContext>)

  /** C#'s `throw e;`: throws the object `e` itself, or, when `e` is null, a new
      NullReferenceException that is not `e` nor any other recorded object. */
  function ThrowStatement(e: Option<ExceptionObject>): (t: Thrown)
    ensures e.Some? ==> t == Rethrown(e.value)
    ensures t.Rethrown? <==> e.Some?
  {
    match e
    case Some(x) => Rethrown(x)
    case None => FreshNullReference
  }

  /** OnBeforeBeforeExecutorResolving: does nothing. */
  function OnBeforeBeforeExecutorResolving(context: Option<CommandContext>): (r: HookResult)
    ensures r.outcome == Normal
    ensures r.context == context
  {
    HookResult(Normal, context)
  }

  /** OnBeforeExecution: does nothing. */
  function OnBeforeExecution(context: Option<CommandContext>): (r: HookResult)
    ensures r.outcome == Normal
    ensures r.context == context
  {
    HookResult(Normal, context)
  }

  /** OnAfterExecution, as written: every non-null context makes it throw. The recorded exception
      is thrown as the same object; a context with no recorded exception still throws, a new
      NullReferenceException, since the exception field is never tested. */
  function OnAfterExecution(context: Option<CommandContext>): (r: HookResult)
    ensures r.context == context
    ensures r.outcome == Normal <==> context == None
    ensures context.Some? && context.value.exception.Some?
            ==> r.outcome == Throws(Rethrown(context.value.exception.value))
    ensures (r.outcome.Throws? && r.outcome.thrown.Rethrown?)
            <==> context.Some? && context.value.exception.Some?
  {
    if context.Some? then HookResult(Throws(ThrowStatement(context.value.exception)), context)
    else HookResult(Normal, context)
  }

  /** After a successful execution (nothing recorded), a non-null context still makes
      OnAfterExecution throw: a new NullReferenceException, not any recorded exception. */
  lemma NothingCapturedStillThrows(context: CommandContext)
    requires context.exception.None?
    ensures OnAfterExecution(Some(context)).outcome == Throws(FreshNullReference)
  {
  }

  /** The hook the interceptor's name describes: rethrow the recorded exception when there is
      one, and end normally otherwise. */
  function OnAfterExecutionIntended(context: Option<CommandContext>): (r: HookResult)
    ensures r.context == context
    ensures r.outcome.Throws? <==> context.Some? && context.value.exception.Some?
    ensures r.outcome.Throws? ==> r.outcome.thrown == Rethrown(context.value.exception.value)
  {
    if context.Some? && context.value.exception.Some? then HookResult(Throws(Rethrown(context.value.exception.value)), context)
    else HookResult(Normal, context)
  }

  /** The hook as written and as intended agree exactly on the null context and on contexts that
      carry a recorded exception. */
  lemma AsWrittenDiffersOnlyWhenNothingCaptured(context: Option<CommandContext>)
    ensures OnAfterExecution(context) != OnAfterExecutionIntended(context)
            <==> context.Some? && context.value.exception.None?
  {
  }

  /** Some dispatch tells the two apart: a context whose execution recorded no exception. */
  lemma AsWrittenDiffersFromIntended()
    ensures exists context :: OnAfterExecution(context).outcome == Throws(FreshNullReference)
                              && OnAfterExecutionIntended(context).outcome == Normal
  {
    var context := Some(CommandContext(0, None, None));
    assert OnAfterExecution(context).outcome == Throws(FreshNullReference);
  }
}
