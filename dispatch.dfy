/** The dispatch decision of `TraverseSupportTransactionInterceptor.invoke`:
    whether a call is handed to the standard TransactionInterceptor or taken
    over, and then what is returned to the caller. */
module Dispatch {
  import opened TxTypes

  /** TransactionAttributeSource.getTransactionAttribute(method, targetClass). */
  type AttributeSource = (MethodRef, Option<ClassName>) -> Option<TxAttribute>

  /** What `invoke` consults besides the invocation: the attribute source
      (`getTransactionAttributeSource()` may yield null) and Spring's
      `determineTransactionManager`, which may yield null. */
  datatype Collaborators = Collaborators(
    attributeSource: Option<AttributeSource>,
    determineTransactionManager: Option<TxAttribute> -> Option<TransactionManager>)

  /** An in-flight MethodInvocation: the method, the class of `getThis()` (none
      when `getThis()` is null) and how `proceed()` ends when it is called. */
  datatype Invocation<S> = Invocation(methodRef: MethodRef, targetClass: Option<ClassName>, proceed: Completion<Option<S>>)

  /** The calls `invoke` itself makes, in order. */
  datatype Call =
    | LookupAttribute                                  // attributeSource.getTransactionAttribute
    | DetermineManager(txAttr: Option<TxAttribute>)    // determineTransactionManager
    | Proceed                                          // invocation.proceed()
    | DelegateToStandard                               // transactionInterceptor.invoke(invocation)

  /** The state captured by `new TransactionalTraversable<>(...)`. */
  datatype Wrapper<S> = Wrapper(
    methodRef: MethodRef,
    targetClass: Option<ClassName>,
    traverseSupport: S,
    transactionManager: TransactionManager,
    txAttr: Option<TxAttribute>)

  /** What the caller gets back: the standard interceptor's outcome `R`,
      null, the wrapper, the wrapper decorated by `emittable(...)`, or the
      error `proceed()` threw. */
  datatype Returned<S, R> =
    | Delegated(result: R)
    | Null
    | Traversal(wrapper: Wrapper<S>)
    | EmittableTraversal(wrapper: Wrapper<S>)
    | Raised(error: Throwable)

  datatype Dispatched<S, R> = Dispatched(calls: seq<Call>, returned: Returned<S, R>)

  /** The declared return type is exactly Traversable or exactly Emittable. */
  predicate IsTraverseType(t: ReturnType)
  {
    t.TraversableType? || t.EmittableType?
  }

  /** The attribute `invoke` resolves: none when there is no attribute source. */
  function ResolvedAttribute(c: Collaborators, inv: Invocation): Option<TxAttribute>
  {
    if c.attributeSource.Some? then c.attributeSource.value(inv.methodRef, inv.targetClass) else None
  }

  /** `transactionManager instanceof PlatformTransactionManager` (false for null). */
  predicate IsPlatform(m: Option<TransactionManager>)
  {
    m.Some? && m.value.PlatformManager?
  }

  /** The interceptor defers the transaction itself rather than delegating. */
  predicate TakesOver(c: Collaborators, inv: Invocation)
  {
    IsTraverseType(inv.methodRef.returnType) && IsPlatform(c.determineTransactionManager(ResolvedAttribute(c, inv)))
  }

  /** What `invoke` returns once it has called `proceed()` itself: null for a
      null raw result, never wrapped or decorated; the error `proceed()` threw,
      unchanged; otherwise the raw result wrapped with the method, the target
      class, the platform manager and the attribute, and decorated by
      `emittable(...)` iff the declared type is Emittable. */
  function Deferred<S, R>(inv: Invocation<S>, isEmittable: bool, manager: TransactionManager,
                          txAttr: Option<TxAttribute>): (r: Returned<S, R>)
    ensures !r.Delegated?
    ensures r.Null? <==> inv.proceed == Normal(None)
    ensures r.Raised? <==> inv.proceed.Thrown?
    ensures r.Raised? ==> r.error == inv.proceed.error
    ensures r.EmittableTraversal? <==> inv.proceed.Normal? && inv.proceed.value.Some? && isEmittable
    ensures r.Traversal? <==> inv.proceed.Normal? && inv.proceed.value.Some? && !isEmittable
    ensures (r.Traversal? || r.EmittableTraversal?) ==>
              r.wrapper == Wrapper(inv.methodRef, inv.targetClass, inv.proceed.value.value, manager, txAttr)
  {
    match inv.proceed
    case Thrown(e) => Raised(e)
    case Normal(None) => Null
    case Normal(Some(traverseSupport)) =>
      var traversable := Wrapper(inv.methodRef, inv.targetClass, traverseSupport, manager, txAttr);
      if isEmittable then EmittableTraversal(traversable) else Traversal(traversable)
  }

  /** `invoke` for the declared return type, the attribute source and manager
      resolution in `c`, how `proceed()` ends, and the outcome `standard` of
      the standard interceptor. */
  function Invoke<S, R>(c: Collaborators, inv: Invocation<S>, standard: R): (d: Dispatched<S, R>)
    ensures |d.calls| > 0
    // Not taken over (not Traversable or Emittable, or no platform manager):
    // the standard interceptor is called, last and once, `proceed()` is not
    // called, and the standard outcome is returned unchanged.
    ensures !TakesOver(c, inv) ==>
              d.returned == Delegated(standard) && Proceed !in d.calls &&
              d.calls[|d.calls| - 1] == DelegateToStandard && DelegateToStandard !in d.calls[..|d.calls| - 1]
    // Taken over: `proceed()` is called once, last, the standard interceptor
    // is not called, and the raw result is handled as `Deferred` says.
    ensures TakesOver(c, inv) ==>
              d.calls[|d.calls| - 1] == Proceed && Proceed !in d.calls[..|d.calls| - 1] && DelegateToStandard !in d.calls &&
              var txAttr := ResolvedAttribute(c, inv);
              d.returned == Deferred(inv, inv.methodRef.returnType.EmittableType?,
                                     c.determineTransactionManager(txAttr).value, txAttr)
  {
    var isTraversable := inv.methodRef.returnType.TraversableType?;
    var isEmittable := inv.methodRef.returnType.EmittableType?;
    if isTraversable || isEmittable then
      var txAttr := ResolvedAttribute(c, inv);
      var manager := c.determineTransactionManager(txAttr);
      var resolving := if c.attributeSource.Some? then [LookupAttribute, DetermineManager(txAttr)]
                       else [DetermineManager(txAttr)];
      if manager.Some? && manager.value.PlatformManager? then
        Dispatched(resolving + [Proceed], Deferred(inv, isEmittable, manager.value, txAttr))
      else
        Dispatched(resolving + [DelegateToStandard], Delegated(standard))
    else
      Dispatched([DelegateToStandard], Delegated(standard))
  }

  /** Neither Traversable nor Emittable: nothing but the standard interceptor
      is consulted. */
  lemma OrdinaryMethodDelegates<S, R>(c: Collaborators, inv: Invocation<S>, standard: R)
    requires !IsTraverseType(inv.methodRef.returnType)
    ensures Invoke(c, inv, standard) == Dispatched([DelegateToStandard], Delegated(standard))
  {
  }

  /** The attribute source is consulted only for a Traversable or Emittable
      return type, and only when there is one. */
  lemma AttributeLookedUpOnlyForTraverseTypes<S, R>(c: Collaborators, inv: Invocation<S>, standard: R)
    ensures LookupAttribute in Invoke(c, inv, standard).calls <==>
              IsTraverseType(inv.methodRef.returnType) && c.attributeSource.Some?
  {
  }

  /** A null raw result comes back as null for Emittable as for Traversable:
      nothing is wrapped and `emittable(...)` is not applied. */
  lemma NullRawResultIsReturnedAsNull<S, R>(c: Collaborators, inv: Invocation<S>, standard: R)
    requires TakesOver(c, inv) && inv.proceed == Normal(None)
    ensures Invoke(c, inv, standard).returned == Null
  {
  }
}
