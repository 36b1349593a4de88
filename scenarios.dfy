/** Callers of the interceptor: a service method `findAll` declared to return
    a Traversable (or an Emittable) under a PlatformTransactionManager, what
    `invoke` hands back, and what a later traversal does to the trace. */
module Scenarios {
  import opened TxTypes
  import opened Dispatch
  import opened Traversal

  const FindAll := MethodRef("RowService", "findAll", TraversableType)
  const Required := DefaultAttribute(None, None)
  const Jdbc := PlatformManager("jdbc")

  /** An attribute source that configures every method alike, and a
      determineTransactionManager that always yields the JDBC manager. */
  function Configured(): Collaborators
  {
    Collaborators(Some((m: MethodRef, t: Option<ClassName>) => Some(Required)),
                  (a: Option<TxAttribute>) => Some(Jdbc))
  }

  /** The TransactionInfo every traversal of the `findAll` wrapper asks for:
      no hook identification and no descriptor, so the qualified name. */
  const FindAllInfo := TransactionInfo(Jdbc, Some(Required), "RowServiceImpl.findAll")

  /** Dispatches `findAll` on a RowServiceImpl whose body returns its row
      source, through an interceptor with Spring's own identification hook,
      and builds the wrapper `invoke` describes. */
  method DispatchFindAll() returns (interceptor: TraverseSupportInterceptor, traversable: TransactionalTraversable<string>)
    ensures fresh(interceptor) && interceptor.trace == []
    ensures traversable.interceptor == interceptor && traversable.Info() == FindAllInfo
  {
    interceptor := new TraverseSupportInterceptor((m: MethodRef, t: Option<ClassName>) => None);
    var d := Invoke(Configured(), Invocation(FindAll, Some("RowServiceImpl"), Normal(Some("rows"))), "delegated");
    assert d.returned == Traversal(Wrapper(FindAll, Some("RowServiceImpl"), "rows", Jdbc, Some(Required)));
    traversable := new TransactionalTraversable(interceptor, d.returned.wrapper);
    assert QualifiedMethodName(FindAll, Some("RowServiceImpl")) == "RowServiceImpl.findAll";
  }

  /** `findAll` returns its row source; the consumer takes some rows and then
      stops early. Nothing is begun at dispatch; the traversal then begins one
      transaction, cleans up and commits, and the early-stop result `false`
      comes back unchanged. */
  method EarlyStopCommits() returns (dispatchTrace: seq<Event>, returned: Completion<bool>, trace: seq<Event>)
    ensures dispatchTrace == []
    ensures returned == Normal(false)
    ensures trace == [Begin(FindAllInfo), Traverse, Cleanup(FindAllInfo), Commit(FindAllInfo)]
  {
    var interceptor, traversable := DispatchFindAll();
    dispatchTrace := interceptor.trace;
    returned := traversable.Sequence(Normal(false), NoFaults);
    trace := interceptor.trace;
  }

  /** The row source throws a data-access error on the second row: the
      transaction is completed after throwing with that error, cleaned up,
      never committed, and the caller gets the very same error. */
  method FailingRowRollsBack() returns (returned: Completion<bool>, trace: seq<Event>)
    ensures returned == Thrown(Throwable("DataAccessException", "row 2"))
    ensures trace == [Begin(FindAllInfo), Traverse,
                      CompleteAfterThrowing(FindAllInfo, Throwable("DataAccessException", "row 2")), Cleanup(FindAllInfo)]
  {
    var interceptor, traversable := DispatchFindAll();
    returned := traversable.Sequence(Thrown(Throwable("DataAccessException", "row 2")), NoFaults);
    trace := interceptor.trace;
  }

  /** The same wrapper traversed twice: each traversal is bracketed by a
      transaction of its own, and the second begins only after the first has
      been committed. */
  method TraversedTwice() returns (trace: seq<Event>)
    ensures trace == [Begin(FindAllInfo), Traverse, Cleanup(FindAllInfo), Commit(FindAllInfo),
                      Begin(FindAllInfo), Traverse, Cleanup(FindAllInfo), Commit(FindAllInfo)]
  {
    var interceptor, traversable := DispatchFindAll();
    var first := traversable.Sequence(Normal(true), NoFaults);
    var second := traversable.Sequence(Normal(true), NoFaults);
    trace := interceptor.trace;
  }

  /** An Emittable `findOne` whose body yields null: `invoke` returns null,
      neither wrapped nor decorated. */
  function NullEmittable(): (returned: Returned<string, string>)
    ensures returned == Null
  {
    var findOne := MethodRef("RowService", "findOne", EmittableType);
    Invoke(Configured(), Invocation(findOne, None, Normal(None)), "delegated").returned
  }
}
