# Transactional traversal interceptor — a Dafny model

This project models `TraverseSupportTransactionInterceptor`, the Spring
`TransactionInterceptor` that lets a service method declared to return a
`Traversable` or an `Emittable` (a lazy, consumer-driven sequence) take part in
declarative transactions. The transaction is not opened when the method returns.
It is opened when a consumer later traverses the returned value. The model has
three parts:

- **Dispatch** (`dispatch.dfy`, module `Dispatch`): the decision `invoke` makes.
  It is a pure function of the declared return type, the attribute source, the
  manager that `determineTransactionManager` resolves, how `proceed()` ends, and
  the outcome of the standard interceptor. It returns the calls `invoke` makes,
  in order, and what the caller gets back: the standard interceptor's outcome,
  null, the transactional wrapper, the wrapper decorated by `emittable(...)`, or
  the error `proceed()` threw.
- **Identification** (`identification.dfy`, module `Identification`): the
  private `methodIdentification(method, targetClass, txAttr)` fallback chain.
- **Bracketing** (`traversal.dfy`, module `Traversal`): the class
  `TraverseSupportInterceptor` keeps a mutable `trace`. The trace records every
  call to Spring's transaction support and every run of a wrapped traversal.
  `TransactionalTraversable.Sequence` appends to that trace in the order of the
  Java code's begin/try/catch/finally/commit. It is proved against the
  specification functions `SequenceTrace` and `SequenceResult`, and the
  ordering, exactly-once and relay properties are proved about those functions.
- `types.dfy` (module `TxTypes`) holds the shared values. `scenarios.dfy`
  (module `Scenarios`) holds callers that go through dispatch and traversal:
  an early stop that commits, a failing row that is completed after throwing,
  two traversals of one wrapper, and a null Emittable result.

The wrapped traversal is not run. Its outcome for the consumer's traverser is
a parameter of `Sequence`: a normal boolean, where `false` means the consumer
stopped early, or a thrown error. The outcomes of Spring's transaction-support
calls are also parameters (`ManagerFaults`): each call either returns or
throws a given error.

The code is followed where the two differ. After a normal traversal, the code
cleans up the transaction info in its `finally` block before it calls
`commitTransactionAfterReturning`. A description that commits first and cleans
up afterwards does not match the code. The model uses the code's order:
begin, traverse, cleanup, commit.

## Model

| member | source | states |
|---|---|---|
| Identification.FirstPresent | src/main/java/org/moodminds/spring/transaction/interceptor/TraverseSupportTransactionInterceptor.java:90-98 | The result is the value of the first non-null candidate, or the fallback when every candidate is null; it is always a candidate's value or the fallback |
| Identification.Identify | src/main/java/org/moodminds/spring/transaction/interceptor/TraverseSupportTransactionInterceptor.java:90-98 | The identification is the generic one when that is non-null; otherwise the descriptor when the attribute is a DefaultTransactionAttribute with a non-null descriptor; otherwise the qualified method name |
| Traversal.TraverseSupportInterceptor.MethodIdentification | src/main/java/org/moodminds/spring/transaction/interceptor/TraverseSupportTransactionInterceptor.java:90-98 | Reassigning the local step by step yields exactly the three-step fallback of `Identify`, over the hook's identification and the qualified method name |
| Dispatch.Invoke | src/main/java/org/moodminds/spring/transaction/interceptor/TraverseSupportTransactionInterceptor.java:50-72 | When the call is not taken over (return type neither Traversable nor Emittable, or the manager is not a PlatformTransactionManager), the standard interceptor is called once, last, `proceed()` is never called, and the standard outcome is returned unchanged. When it is taken over, `proceed()` is called once, last, the standard interceptor is not called, and the result is handled as `Deferred` states |
| Dispatch.Deferred | src/main/java/org/moodminds/spring/transaction/interceptor/TraverseSupportTransactionInterceptor.java:61-68 | A null raw result gives null, an error thrown by `proceed()` is relayed unchanged, and a non-null raw result gives the wrapper over exactly the method, target class, raw result, platform manager and attribute; the wrapper is decorated as Emittable iff the declared type is Emittable |
| Dispatch.OrdinaryMethodDelegates | src/main/java/org/moodminds/spring/transaction/interceptor/TraverseSupportTransactionInterceptor.java:51-71 | For a return type that is neither Traversable nor Emittable, the only call is the delegation and its outcome is returned unchanged |
| Dispatch.AttributeLookedUpOnlyForTraverseTypes | src/main/java/org/moodminds/spring/transaction/interceptor/TraverseSupportTransactionInterceptor.java:55-58 | The attribute source is consulted iff the return type is Traversable or Emittable and a source exists |
| Dispatch.NullRawResultIsReturnedAsNull | src/main/java/org/moodminds/spring/transaction/interceptor/TraverseSupportTransactionInterceptor.java:61-68 | A taken-over call whose body returns null returns null, for Emittable as for Traversable: nothing is wrapped or decorated |
| Traversal.SequenceBeginsOnce | src/main/java/org/moodminds/spring/transaction/interceptor/TraverseSupportTransactionInterceptor.java:135-136 | A traversal makes exactly one begin call, before anything else, and every transaction-support call it makes uses that begin's TransactionInfo |
| Traversal.SequenceTraversesOnce | src/main/java/org/moodminds/spring/transaction/interceptor/TraverseSupportTransactionInterceptor.java:135-141 | When the begin call throws, nothing else happens; otherwise the wrapped traversal runs exactly once, right after the begin |
| Traversal.SequenceCleansUpOnce | src/main/java/org/moodminds/spring/transaction/interceptor/TraverseSupportTransactionInterceptor.java:140-147 | Once the transaction is begun, cleanup runs exactly once on either path; without a begun transaction there is no cleanup |
| Traversal.SequenceCommitsIffNormal | src/main/java/org/moodminds/spring/transaction/interceptor/TraverseSupportTransactionInterceptor.java:140-151 | Commit happens iff the traversal completed normally (early stop included); it is then the last call and comes right after cleanup |
| Traversal.SequenceCompletesIffThrown | src/main/java/org/moodminds/spring/transaction/interceptor/TraverseSupportTransactionInterceptor.java:142-147 | Completion after throwing happens iff the traversal threw, and it is passed that very error; cleanup is then the last call and there is no commit |
| Traversal.SequenceResult | src/main/java/org/moodminds/spring/transaction/interceptor/TraverseSupportTransactionInterceptor.java:138-151 | A normal result is always the traversal's own boolean, and a traversal error is never swallowed. With no manager call throwing, the outcome is relayed verbatim. An error thrown by begin, by completion after throwing or by commit propagates unchanged |
| Traversal.SequenceTransactionSpan | src/main/java/org/moodminds/spring/transaction/interceptor/TraverseSupportTransactionInterceptor.java:134-152 | During one traversal call at most one transaction is open at any point, one is open while the wrapped traversal runs, and none is open when the call ends |
| Traversal.SequenceKeepsTransactionsClosed | src/main/java/org/moodminds/spring/transaction/interceptor/TraverseSupportTransactionInterceptor.java:134-152 | Appending one traversal call's events to any trace leaves the number of open transactions unchanged, so no transaction outlives the call that began it |
| Traversal.TraverseSupportInterceptor.CreateTransactionIfNecessary | src/main/java/org/moodminds/spring/transaction/interceptor/TraverseSupportTransactionInterceptor.java:135-136 | Records a begin for the manager, attribute and identification, and returns the TransactionInfo they make, or throws the given fault and records that the begin failed |
| Traversal.TraverseSupportInterceptor.CompleteTransactionAfterThrowing | src/main/java/org/moodminds/spring/transaction/interceptor/TraverseSupportTransactionInterceptor.java:143 | Records completion after throwing for the TransactionInfo and the error, and throws the given fault if there is one |
| Traversal.TraverseSupportInterceptor.CleanupTransactionInfo | src/main/java/org/moodminds/spring/transaction/interceptor/TraverseSupportTransactionInterceptor.java:146 | Records one cleanup for the TransactionInfo and changes nothing else |
| Traversal.TraverseSupportInterceptor.CommitTransactionAfterReturning | src/main/java/org/moodminds/spring/transaction/interceptor/TraverseSupportTransactionInterceptor.java:149 | Records one commit for the TransactionInfo, and throws the given fault if there is one |
| Traversal.TransactionalTraversable.constructor | src/main/java/org/moodminds/spring/transaction/interceptor/TraverseSupportTransactionInterceptor.java:124-131 | The wrapper keeps exactly the method, target class, raw result, manager and attribute that dispatch captured |
| Traversal.TransactionalTraversable.Sequence | src/main/java/org/moodminds/spring/transaction/interceptor/TraverseSupportTransactionInterceptor.java:134-152 | The interceptor's trace grows by exactly `SequenceTrace` for this wrapper's TransactionInfo, the result is `SequenceResult`, and the count of open transactions is the same as before the call |
| Scenarios.DispatchFindAll | src/main/java/org/moodminds/spring/transaction/interceptor/TraverseSupportTransactionInterceptor.java:55-65 | Dispatching a Traversable method under a platform manager yields a wrapper whose TransactionInfo uses the qualified method name, and the trace stays empty |
| Scenarios.EarlyStopCommits | src/main/java/org/moodminds/spring/transaction/interceptor/TraverseSupportTransactionInterceptor.java:134-152 | Nothing is begun at dispatch. A traversal that stops early records begin, traverse, cleanup, commit, and returns `false` |
| Scenarios.FailingRowRollsBack | src/main/java/org/moodminds/spring/transaction/interceptor/TraverseSupportTransactionInterceptor.java:142-146 | A traversal that throws records begin, traverse, completion after throwing with that error, cleanup, and rethrows the very same error |
| Scenarios.TraversedTwice | src/main/java/org/moodminds/spring/transaction/interceptor/TraverseSupportTransactionInterceptor.java:134-152 | Two traversals of one wrapper each get their own complete begin/cleanup/commit bracket, one after the other |
| Scenarios.NullEmittable | src/main/java/org/moodminds/spring/transaction/interceptor/TraverseSupportTransactionInterceptor.java:61-67 | An Emittable method whose body returns null gets null back |

## Left out

- `TraverseSupportTransactionAdvisory` is not part of this model. It is bean wiring that registers the advice.
- The interceptor's constructor and the getters `getTransactionManager` and `getTransactionAttributeSource` are not modelled. They only delegate to the inner interceptor. The attribute source they yield is an input of `Dispatch.Invoke`.
- Spring's `createTransactionIfNecessary`, `completeTransactionAfterThrowing`, `cleanupTransactionInfo`, `commitTransactionAfterReturning`, `determineTransactionManager` and attribute resolution are foreign library calls. The model records them as events, or takes their results as inputs, and each call may return or throw. Propagation, isolation, timeouts and the thread-bound TransactionInfo are not modelled.
- Errors thrown by the attribute source or by `determineTransactionManager` are not modelled. Both are total functions in the model. In the code such an error would propagate out of `invoke`.
- Reflection is replaced by values. The declared return type is a tag. The class of `getThis()` is an optional class name. `getQualifiedMethodName` is modelled as Spring's ClassUtils defines it: the given class, else the declaring class, then a dot and the method name. The overridable `methodIdentification(Method, Class)` hook is a function field, and Spring's own version returns null.
- The unchecked rethrow mechanism is not modelled. The same error value is handed on.
- Element production inside the wrapped traversal and the consumer's traverser are not modelled. The wrapped traversal's outcome is a parameter. The rows themselves are not modelled, so the scenarios do not count delivered elements.
- The `emittable(...)` decoration is a tag on the returned value. What the decorated object does is not modelled.
- A commit or completion after throwing that throws still counts as ending its transaction in `OpenTransactions`. What Spring leaves behind after such a failure is not modelled.
