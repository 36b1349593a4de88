/** The interceptor's transaction bookkeeping and the transactional
    Traversable it hands out: each `sequence` call opens a transaction, runs
    the wrapped traversal, and closes the transaction by commit or by
    completion after throwing. */
module Traversal {
  import opened TxTypes
  import opened Identification
  import Dispatch

  /** Spring's TransactionInfo, as far as this model needs it: what it was
      created from. */
  datatype TransactionInfo = TransactionInfo(
    transactionManager: TransactionManager,
    txAttr: Option<TxAttribute>,
    joinpointIdentification: string)

  /** One entry of the interceptor's trace. */
  datatype Event =
    | Begin(info: TransactionInfo)                       // createTransactionIfNecessary returned
    | BeginFailed(info: TransactionInfo, error: Throwable)  // createTransactionIfNecessary threw
    | Traverse                                           // the wrapped TraverseSupport.sequence runs
    | CompleteAfterThrowing(info: TransactionInfo, ex: Throwable)  // completeTransactionAfterThrowing
    | Cleanup(info: TransactionInfo)                     // cleanupTransactionInfo
    | Commit(info: TransactionInfo)                      // commitTransactionAfterReturning

  /** Which of the transaction-support calls throw, and what: Spring's
      behaviour for this one `sequence` call. */
  datatype ManagerFaults = ManagerFaults(
    begin: Option<Throwable>,
    completeAfterThrowing: Option<Throwable>,
    commit: Option<Throwable>)

  const NoFaults := ManagerFaults(None, None, None)

  /** The events one `sequence` call appends, given the TransactionInfo its
      createTransactionIfNecessary call is made for, how the wrapped traversal
      ends and which transaction-support calls throw. Cleanup runs in the
      `finally` block, so on the normal path it precedes the commit. */
  function SequenceTrace(info: TransactionInfo, inner: Completion<bool>, faults: ManagerFaults): seq<Event>
  {
    if faults.begin.Some? then [BeginFailed(info, faults.begin.value)]
    else
      match inner
      case Normal(_) => [Begin(info), Traverse, Cleanup(info), Commit(info)]
      case Thrown(ex) => [Begin(info), Traverse, CompleteAfterThrowing(info, ex), Cleanup(info)]
  }

  /** Exactly one transaction is begun, before anything else, and every
      transaction-support call of the `sequence` call is made for that same
      TransactionInfo. */
  lemma SequenceBeginsOnce(info: TransactionInfo, inner: Completion<bool>, faults: ManagerFaults)
    ensures var t := SequenceTrace(info, inner, faults);
            |t| > 0 && (t[0].Begin? <==> faults.begin.None?) && (t[0].BeginFailed? <==> faults.begin.Some?) &&
            (forall i :: 0 < i < |t| ==> !t[i].Begin? && !t[i].BeginFailed?) &&
            (forall i :: 0 <= i < |t| && !t[i].Traverse? ==> t[i].info == info)
  {
  }

  /** When beginning throws nothing else happens; otherwise the wrapped
      traversal runs exactly once, right after the begin. */
  lemma SequenceTraversesOnce(info: TransactionInfo, inner: Completion<bool>, faults: ManagerFaults)
    ensures var t := SequenceTrace(info, inner, faults);
            (faults.begin.Some? ==> t == [BeginFailed(info, faults.begin.value)]) &&
            (faults.begin.None? ==> |t| > 1 && t[1] == Traverse && multiset(t)[Traverse] == 1)
  {
  }

  /** Once a transaction is begun, cleanup runs exactly once, on either path. */
  lemma SequenceCleansUpOnce(info: TransactionInfo, inner: Completion<bool>, faults: ManagerFaults)
    ensures var t := SequenceTrace(info, inner, faults);
            (faults.begin.None? ==> multiset(t)[Cleanup(info)] == 1) &&
            (faults.begin.Some? ==> Cleanup(info) !in t)
  {
  }

  /** Commit happens iff the traversal completed normally, early stop
      included; it is then the last call, right after cleanup. */
  lemma SequenceCommitsIffNormal(info: TransactionInfo, inner: Completion<bool>, faults: ManagerFaults)
    ensures var t := SequenceTrace(info, inner, faults);
            (Commit(info) in t <==> faults.begin.None? && inner.Normal?) &&
            (Commit(info) in t ==> |t| > 1 && t[|t| - 1] == Commit(info) && t[|t| - 2] == Cleanup(info))
  {
  }

  /** Completion after throwing happens iff the traversal threw, and with that
      very error; cleanup is then the last call and no commit happens. */
  lemma SequenceCompletesIffThrown(info: TransactionInfo, inner: Completion<bool>, faults: ManagerFaults)
    ensures var t := SequenceTrace(info, inner, faults);
            ((exists i :: 0 <= i < |t| && t[i].CompleteAfterThrowing?) <==> faults.begin.None? && inner.Thrown?) &&
            (forall i :: 0 <= i < |t| && t[i].CompleteAfterThrowing? ==> t[i].ex == inner.error) &&
            (faults.begin.None? && inner.Thrown? ==> t[|t| - 1] == Cleanup(info) && Commit(info) !in t)
  {
    var t := SequenceTrace(info, inner, faults);
    if faults.begin.None? && inner.Thrown? {
      assert t[2].CompleteAfterThrowing?;
    }
  }

  /** How one `sequence` call ends. */
  function SequenceResult(inner: Completion<bool>, faults: ManagerFaults): (r: Completion<bool>)
    // A normal result is always the traversal's own boolean, unchanged.
    ensures r.Normal? ==> inner == r
    // An error of the traversal is never swallowed.
    ensures inner.Thrown? ==> r.Thrown?
    // With no transaction-support call throwing, the traversal's outcome is
    // relayed verbatim: its boolean, or the very same error.
    ensures faults.begin.None? && faults.completeAfterThrowing.None? && inner.Thrown? ==> r == inner
    ensures faults.begin.None? && faults.commit.None? && inner.Normal? ==> r == inner
    // An error from the transaction-support calls propagates unchanged.
    ensures faults.begin.Some? ==> r == Thrown(faults.begin.value)
    ensures faults.begin.None? && inner.Thrown? && faults.completeAfterThrowing.Some? ==>
              r == Thrown(faults.completeAfterThrowing.value)
    ensures faults.begin.None? && inner.Normal? && faults.commit.Some? ==> r == Thrown(faults.commit.value)
  {
    if faults.begin.Some? then Thrown(faults.begin.value)
    else
      match inner
      case Normal(b) => if faults.commit.Some? then Thrown(faults.commit.value) else Normal(b)
      case Thrown(ex) => if faults.completeAfterThrowing.Some? then Thrown(faults.completeAfterThrowing.value) else Thrown(ex)
  }

  /** How an event changes the number of open transactions: a successful
      begin opens one; commit and completion after throwing each end one. */
  function Opens(e: Event): int
  {
    match e
    case Begin(_) => 1
    case Commit(_) => -1
    case CompleteAfterThrowing(_, _) => -1
    case _ => 0
  }

  /** The number of transactions begun and not yet ended in `t`. */
  function OpenTransactions(t: seq<Event>): int
  {
    if t == [] then 0 else OpenTransactions(t[..|t| - 1]) + Opens(t[|t| - 1])
  }

  /** Counting open transactions distributes over concatenated traces. */
  lemma {:induction false} OpenTransactionsAppend(a: seq<Event>, b: seq<Event>)
    ensures OpenTransactions(a + b) == OpenTransactions(a) + OpenTransactions(b)
    decreases |b|
  {
    if b == [] {
      assert a + b == a;
    } else {
      assert (a + b)[..|a + b| - 1] == a + b[..|b| - 1];
      OpenTransactionsAppend(a, b[..|b| - 1]);
    }
  }

  lemma OpenTransactionsStep(t: seq<Event>, k: nat)
    requires k < |t|
    ensures OpenTransactions(t[..k + 1]) == OpenTransactions(t[..k]) + Opens(t[k])
  {
    assert t[..k + 1][..k] == t[..k];
  }

  /** A `sequence` call holds at most one transaction open at any point, holds
      it open while the wrapped traversal runs, and has ended it by the time it
      returns or throws. */
  lemma SequenceTransactionSpan(info: TransactionInfo, inner: Completion<bool>, faults: ManagerFaults)
    ensures var t := SequenceTrace(info, inner, faults);
            OpenTransactions(t) == 0 &&
            (forall k :: 0 <= k <= |t| ==> 0 <= OpenTransactions(t[..k]) <= 1) &&
            (forall k :: 0 <= k < |t| && t[k].Traverse? ==> OpenTransactions(t[..k]) == 1)
  {
    var t := SequenceTrace(info, inner, faults);
    assert t[..0] == [] && t[..|t|] == t;
    OpenTransactionsStep(t, 0);
    if faults.begin.None? {
      OpenTransactionsStep(t, 1);
      OpenTransactionsStep(t, 2);
      OpenTransactionsStep(t, 3);
    }
  }

  /** Appending one `sequence` call's events changes no count of open
      transactions: no transaction outlives the call that began it. */
  lemma SequenceKeepsTransactionsClosed(before: seq<Event>, info: TransactionInfo, inner: Completion<bool>, faults: ManagerFaults)
    ensures OpenTransactions(before + SequenceTrace(info, inner, faults)) == OpenTransactions(before)
  {
    OpenTransactionsAppend(before, SequenceTrace(info, inner, faults));
    SequenceTransactionSpan(info, inner, faults);
  }

  /** Four events appended one at a time are the four appended at once. */
  lemma AppendFour(s: seq<Event>, a: Event, b: Event, c: Event, d: Event)
    ensures s + [a] + [b] + [c] + [d] == s + [a, b, c, d]
  {
  }

  /** The part of TraverseSupportTransactionInterceptor that the transactional
      traversal calls back into. */
  class TraverseSupportInterceptor {
    /** Every call made to the transaction support, and every run of a
        wrapped traversal, in order. */
    var trace: seq<Event>
    /** TransactionAspectSupport's overridable methodIdentification(Method,
        Class) hook; Spring's own yields null. */
    const identificationHook: (MethodRef, Option<ClassName>) -> Option<string>

    constructor (identificationHook: (MethodRef, Option<ClassName>) -> Option<string>)
      ensures trace == [] && this.identificationHook == identificationHook
    {
      trace := [];
      this.identificationHook := identificationHook;
    }

    /** The identification of the joinpoint: the hook's, else the descriptor
        of a DefaultTransactionAttribute, else the qualified method name. */
    method MethodIdentification(methodRef: MethodRef, targetClass: Option<ClassName>, txAttr: Option<TxAttribute>)
      returns (identification: string)
      ensures identification == Identify(identificationHook(methodRef, targetClass), txAttr,
                                         QualifiedMethodName(methodRef, targetClass))
    {
      var id := identificationHook(methodRef, targetClass);
      if id.None? {
        if txAttr.Some? && txAttr.value.DefaultAttribute? {
          id := txAttr.value.descriptor;
        }
        if id.None? {
          id := Some(QualifiedMethodName(methodRef, targetClass));
        }
      }
      identification := id.value;
    }

    /** Spring's createTransactionIfNecessary: its call is recorded, and
        `fault` is what it throws, if anything. */
    method CreateTransactionIfNecessary(tm: TransactionManager, txAttr: Option<TxAttribute>,
                                        joinpointIdentification: string, fault: Option<Throwable>)
      returns (created: Completion<TransactionInfo>)
      modifies this
      ensures var info := TransactionInfo(tm, txAttr, joinpointIdentification);
              if fault.Some? then trace == old(trace) + [BeginFailed(info, fault.value)] && created == Thrown(fault.value)
              else trace == old(trace) + [Begin(info)] && created == Normal(info)
    {
      var info := TransactionInfo(tm, txAttr, joinpointIdentification);
      if fault.Some? {
        trace := trace + [BeginFailed(info, fault.value)];
        created := Thrown(fault.value);
      } else {
        trace := trace + [Begin(info)];
        created := Normal(info);
      }
    }

    /** Spring's completeTransactionAfterThrowing (rollback, or commit when
        the attribute says the error does not roll back); `fault` is what it
        throws, if anything. */
    method CompleteTransactionAfterThrowing(info: TransactionInfo, ex: Throwable, fault: Option<Throwable>)
      returns (raised: Option<Throwable>)
      modifies this
      ensures trace == old(trace) + [CompleteAfterThrowing(info, ex)] && raised == fault
    {
      trace := trace + [CompleteAfterThrowing(info, ex)];
      raised := fault;
    }

    /** Spring's cleanupTransactionInfo: restores the thread-bound
        TransactionInfo; it does not throw. */
    method CleanupTransactionInfo(info: TransactionInfo)
      modifies this
      ensures trace == old(trace) + [Cleanup(info)]
    {
      trace := trace + [Cleanup(info)];
    }

    /** Spring's commitTransactionAfterReturning; `fault` is what it throws,
        if anything. */
    method CommitTransactionAfterReturning(info: TransactionInfo, fault: Option<Throwable>)
      returns (raised: Option<Throwable>)
      modifies this
      ensures trace == old(trace) + [Commit(info)] && raised == fault
    {
      trace := trace + [Commit(info)];
      raised := fault;
    }
  }

  /** The Traversable `invoke` returns for a deferred call. It holds no
      mutable state of its own: every `sequence` call is bracketed by its own
      transaction in the owning interceptor. */
  class TransactionalTraversable<S> {
    const interceptor: TraverseSupportInterceptor
    const methodRef: MethodRef
    const targetClass: Option<ClassName>
    const traverseSupport: S
    const transactionManager: TransactionManager
    const txAttr: Option<TxAttribute>

    constructor (interceptor: TraverseSupportInterceptor, w: Dispatch.Wrapper<S>)
      ensures this.interceptor == interceptor && methodRef == w.methodRef && targetClass == w.targetClass
      ensures traverseSupport == w.traverseSupport && transactionManager == w.transactionManager && txAttr == w.txAttr
    {
      this.interceptor := interceptor;
      methodRef := w.methodRef;
      targetClass := w.targetClass;
      traverseSupport := w.traverseSupport;
      transactionManager := w.transactionManager;
      txAttr := w.txAttr;
    }

    /** The TransactionInfo each `sequence` call asks for. */
    function Info(): TransactionInfo
    {
      TransactionInfo(transactionManager, txAttr,
        Identify(interceptor.identificationHook(methodRef, targetClass), txAttr, QualifiedMethodName(methodRef, targetClass)))
    }

    /** One traversal, where `inner` is how the wrapped traversal ends for the
        consumer's traverser and `faults` says which transaction-support calls
        throw. */
    method Sequence(inner: Completion<bool>, faults: ManagerFaults) returns (r: Completion<bool>)
      modifies interceptor
      ensures interceptor.trace == old(interceptor.trace) + SequenceTrace(Info(), inner, faults)
      ensures r == SequenceResult(inner, faults)
      ensures OpenTransactions(interceptor.trace) == OpenTransactions(old(interceptor.trace))
    {
      ghost var before := interceptor.trace;
      ghost var info := Info();
      SequenceKeepsTransactionsClosed(before, info, inner, faults);
      var identification := interceptor.MethodIdentification(methodRef, targetClass, txAttr);
      var created := interceptor.CreateTransactionIfNecessary(transactionManager, txAttr, identification, faults.begin);
      if created.Thrown? {
        assert interceptor.trace == before + [BeginFailed(info, faults.begin.value)];
        return Thrown(created.error);
      }
      var transactionInfo := created.value;
      assert transactionInfo == info;
      // inside the try block: the wrapped traversal runs
      interceptor.trace := interceptor.trace + [Traverse];
      if inner.Thrown? {
        // the catch block, for any Throwable
        var raised := interceptor.CompleteTransactionAfterThrowing(transactionInfo, inner.error, faults.completeAfterThrowing);
        // the finally block
        interceptor.CleanupTransactionInfo(transactionInfo);
        AppendFour(before, Begin(info), Traverse, CompleteAfterThrowing(info, inner.error), Cleanup(info));
        if raised.Some? {
          return Thrown(raised.value);
        }
        // the same error is rethrown, unchecked
        return Thrown(inner.error);
      }
      var result := inner.value;
      // the finally block, before the commit
      interceptor.CleanupTransactionInfo(transactionInfo);
      var raised := interceptor.CommitTransactionAfterReturning(transactionInfo, faults.commit);
      AppendFour(before, Begin(info), Traverse, Cleanup(info), Commit(info));
      if raised.Some? {
        return Thrown(raised.value);
      }
      return Normal(result);
    }
  }
}
