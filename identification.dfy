/** The joinpoint identification handed to createTransactionIfNecessary: a
    chain of nullable candidates, the first non-null of which wins. */
module Identification {
  import opened TxTypes

  /** No candidate before index `i` is present. */
  ghost predicate AbsentBefore(candidates: seq<Option<string>>, i: nat)
    requires i <= |candidates|
  {
    forall j :: 0 <= j < i ==> candidates[j].None?
  }

  /** The first present candidate, or `fallback` when every candidate is absent. */
  function FirstPresent(candidates: seq<Option<string>>, fallback: string): (r: string)
    ensures forall i :: 0 <= i < |candidates| && candidates[i].Some? && AbsentBefore(candidates, i) ==>
              r == candidates[i].value
    ensures AbsentBefore(candidates, |candidates|) ==> r == fallback
    ensures r == fallback || exists i :: 0 <= i < |candidates| && candidates[i] == Some(r)
    decreases |candidates|
  {
    if candidates == [] then fallback
    else if candidates[0].Some? then candidates[0].value
    else FirstPresent(candidates[1..], fallback)
  }

  /** What `getDescriptor()` contributes: only a DefaultTransactionAttribute is
      asked, any other attribute (or none) contributes nothing. */
  function DescriptorOf(txAttr: Option<TxAttribute>): Option<string>
  {
    if txAttr.Some? && txAttr.value.DefaultAttribute? then txAttr.value.descriptor else None
  }

  /** The identification `methodIdentification(method, targetClass, txAttr)`
      settles on, given the generic identification the overridable hook yields
      and the qualified method name. */
  function Identify(generic: Option<string>, txAttr: Option<TxAttribute>, qualified: string): (r: string)
    ensures generic.Some? ==> r == generic.value
    ensures generic.None? && txAttr.Some? && txAttr.value.DefaultAttribute? && txAttr.value.descriptor.Some? ==>
              r == txAttr.value.descriptor.value
    ensures generic.None? && (txAttr.None? || txAttr.value.OtherAttribute? || txAttr.value.descriptor.None?) ==>
              r == qualified
  {
    var candidates := [generic, DescriptorOf(txAttr)];
    assert generic.None? ==> AbsentBefore(candidates, 1);
    FirstPresent(candidates, qualified)
  }
}
