/**
 * The condition polled while waiting for the daemonsets of a namespace to be
 * ready: every daemonset may miss at most `allowedNotReadyNodes` ready pods.
 */
module DaemonSetReadiness {
  import opened Wrappers
  import opened GoInt

  /** The status counts of one daemonset, as listed by the API. */
  datatype DaemonSetStatus = DaemonSetStatus(
    name: string,
    desiredNumberScheduled: int32,
    numberReady: int32)

  /** An API error; `retryable` is what the retryable-API-error classifier says of it. */
  datatype ApiError = ApiError(message: string, retryable: bool)

  /** The outcome of listing the daemonsets of the namespace. */
  datatype DaemonSetList = Listed(items: seq<DaemonSetStatus>) | ListError(err: ApiError)

  /** What one evaluation of the polled condition returns: `(done, err)`. */
  datatype ConditionResult = ConditionResult(done: bool, err: Option<ApiError>)

  /** The shortfall `desired - ready`, computed in int32 as the source does. */
  function Gap(ds: DaemonSetStatus): int32 {
    Sub32(ds.desiredNumberScheduled, ds.numberReady)
  }

  /** A daemonset is not ready when its shortfall strictly exceeds the tolerance. */
  predicate NotReady(ds: DaemonSetStatus, allowed: int32) {
    Gap(ds) > allowed
  }

  /** The names of the not-ready daemonsets, in list order. */
  function NotReadyNames(items: seq<DaemonSetStatus>, allowed: int32): seq<string> {
    if |items| == 0 then []
    else
      var last := items[|items| - 1];
      NotReadyNames(items[..|items| - 1], allowed) + (if NotReady(last, allowed) then [last.name] else [])
  }

  /** The positions of the not-ready daemonsets, in list order. */
  function NotReadyIndices(items: seq<DaemonSetStatus>, allowed: int32): seq<nat> {
    if |items| == 0 then []
    else
      NotReadyIndices(items[..|items| - 1], allowed)
      + (if NotReady(items[|items| - 1], allowed) then [|items| - 1] else [])
  }

  /**
   * The positions collected are strictly increasing and are exactly those of
   * the not-ready daemonsets: each daemonset is visited once, in order.
   */
  lemma {:induction false} NotReadyIndicesExact(items: seq<DaemonSetStatus>, allowed: int32)
    ensures var idx := NotReadyIndices(items, allowed);
      (forall k :: 0 <= k < |idx| ==> idx[k] < |items|) &&
      (forall k, l :: 0 <= k < l < |idx| ==> idx[k] < idx[l]) &&
      (forall i :: 0 <= i < |items| ==> (i in idx <==> NotReady(items[i], allowed)))
  {
    if |items| > 0 {
      var n := |items| - 1;
      var prefix := items[..n];
      NotReadyIndicesExact(prefix, allowed);
      var idx' := NotReadyIndices(prefix, allowed);
      assert forall i :: 0 <= i < n ==> prefix[i] == items[i];
      assert n !in idx';
    }
  }

  /** The k-th collected name is the name of the daemonset at the k-th collected position. */
  lemma {:induction false} NotReadyNamesIndexed(items: seq<DaemonSetStatus>, allowed: int32)
    ensures var names := NotReadyNames(items, allowed);
      var idx := NotReadyIndices(items, allowed);
      |names| == |idx| &&
      forall k :: 0 <= k < |idx| ==> idx[k] < |items| && names[k] == items[idx[k]].name
  {
    NotReadyIndicesExact(items, allowed);
    if |items| > 0 {
      var n := |items| - 1;
      NotReadyNamesIndexed(items[..n], allowed);
      NotReadyIndicesExact(items[..n], allowed);
    }
  }

  /** At most one name per listed daemonset. */
  lemma {:induction false} NotReadyNamesBounded(items: seq<DaemonSetStatus>, allowed: int32)
    ensures |NotReadyNames(items, allowed)| <= |items|
  {
    var idx := NotReadyIndices(items, allowed);
    NotReadyIndicesExact(items, allowed);
    NotReadyNamesIndexed(items, allowed);
    IncreasingBelowBound(idx, |items|);
  }

  /** A strictly increasing sequence of naturals below `bound` has at most `bound` elements. */
  lemma {:induction false} IncreasingBelowBound(idx: seq<nat>, bound: nat)
    requires forall k :: 0 <= k < |idx| ==> idx[k] < bound
    requires forall k, l :: 0 <= k < l < |idx| ==> idx[k] < idx[l]
    ensures |idx| <= bound
  {
    if |idx| > 0 {
      var m := |idx| - 1;
      assert forall k :: 0 <= k < m ==> idx[..m][k] < idx[m];
      IncreasingBelowBound(idx[..m], idx[m]);
    }
  }

  /** A name is collected iff some daemonset of that name is not ready. */
  lemma {:induction false} NotReadyNamesMembership(items: seq<DaemonSetStatus>, allowed: int32, name: string)
    ensures name in NotReadyNames(items, allowed) <==>
      exists i :: 0 <= i < |items| && items[i].name == name && NotReady(items[i], allowed)
  {
    var names := NotReadyNames(items, allowed);
    var idx := NotReadyIndices(items, allowed);
    NotReadyIndicesExact(items, allowed);
    NotReadyNamesIndexed(items, allowed);
    if name in names {
      var k :| 0 <= k < |names| && names[k] == name;
      assert idx[k] in idx;
    }
    if exists i :: 0 <= i < |items| && items[i].name == name && NotReady(items[i], allowed) {
      var i :| 0 <= i < |items| && items[i].name == name && NotReady(items[i], allowed);
      assert i in idx;
      var k :| 0 <= k < |idx| && idx[k] == i;
      assert names[k] == name;
    }
  }

  /** Nothing is collected iff every daemonset is within the tolerance. */
  lemma {:induction false} NotReadyNamesEmptyIff(items: seq<DaemonSetStatus>, allowed: int32)
    ensures NotReadyNames(items, allowed) == [] <==>
      forall i :: 0 <= i < |items| ==> !NotReady(items[i], allowed)
  {
    var idx := NotReadyIndices(items, allowed);
    NotReadyIndicesExact(items, allowed);
    NotReadyNamesIndexed(items, allowed);
    if idx != [] {
      assert idx[0] in idx;
    }
  }

  /**
   * With non-negative counts the int32 subtraction is exact, so a daemonset is
   * not ready iff `desired - ready > allowed`; a gap equal to the tolerance passes.
   */
  lemma NotReadyExact(ds: DaemonSetStatus, allowed: int32)
    requires 0 <= ds.desiredNumberScheduled && 0 <= ds.numberReady
    ensures NotReady(ds, allowed) <==>
      ds.desiredNumberScheduled as int - ds.numberReady as int > allowed as int
    ensures ds.desiredNumberScheduled as int - ds.numberReady as int == allowed as int ==>
      !NotReady(ds, allowed)
  {
    Sub32NonNegativeExact(ds.desiredNumberScheduled, ds.numberReady);
  }

  /**
   * The polled condition: a retryable list error keeps polling, any other list
   * error ends the wait with that error, and a successful list is done iff no
   * daemonset was collected.
   */
  function DaemonSetsCondition(list: DaemonSetList, allowed: int32): ConditionResult {
    match list
    case ListError(e) =>
      if e.retryable then ConditionResult(false, None) else ConditionResult(false, Some(e))
    case Listed(items) =>
      if |NotReadyNames(items, allowed)| > 0 then ConditionResult(false, None)
      else ConditionResult(true, None)
  }

  /** What the condition promises the poller, for every list outcome. */
  lemma DaemonSetsConditionSound(list: DaemonSetList, allowed: int32)
    ensures var r := DaemonSetsCondition(list, allowed);
      (r.done ==> r.err.None?) &&
      (r.done <==> list.Listed? && forall i :: 0 <= i < |list.items| ==> !NotReady(list.items[i], allowed)) &&
      (list.ListError? ==> !r.done && (r.err.None? <==> list.err.retryable)) &&
      (r.err.Some? ==> list.ListError? && r.err.value == list.err)
  {
    if list.Listed? {
      NotReadyNamesEmptyIff(list.items, allowed);
    }
  }

  /** The loop of the condition: collects the names of the not-ready daemonsets. */
  method CollectNotReady(items: seq<DaemonSetStatus>, allowed: int32) returns (names: seq<string>)
    ensures names == NotReadyNames(items, allowed)
  {
    names := [];
    var i := 0;
    while i < |items|
      invariant 0 <= i <= |items|
      invariant names == NotReadyNames(items[..i], allowed)
    {
      var ds := items[i];
      assert items[..i + 1][..i] == items[..i];
      if Gap(ds) > allowed {
        names := names + [ds.name];
      }
      i := i + 1;
    }
    assert items[..|items|] == items;
  }

  /** One evaluation of the polled condition. */
  method CheckDaemonSets(list: DaemonSetList, allowed: int32) returns (done: bool, err: Option<ApiError>)
    ensures ConditionResult(done, err) == DaemonSetsCondition(list, allowed)
    ensures done <==> list.Listed? && forall i :: 0 <= i < |list.items| ==> !NotReady(list.items[i], allowed)
    ensures !done && err.None? ==> list.Listed? || list.err.retryable
  {
    match list
    case ListError(e) =>
      if e.retryable {
        return false, None;
      }
      return false, Some(e);
    case Listed(items) =>
      var notReady := CollectNotReady(items, allowed);
      NotReadyNamesEmptyIff(items, allowed);
      if |notReady| > 0 {
        return false, None;
      }
      return true, None;
  }
}
