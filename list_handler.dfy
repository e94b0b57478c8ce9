/**
 * The list dispatcher (handlers/vms.go): with a provider filter, one backend's list or its
 * error; without one, the concatenation of every backend's list, skipping backends that fail.
 */
module ListHandler {
  import opened Results
  import opened Text
  import opened Models
  import opened Providers

  const InvalidProvider: string := "Invalid provider specified"

  /** `order` lists the registry's names, each exactly once (Go's map iteration order is unspecified). */
  predicate Enumerates(order: seq<string>, registry: map<string, CloudProvider>)
  {
    && (forall i, j :: 0 <= i < j < |order| ==> order[i] != order[j])
    && Registered(order, registry)
    && (forall n :: n in registry ==> n in order)
  }

  /** Every name of `order` is registered. */
  predicate Registered(order: seq<string>, registry: map<string, CloudProvider>)
  {
    forall i :: 0 <= i < |order| ==> order[i] in registry
  }

  /** The VMs a provider contributes to the aggregate: its list, or nothing when it fails. */
  function Contribution(outcome: Result<seq<VM>>): seq<VM>
  {
    if outcome.Ok? then outcome.value else []
  }

  /** The aggregate list over the providers named in `order`, visited in that order. */
  function Aggregate(registry: map<string, CloudProvider>, order: seq<string>, listVMs: CloudProvider -> Result<seq<VM>>): seq<VM>
    requires Registered(order, registry)
    decreases |order|
  {
    if order == [] then []
    else Aggregate(registry, order[..|order| - 1], listVMs) + Contribution(listVMs(registry[order[|order| - 1]]))
  }

  /** The number of VMs the successful providers of `order` report. */
  function SuccessfulCount(registry: map<string, CloudProvider>, order: seq<string>, listVMs: CloudProvider -> Result<seq<VM>>): nat
    requires Registered(order, registry)
    decreases |order|
  {
    if order == [] then 0
    else
      var outcome := listVMs(registry[order[|order| - 1]]);
      SuccessfulCount(registry, order[..|order| - 1], listVMs) + (if outcome.Ok? then |outcome.value| else 0)
  }

  /** The response of the handler for the query parameter `provider`. */
  function ListResponse(registry: map<string, CloudProvider>, provider: string, order: seq<string>, listVMs: CloudProvider -> Result<seq<VM>>): APIResponse<seq<VM>>
    requires Registered(order, registry)
  {
    if provider != "" then
      var name := ToLower(provider);
      if name !in registry then Failure(InvalidProvider)
      else
        var outcome := listVMs(registry[name]);
        if outcome.Err? then Failure(outcome.msg) else Success(outcome.value)
    else
      Success(Aggregate(registry, order, listVMs))
  }

  /**
   * `ListVMsHandler`: the filtered branch returns early on an unknown name or a provider
   * error; the aggregate loop appends each successful list and continues past failures.
   */
  method ListVMsHandler(cm: CloudManager, provider: string, order: seq<string>, listVMs: CloudProvider -> Result<seq<VM>>)
    returns (resp: APIResponse<seq<VM>>)
    requires Enumerates(order, cm.providers)
    ensures Registered(order, cm.providers)
    ensures resp == ListResponse(cm.providers, provider, order, listVMs)
  {
    var vms: seq<VM> := [];
    if provider != "" {
      var p := cm.GetProvider(ToLower(provider));
      if p.None? {
        return Failure(InvalidProvider);
      }
      var result := listVMs(p.value);
      if result.Err? {
        return Failure(result.msg);
      }
      vms := result.value;
    } else {
      var all := cm.GetAllProviders();
      for i := 0 to |order|
        invariant vms == Aggregate(all, order[..i], listVMs)
      {
        assert order[..i + 1][..i] == order[..i];
        var result := listVMs(all[order[i]]);
        if result.Err? {
          continue;
        }
        vms := vms + result.value;
      }
      assert order[..|order|] == order;
    }
    return Success(vms);
  }

  /** An empty filter selects the aggregate, which never fails. */
  lemma AggregateNeverFails(registry: map<string, CloudProvider>, order: seq<string>, listVMs: CloudProvider -> Result<seq<VM>>)
    requires Registered(order, registry)
    ensures ListResponse(registry, "", order, listVMs).success
    ensures ListResponse(registry, "", order, listVMs).data == Some(Aggregate(registry, order, listVMs))
  {
  }

  /** A filter naming no registered provider (after lower-casing) fails with no data. */
  lemma UnknownFilterFails(registry: map<string, CloudProvider>, provider: string, order: seq<string>, listVMs: CloudProvider -> Result<seq<VM>>)
    requires Registered(order, registry)
    requires provider != "" && ToLower(provider) !in registry
    ensures ListResponse(registry, provider, order, listVMs) == APIResponse(false, None, InvalidProvider)
  {
  }

  /**
   * With a filter naming a registered provider, the response is that provider's outcome
   * verbatim: its list on success, exactly its message on error.
   */
  lemma FilteredPropagates(registry: map<string, CloudProvider>, provider: string, order: seq<string>, listVMs: CloudProvider -> Result<seq<VM>>)
    requires Registered(order, registry)
    requires provider != "" && ToLower(provider) in registry
    ensures var outcome := listVMs(registry[ToLower(provider)]);
      var resp := ListResponse(registry, provider, order, listVMs);
      && (outcome.Err? ==> resp == APIResponse(false, None, outcome.msg))
      && (outcome.Ok? ==> resp == APIResponse(true, Some(outcome.value), ""))
  {
  }

  /** The filter is lower-cased before lookup: a name and its lower-case form give the same response. */
  lemma {:induction false} FilterCaseInsensitive(registry: map<string, CloudProvider>, provider: string, order: seq<string>, listVMs: CloudProvider -> Result<seq<VM>>)
    requires Registered(order, registry)
    ensures ListResponse(registry, provider, order, listVMs) == ListResponse(registry, ToLower(provider), order, listVMs)
  {
    ToLowerIdempotent(provider);
  }

  /** The aggregate holds as many VMs as the successful providers report together. */
  lemma {:induction false} AggregateLength(registry: map<string, CloudProvider>, order: seq<string>, listVMs: CloudProvider -> Result<seq<VM>>)
    requires Registered(order, registry)
    ensures |Aggregate(registry, order, listVMs)| == SuccessfulCount(registry, order, listVMs)
    decreases |order|
  {
    if order != [] {
      AggregateLength(registry, order[..|order| - 1], listVMs);
    }
  }

  /** The aggregate over a prefix of the providers is a prefix of the aggregate. */
  lemma {:induction false} AggregatePrefix(registry: map<string, CloudProvider>, order: seq<string>, listVMs: CloudProvider -> Result<seq<VM>>, n: nat)
    requires Registered(order, registry) && n <= |order|
    ensures |Aggregate(registry, order[..n], listVMs)| <= |Aggregate(registry, order, listVMs)|
    ensures Aggregate(registry, order[..n], listVMs) == Aggregate(registry, order, listVMs)[..|Aggregate(registry, order[..n], listVMs)|]
    decreases |order| - n
  {
    if n < |order| {
      var m := |order| - 1;
      assert order[..m][..n] == order[..n];
      AggregatePrefix(registry, order[..m], listVMs, n);
    } else {
      assert order[..n] == order;
    }
  }

  /**
   * The provider at position `k` of the visiting order contributes one contiguous block,
   * starting where the providers before it end: its whole list, in its original order,
   * when it succeeds, and nothing when it fails.
   */
  lemma {:induction false} AggregateBlock(registry: map<string, CloudProvider>, order: seq<string>, listVMs: CloudProvider -> Result<seq<VM>>, k: nat)
    requires Registered(order, registry) && k < |order|
    ensures var start := |Aggregate(registry, order[..k], listVMs)|;
      var outcome := listVMs(registry[order[k]]);
      var total := Aggregate(registry, order, listVMs);
      && start + |Contribution(outcome)| <= |total|
      && total[start..start + |Contribution(outcome)|] == Contribution(outcome)
      && (outcome.Err? ==> |Aggregate(registry, order[..k + 1], listVMs)| == start)
  {
    AggregatePrefix(registry, order, listVMs, k + 1);
    assert order[..k + 1][..k] == order[..k];
  }

  /** Every aggregated VM was reported by some provider of the order that succeeded. */
  lemma {:induction false} AggregateProvenance(registry: map<string, CloudProvider>, order: seq<string>, listVMs: CloudProvider -> Result<seq<VM>>, v: VM)
    requires Registered(order, registry)
    requires v in Aggregate(registry, order, listVMs)
    ensures exists k :: 0 <= k < |order| && listVMs(registry[order[k]]).Ok? && v in listVMs(registry[order[k]]).value
    decreases |order|
  {
    var m := |order| - 1;
    if v in Aggregate(registry, order[..m], listVMs) {
      AggregateProvenance(registry, order[..m], listVMs, v);
      var k :| 0 <= k < m && listVMs(registry[order[..m][k]]).Ok? && v in listVMs(registry[order[..m][k]]).value;
      assert order[..m][k] == order[k];
    } else {
      assert listVMs(registry[order[m]]).Ok? && v in listVMs(registry[order[m]]).value;
    }
  }
}
