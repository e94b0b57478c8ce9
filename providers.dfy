/**
 * The backend registry (providers/provider.go): a name-to-provider table built at start-up
 * from whichever backends could be constructed.
 */
module Providers {
  import opened Results

  /** The concrete Go type behind a `CloudProvider` interface value. */
  datatype ProviderKind = Azure | AWS | GCP | HyperV | ProxmoxVE | VSphere | Nutanix

  /**
   * A provider instance: its dynamic type and an identity standing for the object it refers to.
   * A nil interface value is `None` wherever one may occur; a typed nil pointer inside a
   * non-nil interface value is not represented.
   */
  datatype CloudProvider = CloudProvider(kind: ProviderKind, instance: nat)

  /** `CloudManager`: the registry, a map updated in place by registration. */
  class CloudManager {
    var providers: map<string, CloudProvider>

    /** `NewCloudManager`: a registry with no entries. */
    constructor ()
      ensures providers == map[]
    {
      providers := map[];
    }

    /**
     * `RegisterProvider`: a nil interface value is ignored; otherwise the entry for `name` is set
     * to `provider`, replacing any earlier one (last write wins), and no other name changes.
     */
    method RegisterProvider(name: string, provider: Option<CloudProvider>)
      modifies this
      ensures providers == if provider.Some? then old(providers)[name := provider.value] else old(providers)
      ensures provider.Some? ==> GetProvider(name) == provider
      ensures provider.None? ==> providers == old(providers)
      ensures forall n :: n != name ==> GetProvider(n) == old(GetProvider(n))
      ensures name in old(providers) ==> |providers| == |old(providers)|
    {
      if provider.Some? {
        providers := providers[name := provider.value];
      }
    }

    /** `GetProvider`: the entry registered under exactly `name` (no case folding), or nil. */
    function GetProvider(name: string): (p: Option<CloudProvider>)
      reads this
      ensures p.Some? <==> name in providers
      ensures p.Some? ==> p.value == providers[name]
    {
      if name in providers then Some(providers[name]) else None
    }

    /** `GetAllProviders`: exactly the current registered map. */
    function GetAllProviders(): (all: map<string, CloudProvider>)
      reads this
      ensures all == providers
    {
      providers
    }
  }

  /**
   * Registering `n` twice leaves one entry, holding the later provider; names registered
   * in between under other keys are untouched.
   */
  method RegisterTwice(cm: CloudManager, n: string, first: CloudProvider, second: CloudProvider)
    modifies cm
    ensures cm.GetProvider(n) == Some(second)
    ensures cm.providers.Keys == old(cm.providers.Keys) + {n}
    ensures forall m :: m != n ==> cm.GetProvider(m) == old(cm.GetProvider(m))
  {
    cm.RegisterProvider(n, Some(first));
    cm.RegisterProvider(n, Some(second));
  }

  /**
   * The start-up wiring of main.go: each of azure, aws and gcp is registered only when its
   * constructor reported it usable, so an unusable backend is absent rather than present.
   */
  method RegisterEnabled(azure: Option<CloudProvider>, aws: Option<CloudProvider>, gcp: Option<CloudProvider>)
    returns (cm: CloudManager)
    ensures fresh(cm)
    ensures cm.providers.Keys <= {"azure", "aws", "gcp"}
    ensures cm.GetProvider("azure") == azure
    ensures cm.GetProvider("aws") == aws
    ensures cm.GetProvider("gcp") == gcp
  {
    cm := new CloudManager();
    if azure.Some? {
      cm.RegisterProvider("azure", azure);
    }
    if aws.Some? {
      cm.RegisterProvider("aws", aws);
    }
    if gcp.Some? {
      cm.RegisterProvider("gcp", gcp);
    }
  }
}
