/**
 * Azure create resolution (handlers/vm_create_azure.go): size mapping, resource-group and
 * location defaulting, the fixed image key, and the image reference parser.
 */
module AzureCreate {
  import opened Results
  import opened Text
  import opened Config
  import opened Providers
  import opened CreateRequest

  datatype ImageReference = ImageReference(publisher: string, offer: string, sku: string, version: string)

  /** The well-known reference used when the configured one is not four parts. */
  const FallbackImage: ImageReference := ImageReference("Canonical", "UbuntuServer", "18.04-LTS", "latest")

  /** The image key the helper always uses, whatever the request says. */
  const ImageKey: string := "ubuntu18"

  /** `armcompute.VirtualMachine` as far as the helper fills it in. */
  datatype VirtualMachine = VirtualMachine(
    location: string,
    vmSize: string,
    imageReference: ImageReference,
    osDiskCreateFromImage: bool,
    osDiskSizeGB: int,
    computerName: string,
    adminUsername: string,
    adminPassword: string,
    nicID: string,
    nicPrimary: bool)

  /** The arguments of `AzureProvider.CreateVM`. */
  datatype AzureCreateCall = AzureCreateCall(resourceGroup: string, vmName: string, parameters: VirtualMachine)

  /** How the vendor's long-running create ended (providers/azure.go), an input of the model. */
  datatype AzureOutcome = Created | BeginFailed(beginError: string) | PollFailed(pollError: string)

  /**
   * `parseAzureImageReference`: a "Publisher:Offer:SKU:Version" string of exactly four
   * ':'-separated parts gives those parts in order; any other part count the fallback.
   */
  function ParseAzureImageReference(ref: string): (r: ImageReference)
    ensures |Split(ref, ':')| == 4 ==> r == ImageReference(Split(ref, ':')[0], Split(ref, ':')[1], Split(ref, ':')[2], Split(ref, ':')[3])
    ensures |Split(ref, ':')| != 4 ==> r == FallbackImage
  {
    var parts := Split(ref, ':');
    if |parts| != 4 then FallbackImage
    else ImageReference(parts[0], parts[1], parts[2], parts[3])
  }

  /** A four-part reference round-trips: joining the parsed fields with ':' gives back the input. */
  lemma {:induction false} ImageReferenceRoundTrip(ref: string)
    requires |Split(ref, ':')| == 4
    ensures var r := ParseAzureImageReference(ref);
      Join([r.publisher, r.offer, r.sku, r.version], ':') == ref
  {
    var parts := Split(ref, ':');
    assert parts == [parts[0], parts[1], parts[2], parts[3]];
    JoinSplit(ref, ':');
  }

  /** Four colon-free fields joined with ':' parse back to exactly those fields. */
  lemma {:induction false} ImageReferenceFromParts(publisher: string, offer: string, sku: string, version: string)
    requires Free(publisher, ':') && Free(offer, ':') && Free(sku, ':') && Free(version, ':')
    ensures ParseAzureImageReference(Join([publisher, offer, sku, version], ':')) == ImageReference(publisher, offer, sku, version)
  {
    var parts := [publisher, offer, sku, version];
    SplitJoin(parts, ':');
  }

  /** The empty string and a string without ':' both fall back to the fixed reference. */
  lemma {:induction false} ImageReferenceFallback(ref: string)
    requires Free(ref, ':')
    ensures ParseAzureImageReference(ref) == FallbackImage
  {
    SplitFree(ref, ':');
  }

  /** The call the helper builds from the request and the Azure mapping table. */
  function AzureCall(req: CreateVMRequest, m: AzureMapping): AzureCreateCall
  {
    var image := if ImageKey in m.customImages then m.customImages[ImageKey] else "";
    AzureCreateCall(
      OrDefault(req.resourceGroupName, m.defaultResourceGroup),
      req.vmName,
      VirtualMachine(
        OrDefault(req.location, m.defaultLocation),
        Resolve(m.customVMSizes, req.vmSize),
        ParseAzureImageReference(image),
        true, 30,
        req.vmName, req.adminUsername, req.adminPassword,
        req.nicID, true))
  }

  /**
   * The local-by-local resolution of `createAzureVM`: the size, resource group and location
   * start from the request and are replaced by the table's entry or default; the image
   * reference comes from the fixed key.
   */
  method BuildAzureCall(req: CreateVMRequest, m: AzureMapping) returns (call: AzureCreateCall)
    ensures call == AzureCall(req, m)
    ensures ToLower(req.vmSize) in m.customVMSizes ==> call.parameters.vmSize == m.customVMSizes[ToLower(req.vmSize)]
    ensures ToLower(req.vmSize) !in m.customVMSizes ==> call.parameters.vmSize == req.vmSize
    ensures call.resourceGroup == (if req.resourceGroupName != "" then req.resourceGroupName else m.defaultResourceGroup)
    ensures call.parameters.location == (if req.location != "" then req.location else m.defaultLocation)
    ensures ImageKey !in m.customImages ==> call.parameters.imageReference == FallbackImage
  {
    var actualSize := req.vmSize;
    var lowered := ToLower(req.vmSize);
    if lowered in m.customVMSizes {
      actualSize := m.customVMSizes[lowered];
    }
    var resourceGroup := req.resourceGroupName;
    if resourceGroup == "" {
      resourceGroup := m.defaultResourceGroup;
    }
    var location := req.location;
    if location == "" {
      location := m.defaultLocation;
    }
    var actualImageRef := if ImageKey in m.customImages then m.customImages[ImageKey] else "";
    var parameters := VirtualMachine(location, actualSize, ParseAzureImageReference(actualImageRef), true, 30,
      req.vmName, req.adminUsername, req.adminPassword, req.nicID, true);
    call := AzureCreateCall(resourceGroup, req.vmName, parameters);
  }

  /** `AzureProvider.CreateVM`: the vendor outcome, wrapped with the stage that failed. */
  function CreateVMError(outcome: AzureOutcome): (err: Option<string>)
    ensures outcome.Created? <==> err.None?
    ensures outcome.BeginFailed? ==> err == Some("failed to start VM creation: " + outcome.beginError)
    ensures outcome.PollFailed? ==> err == Some("failed to create VM: " + outcome.pollError)
  {
    match outcome
    case Created => None
    case BeginFailed(e) => Some("failed to start VM creation: " + e)
    case PollFailed(e) => Some("failed to create VM: " + e)
  }

  const AzureUnavailable: string := "Azure provider not available"
  const AzureWrongInstance: string := "invalid Azure provider instance"

  /**
   * `createAzureVM`: fails before any resolution when "azure" is unregistered or not an
   * Azure provider; otherwise its error is the vendor create's, wrapped by stage, for the
   * call resolved from the request and the Azure table.
   */
  function CreateAzureVM(cm: CloudManager, cfg: Config, req: CreateVMRequest, createVM: AzureCreateCall -> AzureOutcome): (err: Option<string>)
    reads cm
    ensures "azure" !in cm.providers ==> err == Some(AzureUnavailable)
    ensures "azure" in cm.providers && cm.providers["azure"].kind != Azure ==> err == Some(AzureWrongInstance)
    ensures "azure" in cm.providers && cm.providers["azure"].kind == Azure
      ==> err == CreateVMError(createVM(AzureCall(req, cfg.mappings.azure)))
    ensures "azure" in cm.providers && cm.providers["azure"].kind == Azure
      ==> (err.None? <==> createVM(AzureCall(req, cfg.mappings.azure)).Created?)
  {
    var prov := cm.GetProvider("azure");
    if prov.None? then Some(AzureUnavailable)
    else if prov.value.kind != Azure then Some(AzureWrongInstance)
    else CreateVMError(createVM(AzureCall(req, cfg.mappings.azure)))
  }

  /**
   * Under the default tables the image key "ubuntu18" is never found, so every Azure create
   * uses the fixed fallback reference, whatever the request and the environment.
   */
  lemma DefaultAzureImageIsFallback(env: map<string, string>, req: CreateVMRequest)
    ensures AzureCall(req, LoadConfig(env).mappings.azure).parameters.imageReference == FallbackImage
  {
    DefaultAzureLacksUbuntu18(env);
  }
}
