/**
 * The create dispatcher (handlers/vm_create.go): the provider tag is lower-cased and routed
 * to exactly one of the Azure, AWS and GCP helpers; the helper's error decides the response.
 */
module CreateHandler {
  import opened Results
  import opened Text
  import opened Models
  import opened Config
  import opened Providers
  import opened CreateRequest
  import AzureCreate
  import AwsCreate
  import GcpCreate

  const Unsupported: string := "VM creation is only supported for Azure, AWS, and GCP"
  const Initiated: string := "VM creation initiated successfully"

  /** The three clouds that can create VMs. */
  datatype Cloud = AzureCloud | AwsCloud | GcpCloud

  /**
   * The three vendor create calls, each giving its outcome for the parameters it is called
   * with; only the routed cloud's is consulted.
   */
  datatype VendorOutcomes = VendorOutcomes(
    azure: AzureCreate.AzureCreateCall -> AzureCreate.AzureOutcome,
    aws: AwsCreate.RunInstancesInput -> Option<string>,
    gcp: GcpCreate.InsertCall -> Option<string>)

  /** The `switch` on the lower-cased tag: azure, aws or gcp, and nothing else. */
  function Route(provider: string): (c: Option<Cloud>)
    ensures c == Some(AzureCloud) <==> ToLower(provider) == "azure"
    ensures c == Some(AwsCloud) <==> ToLower(provider) == "aws"
    ensures c == Some(GcpCloud) <==> ToLower(provider) == "gcp"
  {
    match ToLower(provider)
    case "azure" => Some(AzureCloud)
    case "aws" => Some(AwsCloud)
    case "gcp" => Some(GcpCloud)
    case _ => None
  }

  /** The error of the one helper that runs for `cloud`. */
  function HelperError(cloud: Cloud, cm: CloudManager, cfg: Config, req: CreateVMRequest, vendor: VendorOutcomes): Option<string>
    reads cm
  {
    match cloud
    case AzureCloud => AzureCreate.CreateAzureVM(cm, cfg, req, vendor.azure)
    case AwsCloud => AwsCreate.CreateAWSVM(cm, cfg, req, vendor.aws)
    case GcpCloud => GcpCreate.CreateGCPVM(cm, cfg, req, vendor.gcp)
  }

  /** Two sets of vendor calls that behave alike for `cloud`. */
  ghost predicate AgreeOn(cloud: Cloud, vendor: VendorOutcomes, other: VendorOutcomes)
  {
    match cloud
    case AzureCloud => vendor.azure == other.azure
    case AwsCloud => vendor.aws == other.aws
    case GcpCloud => vendor.gcp == other.gcp
  }

  /** `CreateVMHandler` for an already decoded request. */
  function CreateVMHandler(cm: CloudManager, cfg: Config, req: CreateVMRequest, vendor: VendorOutcomes): (resp: APIResponse<string>)
    reads cm
    ensures resp.success <==> Route(req.provider).Some? && HelperError(Route(req.provider).value, cm, cfg, req, vendor).None?
    ensures resp.success ==> resp.data == Some(Initiated) && resp.error == ""
    ensures !resp.success ==> resp.data.None?
  {
    match Route(req.provider)
    case None => Failure(Unsupported)
    case Some(cloud) =>
      var err := HelperError(cloud, cm, cfg, req, vendor);
      if err.Some? then Failure(err.value) else Success(Initiated)
  }

  /** A tag other than azure, aws or gcp (in any case) fails with the fixed message and runs no helper. */
  lemma UnsupportedTagFails(cm: CloudManager, cfg: Config, req: CreateVMRequest, vendor: VendorOutcomes)
    requires ToLower(req.provider) !in {"azure", "aws", "gcp"}
    ensures CreateVMHandler(cm, cfg, req, vendor) == APIResponse(false, None, Unsupported)
  {
  }

  /**
   * For an accepted tag the response is decided by that helper alone: its error as a
   * failure, or success with the fixed message.
   */
  lemma AcceptedTagResponse(cm: CloudManager, cfg: Config, req: CreateVMRequest, vendor: VendorOutcomes)
    requires Route(req.provider).Some?
    ensures var err := HelperError(Route(req.provider).value, cm, cfg, req, vendor);
      var resp := CreateVMHandler(cm, cfg, req, vendor);
      && (err.Some? ==> resp == APIResponse(false, None, err.value))
      && (err.None? ==> resp == APIResponse(true, Some(Initiated), ""))
  {
  }

  /**
   * Exactly one helper runs: two sets of vendor outcomes that agree on the routed cloud give
   * the same response, whatever the other clouds would have answered.
   */
  lemma OnlyRoutedHelperRuns(cm: CloudManager, cfg: Config, req: CreateVMRequest, vendor: VendorOutcomes, other: VendorOutcomes)
    requires Route(req.provider).Some?
    requires AgreeOn(Route(req.provider).value, vendor, other)
    ensures CreateVMHandler(cm, cfg, req, vendor) == CreateVMHandler(cm, cfg, req, other)
  {
  }

  /** The tag is lower-cased first: "Azure", "AZURE" and "azure" all route to the Azure helper. */
  lemma TagCaseIgnored()
    ensures Route("Azure") == Some(AzureCloud) && Route("AZURE") == Some(AzureCloud)
    ensures Route("AWS") == Some(AwsCloud) && Route("Gcp") == Some(GcpCloud)
    ensures Route("hyperv") == None
  {
  }

  /**
   * On the default tables an AWS create through the dispatcher succeeds exactly when
   * RunInstances does: resolution and validation never fail there.
   */
  lemma DefaultConfigCreates(env: map<string, string>, cm: CloudManager, req: CreateVMRequest, vendor: VendorOutcomes)
    requires "aws" in cm.providers && cm.providers["aws"].kind == AWS
    requires ToLower(req.provider) == "aws"
    ensures var input := AwsCreate.AwsResolve(req, LoadConfig(env).mappings.aws).value.input;
      CreateVMHandler(cm, LoadConfig(env), req, vendor).success <==> vendor.aws(input).None?
  {
    AwsCreate.DefaultAwsResolves(env, req);
  }
}
