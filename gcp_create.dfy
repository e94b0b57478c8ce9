/**
 * GCP create resolution (handlers/vm_create_gcp.go): mapping without fallback keys,
 * zone and project defaulting, and the instance record sent to Instances.Insert.
 */
module GcpCreate {
  import opened Results
  import opened Text
  import opened Config
  import opened Providers
  import opened CreateRequest

  const GcpUnavailable: string := "GCP provider not available"
  const GcpWrongInstance: string := "invalid GCP provider instance"
  const InsertFailedPrefix: string := "failed to create GCP instance: "
  const DefaultNetwork: string := "global/networks/default"

  datatype AttachedDisk = AttachedDisk(boot: bool, sourceImage: string, diskSizeGb: int)
  datatype NetworkInterface = NetworkInterface(network: string)

  /** `compute.Instance` as far as the helper fills it in. */
  datatype Instance = Instance(name: string, machineType: string, disks: seq<AttachedDisk>, networkInterfaces: seq<NetworkInterface>)

  /** The arguments of `Instances.Insert`. */
  datatype InsertCall = InsertCall(project: string, zone: string, instance: Instance)

  /** `fmt.Sprintf("zones/%s/machineTypes/%s", zone, machineType)`. */
  function MachineTypePath(zone: string, machineType: string): string
  {
    "zones/" + zone + "/machineTypes/" + machineType
  }

  /** The call the helper builds from the request and the GCP mapping table. */
  function GcpCall(req: CreateVMRequest, m: GCPMapping): (call: InsertCall)
    ensures call.zone == (if req.zone != "" then req.zone else m.defaultZone)
    ensures call.project == (if req.projectID != "" then req.projectID else m.defaultProject)
    ensures |call.instance.disks| == 1 && call.instance.disks[0].boot && call.instance.disks[0].diskSizeGb == 10
    ensures call.instance.networkInterfaces == [NetworkInterface(DefaultNetwork)]
  {
    var zone := OrDefault(req.zone, m.defaultZone);
    InsertCall(
      OrDefault(req.projectID, m.defaultProject),
      zone,
      Instance(
        req.vmName,
        MachineTypePath(zone, Resolve(m.customVMSizes, req.machineType)),
        [AttachedDisk(true, Resolve(m.customImages, req.sourceImage), 10)],
        [NetworkInterface(DefaultNetwork)]))
  }

  /**
   * Machine type and image are looked up by lower-cased key and pass through unchanged on a
   * miss; no fallback key is substituted, so an empty request field stays empty unless the
   * table maps "".
   */
  lemma GcpCallResolution(req: CreateVMRequest, m: GCPMapping)
    ensures var call := GcpCall(req, m);
      var machineType := if ToLower(req.machineType) in m.customVMSizes then m.customVMSizes[ToLower(req.machineType)] else req.machineType;
      && call.instance.machineType == "zones/" + call.zone + "/machineTypes/" + machineType
      && call.instance.disks[0].sourceImage == (if ToLower(req.sourceImage) in m.customImages then m.customImages[ToLower(req.sourceImage)] else req.sourceImage)
      && call.instance.name == req.vmName
  {
  }

  /**
   * `createGCPVM`: registry failures before any resolution; an Insert error (an input) is
   * returned with a prefix; success does not wait on the operation.
   */
  function CreateGCPVM(cm: CloudManager, cfg: Config, req: CreateVMRequest, insert: InsertCall -> Option<string>): (err: Option<string>)
    reads cm
    ensures "gcp" !in cm.providers ==> err == Some(GcpUnavailable)
    ensures "gcp" in cm.providers && cm.providers["gcp"].kind != GCP ==> err == Some(GcpWrongInstance)
    ensures var insertError := insert(GcpCall(req, cfg.mappings.gcp));
      "gcp" in cm.providers && cm.providers["gcp"].kind == GCP
      ==> err == (if insertError.Some? then Some(InsertFailedPrefix + insertError.value) else None)
  {
    var prov := cm.GetProvider("gcp");
    if prov.None? then Some(GcpUnavailable)
    else if prov.value.kind != GCP then Some(GcpWrongInstance)
    else
      var insertError := insert(GcpCall(req, cfg.mappings.gcp));
      if insertError.Some? then Some(InsertFailedPrefix + insertError.value) else None
  }
}
