/**
 * The unified create request (handlers/vm_create.go) and the two resolution steps every
 * per-cloud helper applies to its fields.
 */
module CreateRequest {
  import opened Text
  import opened Config

  /** `CreateVMRequest`: the superset of the fields any of the three clouds reads. */
  datatype CreateVMRequest = CreateVMRequest(
    provider: string,
    vmName: string,
    // Azure-specific fields
    resourceGroupName: string,
    location: string,
    vmSize: string,
    adminUsername: string,
    adminPassword: string,
    nicID: string,
    // AWS-specific fields
    imageID: string,
    instanceType: string,
    keyName: string,
    securityGroupIDs: seq<string>,
    // GCP-specific fields
    projectID: string,
    zone: string,
    machineType: string,
    sourceImage: string)

  /**
   * Lookup of a logical key in a mapping table: the entry under the lower-cased key when
   * there is one; otherwise the key passes through unchanged.
   */
  function Resolve(table: map<string, string>, key: string): (native: string)
    ensures ToLower(key) in table ==> native == table[ToLower(key)]
    ensures ToLower(key) !in table ==> native == key
  {
    var lowered := ToLower(key);
    if lowered in table then table[lowered] else key
  }

  /** A request value when non-empty, otherwise the configured default. */
  function OrDefault(value: string, default: string): (chosen: string)
    ensures value != "" ==> chosen == value
    ensures value == "" ==> chosen == default
  {
    if value == "" then default else value
  }

  /** Lookup ignores the case of the key: two spellings of one key resolve alike when mapped. */
  lemma ResolveCaseInsensitive(table: map<string, string>, key: string, other: string)
    requires ToLower(key) == ToLower(other) && ToLower(key) in table
    ensures Resolve(table, key) == Resolve(table, other)
  {
  }

  /** Against a table whose keys are all lower case, every entry is reachable by its own key. */
  lemma EntriesReachable(table: map<string, string>)
    requires LowerKeys(table)
    ensures forall entry :: entry in table ==> Resolve(table, entry) == table[entry]
  {
  }

  /** On the default tables "SMALL" resolves like "small", to the mapped native size. */
  lemma DefaultSizeLookup(env: map<string, string>)
    ensures Resolve(LoadConfig(env).mappings.azure.customVMSizes, "SMALL") == "Standard_DS1_v2"
    ensures Resolve(LoadConfig(env).mappings.aws.customVMSizes, "Medium") == "t2.small"
    ensures Resolve(LoadConfig(env).mappings.gcp.customVMSizes, "xlarge") == "xlarge"
  {
    assert ToLower("SMALL") == "small";
    assert ToLower("Medium") == "medium";
    assert ToLower("xlarge") == "xlarge";
  }
}
