/**
 * The configuration the resolvers consume (config/config.go): credentials, the per-cloud
 * mapping tables of logical size and image keys, and the per-cloud defaults, each
 * defaulted from the process environment.
 */
module Config {
  import opened Text

  datatype AzureCredentials = AzureCredentials(tenantID: string, clientID: string, clientSecret: string, subscriptionID: string)
  datatype AWSCredentials = AWSCredentials(accessKey: string, secretKey: string, region: string)
  datatype GCPCredentials = GCPCredentials(projectID: string, credentialsFile: string)

  datatype AzureMapping = AzureMapping(
    customVMSizes: map<string, string>,
    customImages: map<string, string>,
    defaultResourceGroup: string,
    defaultLocation: string)

  datatype AWSMapping = AWSMapping(
    customVMSizes: map<string, string>,
    customImages: map<string, string>,
    defaultKeyName: string,
    defaultSecurityGroupIDs: seq<string>,
    defaultRegion: string)

  datatype GCPMapping = GCPMapping(
    customVMSizes: map<string, string>,
    customImages: map<string, string>,
    defaultZone: string,
    defaultProject: string)

  datatype CloudMappings = CloudMappings(azure: AzureMapping, aws: AWSMapping, gcp: GCPMapping)

  datatype Config = Config(
    port: string,
    jwtSecret: string,
    azureCreds: AzureCredentials,
    awsCreds: AWSCredentials,
    gcpCreds: GCPCredentials,
    mappings: CloudMappings)

  /**
   * `getEnv`: the environment's value for `key` whenever the key is set, even when that
   * value is empty; the fallback only when the key is unset. The environment is a parameter.
   */
  function GetEnv(env: map<string, string>, key: string, fallback: string): (v: string)
    ensures key in env ==> v == env[key]
    ensures key !in env ==> v == fallback
  {
    if key in env then env[key] else fallback
  }

  const SizeKeys: set<string> := {"small", "medium", "large"}

  /** `LoadConfig`: the default tables and the environment-defaulted settings. */
  function LoadConfig(env: map<string, string>): (cfg: Config)
    ensures cfg.mappings.azure.customVMSizes.Keys == SizeKeys
    ensures cfg.mappings.aws.customVMSizes.Keys == SizeKeys
    ensures cfg.mappings.gcp.customVMSizes.Keys == SizeKeys
    ensures cfg.mappings.azure.customImages.Keys == {"ubuntu24"}
    ensures cfg.mappings.aws.customImages.Keys == {"ubuntu24"}
    ensures cfg.mappings.gcp.customImages.Keys == {"ubuntu24"}
    ensures |cfg.mappings.aws.defaultSecurityGroupIDs| == 1
    ensures cfg.mappings.gcp.defaultZone == GetEnv(env, "GCP_DEFAULT_ZONE", "europe-west9-c")
    ensures cfg.awsCreds.region == GetEnv(env, "AWS_REGION", "us-east-1")
  {
    Config(
      GetEnv(env, "PORT", "8080"),
      GetEnv(env, "JWT_SECRET", "your-secret-key"),
      AzureCredentials(
        GetEnv(env, "AZURE_TENANT_ID", ""),
        GetEnv(env, "AZURE_CLIENT_ID", ""),
        GetEnv(env, "AZURE_CLIENT_SECRET", ""),
        GetEnv(env, "AZURE_SUBSCRIPTION_ID", "")),
      AWSCredentials(
        GetEnv(env, "AWS_ACCESS_KEY", ""),
        GetEnv(env, "AWS_SECRET_KEY", ""),
        GetEnv(env, "AWS_REGION", "us-east-1")),
      GCPCredentials(
        GetEnv(env, "GCP_PROJECT_ID", ""),
        GetEnv(env, "GCP_CREDENTIALS_FILE", "")),
      CloudMappings(
        AzureMapping(
          map["small" := "Standard_DS1_v2", "medium" := "Standard_DS2_v2", "large" := "Standard_DS3_v2"],
          map["ubuntu24" := DefaultAzureImage],
          GetEnv(env, "AZURE_DEFAULT_RESOURCE_GROUP", "script-test"),
          GetEnv(env, "AZURE_DEFAULT_LOCATION", "westeurope")),
        AWSMapping(
          map["small" := "t2.micro", "medium" := "t2.small", "large" := "t2.medium"],
          map["ubuntu24" := "ami-0644165ab979df02d"],
          GetEnv(env, "AWS_DEFAULT_KEYNAME", "default-key"),
          [GetEnv(env, "AWS_DEFAULT_SECURITY_GROUP", "sg-01234567")],
          GetEnv(env, "AWS_DEFAULT_REGION", "eu-west-3")),
        GCPMapping(
          map["small" := "t2d-standard-1", "medium" := "t2d-standard-2", "large" := "t2d-standard-4"],
          map["ubuntu24" := "projects/ubuntu-os-cloud/global/images/ubuntu-2404-noble-amd64-v20250313"],
          GetEnv(env, "GCP_DEFAULT_ZONE", "europe-west9-c"),
          GetEnv(env, "GCP_DEFAULT_PROJECT", ""))))
  }

  /** The image the default Azure table maps "ubuntu24" to. */
  const DefaultAzureImage: string := "Canonical:ubuntu-24_04-lts:server:latest"

  /** Every key of a table is lower case, so a lower-cased lookup can reach each entry. */
  predicate LowerKeys(table: map<string, string>)
  {
    forall k :: k in table ==> ToLower(k) == k
  }

  /** No value of a table is the empty string. */
  predicate NonEmptyValues(table: map<string, string>)
  {
    forall k :: k in table ==> table[k] != ""
  }

  /** A table keyed by exactly the three size tiers has lower-case keys. */
  lemma SizeTableLowerKeys(table: map<string, string>)
    requires table.Keys == SizeKeys
    ensures LowerKeys(table)
  {
    assert ToLower("small") == "small";
    assert ToLower("medium") == "medium";
    assert ToLower("large") == "large";
  }

  /** A table keyed by "ubuntu24" alone has lower-case keys. */
  lemma ImageTableLowerKeys(table: map<string, string>)
    requires table.Keys == {"ubuntu24"}
    ensures LowerKeys(table)
  {
    assert ToLower("ubuntu24") == "ubuntu24";
  }

  /** All six default tables have lower-case keys, whatever the environment. */
  lemma DefaultTablesLowerKeys(env: map<string, string>)
    ensures var m := LoadConfig(env).mappings;
      && LowerKeys(m.azure.customVMSizes) && LowerKeys(m.azure.customImages)
      && LowerKeys(m.aws.customVMSizes) && LowerKeys(m.aws.customImages)
      && LowerKeys(m.gcp.customVMSizes) && LowerKeys(m.gcp.customImages)
  {
    var m := LoadConfig(env).mappings;
    SizeTableLowerKeys(m.azure.customVMSizes);
    SizeTableLowerKeys(m.aws.customVMSizes);
    SizeTableLowerKeys(m.gcp.customVMSizes);
    ImageTableLowerKeys(m.azure.customImages);
    ImageTableLowerKeys(m.aws.customImages);
    ImageTableLowerKeys(m.gcp.customImages);
  }

  /** The default AWS tables map no key to the empty string, whatever the environment. */
  lemma DefaultAWSValuesNonEmpty(env: map<string, string>)
    ensures NonEmptyValues(LoadConfig(env).mappings.aws.customVMSizes)
    ensures NonEmptyValues(LoadConfig(env).mappings.aws.customImages)
  {
  }

  /** The default Azure image is a reference of exactly four ':'-separated parts. */
  lemma {:induction false} DefaultAzureImageHasFourParts()
    ensures Split(DefaultAzureImage, ':') == ["Canonical", "ubuntu-24_04-lts", "server", "latest"]
  {
    var parts := ["Canonical", "ubuntu-24_04-lts", "server", "latest"];
    assert Join(parts, ':') == DefaultAzureImage;
    forall k | 0 <= k < |parts|
      ensures Free(parts[k], ':')
    {
    }
    SplitJoin(parts, ':');
  }

  /** The default Azure image table has no "ubuntu18" entry, whatever the environment. */
  lemma DefaultAzureLacksUbuntu18(env: map<string, string>)
    ensures "ubuntu18" !in LoadConfig(env).mappings.azure.customImages
  {
  }
}
