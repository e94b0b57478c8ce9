# anyvm provider-normalisation layer, in Dafny

This project models the core of anyvm, a service that lists and creates virtual machines
on several compute backends through one API. It covers the provider-normalisation layer
and proves properties of it:

- **Backend registry.** `CloudManager` is a name-to-provider map. Registering a nil
  interface value does nothing, and the last write wins. It is modelled as a class with a `map` field.
- **List dispatcher.** `ListVMsHandler` works in one of two modes:
  - filtered: the provider name is lower-cased, and an unknown name or the provider's
    error is returned as is;
  - aggregate: every provider's list is concatenated, and providers that fail are skipped.
- **Create dispatcher.** `CreateVMHandler` lower-cases the provider tag and routes it to
  the Azure, AWS or GCP helper, or rejects it.
- **Per-cloud resolution.** Each helper maps logical size and image keys through its
  cloud's table (lower-cased lookup, unmapped keys pass through). Each cloud has its own
  defaults:
  - AWS substitutes hardcoded image and size keys before the lookup;
  - Azure always uses the image key "ubuntu18" and parses `Publisher:Offer:SKU:Version`
    references;
  - GCP defaults the zone and the project and builds the machine-type path.
- **Configuration.** The default mapping tables and `getEnv`.
- **AWS list normalisation.** `getTagValue` and the flattening of reservations into VM
  records.

Vendor calls are inputs of the model:
- each provider's `ListVMs` outcome is a function `CloudProvider -> Result<seq<VM>>`;
- the `DescribeInstances` result is a `Result<seq<Reservation>>`;
- Azure `CreateVM`, AWS `RunInstances` and GCP `Instances.Insert` are functions from the
  parameters each helper resolves to the outcome of that call (`VendorOutcomes`).

The process environment is a `map<string, string>` parameter. A provider is a value
`CloudProvider(kind, instance)`. `kind` is the Go type behind the interface, so the
helpers' type assertions become tests on `kind`. `instance` stands for the object's
identity. A nil interface value is `None`.

Modules, one per file:
- `Results`: Option and Result;
- `Text`: ASCII `ToLower`, `Split` and `Join` with their round-trip lemmas;
- `Models`: `VM` and `APIResponse`;
- `Config`;
- `Providers`: the registry;
- `AwsProvider`;
- `ListHandler`;
- `CreateRequest`: the request record and the lookup-or-pass-through step;
- `AzureCreate`, `AwsCreate`, `GcpCreate`;
- `CreateHandler`.

Where the system's stated design and the code differ, the model follows the code:
- An unknown filter fails with "Invalid provider specified".
- Only AWS validates its resolved fields. Azure and GCP never fail resolution: an empty
  size or image goes through as it is.
- A value supplied in the request is always looked up in the table first. Only a miss
  passes it through.
- Azure ignores the requested image and always looks up "ubuntu18". The default table
  lacks that key, so every Azure create uses the fixed Ubuntu 18.04 reference.
- GCP does not wait for the insert operation to finish.
- AWS resolves the security groups but never passes them on.

## Model

| member | source | states |
|---|---|---|
| `Providers.CloudManager.constructor` | providers/provider.go:13-17 | a new registry has no entries |
| `Providers.CloudManager.RegisterProvider` | providers/provider.go:19-23 | a nil provider leaves the map unchanged; otherwise the name maps to the provider afterwards, any earlier entry is replaced without growing the map, and every other name keeps its entry |
| `Providers.CloudManager.GetProvider` | providers/provider.go:25-27 | gives a provider exactly when the name is registered under that exact spelling, and then the registered one; otherwise nil |
| `Providers.CloudManager.GetAllProviders` | providers/provider.go:29-31 | gives exactly the current registered map |
| `Providers.RegisterTwice` | providers/provider.go:19-23 | registering one name twice leaves one entry holding the later provider; other names untouched |
| `Providers.RegisterEnabled` | main.go:21-32 | after start-up wiring only azure, aws and gcp can be registered, each exactly when its constructor reported it usable |
| `ListHandler.ListVMsHandler` | handlers/vms.go:12-54 | the filtered early returns and the aggregate loop that skips failures produce exactly `ListResponse` for the registry, filter and visiting order |
| `ListHandler.AggregateNeverFails` | handlers/vms.go:39-52 | an empty filter selects the aggregate, which always succeeds with the concatenated list |
| `ListHandler.UnknownFilterFails` | handlers/vms.go:19-28 | a filter whose lower-case form is not registered fails with "Invalid provider specified" and no data |
| `ListHandler.FilteredPropagates` | handlers/vms.go:29-38 | with a registered filter, a provider error fails with exactly its message, and a success returns exactly the provider's list |
| `ListHandler.FilterCaseInsensitive` | handlers/vms.go:20 | a filter and its lower-case form give the same response, so "AWS" and "aws" reach the same entry |
| `ListHandler.AggregateLength` | handlers/vms.go:40-46 | the aggregate's length is the sum of the successful providers' list lengths |
| `ListHandler.AggregatePrefix` | handlers/vms.go:40-46 | the aggregate over the first n providers is a prefix of the whole aggregate |
| `ListHandler.AggregateBlock` | handlers/vms.go:40-46 | each provider's list appears as one contiguous block in its original order, placed after the blocks of the providers visited before it; a failing provider contributes nothing |
| `ListHandler.AggregateProvenance` | handlers/vms.go:40-46 | every aggregated VM was reported by some provider that succeeded |
| `CreateHandler.Route` | handlers/vm_create.go:60-77 | the tag routes to Azure, AWS or GCP exactly when its lower-case form is "azure", "aws" or "gcp", and nowhere otherwise |
| `CreateHandler.CreateVMHandler` | handlers/vm_create.go:46-94 | success exactly when the tag is routed and the routed helper reports no error; a success carries "VM creation initiated successfully" and no error; a failure carries no data (the messages are stated by `UnsupportedTagFails` and `AcceptedTagResponse`) |
| `CreateHandler.UnsupportedTagFails` | handlers/vm_create.go:71-77 | any other tag fails with "VM creation is only supported for Azure, AWS, and GCP" |
| `CreateHandler.AcceptedTagResponse` | handlers/vm_create.go:80-92 | a helper error gives success false with that error's message; helper success gives success true with "VM creation initiated successfully" |
| `CreateHandler.OnlyRoutedHelperRuns` | handlers/vm_create.go:64-70 | the response depends only on the routed cloud's vendor call, so exactly one helper runs |
| `CreateHandler.TagCaseIgnored` | handlers/vm_create.go:60-66 | "Azure" and "AZURE" route to Azure, "AWS" to AWS, "Gcp" to GCP; "hyperv" is not routed |
| `CreateHandler.DefaultConfigCreates` | handlers/vm_create_aws.go:26-49 | on the default tables an AWS create through the dispatcher succeeds exactly when RunInstances succeeds on the resolved input |
| `CreateRequest.Resolve` | handlers/vm_create_aws.go:34-41 | a key whose lower-case form is in the table resolves to that entry; any other key passes through unchanged |
| `CreateRequest.OrDefault` | handlers/vm_create_azure.go:33-40 | a non-empty request value is kept; an empty one is replaced by the default |
| `CreateRequest.ResolveCaseInsensitive` | handlers/vm_create_gcp.go:23-30 | two spellings of a mapped key that differ only in case resolve alike |
| `CreateRequest.EntriesReachable` | handlers/vm_create_azure.go:27-30 | against a table with lower-case keys, every entry is reached by its own key |
| `CreateRequest.DefaultSizeLookup` | config/config.go:85-114 | on the default tables "SMALL" resolves to "Standard_DS1_v2" for Azure and "Medium" to "t2.small" for AWS; the unmapped "xlarge" passes through for GCP |
| `AzureCreate.ParseAzureImageReference` | handlers/vm_create_azure.go:85-102 | exactly four ':'-separated parts give publisher, offer, sku and version in order; any other count gives Canonical/UbuntuServer/18.04-LTS/latest |
| `AzureCreate.ImageReferenceRoundTrip` | handlers/vm_create_azure.go:86-101 | for a four-part reference, joining the parsed fields with ':' reproduces the input |
| `AzureCreate.ImageReferenceFromParts` | handlers/vm_create_azure.go:96-101 | four colon-free fields joined with ':' parse back to exactly those fields |
| `AzureCreate.ImageReferenceFallback` | handlers/vm_create_azure.go:87-95 | "" and any string without ':' (such as "garbage") give the fixed fallback reference |
| `AzureCreate.BuildAzureCall` | handlers/vm_create_azure.go:26-76 | size mapped by lower-cased key or passed through; resource group and location from the request when non-empty, else the defaults; the image looked up under "ubuntu18", with the fallback reference when that key is absent |
| `AzureCreate.CreateVMError` | providers/azure.go:61-74 | the vendor create succeeds exactly when both its start and its polling succeed; a start failure is "failed to start VM creation: " + its error, a polling failure "failed to create VM: " + its error |
| `AzureCreate.CreateAzureVM` | handlers/vm_create_azure.go:16-82 | "Azure provider not available" when "azure" is unregistered; "invalid Azure provider instance" when it is not an Azure provider; otherwise exactly the wrapped error of the vendor create called with the call resolved from the request and the Azure table, so no error exactly when that create completed |
| `AzureCreate.DefaultAzureImageIsFallback` | handlers/vm_create_azure.go:41-43 | on the default tables every Azure create uses the fallback image reference, whatever the request |
| `AwsCreate.ResolveAWSRequest` | handlers/vm_create_aws.go:26-65 | the step-by-step updates of the request copy and the early-return validation compute exactly `AwsResolve` |
| `AwsCreate.AwsResolveFields` | handlers/vm_create_aws.go:26-65 | empty image and type become "ami-0644165ab979df02d" and "small" before lower-cased lookup with pass-through on a miss; key name and security groups fall back to the defaults; MinCount = MaxCount = 1; no security groups are sent |
| `AwsCreate.AwsResolveErrors` | handlers/vm_create_aws.go:45-50 | "no valid image ID provided for AWS" exactly when the resolved image is ""; "no valid instance type provided for AWS" exactly when the image is non-empty and the resolved type is ""; success exactly when both are non-empty |
| `AwsCreate.AwsValidationUnreachable` | handlers/vm_create_aws.go:45-50 | when no table value is empty, the "no valid image ID/instance type" errors cannot occur |
| `AwsCreate.DefaultAwsResolves` | config/config.go:96-104 | on the default AWS tables resolution always succeeds |
| `AwsCreate.CreateAWSVM` | handlers/vm_create_aws.go:15-69 | "AWS provider not available" or "invalid AWS provider instance" come first; then a resolution error; then the RunInstances error for the resolved input, returned as is |
| `GcpCreate.GcpCall` | handlers/vm_create_gcp.go:31-56 | zone and project come from the request when non-empty, else DefaultZone and DefaultProject; one boot disk of size 10; the only network is "global/networks/default" |
| `GcpCreate.GcpCallResolution` | handlers/vm_create_gcp.go:23-44 | machine type and image are looked up by lower-cased key with no fallback key; MachineType is "zones/" + zone + "/machineTypes/" + resolved type |
| `GcpCreate.CreateGCPVM` | handlers/vm_create_gcp.go:14-63 | "GCP provider not available" or "invalid GCP provider instance" come first; the error of the insert made with the resolved call gets the prefix "failed to create GCP instance: "; otherwise no error, without waiting on the operation |
| `Config.GetEnv` | config/config.go:125-130 | the environment's value whenever the key is set, even when empty; the fallback only when unset |
| `Config.LoadConfig` | config/config.go:64-123 | each size table has exactly the keys small, medium and large; each image table only "ubuntu24"; one default AWS security group |
| `Config.DefaultTablesLowerKeys` | config/config.go:85-117 | every key of the six default tables is lower case, whatever the environment |
| `Config.DefaultAWSValuesNonEmpty` | config/config.go:96-104 | no value of the default AWS tables is empty |
| `Config.DefaultAzureImageHasFourParts` | config/config.go:91 | the default Azure image splits into exactly Canonical, ubuntu-24_04-lts, server and latest |
| `Config.DefaultAzureLacksUbuntu18` | config/config.go:90-92 | the default Azure image table has no "ubuntu18" key |
| `AwsProvider.GetTagValue` | providers/aws.go:53-60 | the linear search with early return computes `TagValue`, the first-match value |
| `AwsProvider.TagValueFirstMatch` | providers/aws.go:53-58 | the value of the first tag whose key equals the key, compared case-sensitively |
| `AwsProvider.TagValueNoMatch` | providers/aws.go:59 | "" when no tag matches, including an empty tag list |
| `AwsProvider.TagValueShadows` | providers/aws.go:54-57 | when tags repeat a key, the earlier tag shadows everything after it |
| `AwsProvider.ListVMs` | providers/aws.go:33-50 | a DescribeInstances error is returned as is, with no list; otherwise the nested loops produce exactly `Flatten` of the reservations |
| `AwsProvider.FlattenLength` | providers/aws.go:39-49 | one VM per instance |
| `AwsProvider.FlattenPrefix` | providers/aws.go:39-49 | flattening the first n reservations gives a prefix of the whole flattening |
| `AwsProvider.FlattenAt` | providers/aws.go:39-49 | instance j of reservation i becomes the VM right after the instances of the earlier reservations: reservations in order, instances in order |
| `AwsProvider.FlattenProvenance` | providers/aws.go:40-47 | every produced VM has provider "aws" and is the record of some instance, named by its "Name" tag |
| `Text.JoinSplit` | handlers/vm_create_azure.go:86 | joining the pieces of `strings.Split` with the separator gives back the input |
| `Text.SplitJoin` | handlers/vm_create_azure.go:86 | splitting the join of separator-free pieces gives back the pieces |
| `Text.ToLower` | handlers/vms.go:20 | `strings.ToLower` on ASCII: same length, each character replaced by its lower-case form |
| `Text.Split` | handlers/vm_create_azure.go:86 | `strings.Split` with a one-character separator yields at least one piece (the empty string yields one empty piece); `JoinSplit` and `SplitPiecesFree` give its round trip and separator-free pieces |
| `Text.SplitPiecesFree` | handlers/vm_create_azure.go:86 | no piece produced by `strings.Split` contains the separator |

## Left out

- HTTP plumbing is not modelled: JSON decoding (and its "Invalid request payload" error),
  headers, status codes and encoding. A response is the `APIResponse` value.
- `strings.ToLower` is modelled for ASCII letters only. Unicode case mapping is not
  modelled.
- Provider constructors (credentials, logins, panics) are not modelled. A backend is
  present or absent at registration. Only the "register only if enabled" pattern of
  main.go is kept (`RegisterEnabled`); the router and the listener are not modelled.
- The vendor SDK calls are not modelled: `DescribeInstances`, `RunInstances`,
  `Instances.Insert`, `BeginCreateOrUpdate`/`PollUntilDone` and the Azure and GCP list
  pagers. Their outcomes are inputs.
- The order in which Go iterates the registry map is unspecified, so it is an input
  sequence (`order`) that must list each registered name exactly once.
- Azure's 5-minute deadline and context cancellation are not modelled. A timeout is one
  of the vendor's `PollFailed` messages.
- The list operations of the Azure, GCP, Hyper-V, Proxmox VE, vSphere and Nutanix
  providers are not modelled. They are SDK adapters, PowerShell with float IDs, or
  hardcoded stubs.
- Nil dereferences in AWS `ListVMs` (`InstanceId`, `Placement`, `State`) and in
  `getTagValue` (`*tag.Key`, `*tag.Value`) are not modelled. Instances and tags are records
  whose fields are always present.
- Providers.CloudManager.RegisterProvider: does not model a typed nil pointer (such as the
  nil `*AWSProvider` a failed constructor returns) wrapped in a non-nil interface value.
  Go's `provider != nil` test lets that value through, and it would be registered.
  `Option<CloudProvider>` cannot represent it. main.go registers a provider only when its
  constructor reported success, so the program never passes one.
- Providers.CloudManager.GetAllProviders: returns a copy of the map as a value. In Go it
  returns the registry's own map, so a caller that changes the result changes the
  registry. That aliasing is not modelled.
- The `armcompute`, `ec2` and `compute` parameter records are reduced to the fields the
  helpers set.
- AWS `RunInstancesInput`: the SDK has no local copy of the request.
  `AwsResolved.request` exposes the helper's copy so that the key-name and security-group
  fallbacks can be stated. Only the key name reaches the input.
