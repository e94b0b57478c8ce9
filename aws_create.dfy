/**
 * AWS create resolution (handlers/vm_create_aws.go): hardcoded fallback keys, mapping,
 * validation, key-pair and security-group defaulting, and the RunInstances input.
 */
module AwsCreate {
  import opened Results
  import opened Text
  import opened Config
  import opened Providers
  import opened CreateRequest

  const DefaultImageID: string := "ami-0644165ab979df02d"
  const DefaultInstanceType: string := "small"

  const AwsUnavailable: string := "AWS provider not available"
  const AwsWrongInstance: string := "invalid AWS provider instance"
  const NoImageID: string := "no valid image ID provided for AWS"
  const NoInstanceType: string := "no valid instance type provided for AWS"

  /**
   * `ec2.RunInstancesInput` as the helper builds it. The security groups are never passed:
   * that field's assignment is commented out, so `securityGroupIDs` is always empty.
   */
  datatype RunInstancesInput = RunInstancesInput(
    imageID: string,
    instanceType: string,
    keyName: string,
    minCount: int,
    maxCount: int,
    securityGroupIDs: seq<string>)

  /** The input to send, and the helper's own copy of the request after its updates. */
  datatype AwsResolved = AwsResolved(input: RunInstancesInput, request: CreateVMRequest)

  /** The AWS resolution: defaults before mapping, validation, then key-pair and security-group defaults. */
  function AwsResolve(req: CreateVMRequest, m: AWSMapping): Result<AwsResolved>
  {
    var imageKey := OrDefault(req.imageID, DefaultImageID);
    var typeKey := OrDefault(req.instanceType, DefaultInstanceType);
    var instanceType := Resolve(m.customVMSizes, typeKey);
    var imageID := Resolve(m.customImages, imageKey);
    if imageID == "" then Err(NoImageID)
    else if instanceType == "" then Err(NoInstanceType)
    else
      var keyName := OrDefault(req.keyName, m.defaultKeyName);
      var groups := if |req.securityGroupIDs| == 0 then m.defaultSecurityGroupIDs else req.securityGroupIDs;
      Ok(AwsResolved(
        RunInstancesInput(imageID, instanceType, keyName, 1, 1, []),
        req.(imageID := imageKey, instanceType := typeKey, keyName := keyName, securityGroupIDs := groups)))
  }

  /**
   * The field-by-field updates of `createAWSVM` on its copy of the request, with the early
   * returns of its validation.
   */
  method ResolveAWSRequest(req: CreateVMRequest, m: AWSMapping) returns (r: Result<AwsResolved>)
    ensures r == AwsResolve(req, m)
  {
    var local := req;
    if local.imageID == "" {
      local := local.(imageID := DefaultImageID);
    }
    if local.instanceType == "" {
      local := local.(instanceType := DefaultInstanceType);
    }
    assert local == req.(imageID := OrDefault(req.imageID, DefaultImageID), instanceType := OrDefault(req.instanceType, DefaultInstanceType));

    var actualInstanceType := local.instanceType;
    var typeKey := ToLower(local.instanceType);
    if typeKey in m.customVMSizes {
      actualInstanceType := m.customVMSizes[typeKey];
    }
    var actualImageID := local.imageID;
    var imageKey := ToLower(local.imageID);
    if imageKey in m.customImages {
      actualImageID := m.customImages[imageKey];
    }
    assert actualInstanceType == Resolve(m.customVMSizes, local.instanceType);
    assert actualImageID == Resolve(m.customImages, local.imageID);

    if actualImageID == "" {
      return Err(NoImageID);
    }
    if actualInstanceType == "" {
      return Err(NoInstanceType);
    }

    if local.keyName == "" {
      local := local.(keyName := m.defaultKeyName);
    }
    if |local.securityGroupIDs| == 0 {
      local := local.(securityGroupIDs := m.defaultSecurityGroupIDs);
    }

    var input := RunInstancesInput(actualImageID, actualInstanceType, local.keyName, 1, 1, []);
    return Ok(AwsResolved(input, local));
  }

  /**
   * The fields of a successful resolution: fallback keys before lookup, lower-cased lookup
   * with pass-through on a miss, key-pair and security-group defaults.
   */
  lemma AwsResolveFields(req: CreateVMRequest, m: AWSMapping)
    requires AwsResolve(req, m).Ok?
    ensures var res := AwsResolve(req, m).value;
      var imageKey := if req.imageID == "" then DefaultImageID else req.imageID;
      var typeKey := if req.instanceType == "" then DefaultInstanceType else req.instanceType;
      && res.input.imageID == (if ToLower(imageKey) in m.customImages then m.customImages[ToLower(imageKey)] else imageKey)
      && res.input.instanceType == (if ToLower(typeKey) in m.customVMSizes then m.customVMSizes[ToLower(typeKey)] else typeKey)
      && res.input.keyName == (if req.keyName == "" then m.defaultKeyName else req.keyName)
      && res.request.securityGroupIDs == (if req.securityGroupIDs == [] then m.defaultSecurityGroupIDs else req.securityGroupIDs)
      && res.input.minCount == 1 && res.input.maxCount == 1
      && res.input.securityGroupIDs == []
  {
  }

  /**
   * Validation fails exactly on an empty resolved value, and the image is checked first:
   * the image error when the resolved image is "", else the type error when the resolved
   * type is "", else success.
   */
  lemma AwsResolveErrors(req: CreateVMRequest, m: AWSMapping)
    ensures var imageID := Resolve(m.customImages, OrDefault(req.imageID, DefaultImageID));
      var instanceType := Resolve(m.customVMSizes, OrDefault(req.instanceType, DefaultInstanceType));
      && (AwsResolve(req, m) == Err(NoImageID) <==> imageID == "")
      && (AwsResolve(req, m) == Err(NoInstanceType) <==> imageID != "" && instanceType == "")
      && (AwsResolve(req, m).Ok? <==> imageID != "" && instanceType != "")
  {
  }

  /**
   * The validation errors only arise from an empty table value: when no value of either
   * table is empty, resolution always succeeds.
   */
  lemma {:induction false} AwsValidationUnreachable(req: CreateVMRequest, m: AWSMapping)
    requires NonEmptyValues(m.customVMSizes) && NonEmptyValues(m.customImages)
    ensures AwsResolve(req, m).Ok?
  {
    var imageKey := OrDefault(req.imageID, DefaultImageID);
    var typeKey := OrDefault(req.instanceType, DefaultInstanceType);
    assert Resolve(m.customImages, imageKey) != "";
    assert Resolve(m.customVMSizes, typeKey) != "";
  }

  /** Under the default tables the validation errors cannot occur, whatever the request. */
  lemma DefaultAwsResolves(env: map<string, string>, req: CreateVMRequest)
    ensures AwsResolve(req, LoadConfig(env).mappings.aws).Ok?
  {
    DefaultAWSValuesNonEmpty(env);
    AwsValidationUnreachable(req, LoadConfig(env).mappings.aws);
  }

  /**
   * `createAWSVM`: registry failures before any resolution, then resolution failures, then
   * the error RunInstances (an input) reports for the built input, returned as is.
   */
  function CreateAWSVM(cm: CloudManager, cfg: Config, req: CreateVMRequest, runInstances: RunInstancesInput -> Option<string>): (err: Option<string>)
    reads cm
    ensures "aws" !in cm.providers ==> err == Some(AwsUnavailable)
    ensures "aws" in cm.providers && cm.providers["aws"].kind != AWS ==> err == Some(AwsWrongInstance)
    ensures "aws" in cm.providers && cm.providers["aws"].kind == AWS && AwsResolve(req, cfg.mappings.aws).Err?
      ==> err == Some(AwsResolve(req, cfg.mappings.aws).msg)
    ensures "aws" in cm.providers && cm.providers["aws"].kind == AWS && AwsResolve(req, cfg.mappings.aws).Ok?
      ==> err == runInstances(AwsResolve(req, cfg.mappings.aws).value.input)
  {
    var prov := cm.GetProvider("aws");
    if prov.None? then Some(AwsUnavailable)
    else if prov.value.kind != AWS then Some(AwsWrongInstance)
    else
      var resolved := AwsResolve(req, cfg.mappings.aws);
      if resolved.Err? then Some(resolved.msg) else runInstances(resolved.value.input)
  }
}
