/**
 * List normalisation of the AWS backend (providers/aws.go): the DescribeInstances result is
 * flattened into VM records, reservations in order and instances in order within each.
 */
module AwsProvider {
  import opened Results
  import opened Models

  datatype Tag = Tag(key: string, value: string)

  /** The fields of an EC2 instance that the listing reads. */
  datatype Instance = Instance(instanceId: string, tags: seq<Tag>, availabilityZone: string, stateName: string)

  datatype Reservation = Reservation(instances: seq<Instance>)

  /** The value of the first tag whose key equals `key` (case-sensitive), or "" when none does. */
  function TagValue(tags: seq<Tag>, key: string): string
    decreases |tags|
  {
    if tags == [] then ""
    else if tags[0].key == key then tags[0].value
    else TagValue(tags[1..], key)
  }

  /** The tag at `i` matches and no earlier one does: its value is the answer. */
  lemma {:induction false} TagValueFirstMatch(tags: seq<Tag>, key: string, i: nat)
    requires i < |tags| && tags[i].key == key
    requires forall j :: 0 <= j < i ==> tags[j].key != key
    ensures TagValue(tags, key) == tags[i].value
    decreases i
  {
    if i > 0 {
      TagValueFirstMatch(tags[1..], key, i - 1);
    }
  }

  /** No tag matches (in particular, no tags at all): the answer is "". */
  lemma {:induction false} TagValueNoMatch(tags: seq<Tag>, key: string)
    requires forall j :: 0 <= j < |tags| ==> tags[j].key != key
    ensures TagValue(tags, key) == ""
    decreases |tags|
  {
    if tags != [] {
      TagValueNoMatch(tags[1..], key);
    }
  }

  /** Earlier tags shadow later ones: once a prefix holds the key, what follows is never read. */
  lemma {:induction false} TagValueShadows(tags: seq<Tag>, later: seq<Tag>, key: string, i: nat)
    requires i < |tags| && tags[i].key == key
    ensures TagValue(tags + later, key) == TagValue(tags, key)
    decreases |tags|
  {
    if tags[0].key != key {
      assert (tags + later)[1..] == tags[1..] + later;
      TagValueShadows(tags[1..], later, key, i - 1);
    }
  }

  /** `getTagValue`: a linear search that returns at the first matching tag. */
  method GetTagValue(tags: seq<Tag>, key: string) returns (value: string)
    ensures value == TagValue(tags, key)
  {
    var i := 0;
    while i < |tags|
      invariant 0 <= i <= |tags|
      invariant TagValue(tags, key) == TagValue(tags[i..], key)
    {
      if tags[i].key == key {
        return tags[i].value;
      }
      assert tags[i..][1..] == tags[i + 1..];
      i := i + 1;
    }
    return "";
  }

  /** The VM record one instance becomes. */
  function InstanceVM(inst: Instance): VM
  {
    VM(inst.instanceId, TagValue(inst.tags, "Name"), "aws", inst.availabilityZone, inst.stateName)
  }

  /** The VM records of one reservation's instances, in order. */
  function InstanceVMs(insts: seq<Instance>): (vms: seq<VM>)
    ensures |vms| == |insts|
  {
    seq(|insts|, k requires 0 <= k < |insts| => InstanceVM(insts[k]))
  }

  /** The records of all reservations, one contiguous block per reservation, in order. */
  function Flatten(rs: seq<Reservation>): seq<VM>
    decreases |rs|
  {
    if rs == [] then [] else Flatten(rs[..|rs| - 1]) + InstanceVMs(rs[|rs| - 1].instances)
  }

  /** The number of instances across all reservations. */
  function InstanceCount(rs: seq<Reservation>): nat
    decreases |rs|
  {
    if rs == [] then 0 else InstanceCount(rs[..|rs| - 1]) + |rs[|rs| - 1].instances|
  }

  /** One VM per instance. */
  lemma {:induction false} FlattenLength(rs: seq<Reservation>)
    ensures |Flatten(rs)| == InstanceCount(rs)
    decreases |rs|
  {
    if rs != [] {
      FlattenLength(rs[..|rs| - 1]);
    }
  }

  /** The flattening of a prefix of the reservations is a prefix of the whole flattening. */
  lemma {:induction false} FlattenPrefix(rs: seq<Reservation>, n: nat)
    requires n <= |rs|
    ensures |Flatten(rs[..n])| <= |Flatten(rs)|
    ensures Flatten(rs[..n]) == Flatten(rs)[..|Flatten(rs[..n])|]
    decreases |rs| - n
  {
    if n < |rs| {
      var m := |rs| - 1;
      assert rs[..m][..n] == rs[..n];
      FlattenPrefix(rs[..m], n);
      assert rs[..|rs|] == rs;
    } else {
      assert rs[..n] == rs;
    }
  }

  /**
   * Instance `j` of reservation `i` becomes the VM at position InstanceCount(rs[..i]) + j:
   * reservations in order, instances in order within each.
   */
  lemma {:induction false} FlattenAt(rs: seq<Reservation>, i: nat, j: nat)
    requires i < |rs| && j < |rs[i].instances|
    ensures InstanceCount(rs[..i]) + j < |Flatten(rs)|
    ensures Flatten(rs)[InstanceCount(rs[..i]) + j] == InstanceVM(rs[i].instances[j])
  {
    FlattenPrefix(rs, i + 1);
    assert rs[..i + 1][..i] == rs[..i];
    FlattenLength(rs[..i]);
  }

  /** Every produced VM is an AWS VM named by its instance's "Name" tag. */
  lemma {:induction false} FlattenProvenance(rs: seq<Reservation>, k: nat)
    requires k < |Flatten(rs)|
    ensures Flatten(rs)[k].provider == "aws"
    ensures exists i, j :: 0 <= i < |rs| && 0 <= j < |rs[i].instances| && Flatten(rs)[k] == InstanceVM(rs[i].instances[j])
    decreases |rs|
  {
    var m := |rs| - 1;
    var front := Flatten(rs[..m]);
    if k < |front| {
      FlattenProvenance(rs[..m], k);
      var i, j :| 0 <= i < m && 0 <= j < |rs[..m][i].instances| && front[k] == InstanceVM(rs[..m][i].instances[j]);
      assert rs[..m][i] == rs[i];
    } else {
      assert Flatten(rs)[k] == InstanceVM(rs[m].instances[k - |front|]);
    }
  }

  /**
   * `ListVMs`: a DescribeInstances failure is returned as is, with no list; otherwise the
   * nested loops append one VM per instance.
   */
  method ListVMs(described: Result<seq<Reservation>>) returns (r: Result<seq<VM>>)
    ensures described.Err? ==> r == Err(described.msg)
    ensures described.Ok? ==> r == Ok(Flatten(described.value))
  {
    if described.Err? {
      return Err(described.msg);
    }
    var rs := described.value;
    var vms: seq<VM> := [];
    for i := 0 to |rs|
      invariant vms == Flatten(rs[..i])
    {
      var insts := rs[i].instances;
      for j := 0 to |insts|
        invariant vms == Flatten(rs[..i]) + InstanceVMs(insts[..j])
      {
        var name := GetTagValue(insts[j].tags, "Name");
        assert InstanceVMs(insts[..j + 1]) == InstanceVMs(insts[..j]) + [InstanceVM(insts[j])];
        vms := vms + [VM(insts[j].instanceId, name, "aws", insts[j].availabilityZone, insts[j].stateName)];
      }
      assert insts[..|insts|] == insts;
      assert rs[..i + 1][..i] == rs[..i];
    }
    assert rs[..|rs|] == rs;
    return Ok(vms);
  }
}
