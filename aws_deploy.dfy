/**
 * The deployment orchestrator (utils/aws_deploy.py): the stack-to-port table, the image
 * choice, the write-once key file, the security-group helpers, the instance launch, the
 * SSH session and the fixed provisioning script.
 *
 * Each source function is a function on `Cloud` values that gives its effect and its
 * outcome; the lemmas state what the code promises about it. The same procedures as
 * methods on a `Client` are in module AwsDeployClient.
 */
module AwsDeploy {
  import opened Wrappers
  import opened Text
  import opened Provider

  /** The stage a `RuntimeError` message names. */
  datatype Stage = GroupStage | LaunchStage | SshStage

  /** The exception a `RuntimeError` wraps. */
  datatype Cause = Api(error: ApiError) | Connection(why: ConnectError)

  /** The exceptions the code lets escape, by class. */
  datatype Failure =
    | ClientError(error: ApiError)             // a provider error, propagated as it is
    | IndexError                               // `[0]` on an empty list
    | OSError                                  // the key file could not be written
    | WaiterError                              // `wait_until_running` gave up
    | IOError                                  // the key file could not be opened or read
    | SSHException                             // the key file holds no valid private key
    | RuntimeError(stage: Stage, cause: Cause) // re-raised with a message naming the stage
    | UnboundLocalError                        // `return sg_id` before `sg_id` was assigned

  /** The state after a source function and what it returned or raised. */
  datatype Step<T> = Step(cloud: Cloud, result: Result<T, Failure>)

  // ---------------------------------------------------------------------------
  // Stack to application port

  const PortMap: map<string, string> := map["nodejs" := "3000", "flask" := "5000", "springboot" := "8080"]

  /** `port_map.get(tech_stack, "3000")`: exact, case-sensitive lookup with a default. */
  function AppPort(techStack: string): (port: string)
    ensures port == "5000" <==> techStack == "flask"
    ensures port == "8080" <==> techStack == "springboot"
    ensures port == "3000" <==> techStack != "flask" && techStack != "springboot"
  {
    if techStack in PortMap then PortMap[techStack] else "3000"
  }

  /** A differently cased tag is not in the table and falls back to the default. */
  lemma PortMapIsCaseSensitive()
    ensures AppPort("Flask") == "3000" && AppPort("SPRINGBOOT") == "3000" && AppPort("nodejs") == "3000"
  {
  }

  // ---------------------------------------------------------------------------
  // Image choice (get_latest_ubuntu_ami)

  const CanonicalOwner := "099720109477"
  const FocalServerImages := "ubuntu/images/hvm-ssd/ubuntu-focal-20.04-amd64-server-"
  const UbuntuFocal := ImageFilter(CanonicalOwner, FocalServerImages, "available")

  /**
   * The index of the first image whose `CreationDate` is greatest: the element a stable sort
   * in descending order puts first.
   */
  function NewestIndex(images: seq<Image>): (k: nat)
    requires images != []
    ensures k < |images|
  {
    if |images| == 1 then 0
    else
      var k := NewestIndex(images[..|images| - 1]);
      if Less(images[k].creationDate, images[|images| - 1].creationDate) then |images| - 1 else k
  }

  /** No image is newer than the chosen one, and every image before it is strictly older. */
  lemma {:induction false} NewestIndexIsFirstNewest(images: seq<Image>)
    requires images != []
    ensures forall j :: 0 <= j < |images| ==>
      !Less(images[NewestIndex(images)].creationDate, images[j].creationDate)
    ensures forall j :: 0 <= j < NewestIndex(images) ==>
      Less(images[j].creationDate, images[NewestIndex(images)].creationDate)
  {
    var n := |images|;
    if n > 1 {
      var init := images[..n - 1];
      var k := NewestIndex(init);
      NewestIndexIsFirstNewest(init);
      var kd, last := images[k].creationDate, images[n - 1].creationDate;
      if Less(kd, last) {
        forall j | 0 <= j < n
          ensures !Less(last, images[j].creationDate)
        {
          if j == n - 1 {
            LessIrreflexive(last);
          } else if Less(last, images[j].creationDate) {
            assert init[j] == images[j];
            LessTransitive(kd, last, images[j].creationDate);
          }
        }
        forall j | 0 <= j < n - 1
          ensures Less(images[j].creationDate, last)
        {
          assert init[j] == images[j];
          LessTrichotomy(images[j].creationDate, kd);
          if Less(images[j].creationDate, kd) {
            LessTransitive(images[j].creationDate, kd, last);
          }
        }
      } else {
        forall j | 0 <= j < n
          ensures !Less(kd, images[j].creationDate)
        {
          if j < n - 1 {
            assert init[j] == images[j];
          }
        }
        forall j | 0 <= j < k
          ensures Less(images[j].creationDate, kd)
        {
          assert init[j] == images[j];
        }
      }
    } else {
      LessIrreflexive(images[0].creationDate);
    }
  }

  /** `get_latest_ubuntu_ami`: an empty image list fails with `IndexError`, not with a typed error. */
  function LatestAmi(c: Cloud): (s: Step<string>)
    ensures s.cloud == Log(c, DescribeImages)
    ensures s.result == Err(IndexError) <==> DescribeImages !in c.faults && Matching(c.images, UbuntuFocal) == []
    ensures s.result.Ok? ==> exists img :: img in Matching(c.images, UbuntuFocal) && img.imageId == s.result.value
    ensures s.result.Err? ==> s.result.error.ClientError? || s.result.error == IndexError
  {
    var described := DescribeImagesOp(c, UbuntuFocal);
    match described.result
    case Err(e) => Step(described.cloud, Err(ClientError(e)))
    case Ok(images) =>
      if images == [] then Step(described.cloud, Err(IndexError))
      else
        var k := NewestIndex(images);
        assert images[k] in images;
        Step(described.cloud, Ok(images[k].imageId))
  }

  /** The image chosen is the first of the newest images the filter lists. */
  lemma LatestAmiIsNewest(c: Cloud)
    requires DescribeImages !in c.faults && Matching(c.images, UbuntuFocal) != []
    ensures var images := Matching(c.images, UbuntuFocal);
      exists k :: 0 <= k < |images| && LatestAmi(c).result == Ok(images[k].imageId)
        && (forall j :: 0 <= j < |images| ==> !Less(images[k].creationDate, images[j].creationDate))
        && (forall j :: 0 <= j < k ==> Less(images[j].creationDate, images[k].creationDate))
  {
    var images := Matching(c.images, UbuntuFocal);
    NewestIndexIsFirstNewest(images);
    var k := NewestIndex(images);
    assert LatestAmi(c).result == Ok(images[k].imageId);
  }

  // ---------------------------------------------------------------------------
  // Security groups (create_security_group, create_or_get_security_group, ensure_ssh_rule)

  const GroupName := "autodock-sg"
  const GroupDescription := "Security group for AutoDock EC2"

  /** The environment: what the provider offers, refuses, issues and prints, which no operation changes. */
  predicate SameEnvironment(c: Cloud, d: Cloud) {
    && d.images == c.images && d.vpcs == c.vpcs && d.faults == c.faults
    && d.issuedMaterial == c.issuedMaterial && d.nextAddress == c.nextAddress && d.outputs == c.outputs
  }

  /** The resources other than security groups are left as they were. */
  predicate SameNonGroupResources(c: Cloud, d: Cloud) {
    d.keyPairs == c.keyPairs && d.instances == c.instances && d.keyFile == c.keyFile
  }

  /** `after` is `before` plus one group that is `g` except for its rules, which come from `allowed`. */
  predicate AddsOneGroup(before: seq<Group>, after: seq<Group>, g: Group, allowed: set<Rule>) {
    && |after| == |before| + 1 && after[..|before|] == before
    && after[|before|].(rules := g.rules) == g && after[|before|].rules <= allowed
  }

  /**
   * `create_security_group`: reuse the first group with that name (in any VPC); otherwise
   * create one and open TCP 22 and 80 to any address. A failed lookup is ignored.
   */
  function SecurityGroup(c: Cloud, vpcId: string, name: string): (s: Step<GroupId>)
    ensures SameNonGroupResources(c, s.cloud)
    ensures SameEnvironment(c, s.cloud)
    ensures s.cloud.groups == c.groups
      || AddsOneGroup(c.groups, s.cloud.groups, Group(name, GroupDescription, vpcId, {}), {TcpFromAnywhere(22), TcpFromAnywhere(80)})
    ensures s.result.Ok? ==> s.result.value < |s.cloud.groups| && s.cloud.groups[s.result.value].name == name
  {
    var found := DescribeGroupsNamedOp(c, name);
    if found.result.Ok? && found.result.value != [] then
      Step(found.cloud, Ok(found.result.value[0]))
    else
      var created := CreateGroupOp(found.cloud, name, GroupDescription, vpcId);
      match created.result
      case Err(e) => Step(created.cloud, Err(ClientError(e)))
      case Ok(id) =>
        var granted := AuthorizeOp(created.cloud, id, {TcpFromAnywhere(22), TcpFromAnywhere(80)});
        match granted.result
        case Err(e) => Step(granted.cloud, Err(ClientError(e)))
        case Ok(_) => Step(granted.cloud, Ok(id))
  }

  /** An existing group is reused: the first one with the name, with no create and no authorize. */
  lemma SecurityGroupReusesExisting(c: Cloud, vpcId: string, name: string, k: nat)
    requires DescribeSecurityGroups !in c.faults
    requires k < |c.groups| && c.groups[k].name == name
    requires forall j :: 0 <= j < k ==> c.groups[j].name != name
    ensures SecurityGroup(c, vpcId, name) == Step(Log(c, DescribeSecurityGroups), Ok(k))
  {
    var ids := GroupsNamed(c.groups, name);
    assert k in ids;
    assert ids[0] == k by {
      assert c.groups[ids[0]].name == name;
    }
  }

  /** A new group gets exactly TCP 22 and 80 from anywhere; the application port is never opened. */
  lemma SecurityGroupCreatesOnlySshAndHttp(c: Cloud, vpcId: string, name: string)
    requires DescribeSecurityGroups !in c.faults && Call.CreateSecurityGroup !in c.faults
    requires AuthorizeSecurityGroupIngress !in c.faults
    requires forall k :: 0 <= k < |c.groups| ==> c.groups[k].name != name
    ensures var s := SecurityGroup(c, vpcId, name);
      && s.result == Ok(|c.groups|)
      && s.cloud.groups == c.groups + [Group(name, GroupDescription, vpcId, {TcpFromAnywhere(22), TcpFromAnywhere(80)})]
      && s.cloud.trace == c.trace + [Called(DescribeSecurityGroups), Called(Call.CreateSecurityGroup), Called(AuthorizeSecurityGroupIngress)]
  {
    assert GroupsNamed(c.groups, name) == [];
    var c1 := Log(c, DescribeSecurityGroups);
    var c2 := Log(c1, Call.CreateSecurityGroup).(groups := c.groups + [Group(name, GroupDescription, vpcId, {})]);
    assert CreateGroupOp(c1, name, GroupDescription, vpcId) == Reply(c2, Ok(|c.groups|));
    var rules := {TcpFromAnywhere(22), TcpFromAnywhere(80)};
    assert rules * c2.groups[|c.groups|].rules == {};
    var g := c2.groups[|c.groups|];
    assert g.(rules := g.rules + rules) == Group(name, GroupDescription, vpcId, rules);
    assert c2.groups[|c.groups| := Group(name, GroupDescription, vpcId, rules)]
      == c.groups + [Group(name, GroupDescription, vpcId, rules)];
    var c3 := AuthorizeOp(c2, |c.groups|, rules);
    assert c3.result == Ok(());
  }

  /** Calling it again after it succeeded returns the same group and only adds a lookup to the record. */
  lemma {:induction false} SecurityGroupIsIdempotent(c: Cloud, vpcId: string, name: string)
    requires DescribeSecurityGroups !in c.faults
    requires SecurityGroup(c, vpcId, name).result.Ok?
    ensures var first := SecurityGroup(c, vpcId, name);
      SecurityGroup(first.cloud, vpcId, name) == Step(Log(first.cloud, DescribeSecurityGroups), first.result)
  {
    var first := SecurityGroup(c, vpcId, name);
    var id := first.result.value;
    var ids := GroupsNamed(c.groups, name);
    if ids == [] {
      assert id == |c.groups|;
      forall j | 0 <= j < id
        ensures first.cloud.groups[j].name != name
      {
        assert first.cloud.groups[j].name == c.groups[j].name;
      }
    } else {
      assert id == ids[0];
      forall j | 0 <= j < id
        ensures first.cloud.groups[j].name != name
      {
        assert first.cloud.groups[j].name == c.groups[j].name;
      }
    }
    SecurityGroupReusesExisting(first.cloud, vpcId, name, id);
  }

  /** When the lookup is refused, a second call tries to create the group again and fails. */
  lemma SecurityGroupNotIdempotentWhenLookupRefused(c: Cloud, vpcId: string, name: string)
    requires DescribeSecurityGroups in c.faults
    requires SecurityGroup(c, vpcId, name).result.Ok?
    ensures var first := SecurityGroup(c, vpcId, name);
      SecurityGroup(first.cloud, vpcId, name).result == Err(ClientError(ApiError(DuplicateGroup, Call.CreateSecurityGroup)))
  {
    var first := SecurityGroup(c, vpcId, name);
    var id := first.result.value;
    assert id == |c.groups|;
    assert first.cloud.groups[id].vpcId == vpcId;
  }

  /**
   * The `except ClientError` handler of `create_or_get_security_group`: an error whose text
   * names a duplicate rule returns `sg_id`, which is unbound unless the group was created.
   */
  function Recover(e: ApiError, created: Option<GroupId>): (r: Result<GroupId, Failure>)
    ensures r == Err(RuntimeError(GroupStage, Api(e))) <==> !Contains(Message(e), DuplicateRule)
    ensures r.Ok? <==> Contains(Message(e), DuplicateRule) && created.Some?
    ensures r == Err(UnboundLocalError) <==> Contains(Message(e), DuplicateRule) && created.None?
    ensures r.Ok? ==> r.value == created.value
  {
    if Contains(Message(e), DuplicateRule) then
      if created.Some? then Ok(created.value) else Err(UnboundLocalError)
    else
      Err(RuntimeError(GroupStage, Api(e)))
  }

  /**
   * `create_or_get_security_group`: like `create_security_group` but the lookup is inside the
   * error handler, the new group also opens `port`, and the VPC is looked up first.
   */
  function SecurityGroupWithPort(c: Cloud, name: string, description: string, port: int): (s: Step<GroupId>)
    ensures SameNonGroupResources(c, s.cloud)
    ensures s.cloud.groups == c.groups || (c.vpcs != [] && AddsOneGroup(c.groups, s.cloud.groups,
      Group(name, description, c.vpcs[0], {}), {TcpFromAnywhere(22), TcpFromAnywhere(80), TcpFromAnywhere(port)}))
    ensures s.result.Ok? ==> s.result.value < |s.cloud.groups| && s.cloud.groups[s.result.value].name == name
  {
    var vpcs := DescribeVpcsOp(c);
    match vpcs.result
    case Err(e) => Step(vpcs.cloud, Err(ClientError(e)))
    case Ok(vpcIds) =>
      if vpcIds == [] then Step(vpcs.cloud, Err(IndexError))
      else
        var found := DescribeGroupsNamedOp(vpcs.cloud, name);
        match found.result
        case Err(e) => Step(found.cloud, Recover(e, None))
        case Ok(existing) =>
          if existing != [] then Step(found.cloud, Ok(existing[0]))
          else
            var created := CreateGroupOp(found.cloud, name, description, vpcIds[0]);
            match created.result
            case Err(e) => Step(created.cloud, Recover(e, None))
            case Ok(id) =>
              var granted := AuthorizeOp(created.cloud, id, {TcpFromAnywhere(22), TcpFromAnywhere(80), TcpFromAnywhere(port)});
              match granted.result
              case Err(e) => Step(granted.cloud, Recover(e, Some(id)))
              case Ok(_) => Step(granted.cloud, Ok(id))
  }

  /** A new group gets TCP 22, 80 and `port` from anywhere, in the account's first VPC. */
  lemma SecurityGroupWithPortCreates(c: Cloud, name: string, description: string, port: int)
    requires c.vpcs != []
    requires forall call :: call in {DescribeVpcs, DescribeSecurityGroups, Call.CreateSecurityGroup, AuthorizeSecurityGroupIngress} ==> call !in c.faults
    requires forall k :: 0 <= k < |c.groups| ==> c.groups[k].name != name
    ensures var s := SecurityGroupWithPort(c, name, description, port);
      && s.result == Ok(|c.groups|)
      && s.cloud.groups == c.groups + [Group(name, description, c.vpcs[0],
           {TcpFromAnywhere(22), TcpFromAnywhere(80), TcpFromAnywhere(port)})]
  {
    assert DescribeVpcs in {DescribeVpcs, DescribeSecurityGroups, Call.CreateSecurityGroup, AuthorizeSecurityGroupIngress};
    assert DescribeSecurityGroups in {DescribeVpcs, DescribeSecurityGroups, Call.CreateSecurityGroup, AuthorizeSecurityGroupIngress};
    assert Call.CreateSecurityGroup in {DescribeVpcs, DescribeSecurityGroups, Call.CreateSecurityGroup, AuthorizeSecurityGroupIngress};
    assert AuthorizeSecurityGroupIngress in {DescribeVpcs, DescribeSecurityGroups, Call.CreateSecurityGroup, AuthorizeSecurityGroupIngress};
    assert GroupsNamed(c.groups, name) == [];
    var c1 := Log(Log(c, DescribeVpcs), DescribeSecurityGroups);
    var c2 := Log(c1, Call.CreateSecurityGroup).(groups := c.groups + [Group(name, description, c.vpcs[0], {})]);
    assert CreateGroupOp(c1, name, description, c.vpcs[0]) == Reply(c2, Ok(|c.groups|));
    var rules := {TcpFromAnywhere(22), TcpFromAnywhere(80), TcpFromAnywhere(port)};
    assert rules * c2.groups[|c.groups|].rules == {};
    var g := c2.groups[|c.groups|];
    assert g.(rules := g.rules + rules) == Group(name, description, c.vpcs[0], rules);
    assert c2.groups[|c.groups| := Group(name, description, c.vpcs[0], rules)]
      == c.groups + [Group(name, description, c.vpcs[0], rules)];
    var c3 := AuthorizeOp(c2, |c.groups|, rules);
    assert c3.result == Ok(());
  }

  /** An existing group is reused: the first one with the name, after the VPC and group lookups only. */
  lemma SecurityGroupWithPortReusesExisting(c: Cloud, name: string, description: string, port: int, k: nat)
    requires c.vpcs != [] && DescribeVpcs !in c.faults && DescribeSecurityGroups !in c.faults
    requires k < |c.groups| && c.groups[k].name == name
    requires forall j :: 0 <= j < k ==> c.groups[j].name != name
    ensures SecurityGroupWithPort(c, name, description, port)
      == Step(c.(trace := c.trace + [Called(DescribeVpcs), Called(DescribeSecurityGroups)]), Ok(k))
  {
    var ids := GroupsNamed(c.groups, name);
    assert k in ids;
    assert ids[0] == k by {
      assert c.groups[ids[0]].name == name;
    }
  }

  /** A refused authorization whose text names a duplicate rule still returns the new group. */
  lemma SecurityGroupWithPortToleratesDuplicateRules(c: Cloud, name: string, description: string, port: int)
    requires c.vpcs != []
    requires forall call :: call in {DescribeVpcs, DescribeSecurityGroups, Call.CreateSecurityGroup} ==> call !in c.faults
    requires AuthorizeSecurityGroupIngress in c.faults && c.faults[AuthorizeSecurityGroupIngress] == DuplicateRule
    requires forall k :: 0 <= k < |c.groups| ==> c.groups[k].name != name
    ensures SecurityGroupWithPort(c, name, description, port).result == Ok(|c.groups|)
  {
    assert DescribeVpcs in {DescribeVpcs, DescribeSecurityGroups, Call.CreateSecurityGroup};
    assert DescribeSecurityGroups in {DescribeVpcs, DescribeSecurityGroups, Call.CreateSecurityGroup};
    assert Call.CreateSecurityGroup in {DescribeVpcs, DescribeSecurityGroups, Call.CreateSecurityGroup};
    assert GroupsNamed(c.groups, name) == [];
    assert Contains(Message(ApiError(DuplicateRule, AuthorizeSecurityGroupIngress)), DuplicateRule);
  }

  /** A refused lookup whose text names a duplicate rule reaches `return sg_id` with `sg_id` unbound. */
  lemma SecurityGroupWithPortUnboundGroupId(c: Cloud, name: string, description: string, port: int)
    requires c.vpcs != [] && DescribeVpcs !in c.faults
    requires DescribeSecurityGroups in c.faults && c.faults[DescribeSecurityGroups] == DuplicateRule
    ensures SecurityGroupWithPort(c, name, description, port).result == Err(UnboundLocalError)
  {
    assert Contains(Message(ApiError(DuplicateRule, DescribeSecurityGroups)), DuplicateRule);
  }

  /** A permission `ensure_ssh_rule` accepts as an SSH rule, whatever its source range. */
  predicate IsSshRule(r: Rule) {
    r.protocol == "tcp" && r.fromPort == Some(22) && r.toPort == Some(22)
  }

  /** `ensure_ssh_rule`: open TCP 22 unless some SSH rule exists; every error is swallowed. */
  function SshRuleEnsured(c: Cloud, id: GroupId): (d: Cloud)
    ensures SameNonGroupResources(c, d)
    ensures d.groups == c.groups
      || (id < |c.groups| && d.groups == c.groups[id := c.groups[id].(rules := c.groups[id].rules + {TcpFromAnywhere(22)})])
    ensures id < |c.groups| && (exists r :: r in c.groups[id].rules && IsSshRule(r)) ==> d.groups == c.groups
  {
    var described := DescribeGroupOp(c, id);
    match described.result
    case Err(_) => described.cloud
    case Ok(rules) =>
      if exists r :: r in rules && IsSshRule(r) then described.cloud
      else AuthorizeOp(described.cloud, id, {TcpFromAnywhere(22)}).cloud
  }

  /** When the provider cooperates, the group ends with an SSH rule. */
  lemma SshRuleEnsuredOpensSsh(c: Cloud, id: GroupId)
    requires DescribeSecurityGroups !in c.faults && AuthorizeSecurityGroupIngress !in c.faults
    requires id < |c.groups|
    ensures exists r :: r in SshRuleEnsured(c, id).groups[id].rules && IsSshRule(r)
  {
    if !exists r :: r in c.groups[id].rules && IsSshRule(r) {
      assert TcpFromAnywhere(22) in SshRuleEnsured(c, id).groups[id].rules;
    }
  }

  /** Calling it twice changes the groups no more than calling it once: the rule is added at most once. */
  lemma SshRuleAddedAtMostOnce(c: Cloud, id: GroupId)
    ensures SshRuleEnsured(SshRuleEnsured(c, id), id).groups == SshRuleEnsured(c, id).groups
  {
    var once := SshRuleEnsured(c, id);
    if DescribeSecurityGroups !in c.faults && id < |c.groups| && AuthorizeSecurityGroupIngress !in c.faults {
      SshRuleEnsuredOpensSsh(c, id);
    }
  }

  // ---------------------------------------------------------------------------
  // The orchestrator (deploy_to_aws_ec2), stage by stage

  const KeyName := "autodock-key"

  /** Lines 45-56: the key pair is created and its material written only when the key file does not exist. */
  function KeyFileSetup(c: Cloud): (s: Step<()>)
    ensures c.keyFile.Some? ==> s == Step(c, Ok(()))
    ensures s.cloud.groups == c.groups && s.cloud.instances == c.instances && SameEnvironment(c, s.cloud)
    ensures s.cloud.keyPairs == c.keyPairs || (KeyName !in c.keyPairs && s.cloud.keyPairs == c.keyPairs[KeyName := c.issuedMaterial])
    ensures s.result.Ok? ==> s.cloud.keyFile.Some?
    ensures c.keyFile.None? && s.result.Ok? ==>
      s.cloud.keyFile == Some(KeyFile(c.issuedMaterial, OwnerReadOnly)) && s.cloud.keyPairs == c.keyPairs[KeyName := c.issuedMaterial]
      && KeyName !in c.keyPairs
    ensures s.result.Err? ==> s.result.error.ClientError? || s.result.error == OSError
  {
    if c.keyFile.Some? then Step(c, Ok(()))
    else
      var created := CreateKeyPairOp(c, KeyName);
      match created.result
      case Err(e) => Step(created.cloud, Err(ClientError(e)))
      case Ok(material) =>
        var written := WriteKeyFileOp(created.cloud, material);
        if written.result.Err? then Step(written.cloud, Err(OSError)) else Step(written.cloud, Ok(()))
  }

  /** Lines 59-60: the first VPC, then `create_security_group` under the fixed name, without the application port. */
  function DeploymentGroup(c: Cloud): (s: Step<GroupId>)
    ensures SameNonGroupResources(c, s.cloud)
    ensures SameEnvironment(c, s.cloud)
    ensures s.cloud.groups == c.groups || (c.vpcs != [] && AddsOneGroup(c.groups, s.cloud.groups,
      Group(GroupName, GroupDescription, c.vpcs[0], {}), {TcpFromAnywhere(22), TcpFromAnywhere(80)}))
    ensures s.result.Ok? ==> s.result.value < |s.cloud.groups| && s.cloud.groups[s.result.value].name == GroupName
    ensures s.result.Err? ==> s.result.error.ClientError? || s.result.error == IndexError
  {
    var vpcs := DescribeVpcsOp(c);
    match vpcs.result
    case Err(e) => Step(vpcs.cloud, Err(ClientError(e)))
    case Ok(vpcIds) =>
      if vpcIds == [] then Step(vpcs.cloud, Err(IndexError))
      else SecurityGroup(vpcs.cloud, vpcIds[0], GroupName)
  }

  /** Lines 63-79: one instance; a refused launch is wrapped in `RuntimeError`, a failed wait is not. */
  function Launch(c: Cloud, amiId: string, groupId: GroupId): (s: Step<nat>)
    ensures s.cloud.keyPairs == c.keyPairs && s.cloud.groups == c.groups && s.cloud.keyFile == c.keyFile
    ensures SameEnvironment(c, s.cloud)
    ensures |c.instances| <= |s.cloud.instances| <= |c.instances| + 1 && s.cloud.instances[..|c.instances|] == c.instances
    ensures s.result.Ok? ==>
      && s.result.value == |c.instances| && |s.cloud.instances| == |c.instances| + 1 && KeyName in c.keyPairs
      && s.cloud.instances[|c.instances|] == Instance(amiId, KeyName, [groupId], Running, c.nextAddress, c.keyPairs[KeyName])
    ensures s.result.Err? ==> s.result.error == WaiterError || (s.result.error.RuntimeError? && s.result.error.stage == LaunchStage)
    ensures s.result == Err(WaiterError) ==>
      |s.cloud.instances| == |c.instances| + 1 && s.cloud.instances[|c.instances|].groupIds == [groupId]
    ensures LaunchRefused(s.result) ==> s.cloud.instances == c.instances
  {
    var run := RunInstancesOp(c, amiId, KeyName, [groupId]);
    match run.result
    case Err(e) => Step(run.cloud, Err(RuntimeError(LaunchStage, Api(e))))
    case Ok(id) =>
      var waited := WaitUntilRunningOp(run.cloud, id);
      if waited.result.Err? then Step(waited.cloud, Err(WaiterError)) else Step(waited.cloud, Ok(id))
  }

  /** Lines 86-94: load the key file, then connect; a refused connection is wrapped in `RuntimeError`. */
  function Session(c: Cloud, id: nat): (s: Step<()>)
    ensures s.cloud == c.(trace := s.cloud.trace)
    ensures s.result.Ok? ==>
      && id < |c.instances| && c.instances[id].address.Some?
      && c.keyFile.Some? && c.keyFile.value.material == c.instances[id].authorizedKey
    ensures s.result.Err? ==> SshFailure(s.result)
    ensures s.result == Err(IOError) <==>
      c.keyFile.None? || (LoadKeyFile in c.faults && c.faults[LoadKeyFile] == UnreadableKeyFile)
    ensures s.result == Err(SSHException) <==>
      c.keyFile.Some? && LoadKeyFile in c.faults && c.faults[LoadKeyFile] != UnreadableKeyFile
  {
    var loaded := LoadKeyFileOp(c);
    match loaded.result
    case Err(Unreadable) => Step(loaded.cloud, Err(IOError))
    case Err(Invalid) => Step(loaded.cloud, Err(SSHException))
    case Ok(key) =>
      var connected := ConnectOp(loaded.cloud, id, key);
      match connected.result
      case Err(why) => Step(connected.cloud, Err(RuntimeError(SshStage, Connection(why))))
      case Ok(_) => Step(connected.cloud, Ok(()))
  }

  /** Line 102: the directory the build step enters, derived from the repository URL. */
  function RepoFolder(url: string): (folder: string)
    ensures '/' !in folder
    ensures |folder| <= |url|
  {
    DeleteAll(AfterLast(TrimEnd(url, '/'), '/'), ".git")
  }

  /** The folder of `<base>/<name>.git` is `name`, when `.git` occurs in it only as the suffix. */
  lemma RepoFolderOfCloneUrl(base: string, name: string)
    requires '/' !in name
    requires forall i :: 0 <= i < |name| ==> !StartsWith((name + ".git")[i..], ".git")
    ensures RepoFolder(base + "/" + name + ".git") == name
  {
    var url := base + "/" + name + ".git";
    assert url == base + ['/'] + (name + ".git");
    assert url[|url| - 1] == 't';
    AfterLastSegment(base, '/', name + ".git");
    DeleteAllTrailing(name, ".git");
  }

  /** Trailing slashes are ignored: the folder of `<base>/<name>/` is `name`. */
  lemma RepoFolderIgnoresTrailingSlash(base: string, name: string)
    requires name != [] && '/' !in name && Free(name, ".git")
    ensures RepoFolder(base + "/" + name + "/") == name
  {
    var url := base + "/" + name;
    assert url == base + ['/'] + name;
    TrimEndDropsTrailing(url, '/');
    assert url[|url| - 1] == name[|name| - 1];
    AfterLastSegment(base, '/', name);
    DeleteAllFree(name, ".git");
  }

  lemma HubIsFree()
    ensures Free("hub.io", ".git")
  {
    forall i | 0 <= i < 6
      ensures !StartsWith("hub.io"[i..], ".git")
    {
      if i <= 2 {
        assert "hub.io"[i..][0] == "hub.io"[i] != '.';
      }
    }
  }

  lemma InnerGitDeleted(user: char)
    requires user != '.'
    ensures DeleteAll([user] + ".github.io", ".git") == [user] + "hub.io"
  {
    var pat := ".git";
    var rest := pat + "hub.io";
    assert [user] + ".github.io" == [user] + rest;
    assert !StartsWith([user] + rest, pat) by {
      assert ([user] + rest)[..4][0] == user;
    }
    DeleteAllSkipsHead(user, rest, pat);
    DeleteAllDropsLeading(pat, "hub.io");
    HubIsFree();
    DeleteAllFree("hub.io", pat);
  }

  /**
   * `.git` is deleted wherever it occurs, not only as a suffix: the folder derived for a
   * repository named `<user>.github.io` is not the directory `git clone` creates.
   */
  lemma RepoFolderDeletesInnerGit(base: string, user: char)
    requires user != '.' && user != '/'
    ensures RepoFolder(base + "/" + [user] + ".github.io") == [user] + "hub.io"
  {
    var name := [user] + ".github.io";
    var url := base + "/" + [user] + ".github.io";
    assert url == base + ['/'] + name;
    assert url[|url| - 1] == 'o';
    assert TrimEnd(url, '/') == url;
    assert '/' !in name;
    AfterLastSegment(base, '/', name);
    InnerGitDeleted(user);
  }

  /** Lines 97-111: the provisioning commands, in the order they are issued. */
  function ProvisioningScript(repoPath: string, appPort: string): (script: seq<string>)
    ensures |script| == 5
  {
    var url := Strip(repoPath);
    [ "sudo apt update -y",
      "sudo apt install -y docker.io git",
      "git clone " + url,
      "cd " + RepoFolder(url) + " && sudo docker build -t app .",
      "sudo docker run -d -p 80:" + appPort + " app" ]
  }

  /** For a path that strips to the clone URL `base/name.git`, the build runs in the cloned folder `name`. */
  lemma ScriptBuildsInClonedFolder(repoPath: string, base: string, name: string, appPort: string)
    requires Strip(repoPath) == base + "/" + name + ".git"
    requires '/' !in name
    requires forall i :: 0 <= i < |name| ==> !StartsWith((name + ".git")[i..], ".git")
    ensures ProvisioningScript(repoPath, appPort)[3] == "cd " + name + " && sudo docker build -t app ."
  {
    RepoFolderOfCloneUrl(base, name);
  }

  function RanAll(commands: seq<string>): (events: seq<Event>)
    ensures |events| == |commands|
    ensures forall i :: 0 <= i < |commands| ==> events[i] == Ran(commands[i])
  {
    seq(|commands|, i requires 0 <= i < |commands| => Ran(commands[i]))
  }

  /** `run_ssh_command` for each command in turn; whatever they print or return is dropped. */
  function RunScript(c: Cloud, commands: seq<string>): (d: Cloud)
    ensures d == c.(trace := c.trace + RanAll(commands))
    decreases |commands|
  {
    if commands == [] then
      assert c.trace + RanAll(commands) == c.trace;
      c
    else
      var next := ExecOp(c, commands[0]).cloud;
      assert c.trace + RanAll(commands) == next.trace + RanAll(commands[1..]);
      RunScript(next, commands[1..])
  }

  // ---------------------------------------------------------------------------
  // Record order: every event belongs to one stage of `deploy_to_aws_ec2`

  /** The stage of the deployment that issues `e`, numbered in source order. */
  function StageOf(e: Event): nat {
    match e
    case Called(call) =>
      (match call
       case DescribeImages => 1
       case CreateKeyPair => 2
       case WriteKeyFile => 2
       case DescribeVpcs => 3
       case DescribeSecurityGroups => 3
       case CreateSecurityGroup => 3
       case AuthorizeSecurityGroupIngress => 3
       case RunInstances => 4
       case WaitUntilRunning => 4
       case LoadKeyFile => 5
       case Connect => 5)
    case Ran(_) => 6
    case Closed => 7
  }

  /** `d`'s record is `c`'s followed by events of stage `k` only. */
  predicate Within(c: Cloud, d: Cloud, k: nat) {
    && |c.trace| <= |d.trace| && d.trace[..|c.trace|] == c.trace
    && forall i :: |c.trace| <= i < |d.trace| ==> StageOf(d.trace[i]) == k
  }

  /** `d`'s record is `c`'s followed by events of stages `lo` to 7, in stage order. */
  predicate InOrder(c: Cloud, d: Cloud, lo: nat) {
    && |c.trace| <= |d.trace| && d.trace[..|c.trace|] == c.trace
    && (forall i :: |c.trace| <= i < |d.trace| ==> lo <= StageOf(d.trace[i]))
    && (forall i, j :: |c.trace| <= i < j < |d.trace| ==> StageOf(d.trace[i]) <= StageOf(d.trace[j]))
  }

  lemma WithinThenInOrder(a: Cloud, b: Cloud, c: Cloud, k: nat, lo: nat)
    requires Within(a, b, k) && InOrder(b, c, lo) && k <= lo
    ensures InOrder(a, c, k)
  {
    assert c.trace[..|a.trace|] == c.trace[..|b.trace|][..|a.trace|];
    forall i | |a.trace| <= i < |b.trace|
      ensures c.trace[i] == b.trace[i]
    {
      assert c.trace[..|b.trace|][i] == c.trace[i];
    }
  }

  lemma WithinIsInOrder(c: Cloud, d: Cloud, k: nat)
    requires Within(c, d, k)
    ensures InOrder(c, d, k)
  {
  }

  lemma AppendedWithin(c: Cloud, d: Cloud, events: seq<Event>, k: nat)
    requires d.trace == c.trace + events
    requires forall i :: 0 <= i < |events| ==> StageOf(events[i]) == k
    ensures Within(c, d, k)
  {
    assert d.trace[..|c.trace|] == c.trace;
    forall i | |c.trace| <= i < |d.trace|
      ensures StageOf(d.trace[i]) == k
    {
      assert d.trace[i] == events[i - |c.trace|];
    }
  }

  lemma WithinChain(a: Cloud, b: Cloud, c: Cloud, k: nat)
    requires Within(a, b, k) && Within(b, c, k)
    ensures Within(a, c, k)
  {
    assert c.trace[..|a.trace|] == c.trace[..|b.trace|][..|a.trace|];
    forall i | |a.trace| <= i < |b.trace|
      ensures c.trace[i] == b.trace[i]
    {
      assert c.trace[..|b.trace|][i] == c.trace[i];
    }
  }

  lemma KeyFileSetupWithin(c: Cloud)
    ensures Within(c, KeyFileSetup(c).cloud, 2)
  {
    if c.keyFile.None? {
      var created := CreateKeyPairOp(c, KeyName);
      AppendedWithin(c, created.cloud, [Called(CreateKeyPair)], 2);
      if created.result.Ok? {
        var written := WriteKeyFileOp(created.cloud, created.result.value);
        AppendedWithin(created.cloud, written.cloud, [Called(WriteKeyFile)], 2);
        WithinChain(c, created.cloud, written.cloud, 2);
      }
    } else {
      AppendedWithin(c, c, [], 2);
    }
  }

  lemma SecurityGroupWithin(c: Cloud, vpcId: string, name: string)
    ensures Within(c, SecurityGroup(c, vpcId, name).cloud, 3)
  {
    var found := DescribeGroupsNamedOp(c, name);
    AppendedWithin(c, found.cloud, [Called(DescribeSecurityGroups)], 3);
    if !(found.result.Ok? && found.result.value != []) {
      var created := CreateGroupOp(found.cloud, name, GroupDescription, vpcId);
      AppendedWithin(found.cloud, created.cloud, [Called(Call.CreateSecurityGroup)], 3);
      WithinChain(c, found.cloud, created.cloud, 3);
      if created.result.Ok? {
        var granted := AuthorizeOp(created.cloud, created.result.value, {TcpFromAnywhere(22), TcpFromAnywhere(80)});
        AppendedWithin(created.cloud, granted.cloud, [Called(AuthorizeSecurityGroupIngress)], 3);
        WithinChain(c, created.cloud, granted.cloud, 3);
      }
    }
  }

  lemma DeploymentGroupWithin(c: Cloud)
    ensures Within(c, DeploymentGroup(c).cloud, 3)
  {
    var vpcs := DescribeVpcsOp(c);
    AppendedWithin(c, vpcs.cloud, [Called(DescribeVpcs)], 3);
    if vpcs.result.Ok? && vpcs.result.value != [] {
      SecurityGroupWithin(vpcs.cloud, vpcs.result.value[0], GroupName);
      WithinChain(c, vpcs.cloud, DeploymentGroup(c).cloud, 3);
    }
  }

  lemma LaunchWithin(c: Cloud, amiId: string, groupId: GroupId)
    ensures Within(c, Launch(c, amiId, groupId).cloud, 4)
  {
    var run := RunInstancesOp(c, amiId, KeyName, [groupId]);
    AppendedWithin(c, run.cloud, [Called(RunInstances)], 4);
    if run.result.Ok? {
      var waited := WaitUntilRunningOp(run.cloud, run.result.value);
      AppendedWithin(run.cloud, waited.cloud, [Called(WaitUntilRunning)], 4);
      WithinChain(c, run.cloud, waited.cloud, 4);
    }
  }

  // ---------------------------------------------------------------------------
  // deploy_to_aws_ec2, one stage at a time

  /** `d` still has every group, instance and key pair of `c`, and `c`'s key file if it had one. */
  predicate Keeps(c: Cloud, d: Cloud) {
    && |c.groups| <= |d.groups| && d.groups[..|c.groups|] == c.groups
    && |c.instances| <= |d.instances| && d.instances[..|c.instances|] == c.instances
    && (forall k :: k in c.keyPairs ==> k in d.keyPairs && d.keyPairs[k] == c.keyPairs[k])
    && (c.keyFile.Some? ==> d.keyFile == c.keyFile)
    && SameEnvironment(c, d)
  }

  lemma KeepsChain(a: Cloud, b: Cloud, c: Cloud)
    requires Keeps(a, b) && Keeps(b, c)
    ensures Keeps(a, c)
  {
    assert c.groups[..|a.groups|] == c.groups[..|b.groups|][..|a.groups|];
    assert c.instances[..|a.instances|] == c.instances[..|b.instances|][..|a.instances|];
  }

  lemma SessionWithin(c: Cloud, id: nat)
    ensures Within(c, Session(c, id).cloud, 5)
  {
    var d := Session(c, id).cloud;
    if d.trace == c.trace + [Called(LoadKeyFile)] {
      AppendedWithin(c, d, [Called(LoadKeyFile)], 5);
    } else {
      AppendedWithin(c, d, [Called(LoadKeyFile), Called(Connect)], 5);
    }
  }

  lemma ScriptInOrder(c: Cloud, script: seq<string>)
    ensures InOrder(c, CloseOp(RunScript(c, script)), 6)
  {
    var d := CloseOp(RunScript(c, script));
    var events := RanAll(script) + [Closed];
    assert d.trace == c.trace + events;
    assert d.trace[..|c.trace|] == c.trace;
    forall i | |c.trace| <= i < |d.trace|
      ensures StageOf(d.trace[i]) == if i < |d.trace| - 1 then 6 else 7
    {
      assert d.trace[i] == events[i - |c.trace|];
    }
  }

  /** The failures raised once the instance runs: the key file cannot be loaded, or the session fails. */
  predicate SshFailure<T>(r: Result<T, Failure>) {
    r.Err? && (r.error == IOError || r.error == SSHException || (r.error.RuntimeError? && r.error.stage == SshStage))
  }

  /** The record of `d` ends with the script's commands, in order, and the closing of the session. */
  predicate EndsWithScript(d: Cloud, script: seq<string>) {
    |script| + 1 <= |d.trace| && d.trace[|d.trace| - |script| - 1..] == RanAll(script) + [Closed]
  }

  /**
   * Instance `n` of `d` is the last one: launched from `amiId` with the deployment's key pair,
   * running at `address`, and reachable with the key file `d` holds.
   */
  predicate LaunchedWith(n: nat, d: Cloud, amiId: string, address: string) {
    && |d.instances| == n + 1 && KeyName in d.keyPairs
    && d.instances[n].imageId == amiId
    && d.instances[n].keyName == KeyName
    && d.instances[n].state == Running
    && d.instances[n].address == Some(address)
    && d.instances[n].authorizedKey == d.keyPairs[KeyName]
    && d.keyFile.Some? && d.keyFile.value.material == d.keyPairs[KeyName]
  }

  /** Instance `n` of `d` sits in exactly one group, named after the deployment. */
  predicate InDeploymentGroup(n: nat, d: Cloud) {
    && n < |d.instances| && |d.instances[n].groupIds| == 1
    && d.instances[n].groupIds[0] < |d.groups| && d.groups[d.instances[n].groupIds[0]].name == GroupName
  }

  /** Instance `n` of `d` is the last one and still runs. */
  predicate LeftRunning(n: nat, d: Cloud) {
    |d.instances| == n + 1 && d.instances[n].state == Running
  }

  /** Every group `d` has beyond the first `n` is the deployment's group and opens at most TCP 22 and 80. */
  predicate NewGroupsOpenOnlySshAndHttp(n: nat, d: Cloud) {
    forall k :: n <= k < |d.groups| ==>
      d.groups[k].name == GroupName && d.groups[k].rules <= {TcpFromAnywhere(22), TcpFromAnywhere(80)}
  }

  /** The deployment failed once its instance existed: the waiter gave up, or the SSH stage failed. */
  predicate FailedAfterLaunch<T>(r: Result<T, Failure>) {
    r == Err(WaiterError) || SshFailure(r)
  }

  /** The provider refused to launch the instance. */
  predicate LaunchRefused<T>(r: Result<T, Failure>) {
    r.Err? && r.error.RuntimeError? && r.error.stage == LaunchStage
  }

  /** `d` has a group named after the deployment. */
  predicate HasDeploymentGroup(d: Cloud) {
    exists k :: 0 <= k < |d.groups| && d.groups[k].name == GroupName
  }

  /**
   * What a deployment that fails at launch or later leaves in `d`, `n` being the number of
   * instances before it: after a refused launch, no new instance and a group named after the
   * deployment; after a later failure, the new instance, in that group.
   */
  predicate LeftBehind<T>(n: nat, d: Cloud, r: Result<T, Failure>) {
    && (LaunchRefused(r) ==> |d.instances| == n && HasDeploymentGroup(d))
    && (FailedAfterLaunch(r) ==> |d.instances| == n + 1 && InDeploymentGroup(n, d))
  }

  /** Lines 85-116, once instance `id` runs: open the session, run `script`, close. */
  function Provisioned(c: Cloud, id: nat, script: seq<string>): (s: Step<string>)
    ensures s.cloud == c.(trace := s.cloud.trace)
    ensures InOrder(c, s.cloud, 5)
    ensures s.result.Err? ==> SshFailure(s.result)
    ensures s.result.Ok? ==>
      && id < |c.instances| && c.instances[id].address == Some(s.result.value)
      && c.keyFile.Some? && c.keyFile.value.material == c.instances[id].authorizedKey
      && EndsWithScript(s.cloud, script)
  {
    var session := Session(c, id);
    SessionWithin(c, id);
    if session.result.Err? then
      WithinIsInOrder(c, session.cloud, 5);
      Step(session.cloud, Err(session.result.error))
    else
    var done := CloseOp(RunScript(session.cloud, script));
    ScriptInOrder(session.cloud, script);
    WithinThenInOrder(c, session.cloud, done, 5, 6);
    assert done.trace == session.cloud.trace + (RanAll(script) + [Closed]);
    Step(done, Ok(c.instances[id].address.value))
  }

  /** Lines 62-116, once the key file and the group `groupId` exist: launch, then provision. */
  function Launched(c: Cloud, amiId: string, groupId: GroupId, script: seq<string>): (s: Step<string>)
    ensures Keeps(c, s.cloud)
    ensures s.cloud.groups == c.groups && s.cloud.keyPairs == c.keyPairs && s.cloud.keyFile == c.keyFile
    ensures InOrder(c, s.cloud, 4)
    ensures s.result.Ok? ==>
      && LaunchedWith(|c.instances|, s.cloud, amiId, s.result.value)
      && s.cloud.instances[|c.instances|].groupIds == [groupId] && EndsWithScript(s.cloud, script)
    ensures SshFailure(s.result) ==> LeftRunning(|c.instances|, s.cloud)
    ensures FailedAfterLaunch(s.result) ==>
      |s.cloud.instances| == |c.instances| + 1 && s.cloud.instances[|c.instances|].groupIds == [groupId]
    ensures LaunchRefused(s.result) ==> s.cloud.instances == c.instances
  {
    var vm := Launch(c, amiId, groupId);
    assert Keeps(c, vm.cloud);
    LaunchWithin(c, amiId, groupId);
    if vm.result.Err? then
      WithinIsInOrder(c, vm.cloud, 4);
      Step(vm.cloud, Err(vm.result.error))
    else
    var rest := Provisioned(vm.cloud, vm.result.value, script);
    WithinThenInOrder(c, vm.cloud, rest.cloud, 4, 5);
    assert Keeps(vm.cloud, rest.cloud) by {
      assert rest.cloud.groups[..|vm.cloud.groups|] == vm.cloud.groups;
      assert rest.cloud.instances[..|vm.cloud.instances|] == vm.cloud.instances;
    }
    KeepsChain(c, vm.cloud, rest.cloud);
    rest
  }

  lemma DeploymentGroupOpensOnlySshAndHttp(c: Cloud)
    ensures NewGroupsOpenOnlySshAndHttp(|c.groups|, DeploymentGroup(c).cloud)
  {
    var d := DeploymentGroup(c).cloud;
    if d.groups != c.groups {
      assert |d.groups| == |c.groups| + 1;
      assert d.groups[|c.groups|].name == GroupName;
    }
  }

  /** Lines 58-116, once the key file exists: the group, then the launch. */
  function Grouped(c: Cloud, amiId: string, script: seq<string>): (s: Step<string>)
    ensures Keeps(c, s.cloud)
    ensures s.cloud.keyPairs == c.keyPairs && s.cloud.keyFile == c.keyFile
    ensures InOrder(c, s.cloud, 3)
    ensures NewGroupsOpenOnlySshAndHttp(|c.groups|, s.cloud)
    ensures s.result.Ok? ==>
      && LaunchedWith(|c.instances|, s.cloud, amiId, s.result.value) && EndsWithScript(s.cloud, script)
      && InDeploymentGroup(|c.instances|, s.cloud)
    ensures SshFailure(s.result) ==> LeftRunning(|c.instances|, s.cloud)
    ensures LeftBehind(|c.instances|, s.cloud, s.result)
  {
    var group := DeploymentGroup(c);
    DeploymentGroupWithin(c);
    DeploymentGroupOpensOnlySshAndHttp(c);
    assert Keeps(c, group.cloud) by {
      assert c.groups[..|c.groups|] == c.groups && c.instances[..|c.instances|] == c.instances;
    }
    if group.result.Err? then
      WithinIsInOrder(c, group.cloud, 3);
      Step(group.cloud, Err(group.result.error))
    else
    var rest := Launched(group.cloud, amiId, group.result.value, script);
    WithinThenInOrder(c, group.cloud, rest.cloud, 3, 4);
    KeepsChain(c, group.cloud, rest.cloud);
    rest
  }

  /** Lines 45-116, once the image is chosen: the key file, then the group. */
  function Keyed(c: Cloud, amiId: string, script: seq<string>): (s: Step<string>)
    ensures Keeps(c, s.cloud)
    ensures InOrder(c, s.cloud, 2)
    ensures NewGroupsOpenOnlySshAndHttp(|c.groups|, s.cloud)
    ensures c.keyFile.Some? ==> s.cloud.keyFile == c.keyFile && s.cloud.keyPairs == c.keyPairs
    ensures c.keyFile.None? && s.cloud.keyFile.Some? ==>
      && KeyName !in c.keyPairs
      && s.cloud.keyFile == Some(KeyFile(c.issuedMaterial, OwnerReadOnly))
      && s.cloud.keyPairs == c.keyPairs[KeyName := c.issuedMaterial]
    ensures s.result.Ok? ==>
      && LaunchedWith(|c.instances|, s.cloud, amiId, s.result.value) && EndsWithScript(s.cloud, script)
      && InDeploymentGroup(|c.instances|, s.cloud)
    ensures SshFailure(s.result) ==> LeftRunning(|c.instances|, s.cloud)
    ensures LeftBehind(|c.instances|, s.cloud, s.result)
    ensures LaunchRefused(s.result) || FailedAfterLaunch(s.result) ==> s.cloud.keyFile.Some?
  {
    var key := KeyFileSetup(c);
    KeyFileSetupWithin(c);
    assert Keeps(c, key.cloud) by {
      assert c.groups[..|c.groups|] == c.groups && c.instances[..|c.instances|] == c.instances;
    }
    if key.result.Err? then
      WithinIsInOrder(c, key.cloud, 2);
      Step(key.cloud, Err(key.result.error))
    else
    var rest := Grouped(key.cloud, amiId, script);
    WithinThenInOrder(c, key.cloud, rest.cloud, 2, 3);
    KeepsChain(c, key.cloud, rest.cloud);
    rest
  }

  /** Lines 36-116 once the commands are fixed: the image, then the remaining stages. */
  function Imaged(c: Cloud, script: seq<string>): (s: Step<string>)
    ensures Keeps(c, s.cloud)
    ensures InOrder(c, s.cloud, 1)
    ensures NewGroupsOpenOnlySshAndHttp(|c.groups|, s.cloud)
    ensures c.keyFile.Some? ==> s.cloud.keyFile == c.keyFile && s.cloud.keyPairs == c.keyPairs
    ensures c.keyFile.None? && s.cloud.keyFile.Some? ==>
      && KeyName !in c.keyPairs
      && s.cloud.keyFile == Some(KeyFile(c.issuedMaterial, OwnerReadOnly))
      && s.cloud.keyPairs == c.keyPairs[KeyName := c.issuedMaterial]
    ensures s.result.Ok? ==>
      && (exists img :: img in Matching(c.images, UbuntuFocal) && LaunchedWith(|c.instances|, s.cloud, img.imageId, s.result.value))
      && EndsWithScript(s.cloud, script) && InDeploymentGroup(|c.instances|, s.cloud)
    ensures s.result.Ok? ==>
      LatestAmi(c).result.Ok? && LaunchedWith(|c.instances|, s.cloud, LatestAmi(c).result.value, s.result.value)
    ensures SshFailure(s.result) ==> LeftRunning(|c.instances|, s.cloud)
    ensures LeftBehind(|c.instances|, s.cloud, s.result)
    ensures LaunchRefused(s.result) || FailedAfterLaunch(s.result) ==> s.cloud.keyFile.Some?
  {
    var ami := LatestAmi(c);
    AppendedWithin(c, ami.cloud, [Called(DescribeImages)], 1);
    assert Keeps(c, ami.cloud) by {
      assert c.groups[..|c.groups|] == c.groups && c.instances[..|c.instances|] == c.instances;
    }
    if ami.result.Err? then
      WithinIsInOrder(c, ami.cloud, 1);
      Step(ami.cloud, Err(ami.result.error))
    else
    var rest := Keyed(ami.cloud, ami.result.value, script);
    WithinThenInOrder(c, ami.cloud, rest.cloud, 1, 2);
    KeepsChain(c, ami.cloud, rest.cloud);
    rest
  }

  /** A record that ends with a five-command script and the close has its third and fifth commands at these places. */
  lemma EndsWithScriptRuns(d: Cloud, script: seq<string>)
    requires |script| == 5 && EndsWithScript(d, script)
    ensures d.trace[|d.trace| - 4] == Ran(script[2]) && d.trace[|d.trace| - 2] == Ran(script[4])
  {
    var tail := d.trace[|d.trace| - 6..];
    assert tail == RanAll(script) + [Closed];
    assert d.trace[|d.trace| - 4] == tail[2];
    assert d.trace[|d.trace| - 2] == tail[4];
  }

  /** The third command clones the stripped path; the fifth publishes port 80 as `appPort`. */
  lemma ScriptClonesAndPublishes(repoPath: string, appPort: string)
    ensures ProvisioningScript(repoPath, appPort)[2] == "git clone " + Strip(repoPath)
    ensures ProvisioningScript(repoPath, appPort)[4] == "sudo docker run -d -p 80:" + appPort + " app"
  {
  }

  /** The first two commands install Docker and git; the fourth builds the image `app` in the cloned folder. */
  lemma ScriptInstallsAndBuilds(repoPath: string, appPort: string)
    ensures ProvisioningScript(repoPath, appPort)[0] == "sudo apt update -y"
    ensures ProvisioningScript(repoPath, appPort)[1] == "sudo apt install -y docker.io git"
    ensures ProvisioningScript(repoPath, appPort)[3] == "cd " + RepoFolder(Strip(repoPath)) + " && sudo docker build -t app ."
  {
    var url := Strip(repoPath);
    var script := ProvisioningScript(repoPath, appPort);
    assert script == [script[0], script[1], script[2], "cd " + RepoFolder(url) + " && sudo docker build -t app .", script[4]];
  }

  /** A record that ends with the provisioning script has the clone and the run command at these places. */
  lemma ProvisioningRuns(d: Cloud, repoPath: string, appPort: string)
    requires EndsWithScript(d, ProvisioningScript(repoPath, appPort))
    ensures |d.trace| >= 6
    ensures d.trace[|d.trace| - 4] == Ran("git clone " + Strip(repoPath))
    ensures d.trace[|d.trace| - 2] == Ran("sudo docker run -d -p 80:" + appPort + " app")
  {
    EndsWithScriptRuns(d, ProvisioningScript(repoPath, appPort));
    ScriptClonesAndPublishes(repoPath, appPort);
  }

  /**
   * `deploy_to_aws_ec2`: the port lookup, the image, then the remaining stages. The first
   * failure ends the deployment. Nothing is released: after a failure at launch or later, the
   * key file and the deployment's group remain, and so does the instance once it was created.
   */
  function Deployment(c: Cloud, repoPath: string, techStack: string): (s: Step<string>)
    ensures Keeps(c, s.cloud)
    ensures InOrder(c, s.cloud, 1)
    ensures NewGroupsOpenOnlySshAndHttp(|c.groups|, s.cloud)
    ensures c.keyFile.Some? ==> s.cloud.keyFile == c.keyFile && s.cloud.keyPairs == c.keyPairs
    ensures c.keyFile.None? && s.cloud.keyFile.Some? ==>
      && KeyName !in c.keyPairs
      && s.cloud.keyFile == Some(KeyFile(c.issuedMaterial, OwnerReadOnly))
      && s.cloud.keyPairs == c.keyPairs[KeyName := c.issuedMaterial]
    ensures s.result.Ok? ==>
      && (exists img :: img in Matching(c.images, UbuntuFocal) && LaunchedWith(|c.instances|, s.cloud, img.imageId, s.result.value))
      && EndsWithScript(s.cloud, ProvisioningScript(repoPath, AppPort(techStack)))
      && InDeploymentGroup(|c.instances|, s.cloud)
    ensures s.result.Ok? ==>
      LatestAmi(c).result.Ok? && LaunchedWith(|c.instances|, s.cloud, LatestAmi(c).result.value, s.result.value)
    ensures SshFailure(s.result) ==> LeftRunning(|c.instances|, s.cloud)
    ensures LeftBehind(|c.instances|, s.cloud, s.result)
    ensures LaunchRefused(s.result) || FailedAfterLaunch(s.result) ==> s.cloud.keyFile.Some?
  {
    Imaged(c, ProvisioningScript(repoPath, AppPort(techStack)))
  }

  /** A successful deployment ran `git clone` on the stripped path and published port 80 as the stack's port. */
  lemma DeploymentClonesAndPublishes(c: Cloud, repoPath: string, techStack: string)
    ensures var s := Deployment(c, repoPath, techStack);
      s.result.Ok? ==>
        && |s.cloud.trace| >= 6
        && s.cloud.trace[|s.cloud.trace| - 4] == Ran("git clone " + Strip(repoPath))
        && s.cloud.trace[|s.cloud.trace| - 2] == Ran("sudo docker run -d -p 80:" + AppPort(techStack) + " app")
  {
    var s := Deployment(c, repoPath, techStack);
    if s.result.Ok? {
      ProvisioningRuns(s.cloud, repoPath, AppPort(techStack));
    }
  }

  // ---------------------------------------------------------------------------
  // What deploy_to_aws_ec2 promises

  /** The key file and the registered key pair agree, or neither exists yet. */
  predicate KeyReady(c: Cloud) {
    || (c.keyFile.None? && KeyName !in c.keyPairs)
    || (c.keyFile.Some? && KeyName in c.keyPairs && c.keyFile.value.material == c.keyPairs[KeyName])
  }

  /** The session opens exactly when the key file loads and instance `id` has an address that accepts its key. */
  lemma ProvisionedSucceedsIff(c: Cloud, id: nat, script: seq<string>)
    ensures Provisioned(c, id, script).result.Ok? <==>
      && LoadKeyFile !in c.faults && Connect !in c.faults && c.keyFile.Some?
      && id < |c.instances| && c.instances[id].address.Some?
      && c.instances[id].authorizedKey == c.keyFile.value.material
  {
    var session := Session(c, id);
    if LoadKeyFile !in c.faults && Connect !in c.faults && c.keyFile.Some?
      && id < |c.instances| && c.instances[id].address.Some?
      && c.instances[id].authorizedKey == c.keyFile.value.material
    {
      assert session.result.Ok?;
    }
  }

  /** With the key pair registered and written, an existing group and a listed image, the launch succeeds. */
  lemma LaunchedSucceeds(c: Cloud, amiId: string, groupId: GroupId, script: seq<string>)
    requires forall call :: call in {RunInstances, WaitUntilRunning, LoadKeyFile, Connect} ==> call !in c.faults
    requires KeyName in c.keyPairs && c.keyFile.Some? && c.keyFile.value.material == c.keyPairs[KeyName]
    requires groupId < |c.groups| && exists i :: 0 <= i < |c.images| && c.images[i].imageId == amiId
    requires c.nextAddress.Some?
    ensures Launched(c, amiId, groupId, script).result == Ok(c.nextAddress.value)
  {
    assert RunInstances in {RunInstances, WaitUntilRunning, LoadKeyFile, Connect};
    assert WaitUntilRunning in {RunInstances, WaitUntilRunning, LoadKeyFile, Connect};
    assert LoadKeyFile in {RunInstances, WaitUntilRunning, LoadKeyFile, Connect};
    assert Connect in {RunInstances, WaitUntilRunning, LoadKeyFile, Connect};
    var vm := Launch(c, amiId, groupId);
    assert vm.result.Ok?;
    ProvisionedSucceedsIff(vm.cloud, vm.result.value, script);
  }

  /** When the provider refuses none of the group calls and the account has a VPC, the group stage yields a group. */
  lemma DeploymentGroupSucceeds(c: Cloud)
    requires forall call :: call in {DescribeVpcs, DescribeSecurityGroups, Call.CreateSecurityGroup, AuthorizeSecurityGroupIngress} ==> call !in c.faults
    requires c.vpcs != []
    ensures DeploymentGroup(c).result.Ok?
  {
    assert DescribeVpcs in {DescribeVpcs, DescribeSecurityGroups, Call.CreateSecurityGroup, AuthorizeSecurityGroupIngress};
    assert DescribeSecurityGroups in {DescribeVpcs, DescribeSecurityGroups, Call.CreateSecurityGroup, AuthorizeSecurityGroupIngress};
    assert Call.CreateSecurityGroup in {DescribeVpcs, DescribeSecurityGroups, Call.CreateSecurityGroup, AuthorizeSecurityGroupIngress};
    assert AuthorizeSecurityGroupIngress in {DescribeVpcs, DescribeSecurityGroups, Call.CreateSecurityGroup, AuthorizeSecurityGroupIngress};
    var v := DescribeVpcsOp(c).cloud;
    var found := DescribeGroupsNamedOp(v, GroupName);
    if found.result.value == [] {
      var created := CreateGroupOp(found.cloud, GroupName, GroupDescription, c.vpcs[0]);
      assert created.result == Ok(|c.groups|);
      assert created.cloud.groups[|c.groups|].rules == {};
      var granted := AuthorizeOp(created.cloud, |c.groups|, {TcpFromAnywhere(22), TcpFromAnywhere(80)});
      assert granted.result.Ok?;
    }
  }

  lemma GroupedSucceeds(c: Cloud, amiId: string, script: seq<string>)
    requires c.faults == map[] && c.vpcs != [] && c.nextAddress.Some?
    requires KeyName in c.keyPairs && c.keyFile.Some? && c.keyFile.value.material == c.keyPairs[KeyName]
    requires exists i :: 0 <= i < |c.images| && c.images[i].imageId == amiId
    ensures Grouped(c, amiId, script).result == Ok(c.nextAddress.value)
  {
    DeploymentGroupSucceeds(c);
    var group := DeploymentGroup(c);
    LaunchedSucceeds(group.cloud, amiId, group.result.value, script);
  }

  lemma KeyedSucceeds(c: Cloud, amiId: string, script: seq<string>)
    requires c.faults == map[] && c.vpcs != [] && c.nextAddress.Some? && KeyReady(c)
    requires exists i :: 0 <= i < |c.images| && c.images[i].imageId == amiId
    ensures Keyed(c, amiId, script).result == Ok(c.nextAddress.value)
  {
    var key := KeyFileSetup(c);
    assert key.result.Ok?;
    GroupedSucceeds(key.cloud, amiId, script);
  }

  lemma ImagedSucceeds(c: Cloud, script: seq<string>)
    requires c.faults == map[] && Matching(c.images, UbuntuFocal) != [] && c.vpcs != []
    requires c.nextAddress.Some? && KeyReady(c)
    ensures Imaged(c, script).result == Ok(c.nextAddress.value)
  {
    var ami := LatestAmi(c);
    assert ami.result.Ok?;
    var img :| img in Matching(c.images, UbuntuFocal) && img.imageId == ami.result.value;
    var i :| 0 <= i < |c.images| && c.images[i] == img;
    KeyedSucceeds(ami.cloud, ami.result.value, script);
  }

  /**
   * When the provider refuses nothing, an Ubuntu 20.04 image is listed, the account has a VPC,
   * the new instance gets a public address and the key file matches the registered key pair
   * (or neither exists), the deployment returns that address.
   */
  lemma DeploymentSucceeds(c: Cloud, repoPath: string, techStack: string)
    requires c.faults == map[] && Matching(c.images, UbuntuFocal) != [] && c.vpcs != []
    requires c.nextAddress.Some? && KeyReady(c)
    ensures Deployment(c, repoPath, techStack).result == Ok(c.nextAddress.value)
  {
    ImagedSucceeds(c, ProvisioningScript(repoPath, AppPort(techStack)));
  }

  /** A Flask deployment publishes port 80 as 5000, the port the Flask Dockerfile exposes. */
  lemma FlaskDeploymentPublishes5000(c: Cloud, repoPath: string, techStack: string)
    requires techStack == "flask"
    ensures var s := Deployment(c, repoPath, techStack);
      s.result.Ok? ==> s.cloud.trace[|s.cloud.trace| - 2] == Ran("sudo docker run -d -p 80:" + "5000" + " app")
  {
    DeploymentClonesAndPublishes(c, repoPath, techStack);
    assert AppPort(techStack) == "5000";
  }

  /** No matching image: the deployment stops at the image lookup, with nothing created. */
  lemma NoImageNoSideEffects(c: Cloud, repoPath: string, techStack: string)
    requires DescribeImages !in c.faults && Matching(c.images, UbuntuFocal) == []
    ensures Deployment(c, repoPath, techStack) == Step(Log(c, DescribeImages), Err(IndexError))
  {
    assert LatestAmi(c).result == Err(IndexError);
  }

  /**
   * A key file that does not hold the registered key pair's material, or whose key pair is
   * gone, is reused as it is, so the deployment can never succeed.
   */
  lemma StaleKeyFileNeverDeploys(c: Cloud, repoPath: string, techStack: string)
    requires c.keyFile.Some?
    requires KeyName !in c.keyPairs || c.keyFile.value.material != c.keyPairs[KeyName]
    ensures Deployment(c, repoPath, techStack).result.Err?
  {
  }

  lemma KeyedBlockedByOrphan(c: Cloud, amiId: string, script: seq<string>)
    requires c.keyFile.None? && KeyName in c.keyPairs && CreateKeyPair !in c.faults
    ensures Keyed(c, amiId, script) == Step(Log(c, CreateKeyPair), Err(ClientError(ApiError(DuplicateKeyPair, CreateKeyPair))))
  {
    assert KeyFileSetup(c) == Step(Log(c, CreateKeyPair), Err(ClientError(ApiError(DuplicateKeyPair, CreateKeyPair))));
  }

  lemma ImagedBlockedByOrphan(c: Cloud, script: seq<string>)
    requires c.keyFile.None? && KeyName in c.keyPairs
    requires DescribeImages !in c.faults && CreateKeyPair !in c.faults && Matching(c.images, UbuntuFocal) != []
    ensures Imaged(c, script)
      == Step(c.(trace := c.trace + [Called(DescribeImages), Called(CreateKeyPair)]), Err(ClientError(ApiError(DuplicateKeyPair, CreateKeyPair))))
  {
    var ami := LatestAmi(c);
    assert ami.result.Ok?;
    KeyedBlockedByOrphan(ami.cloud, ami.result.value, script);
  }

  /**
   * A key pair registered without a key file (left by an earlier run whose write failed) makes
   * every later deployment fail at key creation, after the image lookup and before any group
   * or instance is made.
   */
  lemma OrphanedKeyPairBlocksDeployment(c: Cloud, repoPath: string, techStack: string)
    requires c.keyFile.None? && KeyName in c.keyPairs
    requires DescribeImages !in c.faults && CreateKeyPair !in c.faults && Matching(c.images, UbuntuFocal) != []
    ensures var s := Deployment(c, repoPath, techStack);
      && s.result == Err(ClientError(ApiError(DuplicateKeyPair, CreateKeyPair)))
      && s.cloud == c.(trace := c.trace + [Called(DescribeImages), Called(CreateKeyPair)])
  {
    ImagedBlockedByOrphan(c, ProvisioningScript(repoPath, AppPort(techStack)));
  }

  lemma KeyedWriteFails(c: Cloud, amiId: string, script: seq<string>)
    requires c.keyFile.None? && KeyName !in c.keyPairs && CreateKeyPair !in c.faults && WriteKeyFile in c.faults
    ensures var s := Keyed(c, amiId, script);
      s.result == Err(OSError) && s.cloud.keyFile.None? && s.cloud.keyPairs == c.keyPairs[KeyName := c.issuedMaterial]
  {
    var key := KeyFileSetup(c);
    assert key.result == Err(OSError) && key.cloud.keyFile.None?;
  }

  lemma ImagedWriteFails(c: Cloud, script: seq<string>)
    requires c.keyFile.None? && KeyName !in c.keyPairs
    requires DescribeImages !in c.faults && CreateKeyPair !in c.faults && WriteKeyFile in c.faults
    requires Matching(c.images, UbuntuFocal) != []
    ensures var s := Imaged(c, script);
      s.result == Err(OSError) && s.cloud.keyFile.None? && KeyName in s.cloud.keyPairs
  {
    var ami := LatestAmi(c);
    assert ami.result.Ok?;
    KeyedWriteFails(ami.cloud, ami.result.value, script);
  }

  /**
   * A key file that cannot be written fails the deployment with the key pair already registered;
   * the next run, with the write fixed, is then refused the key pair.
   */
  lemma FailedKeyWriteOrphansKeyPair(c: Cloud, repoPath: string, techStack: string)
    requires c.keyFile.None? && KeyName !in c.keyPairs
    requires DescribeImages !in c.faults && CreateKeyPair !in c.faults && WriteKeyFile in c.faults
    requires Matching(c.images, UbuntuFocal) != []
    ensures var s := Deployment(c, repoPath, techStack);
      && s.result == Err(OSError) && s.cloud.keyFile.None? && KeyName in s.cloud.keyPairs
      && Deployment(s.cloud.(faults := s.cloud.faults - {WriteKeyFile}), repoPath, techStack).result
         == Err(ClientError(ApiError(DuplicateKeyPair, CreateKeyPair)))
  {
    ImagedWriteFails(c, ProvisioningScript(repoPath, AppPort(techStack)));
    var s := Deployment(c, repoPath, techStack);
    var retry := s.cloud.(faults := s.cloud.faults - {WriteKeyFile});
    assert retry.images == c.images;
    OrphanedKeyPairBlocksDeployment(retry, repoPath, techStack);
  }

  /** `s` with the remote commands' outputs replaced by `outputs`. */
  function WithOutputs<T>(s: Step<T>, outputs: map<string, Output>): Step<T> {
    Step(s.cloud.(outputs := outputs), s.result)
  }

  lemma ProvisionedIgnoresOutputs(c: Cloud, id: nat, script: seq<string>, outputs: map<string, Output>)
    ensures Provisioned(c.(outputs := outputs), id, script) == WithOutputs(Provisioned(c, id, script), outputs)
  {
    var session := Session(c, id);
    assert Session(c.(outputs := outputs), id) == WithOutputs(session, outputs);
  }

  lemma LaunchedIgnoresOutputs(c: Cloud, amiId: string, groupId: GroupId, script: seq<string>, outputs: map<string, Output>)
    ensures Launched(c.(outputs := outputs), amiId, groupId, script) == WithOutputs(Launched(c, amiId, groupId, script), outputs)
  {
    var vm := Launch(c, amiId, groupId);
    assert Launch(c.(outputs := outputs), amiId, groupId) == WithOutputs(vm, outputs);
    if vm.result.Ok? {
      ProvisionedIgnoresOutputs(vm.cloud, vm.result.value, script, outputs);
    }
  }

  lemma SecurityGroupIgnoresOutputs(c: Cloud, vpcId: string, name: string, outputs: map<string, Output>)
    ensures SecurityGroup(c.(outputs := outputs), vpcId, name) == WithOutputs(SecurityGroup(c, vpcId, name), outputs)
  {
    var found := DescribeGroupsNamedOp(c, name);
    assert DescribeGroupsNamedOp(c.(outputs := outputs), name) == Reply(found.cloud.(outputs := outputs), found.result);
    if !(found.result.Ok? && found.result.value != []) {
      var created := CreateGroupOp(found.cloud, name, GroupDescription, vpcId);
      assert CreateGroupOp(found.cloud.(outputs := outputs), name, GroupDescription, vpcId)
        == Reply(created.cloud.(outputs := outputs), created.result);
      if created.result.Ok? {
        var rules := {TcpFromAnywhere(22), TcpFromAnywhere(80)};
        var granted := AuthorizeOp(created.cloud, created.result.value, rules);
        assert AuthorizeOp(created.cloud.(outputs := outputs), created.result.value, rules)
          == Reply(granted.cloud.(outputs := outputs), granted.result);
      }
    }
  }

  lemma DeploymentGroupIgnoresOutputs(c: Cloud, outputs: map<string, Output>)
    ensures DeploymentGroup(c.(outputs := outputs)) == WithOutputs(DeploymentGroup(c), outputs)
  {
    var vpcs := DescribeVpcsOp(c);
    if vpcs.result.Ok? && vpcs.result.value != [] {
      SecurityGroupIgnoresOutputs(vpcs.cloud, c.vpcs[0], GroupName, outputs);
      assert DescribeVpcsOp(c.(outputs := outputs)).cloud == vpcs.cloud.(outputs := outputs);
    }
  }

  lemma GroupedIgnoresOutputs(c: Cloud, amiId: string, script: seq<string>, outputs: map<string, Output>)
    ensures Grouped(c.(outputs := outputs), amiId, script) == WithOutputs(Grouped(c, amiId, script), outputs)
  {
    var group := DeploymentGroup(c);
    DeploymentGroupIgnoresOutputs(c, outputs);
    if group.result.Ok? {
      LaunchedIgnoresOutputs(group.cloud, amiId, group.result.value, script, outputs);
    }
  }

  lemma KeyedIgnoresOutputs(c: Cloud, amiId: string, script: seq<string>, outputs: map<string, Output>)
    ensures Keyed(c.(outputs := outputs), amiId, script) == WithOutputs(Keyed(c, amiId, script), outputs)
  {
    var key := KeyFileSetup(c);
    assert KeyFileSetup(c.(outputs := outputs)) == WithOutputs(key, outputs);
    if key.result.Ok? {
      GroupedIgnoresOutputs(key.cloud, amiId, script, outputs);
    }
  }

  /** What the remote commands print never changes the outcome, the resources or the record of a deployment. */
  lemma DeploymentIgnoresOutputs(c: Cloud, repoPath: string, techStack: string, outputs: map<string, Output>)
    ensures Deployment(c.(outputs := outputs), repoPath, techStack) == WithOutputs(Deployment(c, repoPath, techStack), outputs)
  {
    var ami := LatestAmi(c);
    assert LatestAmi(c.(outputs := outputs)) == WithOutputs(ami, outputs);
    if ami.result.Ok? {
      KeyedIgnoresOutputs(ami.cloud, ami.result.value, ProvisioningScript(repoPath, AppPort(techStack)), outputs);
    }
  }
}
