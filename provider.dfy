/**
 * The cloud account and the deployment machine's key file, as the deployment code sees
 * them through its EC2 client, its SSH client and the local file system.
 *
 * `Cloud` is the whole observable state as a value; each API operation the code calls is a
 * function from a `Cloud` to the next `Cloud` and a reply. Failures the provider decides
 * for reasons outside this model (permissions, quotas, the network) come from `faults`,
 * which maps an operation to the error code it fails with; failures that follow from the
 * state itself (a duplicate name, a missing group or key pair) are computed.
 * Security groups and instances are identified by their position in the account's lists.
 * `Client` is the same state as an object whose methods update it in place.
 */
module Provider {
  import opened Wrappers
  import opened Text

  /** A machine image as `describe_images` lists it. */
  datatype Image = Image(imageId: string, ownerId: string, name: string, state: string, creationDate: string)

  /** A `describe_images` filter: owner, a name pattern whose only wildcard is a trailing `*`, and a state. */
  datatype ImageFilter = ImageFilter(owner: string, namePrefix: string, state: string)

  predicate Matches(img: Image, f: ImageFilter) {
    img.ownerId == f.owner && StartsWith(img.name, f.namePrefix) && img.state == f.state
  }

  /** The images a filter selects, in the provider's order. */
  function Matching(images: seq<Image>, f: ImageFilter): (r: seq<Image>)
    ensures forall img :: img in r <==> img in images && Matches(img, f)
  {
    if images == [] then []
    else (if Matches(images[0], f) then [images[0]] else []) + Matching(images[1..], f)
  }

  /** One inbound permission: protocol, port range (absent for "all traffic") and source range. */
  datatype Rule = Rule(protocol: string, fromPort: Option<int>, toPort: Option<int>, cidr: string)

  const Anywhere := "0.0.0.0/0"

  /** The rule every authorization in the code uses: one TCP port, open to any address. */
  function TcpFromAnywhere(port: int): Rule {
    Rule("tcp", Some(port), Some(port), Anywhere)
  }

  datatype Group = Group(name: string, description: string, vpcId: string, rules: set<Rule>)

  /** A security group is identified by its position in `Cloud.groups`. */
  type GroupId = nat

  datatype InstanceState = Pending | Running

  /** `authorizedKey` is the key-pair material the instance accepts for SSH log-in. */
  datatype Instance = Instance(
    imageId: string,
    keyName: string,
    groupIds: seq<GroupId>,
    state: InstanceState,
    address: Option<string>,
    authorizedKey: string)

  /** The private-key file on the deploying machine. */
  datatype KeyFile = KeyFile(material: string, mode: int)

  /** Permission bits 0o400: readable by its owner only. */
  const OwnerReadOnly: int := 0x100

  /** What a remote command prints on its standard output and its standard error. */
  datatype Output = Output(stdout: string, stderr: string)

  /** The operations the code performs on the provider, the key file and the SSH channel. */
  datatype Call =
    | DescribeImages
    | CreateKeyPair
    | WriteKeyFile
    | DescribeVpcs
    | DescribeSecurityGroups
    | CreateSecurityGroup
    | AuthorizeSecurityGroupIngress
    | RunInstances
    | WaitUntilRunning
    | LoadKeyFile
    | Connect

  /** One entry of the record of what happened, in order. */
  datatype Event = Called(call: Call) | Ran(command: string) | Closed

  /** A provider error (botocore's `ClientError`): its code and the operation that failed. */
  datatype ApiError = ApiError(code: string, call: Call)

  function OperationName(c: Call): string {
    match c
    case DescribeImages => "DescribeImages"
    case CreateKeyPair => "CreateKeyPair"
    case WriteKeyFile => "WriteKeyFile"
    case DescribeVpcs => "DescribeVpcs"
    case DescribeSecurityGroups => "DescribeSecurityGroups"
    case CreateSecurityGroup => "CreateSecurityGroup"
    case AuthorizeSecurityGroupIngress => "AuthorizeSecurityGroupIngress"
    case RunInstances => "RunInstances"
    case WaitUntilRunning => "WaitUntilRunning"
    case LoadKeyFile => "LoadKeyFile"
    case Connect => "Connect"
  }

  /** `str(e)` of a `ClientError`: it names the error code, which is what the code searches it for. */
  function Message(e: ApiError): (m: string)
    ensures Contains(m, e.code)
  {
    var rest := ") when calling the " + OperationName(e.call) + " operation";
    ContainsInfix("An error occurred (", e.code, rest);
    "An error occurred (" + e.code + rest
  }

  const DuplicateRule := "InvalidPermission.Duplicate"
  const DuplicateGroup := "InvalidGroup.Duplicate"
  const DuplicateKeyPair := "InvalidKeyPair.Duplicate"
  const GroupNotFound := "InvalidGroup.NotFound"
  const KeyPairNotFound := "InvalidKeyPair.NotFound"
  const ImageNotFound := "InvalidAMIID.NotFound"

  /** Why an SSH connection attempt fails. */
  datatype ConnectError = NoAddress | Unreachable | AuthenticationFailed

  /**
   * The observable state. The first six fields are the environment and never change:
   * the image catalogue, the account's VPCs, the operations the provider refuses, the
   * material it issues for a new key pair, the public address it gives the next instance
   * (None when the subnet assigns none) and what each remote command prints.
   */
  datatype Cloud = Cloud(
    images: seq<Image>,
    vpcs: seq<string>,
    faults: map<Call, string>,
    issuedMaterial: string,
    nextAddress: Option<string>,
    outputs: map<string, Output>,
    keyPairs: map<string, string>,
    groups: seq<Group>,
    instances: seq<Instance>,
    keyFile: Option<KeyFile>,
    trace: seq<Event>)

  /** The next state and the reply of one operation. */
  datatype Reply<T, E> = Reply(cloud: Cloud, result: Result<T, E>)

  function Log(c: Cloud, call: Call): Cloud {
    c.(trace := c.trace + [Called(call)])
  }

  function Refusal(c: Cloud, call: Call): ApiError
    requires call in c.faults
  {
    ApiError(c.faults[call], call)
  }

  /** The ids of the groups named `name`, in the provider's order. */
  function GroupsNamed(groups: seq<Group>, name: string): (r: seq<GroupId>)
    ensures forall i :: 0 <= i < |r| ==> r[i] < |groups| && groups[r[i]].name == name
    ensures forall k :: 0 <= k < |groups| && groups[k].name == name ==> k in r
    ensures r != [] ==> forall k :: 0 <= k < r[0] ==> groups[k].name != name
  {
    if groups == [] then []
    else
      var earlier := GroupsNamed(groups[..|groups| - 1], name);
      if groups[|groups| - 1].name == name then earlier + [|groups| - 1] else earlier
  }

  function DescribeImagesOp(c: Cloud, f: ImageFilter): Reply<seq<Image>, ApiError> {
    var c' := Log(c, DescribeImages);
    if DescribeImages in c.faults then Reply(c', Err(Refusal(c, DescribeImages)))
    else Reply(c', Ok(Matching(c.images, f)))
  }

  /** Registers a key pair under `name` and returns its private material; names are unique. */
  function CreateKeyPairOp(c: Cloud, name: string): Reply<string, ApiError> {
    var c' := Log(c, CreateKeyPair);
    if CreateKeyPair in c.faults then Reply(c', Err(Refusal(c, CreateKeyPair)))
    else if name in c.keyPairs then Reply(c', Err(ApiError(DuplicateKeyPair, CreateKeyPair)))
    else Reply(c'.(keyPairs := c.keyPairs[name := c.issuedMaterial]), Ok(c.issuedMaterial))
  }

  /** Opens the key file for writing, writes `material` and sets it to mode 0o400. */
  function WriteKeyFileOp(c: Cloud, material: string): Reply<(), ()> {
    var c' := Log(c, WriteKeyFile);
    if WriteKeyFile in c.faults then Reply(c', Err(()))
    else Reply(c'.(keyFile := Some(KeyFile(material, OwnerReadOnly))), Ok(()))
  }

  function DescribeVpcsOp(c: Cloud): Reply<seq<string>, ApiError> {
    var c' := Log(c, DescribeVpcs);
    if DescribeVpcs in c.faults then Reply(c', Err(Refusal(c, DescribeVpcs)))
    else Reply(c', Ok(c.vpcs))
  }

  /** `describe_security_groups` filtered by group name, in every VPC of the account. */
  function DescribeGroupsNamedOp(c: Cloud, name: string): Reply<seq<GroupId>, ApiError> {
    var c' := Log(c, DescribeSecurityGroups);
    if DescribeSecurityGroups in c.faults then Reply(c', Err(Refusal(c, DescribeSecurityGroups)))
    else Reply(c', Ok(GroupsNamed(c.groups, name)))
  }

  /** `describe_security_groups` for one group id: its inbound permissions. */
  function DescribeGroupOp(c: Cloud, id: GroupId): Reply<set<Rule>, ApiError> {
    var c' := Log(c, DescribeSecurityGroups);
    if DescribeSecurityGroups in c.faults then Reply(c', Err(Refusal(c, DescribeSecurityGroups)))
    else if id >= |c.groups| then Reply(c', Err(ApiError(GroupNotFound, DescribeSecurityGroups)))
    else Reply(c', Ok(c.groups[id].rules))
  }

  /** Creates an empty group; a name is unique within a VPC. */
  function CreateGroupOp(c: Cloud, name: string, description: string, vpcId: string): Reply<GroupId, ApiError> {
    var c' := Log(c, CreateSecurityGroup);
    if CreateSecurityGroup in c.faults then Reply(c', Err(Refusal(c, CreateSecurityGroup)))
    else if exists k :: 0 <= k < |c.groups| && c.groups[k].name == name && c.groups[k].vpcId == vpcId then
      Reply(c', Err(ApiError(DuplicateGroup, CreateSecurityGroup)))
    else Reply(c'.(groups := c.groups + [Group(name, description, vpcId, {})]), Ok(|c.groups|))
  }

  /** Adds inbound rules to a group, all or none: one rule already present rejects the request. */
  function AuthorizeOp(c: Cloud, id: GroupId, rules: set<Rule>): Reply<(), ApiError> {
    var c' := Log(c, AuthorizeSecurityGroupIngress);
    if AuthorizeSecurityGroupIngress in c.faults then Reply(c', Err(Refusal(c, AuthorizeSecurityGroupIngress)))
    else if id >= |c.groups| then Reply(c', Err(ApiError(GroupNotFound, AuthorizeSecurityGroupIngress)))
    else if rules * c.groups[id].rules != {} then Reply(c', Err(ApiError(DuplicateRule, AuthorizeSecurityGroupIngress)))
    else
      var g := c.groups[id];
      Reply(c'.(groups := c.groups[id := g.(rules := g.rules + rules)]), Ok(()))
  }

  /** Launches one instance, in the pending state; returns its id. */
  function RunInstancesOp(c: Cloud, imageId: string, keyName: string, groupIds: seq<GroupId>): Reply<nat, ApiError> {
    var c' := Log(c, RunInstances);
    if RunInstances in c.faults then Reply(c', Err(Refusal(c, RunInstances)))
    else if keyName !in c.keyPairs then Reply(c', Err(ApiError(KeyPairNotFound, RunInstances)))
    else if exists i :: 0 <= i < |groupIds| && groupIds[i] >= |c.groups| then
      Reply(c', Err(ApiError(GroupNotFound, RunInstances)))
    else if forall i :: 0 <= i < |c.images| ==> c.images[i].imageId != imageId then
      Reply(c', Err(ApiError(ImageNotFound, RunInstances)))
    else
      var vm := Instance(imageId, keyName, groupIds, Pending, c.nextAddress, c.keyPairs[keyName]);
      Reply(c'.(instances := c.instances + [vm]), Ok(|c.instances|))
  }

  /** Blocks until the instance runs; the waiter's failure is the unit error. */
  function WaitUntilRunningOp(c: Cloud, id: nat): Reply<(), ()> {
    var c' := Log(c, WaitUntilRunning);
    if WaitUntilRunning in c.faults || id >= |c.instances| then Reply(c', Err(()))
    else Reply(c'.(instances := c.instances[id := c.instances[id].(state := Running)]), Ok(()))
  }

  /** Why the private key cannot be loaded: the file cannot be opened or read, or it holds no valid key. */
  datatype KeyLoadError = Unreadable | Invalid

  /** The fault code of a key file that exists but cannot be read; any other code means its content is not a valid key. */
  const UnreadableKeyFile := "Unreadable"

  /** Reads the private key from the key file; a missing file cannot be opened. */
  function LoadKeyFileOp(c: Cloud): Reply<string, KeyLoadError> {
    var c' := Log(c, LoadKeyFile);
    if c.keyFile.None? then Reply(c', Err(Unreadable))
    else if LoadKeyFile in c.faults then
      Reply(c', Err(if c.faults[LoadKeyFile] == UnreadableKeyFile then Unreadable else Invalid))
    else Reply(c', Ok(c.keyFile.value.material))
  }

  /** Opens an SSH session to instance `id`'s public address, logging in with `key`. */
  function ConnectOp(c: Cloud, id: nat, key: string): Reply<(), ConnectError> {
    var c' := Log(c, Connect);
    if id >= |c.instances| || c.instances[id].address.None? then Reply(c', Err(NoAddress))
    else if Connect in c.faults then Reply(c', Err(Unreachable))
    else if c.instances[id].authorizedKey != key then Reply(c', Err(AuthenticationFailed))
    else Reply(c', Ok(()))
  }

  /** Runs a command over the open session and returns what it printed. */
  function ExecOp(c: Cloud, command: string): Reply<Output, ()> {
    var out := if command in c.outputs then c.outputs[command] else Output("", "");
    Reply(c.(trace := c.trace + [Ran(command)]), Ok(out))
  }

  function CloseOp(c: Cloud): Cloud {
    c.(trace := c.trace + [Closed])
  }

  /** The same state as an object: the EC2 client, the SSH client and the key file in one. */
  class Client {
    const images: seq<Image>
    const vpcs: seq<string>
    const faults: map<Call, string>
    const issuedMaterial: string
    const nextAddress: Option<string>
    const outputs: map<string, Output>
    var keyPairs: map<string, string>
    var groups: seq<Group>
    var instances: seq<Instance>
    var keyFile: Option<KeyFile>
    var trace: seq<Event>

    function State(): Cloud
      reads this
    {
      Cloud(images, vpcs, faults, issuedMaterial, nextAddress, outputs, keyPairs, groups, instances, keyFile, trace)
    }

    constructor (c: Cloud)
      ensures State() == c
    {
      images, vpcs, faults := c.images, c.vpcs, c.faults;
      issuedMaterial, nextAddress, outputs := c.issuedMaterial, c.nextAddress, c.outputs;
      keyPairs, groups, instances := c.keyPairs, c.groups, c.instances;
      keyFile, trace := c.keyFile, c.trace;
    }

    method DescribeImages(f: ImageFilter) returns (r: Result<seq<Image>, ApiError>)
      modifies this
      ensures State() == DescribeImagesOp(old(State()), f).cloud
      ensures r == DescribeImagesOp(old(State()), f).result
    {
      trace := trace + [Called(Call.DescribeImages)];
      if Call.DescribeImages in faults {
        r := Err(ApiError(faults[Call.DescribeImages], Call.DescribeImages));
      } else {
        r := Ok(Matching(images, f));
      }
    }

    method CreateKeyPair(name: string) returns (r: Result<string, ApiError>)
      modifies this
      ensures State() == CreateKeyPairOp(old(State()), name).cloud
      ensures r == CreateKeyPairOp(old(State()), name).result
    {
      trace := trace + [Called(Call.CreateKeyPair)];
      if Call.CreateKeyPair in faults {
        r := Err(ApiError(faults[Call.CreateKeyPair], Call.CreateKeyPair));
      } else if name in keyPairs {
        r := Err(ApiError(DuplicateKeyPair, Call.CreateKeyPair));
      } else {
        keyPairs := keyPairs[name := issuedMaterial];
        r := Ok(issuedMaterial);
      }
    }

    method WriteKeyFile(material: string) returns (r: Result<(), ()>)
      modifies this
      ensures State() == WriteKeyFileOp(old(State()), material).cloud
      ensures r == WriteKeyFileOp(old(State()), material).result
    {
      trace := trace + [Called(Call.WriteKeyFile)];
      if Call.WriteKeyFile in faults {
        r := Err(());
      } else {
        keyFile := Some(KeyFile(material, OwnerReadOnly));
        r := Ok(());
      }
    }

    method DescribeVpcs() returns (r: Result<seq<string>, ApiError>)
      modifies this
      ensures State() == DescribeVpcsOp(old(State())).cloud
      ensures r == DescribeVpcsOp(old(State())).result
    {
      trace := trace + [Called(Call.DescribeVpcs)];
      if Call.DescribeVpcs in faults {
        r := Err(ApiError(faults[Call.DescribeVpcs], Call.DescribeVpcs));
      } else {
        r := Ok(vpcs);
      }
    }

    method DescribeGroupsNamed(name: string) returns (r: Result<seq<GroupId>, ApiError>)
      modifies this
      ensures State() == DescribeGroupsNamedOp(old(State()), name).cloud
      ensures r == DescribeGroupsNamedOp(old(State()), name).result
    {
      trace := trace + [Called(DescribeSecurityGroups)];
      if DescribeSecurityGroups in faults {
        r := Err(ApiError(faults[DescribeSecurityGroups], DescribeSecurityGroups));
      } else {
        r := Ok(GroupsNamed(groups, name));
      }
    }

    method DescribeGroup(id: GroupId) returns (r: Result<set<Rule>, ApiError>)
      modifies this
      ensures State() == DescribeGroupOp(old(State()), id).cloud
      ensures r == DescribeGroupOp(old(State()), id).result
    {
      trace := trace + [Called(DescribeSecurityGroups)];
      if DescribeSecurityGroups in faults {
        r := Err(ApiError(faults[DescribeSecurityGroups], DescribeSecurityGroups));
      } else if id >= |groups| {
        r := Err(ApiError(GroupNotFound, DescribeSecurityGroups));
      } else {
        r := Ok(groups[id].rules);
      }
    }

    method CreateGroup(name: string, description: string, vpcId: string) returns (r: Result<GroupId, ApiError>)
      modifies this
      ensures State() == CreateGroupOp(old(State()), name, description, vpcId).cloud
      ensures r == CreateGroupOp(old(State()), name, description, vpcId).result
    {
      trace := trace + [Called(CreateSecurityGroup)];
      if CreateSecurityGroup in faults {
        r := Err(ApiError(faults[CreateSecurityGroup], CreateSecurityGroup));
      } else if exists k :: 0 <= k < |groups| && groups[k].name == name && groups[k].vpcId == vpcId {
        r := Err(ApiError(DuplicateGroup, CreateSecurityGroup));
      } else {
        r := Ok(|groups|);
        groups := groups + [Group(name, description, vpcId, {})];
      }
    }

    method Authorize(id: GroupId, rules: set<Rule>) returns (r: Result<(), ApiError>)
      modifies this
      ensures State() == AuthorizeOp(old(State()), id, rules).cloud
      ensures r == AuthorizeOp(old(State()), id, rules).result
    {
      trace := trace + [Called(AuthorizeSecurityGroupIngress)];
      if AuthorizeSecurityGroupIngress in faults {
        r := Err(ApiError(faults[AuthorizeSecurityGroupIngress], AuthorizeSecurityGroupIngress));
      } else if id >= |groups| {
        r := Err(ApiError(GroupNotFound, AuthorizeSecurityGroupIngress));
      } else if rules * groups[id].rules != {} {
        r := Err(ApiError(DuplicateRule, AuthorizeSecurityGroupIngress));
      } else {
        groups := groups[id := groups[id].(rules := groups[id].rules + rules)];
        r := Ok(());
      }
    }

    method RunInstance(imageId: string, keyName: string, groupIds: seq<GroupId>) returns (r: Result<nat, ApiError>)
      modifies this
      ensures State() == RunInstancesOp(old(State()), imageId, keyName, groupIds).cloud
      ensures r == RunInstancesOp(old(State()), imageId, keyName, groupIds).result
    {
      trace := trace + [Called(RunInstances)];
      if RunInstances in faults {
        r := Err(ApiError(faults[RunInstances], RunInstances));
      } else if keyName !in keyPairs {
        r := Err(ApiError(KeyPairNotFound, RunInstances));
      } else if exists i :: 0 <= i < |groupIds| && groupIds[i] >= |groups| {
        r := Err(ApiError(GroupNotFound, RunInstances));
      } else if forall i :: 0 <= i < |images| ==> images[i].imageId != imageId {
        r := Err(ApiError(ImageNotFound, RunInstances));
      } else {
        r := Ok(|instances|);
        instances := instances + [Instance(imageId, keyName, groupIds, Pending, nextAddress, keyPairs[keyName])];
      }
    }

    method WaitUntilRunning(id: nat) returns (r: Result<(), ()>)
      modifies this
      ensures State() == WaitUntilRunningOp(old(State()), id).cloud
      ensures r == WaitUntilRunningOp(old(State()), id).result
    {
      trace := trace + [Called(Call.WaitUntilRunning)];
      if Call.WaitUntilRunning in faults || id >= |instances| {
        r := Err(());
      } else {
        instances := instances[id := instances[id].(state := Running)];
        r := Ok(());
      }
    }

    method LoadKeyFile() returns (r: Result<string, KeyLoadError>)
      modifies this
      ensures State() == LoadKeyFileOp(old(State())).cloud
      ensures r == LoadKeyFileOp(old(State())).result
    {
      trace := trace + [Called(Call.LoadKeyFile)];
      if keyFile.None? {
        r := Err(Unreadable);
      } else if Call.LoadKeyFile in faults {
        r := Err(if faults[Call.LoadKeyFile] == UnreadableKeyFile then Unreadable else Invalid);
      } else {
        r := Ok(keyFile.value.material);
      }
    }

    method Connect(id: nat, key: string) returns (r: Result<(), ConnectError>)
      modifies this
      ensures State() == ConnectOp(old(State()), id, key).cloud
      ensures r == ConnectOp(old(State()), id, key).result
    {
      trace := trace + [Called(Call.Connect)];
      if id >= |instances| || instances[id].address.None? {
        r := Err(NoAddress);
      } else if Call.Connect in faults {
        r := Err(Unreachable);
      } else if instances[id].authorizedKey != key {
        r := Err(AuthenticationFailed);
      } else {
        r := Ok(());
      }
    }

    method Exec(command: string) returns (r: Output)
      modifies this
      ensures State() == ExecOp(old(State()), command).cloud
      ensures Ok(r) == ExecOp(old(State()), command).result
    {
      trace := trace + [Ran(command)];
      r := if command in outputs then outputs[command] else Output("", "");
    }

    method Close()
      modifies this
      ensures State() == CloseOp(old(State()))
    {
      trace := trace + [Closed];
    }
  }
}
