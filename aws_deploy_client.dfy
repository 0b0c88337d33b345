/**
 * The procedures of utils/aws_deploy.py as methods on a `Client`: each changes the
 * client's state exactly as the matching function of module AwsDeploy says and returns
 * that function's outcome.
 */
module AwsDeployClient {
  import opened Wrappers
  import opened Text
  import opened Provider
  import opened AwsDeploy

  method GetLatestUbuntuAmi(client: Client) returns (r: Result<string, Failure>)
    modifies client
    ensures client.State() == LatestAmi(old(client.State())).cloud
    ensures r == LatestAmi(old(client.State())).result
  {
    var described := client.DescribeImages(UbuntuFocal);
    if described.Err? {
      return Err(ClientError(described.error));
    }
    if described.value == [] {
      return Err(IndexError);
    }
    r := Ok(described.value[NewestIndex(described.value)].imageId);
  }

  method CreateSecurityGroup(client: Client, vpcId: string, name: string) returns (r: Result<GroupId, Failure>)
    modifies client
    ensures client.State() == SecurityGroup(old(client.State()), vpcId, name).cloud
    ensures r == SecurityGroup(old(client.State()), vpcId, name).result
  {
    var found := client.DescribeGroupsNamed(name);
    if found.Ok? && found.value != [] {
      return Ok(found.value[0]);
    }
    var created := client.CreateGroup(name, GroupDescription, vpcId);
    if created.Err? {
      return Err(ClientError(created.error));
    }
    var id := created.value;
    var granted := client.Authorize(id, {TcpFromAnywhere(22), TcpFromAnywhere(80)});
    if granted.Err? {
      return Err(ClientError(granted.error));
    }
    r := Ok(id);
  }

  method CreateOrGetSecurityGroup(client: Client, name: string, description: string, port: int)
    returns (r: Result<GroupId, Failure>)
    modifies client
    ensures client.State() == SecurityGroupWithPort(old(client.State()), name, description, port).cloud
    ensures r == SecurityGroupWithPort(old(client.State()), name, description, port).result
  {
    var vpcs := client.DescribeVpcs();
    if vpcs.Err? {
      return Err(ClientError(vpcs.error));
    }
    if vpcs.value == [] {
      return Err(IndexError);
    }
    var vpcId := vpcs.value[0];
    var found := client.DescribeGroupsNamed(name);
    if found.Err? {
      return Recover(found.error, None);
    }
    if found.value != [] {
      return Ok(found.value[0]);
    }
    var created := client.CreateGroup(name, description, vpcId);
    if created.Err? {
      return Recover(created.error, None);
    }
    var id := created.value;
    var granted := client.Authorize(id, {TcpFromAnywhere(22), TcpFromAnywhere(80), TcpFromAnywhere(port)});
    if granted.Err? {
      return Recover(granted.error, Some(id));
    }
    r := Ok(id);
  }

  method EnsureSshRule(client: Client, id: GroupId)
    modifies client
    ensures client.State() == SshRuleEnsured(old(client.State()), id)
  {
    var described := client.DescribeGroup(id);
    if described.Err? {
      return;
    }
    if exists r :: r in described.value && IsSshRule(r) {
      return;
    }
    var _ := client.Authorize(id, {TcpFromAnywhere(22)});
  }

  method RunSshCommand(client: Client, command: string) returns (out: string, err: string)
    modifies client
    ensures client.State() == ExecOp(old(client.State()), command).cloud
    ensures out == Strip(ExecOp(old(client.State()), command).result.value.stdout)
    ensures err == Strip(ExecOp(old(client.State()), command).result.value.stderr)
  {
    var o := client.Exec(command);
    out, err := Strip(o.stdout), Strip(o.stderr);
  }

  /** Lines 45-56 on the client: create and save the key pair unless the key file exists. */
  method SetUpKeyFile(client: Client) returns (r: Result<(), Failure>)
    modifies client
    ensures client.State() == KeyFileSetup(old(client.State())).cloud
    ensures r == KeyFileSetup(old(client.State())).result
  {
    if client.keyFile.Some? {
      return Ok(());
    }
    var created := client.CreateKeyPair(KeyName);
    if created.Err? {
      return Err(ClientError(created.error));
    }
    var written := client.WriteKeyFile(created.value);
    if written.Err? {
      return Err(OSError);
    }
    r := Ok(());
  }

  /** Lines 59-60 on the client. */
  method SetUpDeploymentGroup(client: Client) returns (r: Result<GroupId, Failure>)
    modifies client
    ensures client.State() == DeploymentGroup(old(client.State())).cloud
    ensures r == DeploymentGroup(old(client.State())).result
  {
    var vpcs := client.DescribeVpcs();
    if vpcs.Err? {
      return Err(ClientError(vpcs.error));
    }
    if vpcs.value == [] {
      return Err(IndexError);
    }
    r := CreateSecurityGroup(client, vpcs.value[0], GroupName);
  }

  /** Lines 63-79 on the client. */
  method LaunchInstance(client: Client, amiId: string, groupId: GroupId) returns (r: Result<nat, Failure>)
    modifies client
    ensures client.State() == Launch(old(client.State()), amiId, groupId).cloud
    ensures r == Launch(old(client.State()), amiId, groupId).result
  {
    var launched := client.RunInstance(amiId, KeyName, [groupId]);
    if launched.Err? {
      return Err(RuntimeError(LaunchStage, Api(launched.error)));
    }
    var waited := client.WaitUntilRunning(launched.value);
    if waited.Err? {
      return Err(WaiterError);
    }
    r := Ok(launched.value);
  }

  /** Lines 86-94 on the client. */
  method OpenSession(client: Client, id: nat) returns (r: Result<(), Failure>)
    modifies client
    ensures client.State() == Session(old(client.State()), id).cloud
    ensures r == Session(old(client.State()), id).result
  {
    var key := client.LoadKeyFile();
    if key.Err? {
      return Err(if key.error == Unreadable then IOError else SSHException);
    }
    var connected := client.Connect(id, key.value);
    if connected.Err? {
      return Err(RuntimeError(SshStage, Connection(connected.error)));
    }
    r := Ok(());
  }

  /** Lines 97-111 on the client: the five commands, each through `run_ssh_command`. */
  method Provision(client: Client, repoPath: string, appPort: string)
    modifies client
    ensures client.State() == old(client.State()).(trace := old(client.State()).trace + RanAll(ProvisioningScript(repoPath, appPort)))
  {
    ghost var start := client.State();
    var script := ProvisioningScript(repoPath, appPort);
    var _, _ := RunSshCommand(client, script[0]);
    var _, _ := RunSshCommand(client, script[1]);
    var _, _ := RunSshCommand(client, script[2]);
    var _, _ := RunSshCommand(client, script[3]);
    var _, _ := RunSshCommand(client, script[4]);
    RanFive(start.trace, script);
  }

  lemma RanFive(trace: seq<Event>, script: seq<string>)
    requires |script| == 5
    ensures trace + [Ran(script[0])] + [Ran(script[1])] + [Ran(script[2])] + [Ran(script[3])] + [Ran(script[4])]
      == trace + RanAll(script)
  {
  }

  method DeployToAwsEc2(client: Client, repoPath: string, techStack: string) returns (r: Result<string, Failure>)
    modifies client
    ensures client.State() == Deployment(old(client.State()), repoPath, techStack).cloud
    ensures r == Deployment(old(client.State()), repoPath, techStack).result
  {
    var appPort := AppPort(techStack);
    var ami := GetLatestUbuntuAmi(client);
    if ami.Err? {
      return Err(ami.error);
    }
    var key := SetUpKeyFile(client);
    if key.Err? {
      return Err(key.error);
    }
    var groupId := SetUpDeploymentGroup(client);
    if groupId.Err? {
      return Err(groupId.error);
    }
    var launched := LaunchInstance(client, ami.value, groupId.value);
    if launched.Err? {
      return Err(launched.error);
    }
    var publicIp := client.instances[launched.value].address;
    var connected := OpenSession(client, launched.value);
    if connected.Err? {
      return Err(connected.error);
    }
    Provision(client, repoPath, appPort);
    client.Close();
    r := Ok(publicIp.value);
  }
}
