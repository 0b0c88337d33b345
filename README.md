# AutoDock deployment core, modelled in Dafny

AutoDock takes a Git repository and does three things:
- detects its stack (Node.js, Flask or Spring Boot) from marker files;
- writes a Dockerfile for that stack;
- deploys it to a fresh EC2 instance.

The deployment chooses the newest Ubuntu 20.04 image. It then does the following in order:
1. creates the `autodock-key` key pair once and saves its material to a local key file;
2. reuses or creates the `autodock-sg` security group;
3. launches one `t2.micro` instance;
4. connects over SSH;
5. runs a fixed five-command script that installs Docker and Git, clones the repository, builds it and runs it with port 80 published to the stack's port.

This project models those three components:
- `utils/analyzer.py`;
- `utils/dockerfile_generator.py`;
- `utils/aws_deploy.py`, including its three security-group helpers, of which only one is called by the deployment.

Modules:
- `Wrappers`: `Option` and `Result`.
- `Text`: the Python string operations the code relies on, as functions with their properties proved:
  - `strip` and `rstrip`;
  - the last segment of `split("/")`;
  - `replace(pat, "")`;
  - `lower()`;
  - the string order `sorted` uses.
- `Analyzer`: `detect_project_type` on a directory listing.
- `Provider`: the EC2 account, the local key file and the SSH session, as one value `Cloud`. It has:
  - an environment no operation changes: the images, VPCs and error codes the provider returns, the key material it issues, the next public address and what remote commands print;
  - the resources the code creates: key pairs, security groups, instances and the key file;
  - a record (`trace`) of every provider call and remote command in order.

  Each provider call is a function from `Cloud` to the next `Cloud` and a reply. The `Client` class holds the same state in fields and has one method per call.
- `AwsDeploy`: each source function of `aws_deploy.py` as a function from a `Cloud` to the next `Cloud` and the value returned or the exception raised (`Step`), with the lemmas that state what the code promises. `deploy_to_aws_ec2` is defined stage by stage:
  - `Deployment` is the whole procedure;
  - `Imaged` starts once the port is known;
  - `Keyed` starts once the image is chosen;
  - `Grouped` starts once the key file exists;
  - `Launched` starts once the group exists;
  - `Provisioned` starts once the instance runs.

  Each stage's contract says what it keeps, in what order it calls the provider, and what holds when it succeeds or fails.
- `AwsDeployClient`: the same procedures as methods on a `Client`. Each method's postcondition ties the client's new state and its result to the matching `AwsDeploy` function.
- `DockerfileGenerator`:
  - the three templates;
  - the case-insensitive selection;
  - the exact file content;
  - `generate_dockerfile` as a method on a `Disk` object that holds the file contents by path.

## Model

| member | source | states |
|---|---|---|
| Analyzer.DetectProjectType | utils/analyzer.py:15-26 | A detected stack has a marker file in the listing, and no stack tested before it has one. The error is raised exactly when no stack's marker is present. |
| Analyzer.Tag | utils/analyzer.py:17-23 | A stack's tag is a non-empty word of lower-case ASCII letters, so lower-casing leaves it unchanged. |
| Analyzer.TagsAreDistinct | utils/analyzer.py:17-23 | Different stacks have different tags. |
| Analyzer.DetectionIsUnique | utils/analyzer.py:15-23 | The result is the first stack in priority order (Node.js, Flask, Spring Boot) whose marker is present, so the answer is unique. |
| Analyzer.DetectionIgnoresListingOrder | utils/analyzer.py:12-23 | Two listings with the same names, in any order or multiplicity, give the same result. |
| Analyzer.PackageJsonWins | utils/analyzer.py:15-17 | `package.json` yields Node.js whatever else is present. |
| Analyzer.MarkersAreCaseSensitive | utils/analyzer.py:15-26 | Marker names are compared exactly: `Package.json`, `App.py` and `POM.xml` are not recognised. |
| Text.LeadingSpaces | utils/aws_deploy.py:101 | The count of leading whitespace characters: everything before it is whitespace and the next character is not. |
| Text.LStrip | utils/aws_deploy.py:101 | `lstrip()` gives a suffix of the input that does not start with whitespace, and only whitespace was removed. |
| Text.RStrip | utils/aws_deploy.py:101 | The result is a prefix of the input, does not end with whitespace, and only whitespace was removed. |
| Text.Strip | utils/aws_deploy.py:101 | `strip()` gives the part of the input after its leading whitespace with only whitespace after it; the part starts and ends with non-whitespace characters or is empty. |
| Text.LStripPadded | utils/dockerfile_generator.py:47 | Leading whitespace before a string that starts with a non-space character is removed exactly. |
| Text.RStripPadded | utils/dockerfile_generator.py:47 | Trailing whitespace after a string that ends with a non-space character is removed exactly. |
| Text.StripPadded | utils/dockerfile_generator.py:47 | `strip()` of whitespace + t + whitespace is t when t starts and ends with non-space characters. |
| Text.TrimEnd | utils/aws_deploy.py:102 | `rstrip("/")` gives a prefix of the input that does not end with `/`, and only `/` was removed. |
| Text.AfterLast | utils/aws_deploy.py:102 | `split("/")[-1]` gives a suffix of the input with no `/`, preceded by `/` whenever it is not the whole input. |
| Text.AfterLastWithoutSeparator | utils/aws_deploy.py:102 | A string with no separator is its own last segment. |
| Text.AfterLastSegment | utils/aws_deploy.py:102 | The last segment of prefix + `/` + name is name, when name has no `/`. |
| Text.TrimEndDropsTrailing | utils/aws_deploy.py:102 | A trailing separator does not change the result of `rstrip`. |
| Text.ContainsInfix | utils/aws_deploy.py:183 | A string contains every part it is concatenated from, as `in` on strings means. |
| Text.DeleteAll | utils/aws_deploy.py:102 | `replace(pat, "")` never lengthens the string and introduces no new character. |
| Text.DeleteAllFree | utils/aws_deploy.py:102 | A string without an occurrence of the pattern is unchanged. |
| Text.DeleteAllSkipsHead | utils/aws_deploy.py:102 | A first character that does not start an occurrence is kept. |
| Text.DeleteAllDropsLeading | utils/aws_deploy.py:102 | A leading occurrence is deleted. |
| Text.DeleteAllTrailing | utils/aws_deploy.py:102 | name + `.git` becomes name when `.git` occurs only as that suffix. |
| Text.Lower | utils/dockerfile_generator.py:8 | `lower()` keeps the length and maps each character on its own. |
| Text.LowerIdempotent | utils/dockerfile_generator.py:8 | Lower-casing twice is lower-casing once. |
| Text.LessIrreflexive | utils/aws_deploy.py:14 | The string order `sorted` uses on `CreationDate` is irreflexive. |
| Text.LessTransitive | utils/aws_deploy.py:14 | The string order is transitive. |
| Text.LessTrichotomy | utils/aws_deploy.py:14 | The string order is total. |
| Provider.GroupsNamed | utils/aws_deploy.py:191-195 | A name-filtered group lookup lists exactly the groups with that name, and its first entry is the first such group. |
| Provider.Matching | utils/aws_deploy.py:7-13 | The image lookup lists exactly the images from Canonical's account whose name starts with the Ubuntu 20.04 server prefix and that are available. |
| Provider.Message | utils/aws_deploy.py:183 | `str(e)` of a provider error contains the error's code. |
| AwsDeploy.AppPort | utils/aws_deploy.py:30-31 | The port is 5000 exactly for `flask` and 8080 exactly for `springboot`. Every other tag, including `nodejs`, gets 3000. |
| AwsDeploy.PortMapIsCaseSensitive | utils/aws_deploy.py:31 | `Flask` and `SPRINGBOOT` fall back to 3000. |
| AwsDeploy.NewestIndex | utils/aws_deploy.py:14-15 | The chosen index is within the image list. |
| AwsDeploy.NewestIndexIsFirstNewest | utils/aws_deploy.py:14-15 | No image is newer than the chosen one, and every earlier image is strictly older. This is the element a stable descending sort puts first. |
| AwsDeploy.LatestAmi | utils/aws_deploy.py:6-15 | `get_latest_ubuntu_ami` makes one image lookup and changes nothing else. `IndexError` occurs exactly when the lookup succeeds with no image. A returned id belongs to a listed Ubuntu 20.04 image. Every other failure is the provider's error. |
| AwsDeploy.LatestAmiIsNewest | utils/aws_deploy.py:14-15 | The returned image is the first of the newest listed images. |
| AwsDeploy.SecurityGroup | utils/aws_deploy.py:188-226 | `create_security_group` changes no key pair, instance or key file. It either leaves the groups as they were or adds one group with the given name and description in the given VPC, with at most TCP 22 and 80 open. A returned id names a group with that name. |
| AwsDeploy.SecurityGroupReusesExisting | utils/aws_deploy.py:190-195 | When the lookup works, the first group with the name is returned, after the lookup and nothing else. |
| AwsDeploy.SecurityGroupCreatesOnlySshAndHttp | utils/aws_deploy.py:199-226 | With no group of that name, the call creates one that opens exactly TCP 22 and 80 from anywhere. The calls are lookup, create and authorize, in that order. |
| AwsDeploy.SecurityGroupIsIdempotent | utils/aws_deploy.py:188-197 | After a success, a second call returns the same group and only adds a lookup. |
| AwsDeploy.SecurityGroupNotIdempotentWhenLookupRefused | utils/aws_deploy.py:196-203 | When the lookup is refused, the swallowed error makes a second call try to create the group again and fail as a duplicate. |
| AwsDeploy.Recover | utils/aws_deploy.py:182-186 | The handler raises `RuntimeError` exactly when the message does not name a duplicate rule. It returns the group exactly when one was created, and raises `UnboundLocalError` exactly when a duplicate rule is named before `sg_id` was assigned. |
| AwsDeploy.SecurityGroupWithPort | utils/aws_deploy.py:147-186 | `create_or_get_security_group` changes no key pair, instance or key file. It either leaves the groups as they were or adds one group in the first VPC with at most TCP 22, 80 and the given port open. A returned id names a group with the given name. |
| AwsDeploy.SecurityGroupWithPortReusesExisting | utils/aws_deploy.py:148-156 | When the lookups work, the first group with the name is returned after the VPC and group lookups only, with nothing created or authorized. |
| AwsDeploy.SecurityGroupWithPortCreates | utils/aws_deploy.py:148-180 | With no group of that name, it creates one in the first VPC that opens exactly TCP 22, 80 and the given port. |
| AwsDeploy.SecurityGroupWithPortToleratesDuplicateRules | utils/aws_deploy.py:175-185 | A refused authorization whose message names a duplicate rule still returns the new group. |
| AwsDeploy.SecurityGroupWithPortUnboundGroupId | utils/aws_deploy.py:150-185 | A refused lookup whose message names a duplicate rule reaches `return sg_id` with `sg_id` unbound. |
| AwsDeploy.SshRuleEnsured | utils/aws_deploy.py:118-145 | `ensure_ssh_rule` touches nothing but the given group. It either leaves the groups as they were or adds TCP 22 from anywhere to that group, and a group that already has an SSH rule is left as it was. Every error is swallowed. |
| AwsDeploy.SshRuleEnsuredOpensSsh | utils/aws_deploy.py:120-142 | When the provider cooperates, the group ends with an SSH rule. |
| AwsDeploy.SshRuleAddedAtMostOnce | utils/aws_deploy.py:123-132 | Calling it twice leaves the groups as calling it once does. |
| AwsDeploy.KeyFileSetup | utils/aws_deploy.py:45-56 | An existing key file means no call and no change. Otherwise the call registers `autodock-key` with the issued material and then writes it to an owner-read-only key file. Success means the key file exists. A failure is the provider's error or `OSError`. |
| AwsDeploy.DeploymentGroup | utils/aws_deploy.py:58-61 | A group named `autodock-sg` from any VPC is reused; otherwise one is created in the first VPC with at most TCP 22 and 80 open, never the application port. A failure is the provider's error or `IndexError`. |
| AwsDeploy.Launch | utils/aws_deploy.py:63-79 | On success, exactly one instance is added. It runs the given image with `autodock-key` in the given group, at the next address, and accepts the registered key. A refused launch is a `RuntimeError` and adds no instance. A failed wait is a `WaiterError`, which leaves the instance behind in the given group. |
| AwsDeploy.Session | utils/aws_deploy.py:85-94 | The session changes only the record. It opens only when the key file exists, the instance has an address and the instance accepts the key file's material. A missing or unreadable key file raises `IOError`, a key file without a valid key raises `SSHException`, and a refused connection is an SSH `RuntimeError`. |
| AwsDeploy.RepoFolder | utils/aws_deploy.py:102 | The folder name has no `/` and is no longer than the URL. |
| AwsDeploy.RepoFolderOfCloneUrl | utils/aws_deploy.py:102 | The folder of `<base>/<name>.git` is `name` when `.git` occurs in it only as the suffix. |
| AwsDeploy.RepoFolderIgnoresTrailingSlash | utils/aws_deploy.py:102 | The folder of `<base>/<name>/` is `name`. |
| AwsDeploy.RepoFolderDeletesInnerGit | utils/aws_deploy.py:102 | `.git` is deleted wherever it occurs: the folder of `<base>/u.github.io` is `uhub.io`, not the directory `git clone` creates. |
| AwsDeploy.ProvisioningScript | utils/aws_deploy.py:97-111 | The script has five commands; what each one is is stated by `ScriptClonesAndPublishes` and `ScriptInstallsAndBuilds`. |
| AwsDeploy.ScriptBuildsInClonedFolder | utils/aws_deploy.py:101-108 | For a path that strips to `<base>/<name>.git`, the build command enters `name`. |
| AwsDeploy.RanAll | utils/aws_deploy.py:97-111 | One record entry per command, in order. |
| AwsDeploy.RunScript | utils/aws_deploy.py:17-26 | Running the commands through `run_ssh_command` only appends them to the record; their outputs are dropped. |
| AwsDeploy.WithinThenInOrder | utils/aws_deploy.py:28-116 | One stage's calls followed by later stages' calls, in order, are in stage order. |
| AwsDeploy.WithinIsInOrder | utils/aws_deploy.py:28-116 | The calls of a single stage are in stage order. |
| AwsDeploy.AppendedWithin | utils/aws_deploy.py:28-116 | Appending calls of one stage keeps the record within that stage. |
| AwsDeploy.WithinChain | utils/aws_deploy.py:28-116 | Two runs within the same stage compose. |
| AwsDeploy.KeyFileSetupWithin | utils/aws_deploy.py:45-56 | The key stage makes only key-stage calls. |
| AwsDeploy.SecurityGroupWithin | utils/aws_deploy.py:188-226 | `create_security_group` makes only group-stage calls. |
| AwsDeploy.DeploymentGroupWithin | utils/aws_deploy.py:58-61 | The group stage makes only group-stage calls. |
| AwsDeploy.LaunchWithin | utils/aws_deploy.py:63-79 | The launch stage makes only launch-stage calls. |
| AwsDeploy.SessionWithin | utils/aws_deploy.py:85-94 | The connect stage makes only connect-stage calls. |
| AwsDeploy.ScriptInOrder | utils/aws_deploy.py:97-113 | The commands precede the closing of the session. |
| AwsDeploy.KeepsChain | utils/aws_deploy.py:28-116 | Keeping resources and environment is transitive across stages. |
| AwsDeploy.Provisioned | utils/aws_deploy.py:85-116 | On success, the returned address is the instance's, the key file matches the instance's key, and the record ends with the five commands and the close. A failure is an SSH failure. Only the record changes. |
| AwsDeploy.Launched | utils/aws_deploy.py:62-116 | On success, the new instance runs the given image in the given group and is reachable with the key file. After a failed wait or an SSH failure the new instance is left in the given group (running after an SSH failure); a refused launch adds none. Groups, key pairs and the key file are unchanged. |
| AwsDeploy.DeploymentGroupOpensOnlySshAndHttp | utils/aws_deploy.py:58-61 | Any group the stage adds is `autodock-sg` with at most TCP 22 and 80 open. |
| AwsDeploy.Grouped | utils/aws_deploy.py:58-116 | On success, the instance is in exactly one group, named `autodock-sg`. After a refused launch no instance is added and a group of that name exists; after a later failure the new instance is left in it. No new group opens more than TCP 22 and 80. The calls come in stage order. |
| AwsDeploy.Keyed | utils/aws_deploy.py:45-116 | An existing key file and key pairs are kept. A newly written key file holds the material of the newly registered key pair. On success, the instance accepts that key. After a failure at launch or later, the key file and the `autodock-sg` group remain, and so does the new instance once created. |
| AwsDeploy.Imaged | utils/aws_deploy.py:41-116 | On success, the instance runs the image `LatestAmi` chose: the newest listed Ubuntu 20.04 image, the first one on ties. |
| AwsDeploy.Deployment | utils/aws_deploy.py:28-116 | `deploy_to_aws_ec2` keeps every existing resource and the environment. Calls come in source order. New groups open at most TCP 22 and 80. On success, the returned address belongs to the one new running instance: it uses the newest listed Ubuntu 20.04 image (the first one on ties) that `LatestAmi` chose, sits in `autodock-sg` and is reachable with the key file, and the record ends with the provisioning script for the stack's port and the close. Nothing made is released on failure: after a refused launch the key file and a group named `autodock-sg` remain; after a failed wait or an SSH failure the new instance also remains, in that group (running after an SSH failure). |
| AwsDeploy.ProvisionedSucceedsIff | utils/aws_deploy.py:85-94 | The session opens exactly when the key file loads, the instance has an address, the connection is not refused, and the instance accepts the key file's material. |
| AwsDeploy.LaunchedSucceeds | utils/aws_deploy.py:63-94 | With the key pair registered and written, an existing group, a listed image and an address, the launch and session succeed. |
| AwsDeploy.DeploymentGroupSucceeds | utils/aws_deploy.py:58-61 | With a VPC and no refused group call, the group stage yields a group. |
| AwsDeploy.GroupedSucceeds | utils/aws_deploy.py:58-116 | With no refusals, a VPC, a ready key and an address, the stages from the group on return that address. |
| AwsDeploy.KeyedSucceeds | utils/aws_deploy.py:45-116 | The same holds from the key stage on, when the key file and key pair agree or neither exists. |
| AwsDeploy.ImagedSucceeds | utils/aws_deploy.py:41-116 | The same holds from the image stage on, when an Ubuntu 20.04 image is listed. |
| AwsDeploy.DeploymentSucceeds | utils/aws_deploy.py:28-116 | With no refusals, a listed image, a VPC, an address and a ready key, the deployment returns the instance's public address. |
| AwsDeploy.EndsWithScriptRuns | utils/aws_deploy.py:97-113 | In a record ending with a five-command script and the close, the third and fifth commands are fourth and second from the end. |
| AwsDeploy.ScriptClonesAndPublishes | utils/aws_deploy.py:97-111 | The third command of the script clones the stripped repository path; the fifth runs the image `app` detached, with port 80 published to the given port. |
| AwsDeploy.ScriptInstallsAndBuilds | utils/aws_deploy.py:97-108 | The first two commands update the package index and install Docker and git; the fourth enters the folder `RepoFolder` derives from the stripped path and builds the image `app`. |
| AwsDeploy.ProvisioningRuns | utils/aws_deploy.py:97-113 | A record that ends with the provisioning script and the close holds the clone of the stripped path fourth from the end and the run command publishing port 80 second from the end. |
| AwsDeploy.DeploymentClonesAndPublishes | utils/aws_deploy.py:97-111 | A successful deployment ran `git clone` on the stripped repository path, and its last command before the close runs the container with port 80 published to the stack's port. |
| AwsDeploy.FlaskDeploymentPublishes5000 | utils/aws_deploy.py:30-31 | For the tag `flask`, a successful deployment's last command publishes port 80 as 5000. |
| AwsDeploy.NoImageNoSideEffects | utils/aws_deploy.py:14-15 | With no matching image, the deployment stops with `IndexError` after the lookup and creates nothing. |
| AwsDeploy.StaleKeyFileNeverDeploys | utils/aws_deploy.py:48-56 | A key file that does not match the registered key pair is reused as it is, so the deployment cannot succeed. |
| AwsDeploy.KeyedBlockedByOrphan | utils/aws_deploy.py:48-50 | A key pair registered without a key file makes key creation fail as a duplicate. |
| AwsDeploy.ImagedBlockedByOrphan | utils/aws_deploy.py:41-50 | From the image stage, that failure comes after the image lookup and the key creation only. |
| AwsDeploy.OrphanedKeyPairBlocksDeployment | utils/aws_deploy.py:41-50 | Such a deployment fails at key creation and creates no group or instance. |
| AwsDeploy.KeyedWriteFails | utils/aws_deploy.py:50-52 | A failed key-file write raises `OSError` after the key pair was registered. |
| AwsDeploy.ImagedWriteFails | utils/aws_deploy.py:41-52 | From the image stage, the same holds. |
| AwsDeploy.FailedKeyWriteOrphansKeyPair | utils/aws_deploy.py:45-56 | A failed key write leaves a registered key pair without a key file. The next run, with the write fixed, is refused the key pair. |
| AwsDeploy.ProvisionedIgnoresOutputs | utils/aws_deploy.py:17-26 | What the commands print does not change the provisioning stage. |
| AwsDeploy.LaunchedIgnoresOutputs | utils/aws_deploy.py:63-116 | The same holds for the launch stage. |
| AwsDeploy.SecurityGroupIgnoresOutputs | utils/aws_deploy.py:188-226 | The same holds for `create_security_group`. |
| AwsDeploy.DeploymentGroupIgnoresOutputs | utils/aws_deploy.py:58-61 | The same holds for the group stage. |
| AwsDeploy.GroupedIgnoresOutputs | utils/aws_deploy.py:58-116 | The same holds from the group stage on. |
| AwsDeploy.KeyedIgnoresOutputs | utils/aws_deploy.py:45-116 | The same holds from the key stage on. |
| AwsDeploy.DeploymentIgnoresOutputs | utils/aws_deploy.py:97-116 | The commands' output never changes the deployment's result, resources or record. |
| AwsDeployClient.GetLatestUbuntuAmi | utils/aws_deploy.py:6-15 | The client's new state and the result are those of `LatestAmi`. |
| AwsDeployClient.CreateSecurityGroup | utils/aws_deploy.py:188-226 | The client's new state and the result are those of `SecurityGroup`. |
| AwsDeployClient.CreateOrGetSecurityGroup | utils/aws_deploy.py:147-186 | The client's new state and the result are those of `SecurityGroupWithPort`. |
| AwsDeployClient.EnsureSshRule | utils/aws_deploy.py:118-145 | The client's new state is that of `SshRuleEnsured`. |
| AwsDeployClient.RunSshCommand | utils/aws_deploy.py:17-26 | The command is recorded, and the stripped standard output and error are returned. |
| AwsDeployClient.SetUpKeyFile | utils/aws_deploy.py:45-56 | The client's new state and the result are those of `KeyFileSetup`. |
| AwsDeployClient.SetUpDeploymentGroup | utils/aws_deploy.py:58-61 | The client's new state and the result are those of `DeploymentGroup`. |
| AwsDeployClient.LaunchInstance | utils/aws_deploy.py:63-79 | The client's new state and the result are those of `Launch`. |
| AwsDeployClient.OpenSession | utils/aws_deploy.py:85-94 | The client's new state and the result are those of `Session`. |
| AwsDeployClient.Provision | utils/aws_deploy.py:96-111 | The five commands are appended to the record, in order. |
| AwsDeployClient.DeployToAwsEc2 | utils/aws_deploy.py:28-116 | The client's new state and the result are those of `Deployment`. |
| DockerfileGenerator.Body | utils/dockerfile_generator.py:12-40 | The joined template starts with its first line and ends with its last. |
| DockerfileGenerator.BodyEnds | utils/dockerfile_generator.py:12-40 | The first and last characters of the joined template are those of its first and last lines. |
| DockerfileGenerator.AllSpaceIndent | utils/dockerfile_generator.py:12-20 | The newline and indentation around each literal are whitespace. |
| DockerfileGenerator.StripLiteral | utils/dockerfile_generator.py:47 | Stripping a template literal removes exactly its opening newline and indentation and its closing ones. |
| DockerfileGenerator.TemplateLines | utils/dockerfile_generator.py:11-40 | Each template has at least five lines, starts with a `FROM` line, sets `WORKDIR /app` and ends with a `CMD` line. |
| DockerfileGenerator.Template | utils/dockerfile_generator.py:11-40 | Each literal is its stripped content between a newline plus indentation on each side, and stripping it gives the lines joined with the indentation kept. |
| DockerfileGenerator.Content | utils/dockerfile_generator.py:47 | The written file is the template's lines joined by newlines: the first unindented, the others keeping the literal's indentation, then one final newline. |
| DockerfileGenerator.ExposeMatchesDeploymentPort | utils/dockerfile_generator.py:18-38 | Each template's `EXPOSE` line is the port the deployment publishes for the same tag. |
| DockerfileGenerator.Selection | utils/dockerfile_generator.py:8-43 | A selected template's tag equals the lower-cased input. The `ValueError` is raised exactly when the lower-cased input is no stack's tag, and it reports that lower-cased tag. |
| DockerfileGenerator.SelectionOfTag | utils/dockerfile_generator.py:11-33 | Every stack's own tag selects its template. |
| DockerfileGenerator.SelectionIgnoresCase | utils/dockerfile_generator.py:8 | Tags that differ only in letter case select the same template. |
| DockerfileGenerator.MixedCaseTagPortMismatch | utils/dockerfile_generator.py:8-30 | For `Flask` the Dockerfile exposes 5000, while the deployment's case-sensitive port map publishes 3000. |
| DockerfileGenerator.PathJoin | utils/dockerfile_generator.py:9 | `os.path.join` adds a `/` only when the directory is non-empty and does not already end with one. |
| DockerfileGenerator.PathJoinEndsWithName | utils/dockerfile_generator.py:9 | The file name is the last segment of the joined path. |
| DockerfileGenerator.Disk.Write | utils/dockerfile_generator.py:45-47 | A write succeeds exactly when the path is writable, and then only that path's content changes. |
| DockerfileGenerator.GenerateDockerfile | utils/dockerfile_generator.py:3-52 | An unknown tag raises and writes nothing. An unwritable path returns None and writes nothing. Otherwise `<repo>/Dockerfile` gets the stack's content and its path is returned. |

## Left out

- boto3, botocore and paramiko are not modelled as code. The account, key file and SSH session are the abstract `Cloud` state, and each library call is one operation on it. A refusal of a call is the error code the environment assigns to that call.
- Which exception paramiko raises for a key file that exists but cannot be loaded is chosen by the environment: the code `Unreadable` stands for an unreadable file (`IOError`), any other code for a file without a valid key (`SSHException`). `IOError` is kept apart from the `OSError` of the key write, though Python 3 makes them one class.
- Credentials and region (`utils/aws_deploy.py:34-39`) have no effect on the model.
- The instance type (`t2.micro`) and the SSH user name (`ubuntu`) are not modelled.
- `print` output is not modelled. The console says 60 s while `time.sleep(90)` waits 90 s.
- `time.sleep` at lines 83 and 205 is not modelled. Time is not modelled, so a group that is not yet visible or an instance still booting is not modelled either.
- Concurrency is not modelled: two deployments running at once against the same account are outside the model.
- Resource ids (group ids, instance ids) are modelled as indices into the account's sequences, not as strings.
- `instance.load()` is modelled by the address the environment assigns to the next instance.
- A remote command never fails: `exec_command` errors in the middle of a session are not modelled. Exit statuses are not modelled, since the source never reads them.
- Output bytes are modelled as strings: `decode()` is not modelled.
- The text of `RuntimeError` and `ValueError` messages is not modelled. The model keeps the stage and the wrapped cause instead.
- File-system behaviour beyond a path's content is not modelled: `os.path.exists`, `chmod` (kept as a mode flag), partial writes and `os.listdir` ordering (the listing is a parameter).
- Text.Lower: models `str.lower()` only for ASCII and the Kelvin sign. Those are the only characters whose lower case is one ASCII letter, so template selection is exact. Other characters keep their case.
- AwsDeploy.Recover: `str(e)` is modelled by a fixed message format that contains the error code. Other text botocore puts in the message is not modelled.
- The provider rejects a whole authorization when any requested rule already exists. A duplicate rule inside a single request is not modelled.
- AwsDeploy.DeploymentGroup: a reused `autodock-sg` group may belong to a VPC other than the first; the model does not check it against the VPC the instance is launched into.
- The `ensure_ssh_rule` and `create_or_get_security_group` helpers are modelled, but the deployment does not call them, as in the source.
- `main.py`, `utils/repo_cloner.py`, `utils/auto_merge_pr.py` and the tests are not part of this model.
