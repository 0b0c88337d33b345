/**
 * Dockerfile generation (utils/dockerfile_generator.py): the stack tag selects one of three
 * fixed templates, case-insensitively; the stripped template is written to `Dockerfile` in
 * the repository, and a failed write is reported as no path rather than as an error.
 */
module DockerfileGenerator {
  import opened Wrappers
  import opened Text
  import opened Analyzer
  import AwsDeploy

  /** The indentation of the template lines inside the Python triple-quoted literals. */
  const Indent := "        "

  /** The lines of each stack's template, as they appear between the quotes. */
  function TemplateLines(s: Stack): (lines: seq<string>)
    ensures |lines| >= 5
    ensures StartsWith(lines[0], "FROM ") && lines[1] == "WORKDIR /app" && StartsWith(lines[|lines| - 1], "CMD [")
  {
    match s
    case NodeJs => [
      "FROM node:18-alpine",
      "WORKDIR /app",
      "COPY package*.json ./",
      "RUN npm install",
      "COPY . .",
      "EXPOSE 3000",
      "CMD [\"npm\", \"start\"]"]
    case Flask => [
      "FROM python:3.11-slim",
      "WORKDIR /app",
      "COPY requirements.txt .",
      "RUN pip install -r requirements.txt",
      "COPY . .",
      "EXPOSE 5000",
      "CMD [\"python\", \"app.py\"]"]
    case SpringBoot => [
      "FROM openjdk:17-jdk-slim",
      "WORKDIR /app",
      "COPY target/*.jar app.jar",
      "EXPOSE 8080",
      "CMD [\"java\", \"-jar\", \"app.jar\"]"]
  }

  /** The lines joined by a newline and the literal's indentation: every line but the first stays indented. */
  function Body(lines: seq<string>): (b: string)
    requires lines != []
    ensures |lines[0]| <= |b| && b[..|lines[0]|] == lines[0]
    ensures |lines[|lines| - 1]| <= |b| && b[|b| - |lines[|lines| - 1]|..] == lines[|lines| - 1]
  {
    if |lines| == 1 then lines[0]
    else
      var rest := Body(lines[1..]);
      var b := lines[0] + ("\n" + Indent + rest);
      assert b[|b| - |rest|..] == rest;
      b
  }

  /** The value of the triple-quoted literal: a newline, then each line indented and ended, then the indentation before the closing quotes. */
  function Literal(lines: seq<string>): string
    requires lines != []
  {
    "\n" + Indent + Body(lines) + "\n" + Indent
  }

  /**
   * `content` for a stack, as assigned at lines 12-40: the joined lines, with a newline and
   * the indentation on each side, which stripping removes.
   */
  function Template(s: Stack): (t: string)
    ensures Strip(t) == Body(TemplateLines(s))
    ensures t == "\n" + Indent + Strip(t) + "\n" + Indent
  {
    var lines := TemplateLines(s);
    assert lines[0][0] == 'F';
    assert lines[|lines| - 1][|lines[|lines| - 1]| - 1] == ']';
    StripLiteral(lines);
    Literal(lines)
  }

  /**
   * What line 47 writes: the template's lines separated by newlines, the first unindented
   * and the others keeping the literal's indentation, then exactly one newline.
   */
  function Content(s: Stack): (c: string)
    ensures c == Body(TemplateLines(s)) + "\n"
  {
    Strip(Template(s)) + "\n"
  }

  lemma AllSpaceIndent()
    ensures AllSpace("\n" + Indent)
  {
  }

  lemma BodyEnds(lines: seq<string>)
    requires lines != [] && lines[0] != [] && lines[|lines| - 1] != []
    ensures Body(lines)[0] == lines[0][0]
    ensures Body(lines)[|Body(lines)| - 1] == lines[|lines| - 1][|lines[|lines| - 1]| - 1]
  {
    var b := Body(lines);
    var last := lines[|lines| - 1];
    assert b[0] == b[..|lines[0]|][0];
    assert b[|b| - 1] == b[|b| - |last|..][|last| - 1];
  }

  /** Stripping a literal removes exactly its first newline and indentation and its last ones. */
  lemma StripLiteral(lines: seq<string>)
    requires lines != [] && lines[0] != [] && !IsSpace(lines[0][0])
    requires lines[|lines| - 1] != [] && !IsSpace(lines[|lines| - 1][|lines[|lines| - 1]| - 1])
    ensures Strip(Literal(lines)) == Body(lines)
  {
    var b := Body(lines);
    BodyEnds(lines);
    AllSpaceIndent();
    assert Literal(lines) == ("\n" + Indent) + b + ("\n" + Indent);
    StripPadded("\n" + Indent, b, "\n" + Indent);
  }

  /** Each template exposes the port the deployment publishes for the same tag. */
  lemma ExposeMatchesDeploymentPort(s: Stack)
    ensures "EXPOSE " + AwsDeploy.AppPort(Tag(s)) in TemplateLines(s)
  {
    match s
    case NodeJs =>
      assert AwsDeploy.AppPort("nodejs") == "3000";
      assert TemplateLines(s)[5] == "EXPOSE " + "3000";
    case Flask =>
      assert AwsDeploy.AppPort("flask") == "5000";
      assert TemplateLines(s)[5] == "EXPOSE " + "5000";
    case SpringBoot =>
      assert AwsDeploy.AppPort("springboot") == "8080";
      assert TemplateLines(s)[3] == "EXPOSE " + "8080";
  }

  /** The `ValueError` of line 43, carrying the lower-cased tag it reports. */
  datatype TemplateError = NoTemplate(tag: string)

  /** Lines 8-43: the tag is lower-cased, then compared with each stack's tag. */
  function Selection(techStack: string): (r: Result<Stack, TemplateError>)
    ensures r.Ok? ==> Lower(techStack) == Tag(r.value)
    ensures r.Err? <==> forall s :: Lower(techStack) != Tag(s)
    ensures r.Err? ==> r.error == NoTemplate(Lower(techStack))
  {
    var tag := Lower(techStack);
    if tag == "nodejs" then Ok(NodeJs)
    else if tag == "flask" then Ok(Flask)
    else if tag == "springboot" then Ok(SpringBoot)
    else Err(NoTemplate(tag))
  }

  /** Every stack's own tag selects its template: the tags are already lower case. */
  lemma SelectionOfTag(s: Stack)
    ensures Selection(Tag(s)) == Ok(s)
  {
    match s
    case NodeJs => assert Lower("nodejs") == "nodejs";
    case Flask => assert Lower("flask") == "flask";
    case SpringBoot => assert Lower("springboot") == "springboot";
  }

  /** Tags that differ only in letter case select the same template. */
  lemma SelectionIgnoresCase(a: string, b: string)
    requires Lower(a) == Lower(b)
    ensures Selection(a) == Selection(b)
  {
  }

  /**
   * The two tables disagree on letter case: for the tag "Flask" the Dockerfile exposes 5000,
   * while the deployment, whose port map is case-sensitive, publishes 3000.
   */
  lemma MixedCaseTagPortMismatch()
    ensures Selection("Flask") == Ok(Flask)
    ensures AwsDeploy.AppPort("Flask") == "3000"
    ensures "EXPOSE 5000" in TemplateLines(Flask)
  {
    assert Lower("Flask") == "flask";
    assert TemplateLines(Flask)[5] == "EXPOSE 5000";
  }

  const FileName := "Dockerfile"

  /** `os.path.join(repo_path, "Dockerfile")` with POSIX separators. */
  function PathJoin(dir: string, name: string): (path: string)
    ensures dir == [] ==> path == name
    ensures dir != [] && dir[|dir| - 1] == '/' ==> path == dir + name
    ensures dir != [] && dir[|dir| - 1] != '/' ==> path == dir + "/" + name
  {
    if dir == [] || dir[|dir| - 1] == '/' then dir + name else dir + "/" + name
  }

  /** A file name without separators is the last segment of the joined path. */
  lemma PathJoinEndsWithName(dir: string, name: string)
    requires '/' !in name
    ensures AfterLast(PathJoin(dir, name), '/') == name
  {
    if dir == [] {
      AfterLastWithoutSeparator(name, '/');
    } else if dir[|dir| - 1] == '/' {
      assert dir + name == dir[..|dir| - 1] + ['/'] + name;
      AfterLastSegment(dir[..|dir| - 1], '/', name);
    } else {
      assert dir + "/" + name == dir + ['/'] + name;
      AfterLastSegment(dir, '/', name);
    }
  }

  /** The local file system the generator writes to: file contents by path, and the paths it cannot write. */
  class Disk {
    var files: map<string, string>
    const unwritable: set<string>

    constructor (files: map<string, string>, unwritable: set<string>)
      ensures this.files == files && this.unwritable == unwritable
    {
      this.files := files;
      this.unwritable := unwritable;
    }

    /** Opens `path` for writing and writes `content`; a path that cannot be written is left as it was. */
    method Write(path: string, content: string) returns (ok: bool)
      modifies this
      ensures ok <==> path !in unwritable
      ensures files == if ok then old(files)[path := content] else old(files)
    {
      ok := path !in unwritable;
      if ok {
        files := files[path := content];
      }
    }
  }

  /**
   * `generate_dockerfile`: an unknown tag raises before anything is written; otherwise the
   * content is written to `Dockerfile` in `repoPath`, and the path is returned, or None when
   * the write fails.
   */
  method GenerateDockerfile(disk: Disk, repoPath: string, techStack: string) returns (r: Result<Option<string>, TemplateError>)
    modifies disk
    ensures Selection(techStack).Err? ==> r == Err(Selection(techStack).error) && disk.files == old(disk.files)
    ensures Selection(techStack).Ok? && PathJoin(repoPath, FileName) in disk.unwritable ==>
      r == Ok(None) && disk.files == old(disk.files)
    ensures Selection(techStack).Ok? && PathJoin(repoPath, FileName) !in disk.unwritable ==>
      && r == Ok(Some(PathJoin(repoPath, FileName)))
      && disk.files == old(disk.files)[PathJoin(repoPath, FileName) := Content(Selection(techStack).value)]
  {
    var selected := Selection(techStack);
    var path := PathJoin(repoPath, FileName);
    if selected.Err? {
      return Err(selected.error);
    }
    var content := Content(selected.value);
    var ok := disk.Write(path, content);
    if ok {
      r := Ok(Some(path));
    } else {
      r := Ok(None);
    }
  }
}
