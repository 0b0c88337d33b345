/**
 * Stack detection (utils/analyzer.py): classifies a repository by the marker files
 * in its top-level directory listing.
 */
module Analyzer {
  import opened Wrappers

  /** The runtime stacks the system knows, in the order the detector tests them. */
  datatype Stack = NodeJs | Flask | SpringBoot

  /** The tag string that names a stack everywhere else in the system. */
  function Tag(s: Stack): (t: string)
    ensures t != [] && forall i :: 0 <= i < |t| ==> 'a' <= t[i] <= 'z'
  {
    match s
    case NodeJs => "nodejs"
    case Flask => "flask"
    case SpringBoot => "springboot"
  }

  /** Different stacks have different tags. */
  lemma TagsAreDistinct(a: Stack, b: Stack)
    requires Tag(a) == Tag(b)
    ensures a == b
  {
  }

  /** The exact, case-sensitive file names whose presence identifies a stack. */
  function Markers(s: Stack): set<string> {
    match s
    case NodeJs => {"package.json"}
    case Flask => {"requirements.txt", "app.py"}
    case SpringBoot => {"pom.xml", "build.gradle"}
  }

  /** Detection priority: a lower rank is tested first. */
  function Rank(s: Stack): nat {
    match s
    case NodeJs => 0
    case Flask => 1
    case SpringBoot => 2
  }

  predicate Present(s: Stack, files: seq<string>) {
    exists m :: m in Markers(s) && m in files
  }

  /** The `ValueError` raised when no marker file is present. */
  datatype DetectError = UnknownProjectType

  /**
   * `detect_project_type` on the listing `files` of the repository's top-level directory:
   * the first stack, in priority order, with a marker present; an error when there is none.
   */
  function DetectProjectType(files: seq<string>): (r: Result<Stack, DetectError>)
    ensures r.Ok? ==> Present(r.value, files)
    ensures r.Ok? ==> forall s :: Rank(s) < Rank(r.value) ==> !Present(s, files)
    ensures r.Err? <==> forall s :: !Present(s, files)
  {
    if "package.json" in files then
      Ok(NodeJs)
    else if "requirements.txt" in files || "app.py" in files then
      Ok(Flask)
    else if "pom.xml" in files || "build.gradle" in files then
      Ok(SpringBoot)
    else
      Err(UnknownProjectType)
  }

  /** Ranks put the stacks in a strict order, so "the first present stack" is unique. */
  lemma DetectionIsUnique(files: seq<string>, s: Stack)
    requires Present(s, files)
    requires forall t :: Rank(t) < Rank(s) ==> !Present(t, files)
    ensures DetectProjectType(files) == Ok(s)
  {
  }

  /** Only membership matters: two listings with the same names, in any order or multiplicity, agree. */
  lemma DetectionIgnoresListingOrder(a: seq<string>, b: seq<string>)
    requires forall f :: f in a <==> f in b
    ensures DetectProjectType(a) == DetectProjectType(b)
  {
  }

  /** `package.json` wins whatever else is present. */
  lemma PackageJsonWins(files: seq<string>)
    requires "package.json" in files
    ensures DetectProjectType(files) == Ok(NodeJs)
  {
  }

  /** Names are matched exactly: a differently cased marker is not recognised. */
  lemma MarkersAreCaseSensitive()
    ensures DetectProjectType(["Package.json", "App.py", "POM.xml"]) == Err(UnknownProjectType)
  {
  }
}
