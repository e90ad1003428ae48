/** The argument vectors the client passes to `docker` for `ps` and `build`. */
module Commands {
  import opened Optional
  import opened JsString

  // ---------------------------------------------------------------------------
  // ps
  // ---------------------------------------------------------------------------

  /** The fixed start of every `ps` invocation. */
  const PsPrefix: seq<string> := ["ps", "--no-trunc"]

  /** `['ps', '--no-trunc'].concat(options)`. */
  function PsArgs(options: seq<string>): (args: seq<string>)
    ensures |args| == |PsPrefix| + |options|
    ensures args[..|PsPrefix|] == PsPrefix
    ensures forall i :: 0 <= i < |options| ==> args[|PsPrefix| + i] == options[i]
  {
    PsPrefix + options
  }

  /** The caller's options can be read back off the vector: distinct option
      lists give distinct invocations. */
  lemma PsArgsInjective(a: seq<string>, b: seq<string>)
    requires PsArgs(a) == PsArgs(b)
    ensures a == b
  {
    assert a == PsArgs(a)[|PsPrefix|..];
    assert b == PsArgs(b)[|PsPrefix|..];
  }

  // ---------------------------------------------------------------------------
  // build
  // ---------------------------------------------------------------------------

  /** The options object `build` destructures. `None` stands for a property
      the caller left out, so the destructuring default applies; for `tag`
      it also covers an explicit `null`. `options` is accepted but unused. */
  datatype BuildOptions = BuildOptions(
    tag: Option<string>,
    cwd: Option<string>,
    dockerfile: Option<string>,
    options: seq<string>,
    noId: bool)

  /** `build({})` with every default: no tag, cwd '.', 'Dockerfile', an id file. */
  const DefaultBuild: BuildOptions := BuildOptions(None, None, None, [], false)

  /** The Dockerfile path after the destructuring default. */
  function DockerfileOf(o: BuildOptions): string {
    o.dockerfile.GetOr("Dockerfile")
  }

  /** The working directory `build` asks `_cmd` for (default '.'). */
  function BuildDir(o: BuildOptions): string {
    o.cwd.GetOr(".")
  }

  /** The id file `build` allocates: the temporary path unless `noId`. */
  function IdFile(o: BuildOptions, tmpPath: string): (f: Option<string>)
    ensures f.Some? <==> !o.noId
    ensures f.Some? ==> f.value == tmpPath
  {
    if o.noId then None else Some(tmpPath)
  }

  /** The argument vector of `build`, where `tmpPath` is the path
      `tempfile()` returned: `build [-t tag] -f dockerfile [--iidfile path] .` */
  function BuildArgs(o: BuildOptions, tmpPath: string): (args: seq<string>)
    ensures |args| == 4 + (if Truthy(o.tag) then 2 else 0) + (if o.noId then 0 else 2)
    ensures args[0] == "build" && args[|args| - 1] == "."
    ensures args[1] == "-t" <==> Truthy(o.tag)
    ensures Truthy(o.tag) ==> args[2] == o.tag.value
    ensures var f := if Truthy(o.tag) then 3 else 1; args[f] == "-f" && args[f + 1] == DockerfileOf(o)
    ensures args[|args| - 3] == "--iidfile" <==> !o.noId
    ensures !o.noId ==> args[|args| - 2] == tmpPath
  {
    var tagged := if Truthy(o.tag) then ["-t", o.tag.value] else [];
    var idFlags := if o.noId then [] else ["--iidfile", tmpPath];
    ["build"] + tagged + ["-f", DockerfileOf(o)] + idFlags + ["."]
  }

  /** The extra `options` of `build` never reach the argument vector. */
  lemma BuildIgnoresOptions(o: BuildOptions, extra: seq<string>, tmpPath: string)
    ensures BuildArgs(o.(options := extra), tmpPath) == BuildArgs(o, tmpPath)
  {
  }

  /** What a `build` argument vector asks `docker` for. */
  datatype BuildRequest = BuildRequest(tag: Option<string>, dockerfile: string, idFile: Option<string>)

  /** The request `BuildArgs(o, tmpPath)` is meant to express: a tag only
      when it is truthy, the defaulted Dockerfile, the id file unless `noId`. */
  function Requested(o: BuildOptions, tmpPath: string): BuildRequest {
    BuildRequest(if Truthy(o.tag) then o.tag else None, DockerfileOf(o), IdFile(o, tmpPath))
  }

  /** Reads a request back from the flags between `build` and `.`, by
      position, so that values which look like flags are still values. */
  function ParseBuildFlags(flags: seq<string>): Option<BuildRequest> {
    if |flags| >= 2 && flags[0] == "-t" then
      match ParseFileFlags(flags[2..])
      case None => None
      case Some(q) => Some(q.(tag := Some(flags[1])))
    else ParseFileFlags(flags)
  }

  function ParseFileFlags(flags: seq<string>): Option<BuildRequest> {
    if |flags| == 2 && flags[0] == "-f" then Some(BuildRequest(None, flags[1], None))
    else if |flags| == 4 && flags[0] == "-f" && flags[2] == "--iidfile" then Some(BuildRequest(None, flags[1], Some(flags[3])))
    else None
  }

  /** The inverse of `BuildArgs`: `None` for a vector `build` cannot produce. */
  function ParseBuildArgs(args: seq<string>): Option<BuildRequest> {
    if |args| < 2 || args[0] != "build" || args[|args| - 1] != "." then None
    else ParseBuildFlags(args[1..|args| - 1])
  }

  /** Every vector `build` produces reads back as the request it was built
      from, whatever strings the tag, Dockerfile path and id file are. */
  lemma BuildArgsRoundTrip(o: BuildOptions, tmpPath: string)
    ensures ParseBuildArgs(BuildArgs(o, tmpPath)) == Some(Requested(o, tmpPath))
  {
    var args := BuildArgs(o, tmpPath);
    var tagged := if Truthy(o.tag) then ["-t", o.tag.value] else [];
    var fileFlags := ["-f", DockerfileOf(o)] + (if o.noId then [] else ["--iidfile", tmpPath]);
    assert args == ["build"] + tagged + fileFlags + ["."];
    var flags := args[1..|args| - 1];
    assert flags == tagged + fileFlags;
    if Truthy(o.tag) {
      assert flags[2..] == fileFlags;
    }
  }

  /** Two `build` calls that issue the same vector asked for the same tag,
      Dockerfile and id file. */
  lemma BuildArgsDetermineRequest(o1: BuildOptions, t1: string, o2: BuildOptions, t2: string)
    requires BuildArgs(o1, t1) == BuildArgs(o2, t2)
    ensures Requested(o1, t1) == Requested(o2, t2)
  {
    BuildArgsRoundTrip(o1, t1);
    BuildArgsRoundTrip(o2, t2);
  }

  /** `build({ tag: 'demo:v1' })` with id file `/tmp/x`. */
  lemma BuildArgsTaggedExample()
    ensures BuildArgs(DefaultBuild.(tag := Some("demo:v1")), "/tmp/x")
         == ["build", "-t", "demo:v1", "-f", "Dockerfile", "--iidfile", "/tmp/x", "."]
  {
  }
}
