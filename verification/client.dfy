/** The `Docker` class of index.js: detection of the binary (`test`), and
    the `hello`, `ps` and `build` operations composed from the argument
    builders and the process executor. */
module Client {
  import opened Optional
  import opened JsString
  import opened Executor
  import opened Commands

  // ---------------------------------------------------------------------------
  // Docker.test(): locating the binary and reading its version banner
  // ---------------------------------------------------------------------------

  /** What `spawnSync` reports: the exit status (`None` for `null`) and stdout. */
  datatype SyncRun = SyncRun(status: Option<int>, stdout: string)

  datatype Detection = Detection(path: string, version: string)

  /** The version as `test` slices it out of `docker --version`: from just
      after the first "version " (position 7 when there is none, since
      `indexOf` answers -1) up to one character before the first comma. */
  function VersionOf(banner: string): (v: string)
    ensures |v| <= |banner|
    ensures OccursAt(banner, v, Clamp(IndexOf(banner, "version ") + 8, |banner|))
         || OccursAt(banner, v, Clamp(IndexOf(banner, ",") - 1, |banner|))
  {
    var start := IndexOf(banner, "version ") + 8;
    var end := IndexOf(banner, ",");
    Substring(banner, start, end - 1)
  }

  /** The index of a one-character needle is the first position holding it. */
  lemma IndexOfChar(s: string, c: char, m: nat)
    requires m < |s| && s[m] == c
    requires c !in s[..m]
    ensures IndexOf(s, [c]) == m
  {
    assert s[m..m + 1] == [c];
    assert OccursAt(s, [c], m);
    forall i | 0 <= i < m
      ensures !OccursAt(s, [c], i)
    {
      assert s[i] == s[..m][i];
    }
    var r := IndexOf(s, [c]);
    assert r >= 0 && OccursAt(s, [c], r);
    assert !(r < m);
  }

  /** On the banner shape `docker` prints, `pre version V, rest`, the slice is
      V without its last character: the end index stops one short of the comma. */
  lemma VersionDropsLastChar(pre: string, ver: string, rest: string)
    requires |ver| >= 1
    requires forall i :: 0 <= i < |pre| ==> !OccursAt(pre + "version " + ver + "," + rest, "version ", i)
    requires ',' !in pre && ',' !in ver
    ensures VersionOf(pre + "version " + ver + "," + rest) == ver[..|ver| - 1]
  {
    var banner := pre + "version " + ver + "," + rest;
    var k := |pre|;
    assert banner[k..k + 8] == "version ";
    assert OccursAt(banner, "version ", k);
    assert IndexOf(banner, "version ") == k;
    var comma := k + 8 + |ver|;
    assert banner[..comma] == pre + "version " + ver;
    assert banner[comma] == ',';
    IndexOfChar(banner, ',', comma);
    assert IndexOf(banner, ",") == comma;
    assert banner[k + 8..comma - 1] == ver[..|ver| - 1];
  }

  /** The `docker --version` banner of Docker 20.10.7. */
  const Banner20107: string := "Docker version 20.10.7, build f0df350\n"

  /** No "version " starts inside the banner's leading "Docker ". */
  lemma Banner20107Prefix(i: nat)
    requires i < 7
    ensures !OccursAt(Banner20107, "version ", i)
  {
    assert Banner20107[i] != 'v';
    assert Banner20107[i..i + 8][0] == Banner20107[i];
  }

  /** The banner of Docker 20.10.7 gives "20.10.", not "20.10.7". */
  lemma VersionOfBannerExample()
    ensures VersionOf(Banner20107) == "20.10."
  {
    var pre, ver, rest := "Docker ", "20.10.7", " build f0df350\n";
    assert Banner20107 == pre + "version " + ver + "," + rest;
    forall i | 0 <= i < |pre|
      ensures !OccursAt(pre + "version " + ver + "," + rest, "version ", i)
    {
      Banner20107Prefix(i);
    }
    VersionDropsLastChar(pre, ver, rest);
  }

  /** Without a comma the end index is -2, clamped to 0, so `substring`
      swaps its arguments and answers the text before the start index. */
  lemma VersionWithoutComma(banner: string)
    requires ',' !in banner
    ensures VersionOf(banner) == banner[..Clamp(IndexOf(banner, "version ") + 8, |banner|)]
  {
  }

  /** Every banner: with `start` just past the first "version " (7 when there
      is none) and `end` one before the first comma (-2 when there is none),
      both clamped into the banner, the result is the text between the
      smaller and the larger of the two. This covers banners where a comma
      comes before "version ", or where the version text is empty. */
  lemma VersionSlice(banner: string)
    ensures var start := Clamp(IndexOf(banner, "version ") + 8, |banner|);
            var end := Clamp(IndexOf(banner, ",") - 1, |banner|);
            && (start <= end ==> VersionOf(banner) == banner[start..end])
            && (end <= start ==> VersionOf(banner) == banner[end..start])
  {
    var start := Clamp(IndexOf(banner, "version ") + 8, |banner|);
    var end := Clamp(IndexOf(banner, ",") - 1, |banner|);
    assert VersionOf(banner) == Substring(banner, IndexOf(banner, "version ") + 8, IndexOf(banner, ",") - 1);
  }

  /** A comma but no "version ": the slice runs from the comma's predecessor
      to index 7, so "a,b" comes back whole. */
  lemma VersionCommaFirstExample()
    ensures VersionOf("a,b") == "a,b"
  {
    assert "a,b"[1..2] == ",";
    IndexOfChar("a,b", ',', 1);
    assert IndexOf("a,b", "version ") == -1;
  }

  /** `Docker.test()`: `null` unless `which docker` exits with 0; otherwise
      the trimmed path and the sliced version banner. */
  function Detect(which: SyncRun, versionRun: SyncRun): (r: Option<Detection>)
    ensures r.Some? <==> which.status == Some(0)
    ensures r.Some? ==> r.value.path == Trim(which.stdout) && r.value.version == VersionOf(versionRun.stdout)
  {
    if which.status == Some(0) then
      Some(Detection(Trim(which.stdout), VersionOf(versionRun.stdout)))
    else None
  }

  // ---------------------------------------------------------------------------
  // hello
  // ---------------------------------------------------------------------------

  /** `hello()`: `docker run hello-world` in the caller's directory. */
  method Hello(docker: Invocation -> Process) returns (r: CmdResult)
    ensures r == Captured(docker(Invocation(["run", "hello-world"], None)))
  {
    r := Cmd(docker, ["run", "hello-world"], None);
  }

  // ---------------------------------------------------------------------------
  // ps
  // ---------------------------------------------------------------------------

  /** One container row as the table parser yields it: column name to cell. */
  type Row = map<string, string>

  /** What `ps` resolves with: the `_cmd` result itself when the command
      failed, or a listing that copies its three texts and adds the rows. */
  datatype PsResult =
    | Unlisted(cmd: CmdResult)
    | Listed(ok: bool, output: string, stdout: string, stderr: string, containers: seq<Row>)

  /** The shaping `ps` applies to the `_cmd` result. `parseTable` stands for
      `cliTable2Json`; `None` is the call throwing. */
  function ShapePs(psOut: CmdResult, parseTable: seq<string> -> Option<seq<Row>>): (r: PsResult)
    ensures !psOut.ok ==> r == Unlisted(psOut)
    ensures psOut.ok ==> r.Listed? && r.ok
    ensures psOut.ok ==> r.output == psOut.output && r.stdout == psOut.stdout && r.stderr == psOut.stderr
    ensures psOut.ok ==> r.containers == parseTable(SplitLines(psOut.stdout)).GetOr([])
  {
    if !psOut.ok then Unlisted(psOut)
    else
      var containers := match parseTable(SplitLines(psOut.stdout))
        case Some(rows) => rows
        case None => [];
      Listed(true, psOut.output, psOut.stdout, psOut.stderr, containers)
  }

  /** A table that cannot be parsed and a table with no rows give the same
      `ps` result: a caller cannot tell "no containers" from "unreadable". */
  lemma PsParseFailureLooksEmpty(psOut: CmdResult, failing: seq<string> -> Option<seq<Row>>, empty: seq<string> -> Option<seq<Row>>)
    requires failing(SplitLines(psOut.stdout)) == None
    requires empty(SplitLines(psOut.stdout)) == Some([])
    ensures ShapePs(psOut, failing) == ShapePs(psOut, empty)
  {
  }

  /** `ps(options)`: `docker ps --no-trunc ...options` in the caller's
      directory, its result shaped by `ShapePs`. */
  method Ps(docker: Invocation -> Process, parseTable: seq<string> -> Option<seq<Row>>, options: seq<string>)
    returns (r: PsResult)
    ensures var p := docker(Invocation(PsArgs(options), None));
      && (p.status != Some(0) ==> r == Unlisted(Captured(p)))
      && (p.status == Some(0) ==> r.Listed? && r.ok && r.stdout == Captured(p).stdout
                                  && r.output == Captured(p).output && r.stderr == Captured(p).stderr
                                  && r.containers == parseTable(SplitLines(r.stdout)).GetOr([]))
  {
    var psOut := Cmd(docker, PsArgs(options), None);
    r := ShapePs(psOut, parseTable);
  }

  // ---------------------------------------------------------------------------
  // build
  // ---------------------------------------------------------------------------

  /** What `build` resolves with: the `_cmd` result, plus `id` when an id
      file was allocated. */
  datatype BuildResult = BuildResult(cmd: CmdResult, id: Option<string>)

  /** `build(o)`: `tmpPath` is what `tempfile()` returns and `readFile` the
      contents of each file once `docker` has exited. The command runs in
      `o.cwd` (default '.'); the id is the id file's raw contents, read
      whether or not the command succeeded (a read of a file `docker` never
      wrote throws in the source, which this model does not represent). */
  method Build(docker: Invocation -> Process, readFile: string -> string, o: BuildOptions, tmpPath: string)
    returns (r: BuildResult)
    ensures r.cmd == Captured(docker(Invocation(BuildArgs(o, tmpPath), SpawnCwd(Some(BuildDir(o))))))
    ensures r.id.Some? <==> !o.noId && |tmpPath| > 0
    ensures r.id.Some? ==> r.id.value == readFile(tmpPath)
  {
    var args := BuildArgs(o, tmpPath);
    var idFile := IdFile(o, tmpPath);
    var out := Cmd(docker, args, Some(BuildDir(o)));
    if Truthy(idFile) {
      r := BuildResult(out, Some(readFile(idFile.value)));
    } else {
      r := BuildResult(out, None);
    }
  }
}
