/** The process executor of the client (`_cmd` in index.js): one run of the
    `docker` binary, observed as the chunks its two output streams produced
    in arrival order and the status reported when the process closed. */
module Executor {
  import opened Optional
  import opened JsString

  datatype Stream = Stdout | Stderr

  /** One `'data'` event: which stream it came from and its text. */
  datatype Chunk = Chunk(stream: Stream, data: string)

  /** What one spawned process did, as the client sees it: its output chunks
      in arrival order, and the exit code passed to `'close'` (`None` when
      the process was ended by a signal and Node reports `null`). A binary
      that cannot be spawned at all is not a `Process`: `_cmd` has no
      `'error'` listener, so that case never resolves. */
  datatype Process = Process(chunks: seq<Chunk>, status: Option<int>)

  /** The arguments and working directory `docker` is spawned with
      (`None`: inherit the caller's directory). */
  datatype Invocation = Invocation(args: seq<string>, cwd: Option<string>)

  /** The object `_cmd` resolves with. */
  datatype CmdResult = CmdResult(ok: bool, output: string, stdout: string, stderr: string)

  /** `parts.join('')`. */
  function Join(parts: seq<string>): string {
    if |parts| == 0 then "" else Join(parts[..|parts| - 1]) + parts[|parts| - 1]
  }

  /** The text of each chunk, in order. */
  function Payloads(cs: seq<Chunk>): (ps: seq<string>)
    ensures |ps| == |cs|
    ensures forall i :: 0 <= i < |cs| ==> ps[i] == cs[i].data
  {
    seq(|cs|, i requires 0 <= i < |cs| => cs[i].data)
  }

  /** The chunks that came from stream `s`, in their arrival order. */
  function Only(cs: seq<Chunk>, s: Stream): (r: seq<Chunk>)
    ensures |r| <= |cs|
    ensures forall k :: 0 <= k < |r| ==> r[k].stream == s && r[k] in cs
  {
    if |cs| == 0 then []
    else
      var last := cs[|cs| - 1];
      Only(cs[..|cs| - 1], s) + (if last.stream == s then [last] else [])
  }

  /** All the text of the chunks, in order. */
  function Text(cs: seq<Chunk>): string {
    Join(Payloads(cs))
  }

  /** The object `_cmd` resolves with for a process: `ok` exactly
      when the close status is 0; `output` every chunk in arrival order;
      `stdout` and `stderr` the chunks of that stream alone, in order. */
  function Captured(p: Process): CmdResult {
    CmdResult(p.status == Some(0), Text(p.chunks), Text(Only(p.chunks, Stdout)), Text(Only(p.chunks, Stderr)))
  }

  /** The working directory `_cmd` hands to `spawn`: `options.cwd || undefined`. */
  function SpawnCwd(cwd: Option<string>): (r: Option<string>)
    ensures r.Some? <==> Truthy(cwd)
    ensures r.Some? ==> r == cwd
  {
    if Truthy(cwd) then cwd else None
  }

  /** `_cmd(args, { cwd })`: spawn `docker`, push every chunk of either
      stream onto the combined list and onto its own stream's list as it
      arrives, and on `'close'` join the three lists. */
  method Cmd(docker: Invocation -> Process, args: seq<string>, cwd: Option<string>) returns (r: CmdResult)
    ensures r == Captured(docker(Invocation(args, SpawnCwd(cwd))))
  {
    var p := docker(Invocation(args, SpawnCwd(cwd)));
    var outputChunks: seq<string> := [];
    var stdoutChunks: seq<string> := [];
    var stderrChunks: seq<string> := [];
    var i := 0;
    while i < |p.chunks|
      invariant 0 <= i <= |p.chunks|
      invariant outputChunks == Payloads(p.chunks[..i])
      invariant stdoutChunks == Payloads(Only(p.chunks[..i], Stdout))
      invariant stderrChunks == Payloads(Only(p.chunks[..i], Stderr))
    {
      var chunk := p.chunks[i];
      assert p.chunks[..i + 1][..i] == p.chunks[..i];
      match chunk.stream {
        case Stdout => stdoutChunks := stdoutChunks + [chunk.data];
        case Stderr => stderrChunks := stderrChunks + [chunk.data];
      }
      outputChunks := outputChunks + [chunk.data];
      i := i + 1;
    }
    assert p.chunks[..i] == p.chunks;
    r := CmdResult(p.status == Some(0), Join(outputChunks), Join(stdoutChunks), Join(stderrChunks));
  }

  // ---------------------------------------------------------------------------
  // Properties of the captured result
  // ---------------------------------------------------------------------------

  lemma {:induction false} JoinAppend(a: seq<string>, b: seq<string>)
    ensures Join(a + b) == Join(a) + Join(b)
    decreases |b|
  {
    if |b| == 0 {
      assert a + b == a;
    } else {
      var b' := b[..|b| - 1];
      assert (a + b)[..|a + b| - 1] == a + b';
      JoinAppend(a, b');
    }
  }

  lemma {:induction false} OnlyAppend(a: seq<Chunk>, b: seq<Chunk>, s: Stream)
    ensures Only(a + b, s) == Only(a, s) + Only(b, s)
    decreases |b|
  {
    if |b| == 0 {
      assert a + b == a;
    } else {
      var b' := b[..|b| - 1];
      assert (a + b)[..|a + b| - 1] == a + b';
      OnlyAppend(a, b', s);
    }
  }

  /** The text of a run of chunks is the text of its first part followed by
      the text of the rest. */
  lemma TextAppend(a: seq<Chunk>, b: seq<Chunk>)
    ensures Text(a + b) == Text(a) + Text(b)
  {
    assert Payloads(a + b) == Payloads(a) + Payloads(b);
    JoinAppend(Payloads(a), Payloads(b));
  }

  /** Capturing a transcript in two parts and concatenating field by field
      is capturing it whole: no chunk is lost, duplicated or reordered. */
  lemma CapturedSplit(a: seq<Chunk>, b: seq<Chunk>, status: Option<int>)
    ensures Captured(Process(a + b, status)).output == Captured(Process(a, status)).output + Captured(Process(b, status)).output
    ensures Captured(Process(a + b, status)).stdout == Captured(Process(a, status)).stdout + Captured(Process(b, status)).stdout
    ensures Captured(Process(a + b, status)).stderr == Captured(Process(a, status)).stderr + Captured(Process(b, status)).stderr
  {
    TextAppend(a, b);
    OnlyAppend(a, b, Stdout);
    OnlyAppend(a, b, Stderr);
    TextAppend(Only(a, Stdout), Only(b, Stdout));
    TextAppend(Only(a, Stderr), Only(b, Stderr));
  }

  /** The combined output is exactly as long as the two streams together. */
  lemma {:induction false} CapturedLengths(p: Process)
    ensures |Captured(p).output| == |Captured(p).stdout| + |Captured(p).stderr|
    decreases |p.chunks|
  {
    var cs := p.chunks;
    if |cs| > 0 {
      var init := cs[..|cs| - 1];
      var last := [cs[|cs| - 1]];
      assert init + last == cs;
      CapturedLengths(Process(init, p.status));
      CapturedSplit(init, last, p.status);
      assert Payloads(last) == [cs[|cs| - 1].data];
      assert Join([cs[|cs| - 1].data]) == Join([]) + cs[|cs| - 1].data;
    }
  }

  /** A single chunk lands in the combined output and in its own stream only. */
  lemma CapturedSingle(ch: Chunk, status: Option<int>)
    ensures Captured(Process([ch], status)).output == ch.data
    ensures Captured(Process([ch], status)).stdout == (if ch.stream == Stdout then ch.data else "")
    ensures Captured(Process([ch], status)).stderr == (if ch.stream == Stderr then ch.data else "")
  {
    assert [ch][..0] == [];
    assert Payloads([ch]) == [ch.data];
    assert Join([ch.data]) == Join([]) + ch.data;
    assert Payloads([]) == [];
  }

  /** Stdout chunk `a`, then stderr chunk `b`, then stdout chunk `c`: the
      combined output is `a b c` and each stream keeps its own order. */
  lemma InterleavedTranscript(a: string, b: string, c: string, status: Option<int>)
    ensures Captured(Process([Chunk(Stdout, a), Chunk(Stderr, b), Chunk(Stdout, c)], status)).output == a + b + c
    ensures Captured(Process([Chunk(Stdout, a), Chunk(Stderr, b), Chunk(Stdout, c)], status)).stdout == a + c
    ensures Captured(Process([Chunk(Stdout, a), Chunk(Stderr, b), Chunk(Stdout, c)], status)).stderr == b
  {
    var x, y, z := [Chunk(Stdout, a)], [Chunk(Stderr, b)], [Chunk(Stdout, c)];
    assert [Chunk(Stdout, a), Chunk(Stderr, b), Chunk(Stdout, c)] == x + y + z;
    CapturedSingle(Chunk(Stdout, a), status);
    CapturedSingle(Chunk(Stderr, b), status);
    CapturedSingle(Chunk(Stdout, c), status);
    CapturedSplit(x, y, status);
    CapturedSplit(x + y, z, status);
  }

  /** A process that wrote only to stdout: the combined output is its stdout
      and its stderr is empty. */
  lemma {:induction false} StdoutOnlyTranscript(p: Process)
    requires forall k :: 0 <= k < |p.chunks| ==> p.chunks[k].stream == Stdout
    ensures Captured(p).output == Captured(p).stdout
    ensures Captured(p).stderr == ""
    decreases |p.chunks|
  {
    var cs := p.chunks;
    if |cs| > 0 {
      var init := cs[..|cs| - 1];
      assert init + [cs[|cs| - 1]] == cs;
      StdoutOnlyTranscript(Process(init, p.status));
      assert Only(cs, Stdout) == Only(init, Stdout) + [cs[|cs| - 1]];
      assert Only(cs, Stderr) == Only(init, Stderr);
      CapturedSplit(init, [cs[|cs| - 1]], p.status);
    }
  }
}
