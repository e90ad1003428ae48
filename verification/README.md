# docker-wrap, modelled in Dafny

A model of the `Docker` class in `index.js` of docker-wrap, a small
JavaScript façade that runs the `docker` binary as a subprocess. The model
covers the four pieces of that class that are pure logic:

- the **argument vectors** handed to `docker` by `ps`, `build` and `hello`;
- the **output capture** of `_cmd`: the `'data'` chunks of stdout and
  stderr, in arrival order, folded into a combined text, one text per
  stream, and an `ok` flag taken from the close status;
- the **result shaping** of `ps`: how the command result and the table
  parser's result combine;
- the **version slicing** of `Docker.test()` on the `docker --version` banner.

The `docker` binary is a parameter `docker: Invocation -> Process`: for
each argument vector and working directory it gives the chunks the process
produced, in the order they arrived, and the status `'close'` reported.
The same goes for `tempfile()` (a path parameter), `fs.readFileSync`
(a `readFile` parameter read after `docker` exits), `cliTable2Json` (a
`parseTable` parameter that either yields rows or fails) and `spawnSync`
(its status and stdout as values).

Files, one module each: `optional.dfy` (`Option`), `js_string.dfy` (the
ECMAScript string operations involved: `indexOf`, `substring`, `trim`,
`split(/\r?\n/)`, truthiness), `executor.dfy` (`_cmd`), `commands.dfy`
(argument vectors), `client.dfy` (`test`, `hello`, `ps`, `build`).

Some behaviours of the code worth knowing:

- `build` destructures an `options` list but never uses it; no extra flags
  reach `docker` (`Commands.BuildIgnoresOptions`).
- `ps` passes no machine-readable format flag, only `--no-trunc`.
- When the table cannot be parsed, `ps` still answers `ok: true` with no
  containers. The local `ok` it sets to `false` is never read. So a parse
  failure looks exactly like an empty listing (`Client.PsParseFailureLooksEmpty`).
- The id `build` returns is the id file's raw contents. No `sha256:`
  prefix is stripped, and the temporary file is not deleted.
- The version slice ends one character before the first comma. For
  "Docker version 20.10.7, build f0df350" it yields "20.10."
  (`Client.VersionOfBannerExample`).

## Model

| member | source | states |
|---|---|---|
| Executor.Cmd | index.js:28-54 | `docker` is spawned once, with the given arguments and `cwd \|\| undefined`. The result is `ok` exactly when the close status is 0. `output` is every chunk in arrival order. `stdout` and `stderr` hold only their own stream's chunks, in order. |
| Executor.SpawnCwd | index.js:30-32 | The spawn directory is the caller's `cwd` when it is truthy. Otherwise it is left unset, so an empty string counts as no directory. |
| Executor.Only | index.js:40-41 | Picking one stream's chunks keeps only chunks of that stream, all taken from the transcript. |
| Executor.CapturedLengths | index.js:40-45 | The combined output is exactly as long as stdout and stderr together. |
| Executor.CapturedSplit | index.js:40-45 | Capturing a transcript in two parts and concatenating gives the whole capture, for all three texts. No chunk is lost, duplicated or reordered. |
| Executor.CapturedSingle | index.js:40-41 | One chunk lands in the combined output and in its own stream only. |
| Executor.InterleavedTranscript | index.js:40-45 | Stdout `a`, then stderr `b`, then stdout `c` give output `a+b+c`, stdout `a+c` and stderr `b`. |
| Executor.StdoutOnlyTranscript | index.js:40-45 | A process that wrote only to stdout has output equal to stdout and an empty stderr. |
| Commands.PsArgs | index.js:61 | The `ps` vector is `ps --no-trunc`, then the caller's options in their original order. |
| Commands.PsArgsInjective | index.js:61 | Distinct caller options give distinct `ps` vectors. |
| Commands.IdFile | index.js:91-96 | An id file is allocated exactly when `noId` is false, and it is the temporary path. |
| Commands.BuildArgs | index.js:81-98 | The vector starts with `build` and ends with `.`. Its length is 4, plus 2 for a truthy tag, plus 2 unless `noId`. `-t tag` comes right after `build` exactly when the tag is truthy. `-f` and the Dockerfile (default `Dockerfile`) follow. `--iidfile path` comes just before `.` exactly when `noId` is false. |
| Commands.BuildArgsRoundTrip | index.js:81-98 | Every `build` vector reads back, by position, as the tag, Dockerfile and id file it was built from, even when those values look like flags. |
| Commands.BuildArgsDetermineRequest | index.js:81-98 | Two `build` calls with the same vector asked for the same tag, Dockerfile and id file. |
| Commands.BuildArgsTaggedExample | index.js:81-98 | Tag `demo:v1` with id file `/tmp/x` gives `build -t demo:v1 -f Dockerfile --iidfile /tmp/x .`. |
| Commands.BuildIgnoresOptions | index.js:81 | The `options` property of `build` has no effect on the vector. |
| Client.Build | index.js:81-106 | `docker` runs `BuildArgs` in `cwd` (default `.`). The result carries `id` exactly when an id file was allocated and its path is non-empty (`if (idFile)`). `id` is the file's raw contents, read whether or not the command succeeded; when `docker` never wrote the file the read throws, which is not modelled. |
| Client.Hello | index.js:56-58 | `hello` runs `docker run hello-world` in the caller's directory and returns the captured result. |
| Client.ShapePs | index.js:62-78 | A failed command's result is returned unchanged. On success the answer is `ok: true` with the three texts copied. `containers` holds the parsed rows, or stays empty when parsing throws. |
| Client.PsParseFailureLooksEmpty | index.js:64-77 | A table that fails to parse and a table with no rows give the same `ps` result. |
| Client.Ps | index.js:60-79 | `ps` runs `ps --no-trunc ...options` in the caller's directory. A non-zero or missing status returns the captured result unchanged. Otherwise it returns `ok: true`, the captured texts, and the rows parsed from the stdout lines. |
| Client.Detect | index.js:7-22 | `test` gives no result unless `which docker` exits with 0. When it does, the path is the trimmed `which` output and the version is the sliced banner. |
| Client.VersionOf | index.js:11-14 | The version is a slice of the banner. It starts at one of the two clamped indices. |
| Client.IndexOfChar | index.js:13 | The index of a one-character needle is the first position holding that character. |
| Client.VersionDropsLastChar | index.js:12-14 | For a banner `pre version V, rest`, the result is V without its last character. |
| Client.VersionOfBannerExample | index.js:11-14 | The Docker 20.10.7 banner yields `20.10.`. |
| Client.VersionSlice | index.js:12-14 | For every banner, the result is the text between the clamped start (just past the first "version ", or 7) and the clamped end (one before the first comma, or -2), taken from the smaller to the larger. |
| Client.VersionCommaFirstExample | index.js:12-14 | A comma before any "version ": `"a,b"` gives the end index 0 and the start index 7, clamped to 3, so the whole banner comes back. |
| Client.VersionWithoutComma | index.js:12-14 | With no comma, the end index -2 clamps to 0. The arguments swap, so the result is the banner before the start index. |
| JsString.IndexOf | index.js:12-13 | `indexOf` gives the first occurrence, or -1 exactly when there is none. |
| JsString.Substring | index.js:14 | `substring` clamps both arguments into the string and slices from the smaller to the larger. |
| JsString.SubstringSymmetric | index.js:14 | Swapping the arguments of `substring` never changes its result. |
| JsString.Trim | index.js:16 | `trim` gives the slice of the string without its leading and trailing whitespace. The slice neither starts nor ends with whitespace. It is empty exactly when the string is all whitespace. |
| JsString.TrimIdempotent | index.js:16 | Trimming twice gives the same result as trimming once. |
| JsString.SplitLines | index.js:67 | `split(/\r?\n/)` gives one line more than the string has LFs, and no line contains an LF. |
| JsString.SplitLinesJoin | index.js:67 | Joining the lines with LF gives the string back, with only the CR of each CR LF removed. |
| JsString.SplitLinesRoundTrip | index.js:67 | Text without CR survives the split-and-join unchanged. |

## Left out

- Spawning the process, the `'data'`/`'close'` event wiring and its timing: the model starts from the finished transcript of chunks and the close status.
- The `echo` option and its `console.log` of each chunk: output only, with no effect on results.
- Decoding of chunk buffers: each chunk is taken as already-decoded text. A multi-byte UTF-8 character split across two chunks is not modelled.
- `cliTable2Json`: an external library. It is the `parseTable` parameter, and `None` stands for it throwing.
- `tempfile()` and `fs.readFileSync`: filesystem calls. They are the `tmpPath` and `readFile` parameters, and a failing read is not modelled: nothing in `build` creates the id file, so when `docker` does not write it (a build that fails early, say) `readFileSync` throws and `build` rejects instead of resolving with `ok: false`.
- `spawnSync('which')` and `spawnSync('docker', ['--version'])`: subprocess calls. Their status and stdout are values passed to `Client.Detect`.
- An explicit `null` for `cwd` or `dockerfile` in `build`: `None` means the property was absent, so the default applies. Calling `build()` with no argument at all (a TypeError) is not modelled either.
- Client.VersionOf: its own contract only places the result in the banner. The exact slice for every banner is stated by `Client.VersionSlice`; `Client.VersionDropsLastChar` covers the shape `pre version V, rest` with non-empty V and no earlier comma or "version ", and `Client.VersionWithoutComma` banners with no comma.
- Spawn failure: when `docker` cannot be started (not on PATH, say), Node emits `'error'` on the child, `_cmd` registers no listener for it, so the exception is uncaught and the promise never resolves. That is not a result in the source, and the model's `Process` does not represent it.
- UTF-16 indexing: JavaScript's `indexOf` and `substring` count UTF-16 code units, the model counts Unicode code points. The indices agree on text within the Basic Multilingual Plane; a slice that splits a surrogate pair (a lone surrogate, as `substring` can produce) cannot be represented.
- Operations other files call but `index.js` does not define (`images`, `run`, `inspect`, `info`, `version`, `search`, `login`, `logout`, `kill`): there is no code for them to model.
