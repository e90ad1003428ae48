/** The few ECMAScript string operations the client relies on, with the
    edge cases of the language: `indexOf` answering -1, `substring` clamping
    and swapping its arguments, `trim` and its whitespace set, and
    `split(/\r?\n/)`. Strings are sequences of Unicode scalar values, so
    every index here counts code points, where JavaScript counts UTF-16
    code units; the two agree on text without characters beyond U+FFFF. */
module JsString {
  import opened Optional

  /** JavaScript truthiness of a string-valued option: `null`, `undefined`
      and the empty string are falsy, every other string is truthy. */
  predicate Truthy(s: Option<string>) {
    s.Some? && |s.value| > 0
  }

  /** `needle` occurs in `s` starting at index `i`. */
  predicate OccursAt(s: string, needle: string, i: int) {
    0 <= i && i + |needle| <= |s| && s[i..i + |needle|] == needle
  }

  // ---------------------------------------------------------------------------
  // String.prototype.indexOf
  // ---------------------------------------------------------------------------

  /** The first index at or after `k` where `needle` occurs, or -1. */
  function IndexFrom(s: string, needle: string, k: nat): (r: int)
    ensures r == -1 || (k <= r && OccursAt(s, needle, r))
    ensures r >= 0 ==> forall i :: k <= i < r ==> !OccursAt(s, needle, i)
    ensures r == -1 ==> forall i :: k <= i ==> !OccursAt(s, needle, i)
    decreases |s| + 1 - k
  {
    if k + |needle| > |s| then -1
    else if s[k..k + |needle|] == needle then k
    else IndexFrom(s, needle, k + 1)
  }

  /** `s.indexOf(needle)`: the index of the first occurrence, -1 when there is none. */
  function IndexOf(s: string, needle: string): (r: int)
    ensures -1 <= r <= |s|
    ensures r >= 0 ==> OccursAt(s, needle, r)
    ensures r >= 0 ==> forall i :: 0 <= i < r ==> !OccursAt(s, needle, i)
    ensures r == -1 <==> forall i :: 0 <= i ==> !OccursAt(s, needle, i)
  {
    IndexFrom(s, needle, 0)
  }

  // ---------------------------------------------------------------------------
  // String.prototype.substring
  // ---------------------------------------------------------------------------

  /** An integer position clamped into `[0, len]`, as `substring` does first. */
  function Clamp(x: int, len: nat): (r: nat)
    ensures r <= len
    ensures 0 <= x <= len ==> r == x
  {
    if x < 0 then 0 else if x > len then len else x
  }

  /** `s.substring(a, b)`: both arguments are clamped into the string, then
      the smaller one starts the slice and the larger one ends it. */
  function Substring(s: string, a: int, b: int): (r: string)
    ensures 0 <= a <= b <= |s| ==> r == s[a..b]
    ensures 0 <= b <= a <= |s| ==> r == s[b..a]
    ensures a <= 0 && b <= 0 ==> r == ""
    ensures Clamp(a, |s|) <= Clamp(b, |s|) ==> |r| == Clamp(b, |s|) - Clamp(a, |s|) && OccursAt(s, r, Clamp(a, |s|))
    ensures Clamp(b, |s|) <= Clamp(a, |s|) ==> |r| == Clamp(a, |s|) - Clamp(b, |s|) && OccursAt(s, r, Clamp(b, |s|))
  {
    var start := Clamp(a, |s|);
    var end := Clamp(b, |s|);
    if start <= end then s[start..end] else s[end..start]
  }

  /** Swapping the arguments of `substring` never changes its answer. */
  lemma SubstringSymmetric(s: string, a: int, b: int)
    ensures Substring(s, a, b) == Substring(s, b, a)
  {
  }

  // ---------------------------------------------------------------------------
  // String.prototype.trim
  // ---------------------------------------------------------------------------

  /** ECMAScript WhiteSpace and LineTerminator code points, the set `trim` removes:
      TAB, VT, FF, SPACE, NBSP, ZWNBSP, the other space separators (category Zs),
      LF, CR, LINE SEPARATOR and PARAGRAPH SEPARATOR. */
  predicate IsSpace(c: char) {
    var n := c as int;
    n == 0x09 || n == 0x0A || n == 0x0B || n == 0x0C || n == 0x0D || n == 0x20
    || n == 0xA0 || n == 0x1680 || (0x2000 <= n <= 0x200A)
    || n == 0x2028 || n == 0x2029 || n == 0x202F || n == 0x205F
    || n == 0x3000 || n == 0xFEFF
  }

  /** The number of whitespace characters that start `s`. */
  function LeadingSpace(s: string): (n: nat)
    ensures n <= |s|
    ensures forall i :: 0 <= i < n ==> IsSpace(s[i])
    ensures n < |s| ==> !IsSpace(s[n])
  {
    if |s| == 0 || !IsSpace(s[0]) then 0
    else 1 + LeadingSpace(s[1..])
  }

  /** The number of whitespace characters that end `s`. */
  function TrailingSpace(s: string): (n: nat)
    ensures n <= |s|
    ensures forall i :: |s| - n <= i < |s| ==> IsSpace(s[i])
    ensures n < |s| ==> !IsSpace(s[|s| - n - 1])
  {
    if |s| == 0 || !IsSpace(s[|s| - 1]) then 0
    else 1 + TrailingSpace(s[..|s| - 1])
  }

  /** `s.trim()`: the slice of `s` left once whitespace is removed from both ends. */
  function Trim(s: string): (r: string)
    ensures OccursAt(s, r, LeadingSpace(s))
    ensures forall i :: 0 <= i < LeadingSpace(s) ==> IsSpace(s[i])
    ensures forall i :: LeadingSpace(s) + |r| <= i < |s| ==> IsSpace(s[i])
    ensures |r| > 0 ==> !IsSpace(r[0]) && !IsSpace(r[|r| - 1])
    ensures (forall i :: 0 <= i < |s| ==> IsSpace(s[i])) <==> r == ""
  {
    var rest := s[LeadingSpace(s)..];
    rest[..|rest| - TrailingSpace(rest)]
  }

  /** Trimming twice is trimming once. */
  lemma TrimIdempotent(s: string)
    ensures Trim(Trim(s)) == Trim(s)
  {
    var t := Trim(s);
    if |t| > 0 {
      assert LeadingSpace(t) == 0;
      assert t[0..] == t;
      assert TrailingSpace(t) == 0;
    }
  }

  // ---------------------------------------------------------------------------
  // String.prototype.split(/\r?\n/)
  // ---------------------------------------------------------------------------

  /** How many times `c` occurs in `s`. */
  function Count(s: string, c: char): nat {
    if |s| == 0 then 0 else (if s[0] == c then 1 else 0) + Count(s[1..], c)
  }

  /** The split of `s` when the line read so far is `line`: a lone LF or a
      CR LF pair ends a line; every other character (a CR not followed by LF
      included) belongs to the current line. */
  function SplitFrom(s: string, line: string): (lines: seq<string>)
    requires '\n' !in line
    ensures |lines| == 1 + Count(s, '\n')
    ensures forall k :: 0 <= k < |lines| ==> '\n' !in lines[k]
    ensures |lines[0]| >= |line| && lines[0][..|line|] == line
    decreases |s|
  {
    if |s| == 0 then [line]
    else if s[0] == '\n' then [line] + SplitFrom(s[1..], "")
    else if s[0] == '\r' && |s| >= 2 && s[1] == '\n' then
      assert Count(s, '\n') == 1 + Count(s[2..], '\n') by {
        assert s[1..][1..] == s[2..];
      }
      [line] + SplitFrom(s[2..], "")
    else SplitFrom(s[1..], line + [s[0]])
  }

  /** `s.split(/\r?\n/)`. The regular expression never matches the empty
      string, so there is always at least one line, even for `""`. */
  function SplitLines(s: string): (lines: seq<string>)
    ensures |lines| == 1 + Count(s, '\n')
    ensures forall k :: 0 <= k < |lines| ==> '\n' !in lines[k]
  {
    SplitFrom(s, "")
  }

  /** Lines glued back together with LF between them (`lines.join('\n')`). */
  function JoinLines(lines: seq<string>): string {
    if |lines| == 0 then ""
    else if |lines| == 1 then lines[0]
    else lines[0] + "\n" + JoinLines(lines[1..])
  }

  /** `s` with every CR that directly precedes an LF removed. */
  function DropCrBeforeLf(s: string): string {
    if |s| == 0 then ""
    else if s[0] == '\r' && |s| >= 2 && s[1] == '\n' then "\n" + DropCrBeforeLf(s[2..])
    else [s[0]] + DropCrBeforeLf(s[1..])
  }

  lemma {:induction false} SplitFromJoin(s: string, line: string)
    requires '\n' !in line
    ensures JoinLines(SplitFrom(s, line)) == line + DropCrBeforeLf(s)
    decreases |s|
  {
    if |s| == 0 {
    } else if s[0] == '\n' {
      SplitFromJoin(s[1..], "");
      var rest := SplitFrom(s[1..], "");
      assert ([line] + rest)[1..] == rest;
    } else if s[0] == '\r' && |s| >= 2 && s[1] == '\n' {
      SplitFromJoin(s[2..], "");
      var rest := SplitFrom(s[2..], "");
      assert ([line] + rest)[1..] == rest;
    } else {
      SplitFromJoin(s[1..], line + [s[0]]);
    }
  }

  /** Splitting into lines and joining them with LF gives the text back, up
      to the CR of each CR LF line ending. */
  lemma SplitLinesJoin(s: string)
    ensures JoinLines(SplitLines(s)) == DropCrBeforeLf(s)
  {
    SplitFromJoin(s, "");
  }

  lemma {:induction false} DropCrWithoutCr(s: string)
    requires '\r' !in s
    ensures DropCrBeforeLf(s) == s
  {
    if |s| > 0 {
      DropCrWithoutCr(s[1..]);
      assert [s[0]] + s[1..] == s;
    }
  }

  /** Text with LF-only line endings survives the split exactly. */
  lemma SplitLinesRoundTrip(s: string)
    requires '\r' !in s
    ensures JoinLines(SplitLines(s)) == s
  {
    SplitLinesJoin(s);
    DropCrWithoutCr(s);
  }
}
