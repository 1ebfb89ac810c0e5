/**
How the deployment scripts see `native.env`: one part rewrites it line by line (breaking at line feeds
and carriage returns), another reads values out of it (breaking at every character Python's
`str.splitlines` breaks at). Text is a sequence of characters.
*/
module EnvText {
  import opened Wrappers

  // ---- Runs between break characters ------------------------------------------------------------

  predicate LineBreak(c: char) {
    c == '\n' || c == '\r'
  }

  /** The characters `str.splitlines` breaks at. */
  predicate ReaderBreak(c: char) {
    LineBreak(c) || c as int in {0x0b, 0x0c, 0x1c, 0x1d, 0x1e, 0x85, 0x2028, 0x2029}
  }

  /** Characters `str.strip` removes. */
  predicate Space(c: char) {
    || ReaderBreak(c)
    || c as int in {0x09, 0x1f, 0x20, 0xa0, 0x1680, 0x202f, 0x205f, 0x3000}
    || 0x2000 <= c as int <= 0x200a
  }

  function RunLength(s: string, brk: char -> bool): (n: nat)
    ensures n <= |s|
    ensures forall i :: 0 <= i < n ==> !brk(s[i])
    ensures n < |s| ==> brk(s[n])
  {
    if s == "" || brk(s[0]) then 0 else 1 + RunLength(s[1..], brk)
  }

  /** The non-empty stretches between breaks, in order. Blank lines are left out: they set nothing. */
  function Runs(s: string, brk: char -> bool): seq<string>
    decreases |s|
  {
    if s == "" then []
    else if brk(s[0]) then Runs(s[1..], brk)
    else
      var n := RunLength(s, brk);
      [s[..n]] + Runs(s[n..], brk)
  }

  ghost predicate Plain(s: string, brk: char -> bool) {
    forall i :: 0 <= i < |s| ==> !brk(s[i])
  }

  lemma {:induction false} RunLengthIs(s: string, n: nat, brk: char -> bool)
    requires n <= |s| && Plain(s[..n], brk) && (n < |s| ==> brk(s[n]))
    ensures RunLength(s, brk) == n
  {
    forall i | 0 <= i < n ensures !brk(s[i]) {
      assert s[..n][i] == s[i];
    }
  }

  lemma PlainRun(s: string, brk: char -> bool)
    requires Plain(s, brk)
    ensures Runs(s, brk) == if s == "" then [] else [s]
  {
    if s != "" {
      RunLengthIs(s, |s|, brk);
      assert s[..|s|] == s && s[|s|..] == "";
    }
  }

  /** Text after a break is read on its own. */
  lemma {:induction false} RunsSplit(a: string, b: string, brk: char -> bool)
    requires a == "" || b == "" || brk(a[|a| - 1]) || brk(b[0])
    ensures Runs(a + b, brk) == Runs(a, brk) + Runs(b, brk)
    decreases |a|
  {
    if a == "" {
      assert a + b == b;
    } else if b == "" {
      assert a + b == a;
    } else if brk(a[0]) {
      assert (a + b)[1..] == a[1..] + b;
      RunsSplit(a[1..], b, brk);
    } else {
      var n := RunLength(a, brk);
      FirstRun(a, b, n, brk);
      RunsSplit(a[n..], b, brk);
    }
  }

  lemma SameRun(a: string, b: string, n: nat, brk: char -> bool)
    requires n == RunLength(a, brk)
    requires n < |a| || b == "" || brk(b[0])
    ensures RunLength(a + b, brk) == n
  {
    assert (a + b)[..n] == a[..n];
    if n < |a| {
      assert (a + b)[n] == a[n];
    } else if b != "" {
      assert (a + b)[n] == b[0];
    }
    RunLengthIs(a + b, n, brk);
  }

  lemma RunsUnfold(s: string, n: nat, brk: char -> bool)
    requires s != "" && !brk(s[0]) && n == RunLength(s, brk)
    ensures n > 0 && Runs(s, brk) == [s[..n]] + Runs(s[n..], brk)
  {
  }

  lemma FirstRun(a: string, b: string, n: nat, brk: char -> bool)
    requires a != "" && !brk(a[0]) && n == RunLength(a, brk)
    requires b == "" || brk(a[|a| - 1]) || brk(b[0])
    ensures n > 0 && Runs(a + b, brk) == [a[..n]] + Runs(a[n..] + b, brk)
  {
    var s := a + b;
    assert s[0] == a[0];
    assert n == |a| ==> !brk(a[|a| - 1]);
    SameRun(a, b, n, brk);
    RunsUnfold(s, n, brk);
    SliceOfConcat(a, b, n);
  }

  lemma SliceOfConcat(a: string, b: string, n: nat)
    requires n <= |a|
    ensures (a + b)[..n] == a[..n] && (a + b)[n..] == a[n..] + b
  {
  }

  /** Every reader line lies within one rewriter line. */
  lemma {:induction false} ReadByLine(s: string)
    ensures Runs(s, ReaderBreak) == ReadAll(Runs(s, LineBreak))
    decreases |s|
  {
    if s == "" {
    } else if LineBreak(s[0]) {
      ReadByLine(s[1..]);
    } else {
      var n := RunLength(s, LineBreak);
      assert s == s[..n] + s[n..];
      RunsSplit(s[..n], s[n..], ReaderBreak);
      ReadByLine(s[n..]);
    }
  }

  function ReadAll(bodies: seq<string>): seq<string> {
    if bodies == [] then [] else Runs(bodies[0], ReaderBreak) + ReadAll(bodies[1..])
  }

  // ---- Lines with their endings -----------------------------------------------------------------

  datatype Line = Line(body: string, ending: string)

  function Join(lines: seq<Line>): string {
    if lines == [] then "" else lines[0].body + lines[0].ending + Join(lines[1..])
  }

  ghost predicate ProperLine(l: Line) {
    Plain(l.body, LineBreak) && forall i :: 0 <= i < |l.ending| ==> LineBreak(l.ending[i])
  }

  /** Where the first line ends. */
  function LineEnd(s: string): (m: nat)
    requires s != ""
    ensures RunLength(s, LineBreak) <= m <= |s| && 0 < m
    ensures RunLength(s, LineBreak) < |s| ==> RunLength(s, LineBreak) < m
    ensures forall i :: RunLength(s, LineBreak) <= i < m ==> LineBreak(s[i])
  {
    var n := RunLength(s, LineBreak);
    if n == |s| then n
    else if s[n] == '\r' && n + 1 < |s| && s[n + 1] == '\n' then n + 2
    else n + 1
  }

  function FirstLine(s: string): (l: Line)
    requires s != ""
    ensures ProperLine(l) && l.body + l.ending == s[..LineEnd(s)]
    ensures l.ending == "" ==> LineEnd(s) == |s|
  {
    var n := RunLength(s, LineBreak);
    Line(s[..n], s[n..LineEnd(s)])
  }

  /** `bytes.splitlines(keepends=True)`: a line ends with CR LF, LF or CR. */
  function SplitLines(s: string): seq<Line>
    decreases |s|
  {
    if s == "" then [] else [FirstLine(s)] + SplitLines(s[LineEnd(s)..])
  }

  /** Only the last line may lack an ending. */
  ghost predicate Proper(lines: seq<Line>) {
    && (forall i :: 0 <= i < |lines| ==> ProperLine(lines[i]))
    && (forall i :: 0 <= i < |lines| - 1 ==> lines[i].ending != "")
  }

  lemma {:induction false} SplitLinesJoin(s: string)
    ensures Join(SplitLines(s)) == s
    ensures s != "" ==> SplitLines(s) != []
    decreases |s|
  {
    if s != "" {
      SplitLinesJoin(s[LineEnd(s)..]);
      assert s == s[..LineEnd(s)] + s[LineEnd(s)..];
    }
  }

  lemma {:induction false} SplitLinesProper(s: string)
    ensures Proper(SplitLines(s))
    decreases |s|
  {
    if s != "" {
      var rest := SplitLines(s[LineEnd(s)..]);
      SplitLinesProper(s[LineEnd(s)..]);
      assert SplitLines(s) == [FirstLine(s)] + rest;
    }
  }

  /** The bodies that are not blank. */
  function Bodies(lines: seq<Line>): seq<string> {
    if lines == [] then []
    else (if lines[0].body == "" then [] else [lines[0].body]) + Bodies(lines[1..])
  }

  lemma {:induction false} BreaksAreNoRuns(s: string)
    requires forall i :: 0 <= i < |s| ==> LineBreak(s[i])
    ensures Runs(s, LineBreak) == []
  {
    if s != "" {
      BreaksAreNoRuns(s[1..]);
    }
  }

  /** Joining lines and looking at the text again finds the same bodies, even where a lone carriage
      return and a line feed have become one line break. */
  lemma {:induction false} RunsOfJoin(lines: seq<Line>)
    requires Proper(lines)
    ensures Runs(Join(lines), LineBreak) == Bodies(lines)
  {
    if lines != [] {
      var l, rest := lines[0], Join(lines[1..]);
      RunsOfJoin(lines[1..]);
      RunsOfLine(l);
      var first := l.body + l.ending;
      if l.ending == "" {
        assert lines[1..] == [];
        assert first + rest == first;
      } else {
        assert first[|first| - 1] == l.ending[|l.ending| - 1];
        RunsSplit(first, rest, LineBreak);
      }
    }
  }

  lemma RunsOfLine(l: Line)
    requires ProperLine(l)
    ensures Runs(l.body + l.ending, LineBreak) == if l.body == "" then [] else [l.body]
  {
    BreaksAreNoRuns(l.ending);
    PlainRun(l.body, LineBreak);
    RunsSplit(l.body, l.ending, LineBreak);
  }

  // ---- Reading a value --------------------------------------------------------------------------

  function StripLeft(s: string): string {
    if s != "" && Space(s[0]) then StripLeft(s[1..]) else s
  }

  function StripRight(s: string): string {
    if s != "" && Space(s[|s| - 1]) then StripRight(s[..|s| - 1]) else s
  }

  /** A value is written within matching quotes or bare. */
  function Unquoted(v: string): string {
    if |v| >= 2 && v[0] == v[|v| - 1] && (v[0] == '"' || v[0] == '\'') then v[1..|v| - 1] else v
  }

  predicate Sets(line: string, key: string) {
    key + "=" <= line
  }

  function ValueOf(line: string, key: string): string
    requires Sets(line, key)
  {
    Unquoted(StripRight(StripLeft(line[|key| + 1..])))
  }

  function ValuesIn(lines: seq<string>, key: string): seq<string> {
    if lines == [] then []
    else (if Sets(lines[0], key) then [ValueOf(lines[0], key)] else []) + ValuesIn(lines[1..], key)
  }

  /** Every value the reader finds for the key. */
  function Values(content: string, key: string): seq<string> {
    ValuesIn(Runs(content, ReaderBreak), key)
  }

  /** `env_value`: a key set twice is an error. */
  function EnvValue(content: string, key: string): Result<Option<string>, ()> {
    var values := Values(content, key);
    if |values| > 1 then Err(()) else if values == [] then Ok(None) else Ok(Some(values[0]))
  }

  lemma {:induction false} ValuesInConcat(a: seq<string>, b: seq<string>, key: string)
    ensures ValuesIn(a + b, key) == ValuesIn(a, key) + ValuesIn(b, key)
  {
    if a == [] {
      assert a + b == b;
    } else {
      assert (a + b)[1..] == a[1..] + b;
      ValuesInConcat(a[1..], b, key);
    }
  }

  /** The values found, line by line. */
  function BodyValues(bodies: seq<string>, key: string): seq<string> {
    if bodies == [] then [] else Values(bodies[0], key) + BodyValues(bodies[1..], key)
  }

  lemma {:induction false} ValuesOfReadAll(bodies: seq<string>, key: string)
    ensures ValuesIn(ReadAll(bodies), key) == BodyValues(bodies, key)
  {
    if bodies != [] {
      ValuesInConcat(Runs(bodies[0], ReaderBreak), ReadAll(bodies[1..]), key);
      ValuesOfReadAll(bodies[1..], key);
    }
  }

  lemma ValuesByLine(content: string, key: string)
    ensures Values(content, key) == BodyValues(Runs(content, LineBreak), key)
  {
    ReadByLine(content);
    ValuesOfReadAll(Runs(content, LineBreak), key);
  }
}
