/**
What reading and rewriting `native.env` comes to, stated on the characters of the text: which lines set a
key, what a reader takes a line to say, and which checks the finished file meets.
*/
module EnvMeaning {
  import opened Wrappers
  import opened EnvText
  import opened NativeEnv

  // ---- Characters and keys ----------------------------------------------------------------------

  /** Where the rewriter breaks lines, where the reader does, and what the reader strips. */
  lemma CharactersMean(c: char)
    ensures LineBreak(c) <==> c == '\U{0a}' || c == '\U{0d}'
    ensures ReaderBreak(c) <==>
      || '\U{0a}' <= c <= '\U{0d}' || '\U{1c}' <= c <= '\U{1e}'
      || c == '\U{85}' || c == '\U{2028}' || c == '\U{2029}'
    ensures Space(c) <==>
      || '\U{09}' <= c <= '\U{0d}' || '\U{1c}' <= c <= '\U{20}' || c == '\U{85}' || c == '\U{a0}'
      || c == '\U{1680}' || '\U{2000}' <= c <= '\U{200a}'
      || c == '\U{2028}' || c == '\U{2029}' || c == '\U{202f}' || c == '\U{205f}' || c == '\U{3000}'
  {
  }

  /** A capital letter, then capital letters, digits and underscores. */
  predicate KeyName(key: string) {
    && key != "" && 'A' <= key[0] <= 'Z'
    && forall i :: 0 <= i < |key| ==> 'A' <= key[i] <= 'Z' || '0' <= key[i] <= '9' || key[i] == '_'
  }

  /** A line is for a key if and only if it starts with the key and an equals sign. */
  lemma KeyOfMeans(body: string, key: string)
    ensures KeyOf(body) == Some(key) <==> KeyName(key) && key + "=" <= body
  {
    if KeyName(key) && key + "=" <= body {
      var start := key + "=";
      assert body[..|start|] == start;
      forall i | 0 <= i < |key| ensures body[i] == key[i] {
        assert start[i] == key[i];
      }
      assert body[|key|] == start[|key|] == '=';
      assert body[..|key|] == key;
      RunLengthIs(body, |key|, NotNameChar);
    }
    if KeyOf(body) == Some(key) {
      var n := RunLength(body, NotNameChar);
      assert key == body[..n] && |key| == n;
      forall i | 0 <= i < n ensures !NotNameChar(key[i]) {
        assert key[i] == body[i];
      }
      assert body[..n + 1] == key + "=";
    }
  }

  /** No break within, and CR LF, LF, CR or nothing at the end. */
  predicate WellEnded(l: Line) {
    && (forall k :: 0 <= k < |l.body| ==> l.body[k] != '\n' && l.body[k] != '\r')
    && (l.ending == "" || l.ending == "\n" || l.ending == "\r" || l.ending == "\r\n")
  }

  predicate StartsWithFeed(s: string) {
    s != "" && s[0] == '\n'
  }

  lemma FirstLineMeans(s: string)
    requires s != ""
    ensures WellEnded(FirstLine(s))
    ensures FirstLine(s).ending == "" ==> s[LineEnd(s)..] == ""
    ensures FirstLine(s).ending == "\r" ==> !StartsWithFeed(s[LineEnd(s)..])
  {
  }

  lemma FirstLineStarts(s: string)
    requires s != "" && !StartsWithFeed(s)
    ensures FirstLine(s).body == "" ==> !StartsWithFeed(FirstLine(s).ending)
  {
  }

  lemma LinesUnfold(s: string)
    requires s != ""
    ensures SplitLines(s) == [FirstLine(s)] + SplitLines(s[LineEnd(s)..])
    ensures SplitLines(s[LineEnd(s)..]) == [] <==> s[LineEnd(s)..] == ""
  {
    SplitLinesJoin(s[LineEnd(s)..]);
  }

  /** The lines of a text: no break within, each but the last ended by CR LF, LF or CR, and CR and LF never
      taken apart. With `SplitLinesJoin` that leaves one way to split it. */
  lemma {:induction false} LinesMean(s: string, i: nat)
    requires i < |SplitLines(s)|
    ensures WellEnded(SplitLines(s)[i])
    ensures i < |SplitLines(s)| - 1 ==> SplitLines(s)[i].ending != ""
    ensures i < |SplitLines(s)| - 1 && SplitLines(s)[i].ending == "\r" && SplitLines(s)[i + 1].body == "" ==>
      !StartsWithFeed(SplitLines(s)[i + 1].ending)
    decreases i
  {
    hide FirstLine, LineEnd, WellEnded, StartsWithFeed;
    var rest := s[LineEnd(s)..];
    LinesUnfold(s);
    FirstLineMeans(s);
    if i > 0 {
      LinesMean(rest, i - 1);
    } else if rest != "" {
      LinesUnfold(rest);
      if FirstLine(s).ending == "\r" {
        FirstLineStarts(rest);
      }
    }
  }

  // ---- What the reader takes a line to say ------------------------------------------------------

  /** Quotes count only in pairs around the whole value. */
  lemma UnquotedMeans(v: string, inner: string)
    ensures v == "\"" + inner + "\"" || v == "'" + inner + "'" ==> Unquoted(v) == inner
    ensures v == "" || (v[0] != '"' && v[0] != '\'') || v[|v| - 1] != v[0] || |v| == 1 ==> Unquoted(v) == v
  {
    if v == "\"" + inner + "\"" || v == "'" + inner + "'" {
      assert |v| == |inner| + 2;
      assert v[1..|v| - 1] == inner;
    }
  }

  /** What strips to `core` is that with white space on either side. */
  predicate Pads(left: string, core: string, right: string) {
    && (forall i :: 0 <= i < |left| ==> Space(left[i])) && (forall i :: 0 <= i < |right| ==> Space(right[i]))
    && (core != "" ==> !Space(core[0]) && !Space(core[|core| - 1]))
  }

  lemma {:induction false} StripLeftMeans(left: string, rest: string)
    requires (forall i :: 0 <= i < |left| ==> Space(left[i])) && (rest != "" ==> !Space(rest[0]))
    ensures StripLeft(left + rest) == rest
  {
    if left == "" {
      assert left + rest == rest;
    } else {
      assert (left + rest)[1..] == left[1..] + rest;
      StripLeftMeans(left[1..], rest);
    }
  }

  lemma {:induction false} StripRightMeans(rest: string, right: string)
    requires (forall i :: 0 <= i < |right| ==> Space(right[i])) && (rest != "" ==> !Space(rest[|rest| - 1]))
    ensures StripRight(rest + right) == rest
  {
    if right == "" {
      assert rest + right == rest;
    } else {
      var most := right[..|right| - 1];
      assert (rest + right)[..|rest + right| - 1] == rest + most;
      StripRightMeans(rest, most);
    }
  }

  lemma StripMeans(left: string, core: string, right: string)
    requires Pads(left, core, right)
    ensures StripRight(StripLeft(left + core + right)) == core
  {
    if core == "" {
      StripLeftMeans(left, "");
      SpaceStrips(left, right);
      assert left + core + right == left + right;
    } else {
      assert left + core + right == left + (core + right);
      StripLeftMeans(left, core + right);
      StripRightMeans(core, right);
    }
  }

  lemma SpaceStrips(left: string, right: string)
    requires (forall i :: 0 <= i < |left| ==> Space(left[i])) && (forall i :: 0 <= i < |right| ==> Space(right[i]))
    ensures StripRight(StripLeft(left + right)) == ""
  {
    StripLeftMeans(left + right, "");
    assert left + right + "" == left + right;
  }

  lemma AfterEquals(key: string, rest: string)
    ensures Sets(key + "=" + rest, key) && (key + "=" + rest)[|key| + 1..] == rest
  {
  }

  /** A line sets a key to what follows the equals sign, without white space around it and then without
      quotes around that. */
  lemma ValueMeans(key: string, left: string, core: string, right: string)
    requires Pads(left, core, right)
    ensures var line := key + "=" + (left + core + right);
      Sets(line, key) && ValueOf(line, key) == Unquoted(core)
  {
    AfterEquals(key, left + core + right);
    StripMeans(left, core, right);
  }

  lemma {:induction false} ValuesFound(lines: seq<string>, key: string)
    ensures ValuesIn(lines, key) == [] <==> forall i :: 0 <= i < |lines| ==> !(key + "=" <= lines[i])
    ensures |ValuesIn(lines, key)| > 1 <==>
      exists i, j :: 0 <= i < j < |lines| && key + "=" <= lines[i] && key + "=" <= lines[j]
    ensures forall i :: 0 <= i < |lines| && key + "=" <= lines[i] ==> ValueOf(lines[i], key) in ValuesIn(lines, key)
  {
    if lines != [] {
      var rest := lines[1..];
      ValuesFound(rest, key);
      assert forall i :: 1 <= i < |lines| ==> lines[i] == rest[i - 1];
      if ValuesIn(rest, key) != [] {
        var j :| 0 <= j < |rest| && key + "=" <= rest[j];
        assert key + "=" <= lines[j + 1];
      }
      if |ValuesIn(rest, key)| > 1 {
        var i, j :| 0 <= i < j < |rest| && key + "=" <= rest[i] && key + "=" <= rest[j];
        assert key + "=" <= lines[i + 1] && key + "=" <= lines[j + 1];
      }
      if i, j :| 0 <= i < j < |lines| && key + "=" <= lines[i] && key + "=" <= lines[j] {
        assert key + "=" <= rest[j - 1];
        if i > 0 { assert key + "=" <= rest[i - 1]; }
      }
      forall i | 0 <= i < |lines| && key + "=" <= lines[i] ensures ValueOf(lines[i], key) in ValuesIn(lines, key) {
        if i > 0 { assert ValueOf(rest[i - 1], key) in ValuesIn(rest, key); }
      }
    }
  }

  /** Reading a key fails when two of the reader's lines set it, finds nothing when none does, and otherwise
      what its one line says. */
  lemma EnvValueMeans(content: string, key: string)
    ensures var lines := Runs(content, ReaderBreak);
      && (EnvValue(content, key) == Err(()) <==>
            exists i, j :: 0 <= i < j < |lines| && key + "=" <= lines[i] && key + "=" <= lines[j])
      && (EnvValue(content, key) == Ok(None) <==> forall i :: 0 <= i < |lines| ==> !(key + "=" <= lines[i]))
      && (forall i :: 0 <= i < |lines| && key + "=" <= lines[i] ==>
            EnvValue(content, key) == Err(()) || EnvValue(content, key) == Ok(Some(ValueOf(lines[i], key))))
  {
    ValuesFound(Runs(content, ReaderBreak), key);
  }

  // ---- The finished file ------------------------------------------------------------------------

  /** The file is taken when nothing retired is read from it, the app id is absent, empty or Waveform's, and
      each required key reads as something. */
  lemma AcceptedMeans(plan: Plan, content: string)
    ensures Accepted(plan, content) <==>
      && (forall k :: k in plan.retired ==> EnvValue(content, k) == Ok(None))
      && (EnvValue(content, "WAVEFORM_APP_ID") == Ok(None)
          || EnvValue(content, "WAVEFORM_APP_ID") == Ok(Some(""))
          || EnvValue(content, "WAVEFORM_APP_ID") == Ok(Some("waveform")))
      && (forall k :: k in plan.required ==>
            EnvValue(content, k) != Err(()) && EnvValue(content, k) != Ok(None) && EnvValue(content, k) != Ok(Some("")))
  {
  }

  /** Only the former limit is raised, and to the new one. */
  lemma UpgradeMeans(content: string)
    ensures var limit := EnvValue(content, "WAVEFORM_JSON_BODY_LIMIT_BYTES");
      && (limit == Err(()) <==> UpgradeEnv(content) == Err(()))
      && (limit.Ok? && limit != Ok(Some("65536")) ==> UpgradeEnv(content) == Ok(content))
      && (limit == Ok(Some("65536")) ==> UpgradeEnv(content) == Ok(RaisedText(content, true)))
  {
  }

  /** A stretch that sets the limit, at the start of the text or after a line feed, becomes the setting of
      the new limit; any other stays. */
  lemma RaisedMeans(body: string, start: bool)
    ensures start && "WAVEFORM_JSON_BODY_LIMIT_BYTES=" <= body ==>
      RaisedBody(body, start) == "WAVEFORM_JSON_BODY_LIMIT_BYTES=327680"
    ensures !start || !("WAVEFORM_JSON_BODY_LIMIT_BYTES=" <= body) ==> RaisedBody(body, start) == body
  {
    assert BODY_LIMIT + "=" == "WAVEFORM_JSON_BODY_LIMIT_BYTES=";
    assert BODY_LIMIT + "=" + NEW_LIMIT == "WAVEFORM_JSON_BODY_LIMIT_BYTES=327680";
  }

  /** The ending of new lines is CR LF if the file has one anywhere, */
  lemma CrLfIsKept(before: string, after: string)
    ensures Newline(before + "\r\n" + after) == "\r\n"
  {
    var s := before + "\r\n" + after;
    assert s[|before|] == '\r' && s[|before| + 1] == '\n';
  }

  /** ... and only then. */
  lemma CrLfWasThere(s: string) returns (before: string, after: string)
    requires Newline(s) != "\n"
    ensures s == before + "\r\n" + after && Newline(s) == "\r\n"
  {
    var i :| 0 <= i < |s| - 1 && s[i] == '\r' && s[i + 1] == '\n';
    before, after := s[..i], s[i + 2..];
  }
}
