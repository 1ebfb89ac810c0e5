/**
The shape of a finished `native.env`: nothing retired, each wanted setting on exactly one line of its
own, every line ended.
*/
module NativeEnvShape {
  import opened Wrappers
  import opened EnvText
  import opened NativeEnv

  // ---- Keys and settings ------------------------------------------------------------------------

  lemma SetsMeansKey(body: string, key: string)
    requires Name(key)
    ensures Sets(body, key) <==> KeyOf(body) == Some(key)
  {
    var n := |key|;
    if Sets(body, key) {
      assert body[..n + 1] == key + "=";
      assert body[n] == '=' && body[..n] == key && body[0] == key[0];
      RunLengthIs(body, n, NotNameChar);
    }
    if KeyOf(body) == Some(key) {
      assert body[..n + 1] == key + "=";
    }
  }

  lemma StripWord(v: string)
    requires forall i :: 0 <= i < |v| ==> !Space(v[i])
    ensures StripLeft(v) == v && StripRight(v) == v
  {
  }

  lemma SettingReads(w: Setting, key: string)
    requires Name(w.key) && Word(w.value) && Name(key)
    ensures KeyOf(SettingLine(w)) == Some(w.key)
    ensures Plain(SettingLine(w), ReaderBreak) && Plain(SettingLine(w), LineBreak)
    ensures Values(SettingLine(w), key) == if key == w.key then [Unquoted(w.value)] else []
  {
    var line := SettingLine(w);
    assert Sets(line, w.key);
    SetsMeansKey(line, w.key);
    SetsMeansKey(line, key);
    forall i | 0 <= i < |line| ensures !ReaderBreak(line[i]) && !LineBreak(line[i]) {
      if i < |w.key| {
        assert line[i] == w.key[i] && NameChar(w.key[i]);
      } else if i > |w.key| {
        assert line[i] == w.value[i - |w.key| - 1];
      }
    }
    PlainRun(line, ReaderBreak);
    assert Runs(line, ReaderBreak) == [line] && [line][1..] == [];
    assert line[|w.key| + 1..] == w.value;
    StripWord(w.value);
    assert Sets(line, key) <==> key == w.key;
    assert ValuesIn([], key) == [];
    assert ValuesIn([line], key) == if Sets(line, key) then [ValueOf(line, key)] else [];
    if key == w.key {
      assert ValueOf(line, key) == Unquoted(w.value);
    }
  }

  // ---- Bodies -----------------------------------------------------------------------------------

  lemma {:induction false} BodiesConcat(a: seq<Line>, b: seq<Line>)
    ensures Bodies(a + b) == Bodies(a) + Bodies(b)
  {
    if a == [] {
      assert a + b == b;
    } else {
      assert (a + b)[1..] == a[1..] + b;
      BodiesConcat(a[1..], b);
    }
  }

  lemma {:induction false} BodyValuesConcat(a: seq<string>, b: seq<string>, key: string)
    ensures BodyValues(a + b, key) == BodyValues(a, key) + BodyValues(b, key)
  {
    if a == [] {
      assert a + b == b;
    } else {
      assert (a + b)[1..] == a[1..] + b;
      BodyValuesConcat(a[1..], b, key);
    }
  }

  lemma {:induction false} BodiesAre(lines: seq<Line>, b: string)
    ensures b in Bodies(lines) <==> b != "" && exists l :: l in lines && l.body == b
  {
    if lines != [] {
      BodiesAre(lines[1..], b);
      assert forall l :: l in lines <==> l == lines[0] || l in lines[1..];
    }
  }

  function Count(bodies: seq<string>, key: string): nat {
    if bodies == [] then 0 else (if KeyOf(bodies[0]) == Some(key) then 1 else 0) + Count(bodies[1..], key)
  }

  lemma {:induction false} CountConcat(a: seq<string>, b: seq<string>, key: string)
    ensures Count(a + b, key) == Count(a, key) + Count(b, key)
  {
    if a == [] {
      assert a + b == b;
    } else {
      assert (a + b)[1..] == a[1..] + b;
      CountConcat(a[1..], b, key);
    }
  }

  /** What the bodies of a finished file look like: nothing retired, each wanted setting once. */
  ghost predicate Clean(plan: Plan, bodies: seq<string>) {
    forall b :: b in bodies ==> CleanBody(plan, b)
  }

  predicate CleanBody(plan: Plan, b: string) {
    match KeyOf(b)
    case None => true
    case Some(k) =>
      && k !in plan.retired
      && (Lookup(plan.wanted, k).Some? ==> b == SettingLine(Setting(k, Lookup(plan.wanted, k).value)))
  }

  ghost predicate Complete(plan: Plan, bodies: seq<string>) {
    forall w :: w in plan.wanted ==> Count(bodies, w.key) == 1
  }

  lemma LookupFinds(plan: Plan, w: Setting)
    requires Fit(plan) && w in plan.wanted
    ensures Lookup(plan.wanted, w.key) == Some(w.value)
  {
    var i :| 0 <= i < |plan.wanted| && plan.wanted[i] == w;
    var v := Lookup(plan.wanted, w.key);
    var j :| 0 <= j < |plan.wanted| && plan.wanted[j] == Setting(w.key, v.value);
  }

  // ---- The draft is clean and complete ----------------------------------------------------------

  function LineCount(lines: seq<Line>, key: string): nat {
    Count(Bodies(lines), key)
  }

  lemma LineCountGrows(lines: seq<Line>, l: Line, key: string)
    ensures LineCount(lines + [l], key) == LineCount(lines, key) + if KeyOf(l.body) == Some(key) then 1 else 0
  {
    BodiesConcat(lines, [l]);
    CountConcat(Bodies(lines), Bodies([l]), key);
    assert Bodies([l]) == if l.body == "" then [] else [l.body];
  }

  lemma RewriteIsClean(plan: Plan, l: Line, newline: string)
    requires Fit(plan) && !Retires(plan, l)
    ensures CleanBody(plan, Rewrite(plan, l, newline).body)
    ensures KeyOf(Rewrite(plan, l, newline).body) == KeyOf(l.body)
  {
    var w := Wanted(plan, l);
    if w.Some? {
      assert w.value in plan.wanted;
      LookupFinds(plan, w.value);
      SettingReads(w.value, w.value.key);
    }
  }

  lemma {:induction false} RewrittenIsClean(plan: Plan, lines: seq<Line>, newline: string)
    requires Fit(plan)
    ensures forall l :: l in Rewritten(plan, lines, newline) ==> CleanBody(plan, l.body)
  {
    if lines != [] {
      RewrittenIsClean(plan, lines[..|lines| - 1], newline);
      if !Retires(plan, lines[|lines| - 1]) {
        RewriteIsClean(plan, lines[|lines| - 1], newline);
      }
    }
  }

  lemma {:induction false} RewrittenCount(plan: Plan, lines: seq<Line>, newline: string, w: Setting)
    requires Fit(plan) && w in plan.wanted && !SetTwice(plan, lines)
    ensures LineCount(Rewritten(plan, lines, newline), w.key) == if w.key in Seen(plan, lines) then 1 else 0
  {
    if lines != [] {
      var before, l := lines[..|lines| - 1], lines[|lines| - 1];
      assert lines == before + [l];
      SeenGrows(plan, before, l);
      RewrittenCount(plan, before, newline, w);
      if !Retires(plan, l) {
        RewriteIsClean(plan, l, newline);
        LineCountGrows(Rewritten(plan, before, newline), Rewrite(plan, l, newline), w.key);
        LookupFinds(plan, w);
      } else {
        assert Rewritten(plan, lines, newline) == Rewritten(plan, before, newline);
      }
    }
  }

  lemma {:induction false} AddedIsClean(plan: Plan, wanted: seq<Setting>, seen: set<string>, newline: string)
    requires Fit(plan) && forall w :: w in wanted ==> w in plan.wanted
    ensures forall l :: l in Added(wanted, seen, newline) ==> CleanBody(plan, l.body)
  {
    if wanted != [] {
      var last := wanted[|wanted| - 1];
      AddedIsClean(plan, wanted[..|wanted| - 1], seen, newline);
      LookupFinds(plan, last);
      SettingReads(last, last.key);
    }
  }

  lemma AddedByTurn(wanted: seq<Setting>, n: nat, seen: set<string>, newline: string)
    requires n < |wanted|
    ensures Added(wanted[..n + 1], seen, newline)
            == Added(wanted[..n], seen, newline)
               + if wanted[n].key in seen then [] else [Line(SettingLine(wanted[n]), newline)]
  {
    assert wanted[..n + 1][..n] == wanted[..n];
  }

  lemma TurnCount(plan: Plan, lines: seq<Line>, n: nat, seen: set<string>, newline: string, i: nat)
    requires Fit(plan) && n < |plan.wanted| && i < |plan.wanted|
    ensures var w, key := plan.wanted[n], plan.wanted[i].key;
      LineCount(lines + if w.key in seen then [] else [Line(SettingLine(w), newline)], key)
      == LineCount(lines, key) + if i == n && key !in seen then 1 else 0
  {
    var w := plan.wanted[n];
    assert w in plan.wanted && plan.wanted[i] in plan.wanted;
    SettingReads(w, w.key);
    if w.key in seen {
      assert lines + [] == lines;
    } else {
      LineCountGrows(lines, Line(SettingLine(w), newline), plan.wanted[i].key);
    }
  }

  /** The settings up to the n-th: the i-th is added once, if at all, and only by its own turn. */
  lemma {:induction false} AddedCount(plan: Plan, n: nat, seen: set<string>, newline: string, i: nat)
    requires Fit(plan) && n <= |plan.wanted| && i < |plan.wanted|
    ensures LineCount(Added(plan.wanted[..n], seen, newline), plan.wanted[i].key)
            == if i < n && plan.wanted[i].key !in seen then 1 else 0
  {
    if n > 0 {
      AddedCount(plan, n - 1, seen, newline, i);
      AddedByTurn(plan.wanted, n - 1, seen, newline);
      TurnCount(plan, Added(plan.wanted[..n - 1], seen, newline), n - 1, seen, newline, i);
    }
  }

  lemma {:induction false} BodiesOfEnded(lines: seq<Line>, newline: string)
    ensures Bodies(Ended(lines, newline)) == Bodies(lines)
  {
    if lines != [] {
      var before, last := lines[..|lines| - 1], lines[|lines| - 1];
      assert lines == before + [last];
      BodiesConcat(before, [last]);
      BodiesConcat(before, [last.(ending := last.ending + newline)]);
    }
  }

  lemma DraftIsClean(plan: Plan, old_: string)
    requires Fit(plan) && !SetTwice(plan, SplitLines(old_))
    ensures Clean(plan, Bodies(DraftLines(plan, old_))) && Complete(plan, Bodies(DraftLines(plan, old_)))
  {
    var lines, newline := SplitLines(old_), Newline(old_);
    var kept := Rewritten(plan, lines, newline);
    var added := Added(plan.wanted, Seen(plan, lines), newline);
    BodiesOfEnded(kept, newline);
    BodiesConcat(Ended(kept, newline), added);
    RewrittenIsClean(plan, lines, newline);
    forall w | w in plan.wanted ensures Count(Bodies(kept) + Bodies(added), w.key) == 1 {
      RewrittenCount(plan, lines, newline, w);
      var i :| 0 <= i < |plan.wanted| && plan.wanted[i] == w;
      AddedCount(plan, |plan.wanted|, Seen(plan, lines), newline, i);
      assert plan.wanted[..|plan.wanted|] == plan.wanted;
      CountConcat(Bodies(kept), Bodies(added), w.key);
    }
    AddedIsClean(plan, plan.wanted, Seen(plan, lines), newline);
    forall b | b in Bodies(kept) + Bodies(added) ensures CleanBody(plan, b) {
      BodiesAre(kept, b);
      BodiesAre(added, b);
    }
  }

  // ---- Raising the body limit -------------------------------------------------------------------

  const LIMIT := Setting(BODY_LIMIT, NEW_LIMIT)

  lemma LimitIsASetting()
    ensures Name(BODY_LIMIT) && Word(NEW_LIMIT)
    ensures SettingLine(LIMIT) == BODY_LIMIT + "=" + NEW_LIMIT
    ensures Unquoted(NEW_LIMIT) == NEW_LIMIT
  {
  }

  /** Each line stays, or is the former limit's line with the new limit. */
  ghost predicate RaisedFrom(lines: seq<Line>, raised: seq<Line>) {
    |raised| == |lines| && forall i :: 0 <= i < |lines| ==> RaisedLine(lines[i], raised[i])
  }

  ghost predicate RaisedLine(l: Line, r: Line) {
    r == l || (Sets(l.body, BODY_LIMIT) && r == l.(body := SettingLine(LIMIT)))
  }

  /** The same replacement line by line. */
  function Raise(lines: seq<Line>, start: bool): seq<Line> {
    if lines == [] then []
    else [lines[0].(body := RaisedBody(lines[0].body, start))] + Raise(lines[1..], EndsLine(lines[0].ending))
  }

  /** Whether a line begins where the replacement looks. */
  predicate AtStart(lines: seq<Line>, k: nat)
    requires k < |lines|
  {
    k == 0 || EndsLine(lines[k - 1].ending)
  }

  lemma {:induction false} RaiseAt(lines: seq<Line>, start: bool, k: nat)
    requires k < |lines|
    ensures |Raise(lines, start)| == |lines|
    ensures Raise(lines, start)[k]
            == lines[k].(body := RaisedBody(lines[k].body, if k == 0 then start else EndsLine(lines[k - 1].ending)))
  {
    if |lines| > 1 {
      RaiseAt(lines[1..], EndsLine(lines[0].ending), if k == 0 then 0 else k - 1);
    }
  }

  lemma RaiseIsRaised(lines: seq<Line>)
    ensures RaisedFrom(lines, Raise(lines, true))
  {
    LimitIsASetting();
    if lines != [] {
      RaiseAt(lines, true, 0);
    }
    forall k | 0 <= k < |lines| ensures RaisedLine(lines[k], Raise(lines, true)[k]) {
      RaiseAt(lines, true, k);
    }
  }

  lemma {:induction false} RaisedBreaks(breaks: string, rest: string, start: bool)
    requires breaks != "" && forall i :: 0 <= i < |breaks| ==> LineBreak(breaks[i])
    ensures RaisedText(breaks + rest, start) == breaks + RaisedText(rest, EndsLine(breaks))
  {
    var c, more := breaks[0], breaks[1..];
    assert breaks == [c] + more;
    assert breaks + rest == [c] + (more + rest);
    RaisedBreak(c, more + rest, start);
    if more == [] {
      assert more + rest == rest;
    } else {
      RaisedBreaks(more, rest, c == '\n');
      assert EndsLine(breaks) == EndsLine(more);
    }
  }

  lemma RaisedBreak(c: char, rest: string, start: bool)
    requires LineBreak(c)
    ensures RaisedText([c] + rest, start) == [c] + RaisedText(rest, c == '\n')
  {
    assert ([c] + rest)[1..] == rest;
  }

  lemma RaisedFirst(body: string, rest: string, start: bool)
    requires Plain(body, LineBreak) && body != "" && (rest == "" || LineBreak(rest[0]))
    ensures RaisedText(body + rest, start) == RaisedBody(body, start) + RaisedText(rest, false)
  {
    PlainLength(body, LineBreak);
    SameRun(body, rest, |body|, LineBreak);
    SliceOfConcat(body, rest, |body|);
    assert (body + rest)[0] == body[0];
    assert body[|body|..] + rest == rest && body[..|body|] == body;
  }

  lemma PlainLength(s: string, brk: char -> bool)
    requires Plain(s, brk)
    ensures RunLength(s, brk) == |s|
  {
    RunLengthIs(s, |s|, brk);
  }

  /** Replacing in the text or line by line is the same, however the text is cut into lines. */
  lemma {:induction false} RaisedTextOfJoin(lines: seq<Line>, start: bool)
    requires Proper(lines)
    ensures RaisedText(Join(lines), start) == Join(Raise(lines, start))
  {
    if lines != [] {
      var l, rest := lines[0], Join(lines[1..]);
      if l.ending == "" {
        assert lines[1..] == [] && Join(lines) == l.body + "" + "";
        RaisedLineText(l, "", start);
      } else {
        RaisedTextOfJoin(lines[1..], EndsLine(l.ending));
        RaisedLineText(l, rest, start);
        assert Join(lines) == l.body + l.ending + rest;
      }
    }
  }

  lemma RaisedTail(breaks: string, rest: string, start: bool)
    requires forall i :: 0 <= i < |breaks| ==> LineBreak(breaks[i])
    requires breaks == "" ==> rest == ""
    ensures breaks + rest == "" || LineBreak((breaks + rest)[0])
    ensures RaisedText(breaks + rest, start) == breaks + RaisedText(rest, EndsLine(breaks))
  {
    if breaks == "" {
      assert breaks + rest == "";
    } else {
      assert (breaks + rest)[0] == breaks[0];
      RaisedBreaks(breaks, rest, start);
    }
  }

  lemma RaisedLineText(l: Line, rest: string, start: bool)
    requires ProperLine(l) && (l.ending == "" ==> rest == "")
    ensures RaisedText(l.body + l.ending + rest, start)
            == RaisedBody(l.body, start) + l.ending + RaisedText(rest, EndsLine(l.ending))
  {
    assert l.body + l.ending + rest == l.body + (l.ending + rest);
    if l.body == "" {
      RaisedTail(l.ending, rest, start);
      assert l.body + (l.ending + rest) == l.ending + rest;
      assert RaisedBody(l.body, start) == "";
    } else {
      RaisedTail(l.ending, rest, false);
      RaisedFirst(l.body, l.ending + rest, start);
    }
    Regroup(RaisedBody(l.body, start), l.ending, RaisedText(rest, EndsLine(l.ending)));
  }

  lemma Regroup(a: string, b: string, c: string)
    ensures a + (b + c) == a + b + c
  {
  }

  lemma RaisedIsProper(lines: seq<Line>, raised: seq<Line>)
    requires Proper(lines) && RaisedFrom(lines, raised)
    ensures Proper(raised)
  {
    LimitIsASetting();
    SettingReads(LIMIT, BODY_LIMIT);
    forall i | 0 <= i < |raised| ensures ProperLine(raised[i]) {
      assert ProperLine(lines[i]) && RaisedLine(lines[i], raised[i]);
    }
    forall i | 0 <= i < |raised| - 1 ensures raised[i].ending != "" {
      assert RaisedLine(lines[i], raised[i]);
    }
  }

  lemma RaisedLineKeys(l: Line, r: Line)
    requires RaisedLine(l, r)
    ensures KeyOf(r.body) == KeyOf(l.body)
    ensures r == l || KeyOf(l.body) == Some(BODY_LIMIT)
  {
    LimitIsASetting();
    SettingReads(LIMIT, BODY_LIMIT);
    SetsMeansKey(l.body, BODY_LIMIT);
  }

  lemma {:induction false} RaisedCount(lines: seq<Line>, raised: seq<Line>, key: string)
    requires RaisedFrom(lines, raised)
    ensures LineCount(raised, key) == LineCount(lines, key)
  {
    if lines != [] {
      var n := |lines| - 1;
      assert lines == lines[..n] + [lines[n]] && raised == raised[..n] + [raised[n]];
      forall i | 0 <= i < n ensures RaisedLine(lines[..n][i], raised[..n][i]) {
        assert RaisedLine(lines[i], raised[i]);
      }
      RaisedCount(lines[..n], raised[..n], key);
      assert RaisedLine(lines[n], raised[n]);
      RaisedLineKeys(lines[n], raised[n]);
      LineCountGrows(lines[..n], lines[n], key);
      LineCountGrows(raised[..n], raised[n], key);
    }
  }

  lemma RaisedIsClean(plan: Plan, lines: seq<Line>, raised: seq<Line>)
    requires Fit(plan) && RaisedFrom(lines, raised) && Clean(plan, Bodies(lines)) && Complete(plan, Bodies(lines))
    ensures Clean(plan, Bodies(raised)) && Complete(plan, Bodies(raised))
  {
    forall w | w in plan.wanted ensures Count(Bodies(raised), w.key) == 1 {
      RaisedCount(lines, raised, w.key);
    }
    forall b | b in Bodies(raised) ensures CleanBody(plan, b) {
      BodiesAre(raised, b);
      var i :| 0 <= i < |raised| && raised[i].body == b;
      assert RaisedLine(lines[i], raised[i]);
      RaisedLineKeys(lines[i], raised[i]);
      if raised[i] == lines[i] {
        BodiesAre(lines, b);
      } else {
        assert Lookup(plan.wanted, BODY_LIMIT).None?;
      }
    }
  }

  // ---- The finished file ------------------------------------------------------------------------

  /** The finished text consists of clean lines, each wanted setting once, and ends its last line. */
  lemma FinishedIsClean(plan: Plan, old_: string)
    requires Fit(plan) && Cutover(plan, old_).Ok?
    ensures var bodies := Runs(Cutover(plan, old_).value, LineBreak);
      Clean(plan, bodies) && Complete(plan, bodies)
  {
    var lines := DraftLines(plan, old_);
    var draft, content := Join(lines), Cutover(plan, old_).value;
    DraftIsClean(plan, old_);
    DraftIsProper(plan, old_);
    RunsOfJoin(lines);
    if content != draft {
      RaisedTextOfJoin(lines, true);
      RaiseIsRaised(lines);
      RaisedIsProper(lines, Raise(lines, true));
      RaisedIsClean(plan, lines, Raise(lines, true));
      RunsOfJoin(Raise(lines, true));
    }
  }

  ghost predicate Whole(lines: seq<Line>) {
    forall i :: 0 <= i < |lines| ==> ProperLine(lines[i]) && lines[i].ending != ""
  }

  lemma RewriteIsProper(plan: Plan, l: Line, newline: string)
    requires Fit(plan) && ProperLine(l) && (newline == "\n" || newline == "\r\n")
    ensures ProperLine(Rewrite(plan, l, newline))
    ensures l.ending != "" ==> Rewrite(plan, l, newline).ending != ""
  {
    var w := Wanted(plan, l);
    if w.Some? {
      SettingReads(w.value, w.value.key);
    }
  }

  lemma {:induction false} RewrittenIsWhole(plan: Plan, lines: seq<Line>, newline: string)
    requires Fit(plan) && Whole(lines) && (newline == "\n" || newline == "\r\n")
    ensures Whole(Rewritten(plan, lines, newline))
  {
    if lines != [] {
      RewrittenIsWhole(plan, lines[..|lines| - 1], newline);
      RewriteIsProper(plan, lines[|lines| - 1], newline);
    }
  }

  lemma EndedIsWhole(lines: seq<Line>, newline: string)
    requires lines != [] ==> Whole(lines[..|lines| - 1]) && ProperLine(lines[|lines| - 1])
    requires newline == "\n" || newline == "\r\n"
    ensures var ended := Ended(lines, newline);
      Whole(ended) && (ended != [] ==> EndsLine(ended[|ended| - 1].ending))
  {
    if lines != [] {
      var before, last := lines[..|lines| - 1], lines[|lines| - 1];
      var final := if EndsLine(last.ending) then last else last.(ending := last.ending + newline);
      assert ProperLine(final) && EndsLine(final.ending);
      assert Ended(lines, newline) == before + [final];
    }
  }

  lemma RewrittenIsNearlyWhole(plan: Plan, lines: seq<Line>, newline: string)
    requires Fit(plan) && Proper(lines) && lines != [] && (newline == "\n" || newline == "\r\n")
    ensures var kept := Rewritten(plan, lines, newline);
      kept != [] ==> Whole(kept[..|kept| - 1]) && ProperLine(kept[|kept| - 1])
  {
    var before, last := lines[..|lines| - 1], lines[|lines| - 1];
    var kept, earlier := Rewritten(plan, lines, newline), Rewritten(plan, before, newline);
    assert Whole(before);
    RewrittenIsWhole(plan, before, newline);
    RewriteIsProper(plan, last, newline);
    if Retires(plan, last) {
      assert kept == earlier;
    } else {
      assert kept == earlier + [Rewrite(plan, last, newline)];
      assert kept[..|kept| - 1] == earlier;
    }
  }

  /** Every rewritten line is ended, the last one by a line feed. */
  lemma RewrittenEndsWhole(plan: Plan, lines: seq<Line>, newline: string)
    requires Fit(plan) && Proper(lines) && (newline == "\n" || newline == "\r\n")
    ensures var ended := Ended(Rewritten(plan, lines, newline), newline);
      Whole(ended) && (ended != [] ==> EndsLine(ended[|ended| - 1].ending))
  {
    if lines != [] {
      RewrittenIsNearlyWhole(plan, lines, newline);
    }
    EndedIsWhole(Rewritten(plan, lines, newline), newline);
  }

  lemma {:induction false} AddedIsWhole(plan: Plan, wanted: seq<Setting>, seen: set<string>, newline: string)
    requires Fit(plan) && (forall w :: w in wanted ==> w in plan.wanted) && (newline == "\n" || newline == "\r\n")
    ensures var added := Added(wanted, seen, newline);
      Whole(added) && forall l :: l in added ==> EndsLine(l.ending)
  {
    if wanted != [] {
      AddedIsWhole(plan, wanted[..|wanted| - 1], seen, newline);
      SettingReads(wanted[|wanted| - 1], BODY_LIMIT) by {
        LimitIsASetting();
      }
    }
  }

  lemma DraftIsProper(plan: Plan, old_: string)
    requires Fit(plan)
    ensures Proper(DraftLines(plan, old_))
    ensures var lines := DraftLines(plan, old_);
      lines != [] ==> EndsLine(lines[|lines| - 1].ending)
  {
    var lines, newline := SplitLines(old_), Newline(old_);
    SplitLinesProper(old_);
    RewrittenEndsWhole(plan, lines, newline);
    AddedIsWhole(plan, plan.wanted, Seen(plan, lines), newline);
  }

  lemma {:induction false} JoinEnds(lines: seq<Line>)
    requires lines != [] && EndsLine(lines[|lines| - 1].ending)
    ensures EndsLine(Join(lines))
  {
    if |lines| == 1 {
      assert Join(lines[1..]) == "";
    } else {
      assert lines[1..][|lines| - 2] == lines[|lines| - 1];
      JoinEnds(lines[1..]);
    }
  }

  lemma BreakComes(s: string)
    requires EndsLine(s)
    ensures RunLength(s, LineBreak) < |s|
  {
    assert LineBreak(s[|s| - 1]);
  }

  lemma TailEnds(s: string, m: nat)
    requires EndsLine(s) && m < |s|
    ensures EndsLine(s[m..])
  {
    assert s[m..][|s| - m - 1] == s[|s| - 1];
  }

  lemma FirstLineEnds(s: string)
    requires EndsLine(s)
    ensures FirstLine(s).ending != ""
    ensures LineEnd(s) < |s| ==> EndsLine(s[LineEnd(s)..])
    ensures LineEnd(s) == |s| ==> EndsLine(FirstLine(s).ending)
  {
    var m, n := LineEnd(s), RunLength(s, LineBreak);
    BreakComes(s);
    if m < |s| {
      TailEnds(s, m);
    } else {
      TailEnds(s, n);
      assert s[n..m] == s[n..];
    }
  }

  lemma WholeCons(l: Line, rest: seq<Line>)
    requires ProperLine(l) && l.ending != "" && Whole(rest)
    ensures Whole([l] + rest)
  {
  }

  lemma {:induction false} SplitLinesEnd(s: string)
    requires EndsLine(s)
    ensures var lines := SplitLines(s);
      Whole(lines) && lines != [] && EndsLine(lines[|lines| - 1].ending)
    decreases |s|
  {
    var l, m := FirstLine(s), LineEnd(s);
    FirstLineEnds(s);
    if m < |s| {
      SplitLinesEnd(s[m..]);
    } else {
      assert SplitLines(s[m..]) == [];
    }
    WholeCons(l, SplitLines(s[m..]));
    assert SplitLines(s) == [l] + SplitLines(s[m..]);
  }
}
