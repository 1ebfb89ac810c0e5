/**
What the rewrite of `native.env` keeps, what reading the result gives, and why doing it again gives
the same bytes.
*/
module NativeEnvLaws {
  import opened Wrappers
  import opened EnvText
  import opened NativeEnv
  import opened NativeEnvShape

  // ---- Again ------------------------------------------------------------------------------------

  lemma CleanLinesStay(plan: Plan, lines: seq<Line>, newline: string)
    requires Fit(plan) && Whole(lines) && Clean(plan, Bodies(lines))
    ensures Rewritten(plan, lines, newline) == lines
    decreases |lines|
  {
    if lines != [] {
      var before, l := lines[..|lines| - 1], lines[|lines| - 1];
      assert lines == before + [l];
      BodiesConcat(before, [l]);
      CleanLinesStay(plan, before, newline);
      CleanLineStays(plan, lines, l, newline);
    }
  }

  lemma CleanLineStays(plan: Plan, lines: seq<Line>, l: Line, newline: string)
    requires Fit(plan) && Whole(lines) && l in lines && Clean(plan, Bodies(lines))
    ensures !Retires(plan, l) && Rewrite(plan, l, newline) == l
  {
    if KeyOf(l.body).Some? {
      BodiesAre(lines, l.body);
      assert CleanBody(plan, l.body);
    }
  }

  lemma {:induction false} CountAtLeast(lines: seq<Line>, i: nat, key: string)
    requires i < |lines| && KeyOf(lines[i].body) == Some(key)
    ensures LineCount(lines, key) >= 1
    decreases |lines|
  {
    var before, l := lines[..|lines| - 1], lines[|lines| - 1];
    assert lines == before + [l];
    LineCountGrows(before, l, key);
    if i < |lines| - 1 {
      CountAtLeast(before, i, key);
    }
  }

  lemma {:induction false} CountedLineExists(lines: seq<Line>, key: string)
    requires LineCount(lines, key) >= 1
    ensures exists l :: l in lines && KeyOf(l.body) == Some(key)
    decreases |lines|
  {
    if lines != [] {
      var before, l := lines[..|lines| - 1], lines[|lines| - 1];
      assert lines == before + [l];
      LineCountGrows(before, l, key);
      if KeyOf(l.body) != Some(key) {
        CountedLineExists(before, key);
      }
    }
  }

  lemma SeesAllWanted(plan: Plan, lines: seq<Line>)
    requires Fit(plan) && Complete(plan, Bodies(lines))
    ensures forall w :: w in plan.wanted ==> w.key in Seen(plan, lines)
  {
    forall w | w in plan.wanted ensures w.key in Seen(plan, lines) {
      CountedLineExists(lines, w.key);
      var l :| l in lines && KeyOf(l.body) == Some(w.key);
      LookupFinds(plan, w);
      assert Wanted(plan, l) == Some(w);
    }
  }

  /** Nothing to drop, nothing set twice, nothing missing: the draft is the text itself. */
  lemma DraftOfFinished(plan: Plan, content: string)
    requires Fit(plan) && EndsLine(content)
    requires Clean(plan, Runs(content, LineBreak)) && Complete(plan, Runs(content, LineBreak))
    ensures !SetTwice(plan, SplitLines(content)) && DraftLines(plan, content) == SplitLines(content)
  {
    var lines, newline := SplitLines(content), Newline(content);
    assert Bodies(lines) == Runs(content, LineBreak) by {
      SplitLinesJoin(content);
      SplitLinesProper(content);
      RunsOfJoin(lines);
    }
    SplitLinesEnd(content);
    CleanLinesStay(plan, lines, newline);
    assert Ended(lines, newline) == lines;
    NotTwice(plan, lines);
    SeesAllWanted(plan, lines);
    NothingMissing(plan.wanted, Seen(plan, lines), newline);
    NothingAdded(lines);
  }

  lemma NothingAdded(lines: seq<Line>)
    ensures lines + [] == lines
  {
  }

  lemma NotTwice(plan: Plan, lines: seq<Line>)
    requires Fit(plan) && Complete(plan, Bodies(lines))
    ensures !SetTwice(plan, lines)
  {
    forall i, j | 0 <= i < j < |lines| && Wanted(plan, lines[i]).Some?
      ensures Wanted(plan, lines[i]) != Wanted(plan, lines[j])
    {
      var key := Wanted(plan, lines[i]).value.key;
      var w := Wanted(plan, lines[i]).value;
      assert w in plan.wanted;
      assert lines == lines[..j] + lines[j..];
      BodiesConcat(lines[..j], lines[j..]);
      CountConcat(Bodies(lines[..j]), Bodies(lines[j..]), key);
      assert lines[..j][i] == lines[i];
      CountAtLeast(lines[..j], i, key);
      if KeyOf(lines[j].body) == Some(key) {
        assert lines[j..][0] == lines[j];
        CountAtLeast(lines[j..], 0, key);
      }
    }
  }

  lemma {:induction false} NothingMissing(wanted: seq<Setting>, seen: set<string>, newline: string)
    requires forall w :: w in wanted ==> w.key in seen
    ensures Added(wanted, seen, newline) == []
  {
    if wanted != [] {
      NothingMissing(wanted[..|wanted| - 1], seen, newline);
    }
  }

  function LineValues(lines: seq<Line>, key: string): seq<string> {
    BodyValues(Bodies(lines), key)
  }

  lemma LineValuesGrow(lines: seq<Line>, l: Line, key: string)
    ensures LineValues(lines + [l], key) == LineValues(lines, key) + Values(l.body, key)
  {
    BodiesConcat(lines, [l]);
    BodyValuesConcat(Bodies(lines), Bodies([l]), key);
    assert Bodies([l]) == if l.body == "" then [] else [l.body];
    assert Values("", key) == [];
    assert BodyValues([l.body], key) == Values(l.body, key) + BodyValues([], key);
  }

  lemma SettingIsRead(body: string)
    requires Sets(body, BODY_LIMIT)
    ensures Values(body, BODY_LIMIT) != []
  {
    LimitIsASetting();
    var start, n := BODY_LIMIT + "=", RunLength(body, ReaderBreak);
    assert n > |BODY_LIMIT| by {
      assert forall i :: 0 <= i < |start| ==> body[i] == start[i];
      forall i | 0 <= i < |start| ensures !ReaderBreak(body[i]) {
        if i < |BODY_LIMIT| {
          assert NameChar(BODY_LIMIT[i]);
        }
      }
    }
    assert start <= body[..n];
    var runs := Runs(body, ReaderBreak);
    assert runs == [body[..n]] + Runs(body[n..], ReaderBreak);
    assert Sets(runs[0], BODY_LIMIT);
    assert ValuesIn(runs, BODY_LIMIT) == [ValueOf(runs[0], BODY_LIMIT)] + ValuesIn(runs[1..], BODY_LIMIT);
  }

  /** A file that sets the limit once reads the new limit afterwards, or nothing was changed. */
  lemma {:induction false} RaisedReads(lines: seq<Line>, raised: seq<Line>)
    requires RaisedFrom(lines, raised) && |LineValues(lines, BODY_LIMIT)| <= 1
    ensures raised == lines || (LineValues(lines, BODY_LIMIT) != [] && LineValues(raised, BODY_LIMIT) == [NEW_LIMIT])
    decreases |lines|
  {
    if lines != [] {
      var n := |lines| - 1;
      var before, after := lines[..n], raised[..n];
      assert lines == before + [lines[n]] && raised == after + [raised[n]];
      forall i | 0 <= i < n ensures RaisedLine(before[i], after[i]) {
        assert RaisedLine(lines[i], raised[i]);
      }
      assert RaisedLine(lines[n], raised[n]);
      LineValuesGrow(before, lines[n], BODY_LIMIT);
      LineValuesGrow(after, raised[n], BODY_LIMIT);
      RaisedReads(before, after);
      LastRaisedReads(lines[n], raised[n]);
    }
  }

  lemma LastRaisedReads(l: Line, r: Line)
    requires RaisedLine(l, r)
    ensures r == l || (Values(l.body, BODY_LIMIT) != [] && Values(r.body, BODY_LIMIT) == [NEW_LIMIT])
  {
    if r != l {
      SettingIsRead(l.body);
      LimitIsASetting();
      SettingReads(LIMIT, BODY_LIMIT);
    }
  }

  /** Raising the limit either changes nothing or makes the new limit the one that is read. */
  lemma RaisedOnce(draft: string)
    requires EnvValue(draft, BODY_LIMIT) == Ok(Some(OLD_LIMIT))
    ensures var content := RaisedText(draft, true);
      content == draft || EnvValue(content, BODY_LIMIT) == Ok(Some(NEW_LIMIT))
  {
    var lines := SplitLines(draft);
    var raised := Raise(lines, true);
    SplitLinesJoin(draft);
    SplitLinesProper(draft);
    RaisedTextOfJoin(lines, true);
    RaiseIsRaised(lines);
    RaisedIsProper(lines, raised);
    RunsOfJoin(lines);
    RunsOfJoin(raised);
    ValuesByLine(draft, BODY_LIMIT);
    ValuesByLine(Join(raised), BODY_LIMIT);
    RaisedReads(lines, raised);
  }

  /** From the draft to the finished text only the former body limit's line changes. */
  lemma OnlyTheLimitChanges(plan: Plan, draft: string)
    requires Checked(plan, draft).Ok?
    ensures Checked(plan, draft).value == draft
            || (EnvValue(draft, BODY_LIMIT) == Ok(Some(OLD_LIMIT))
                && RaisedFrom(SplitLines(draft), Raise(SplitLines(draft), true))
                && Checked(plan, draft).value == Join(Raise(SplitLines(draft), true)))
  {
    RaiseIsRaised(SplitLines(draft));
    if EnvValue(draft, BODY_LIMIT).value == Some(OLD_LIMIT) {
      SplitLinesJoin(draft);
      SplitLinesProper(draft);
      RaisedTextOfJoin(SplitLines(draft), true);
      assert Checked(plan, draft).value == RaisedText(draft, true);
    } else {
      assert Checked(plan, draft).value == draft;
    }
  }

  lemma DraftEnds(plan: Plan, old_: string)
    requires Fit(plan) && !SetTwice(plan, SplitLines(old_))
    ensures EndsLine(Join(DraftLines(plan, old_)))
  {
    var lines := DraftLines(plan, old_);
    DraftIsProper(plan, old_);
    DraftIsClean(plan, old_);
    assert plan.wanted[0] in plan.wanted;
    CountedLineExists(lines, plan.wanted[0].key);
    JoinEnds(lines);
  }

  lemma RaisedEnds(draft: string)
    requires EndsLine(draft)
    ensures EndsLine(Join(Raise(SplitLines(draft), true)))
  {
    var split := SplitLines(draft);
    SplitLinesEnd(draft);
    RaiseIsRaised(split);
    assert RaisedLine(split[|split| - 1], Raise(split, true)[|split| - 1]);
    JoinEnds(Raise(split, true));
  }

  lemma FinishedEnds(plan: Plan, old_: string)
    requires Fit(plan) && Cutover(plan, old_).Ok?
    ensures EndsLine(Cutover(plan, old_).value)
  {
    var draft := Join(DraftLines(plan, old_));
    DraftEnds(plan, old_);
    RaisedEnds(draft);
    OnlyTheLimitChanges(plan, draft);
  }

  lemma CheckedAgain(plan: Plan, draft: string)
    requires Checked(plan, draft).Ok?
    ensures Checked(plan, Checked(plan, draft).value) == Checked(plan, draft)
  {
    if EnvValue(draft, BODY_LIMIT) == Ok(Some(OLD_LIMIT)) {
      RaisedOnce(draft);
    }
  }

  /** Rewriting the finished file again gives the same bytes. */
  lemma RewritingAgainChangesNothing(plan: Plan, old_: string)
    requires Fit(plan) && Cutover(plan, old_).Ok?
    ensures Cutover(plan, Cutover(plan, old_).value) == Cutover(plan, old_)
  {
    var content := Cutover(plan, old_).value;
    FinishedEnds(plan, old_);
    FinishedIsClean(plan, old_);
    AgainFromFinished(plan, content);
    CheckedAgain(plan, Join(DraftLines(plan, old_)));
  }

  lemma AgainFromFinished(plan: Plan, content: string)
    requires Fit(plan) && EndsLine(content)
    requires Clean(plan, Runs(content, LineBreak)) && Complete(plan, Runs(content, LineBreak))
    ensures Cutover(plan, content) == Checked(plan, content)
  {
    DraftOfFinished(plan, content);
    SplitLinesJoin(content);
  }

  // ---- What is kept -----------------------------------------------------------------------------

  /** The lines that are neither retired nor wanted. */
  function Others(plan: Plan, lines: seq<Line>): seq<Line> {
    if lines == [] then []
    else
      var l := lines[|lines| - 1];
      Others(plan, lines[..|lines| - 1]) + if Retires(plan, l) || Wanted(plan, l).Some? then [] else [l]
  }

  lemma OthersGrow(plan: Plan, lines: seq<Line>, l: Line)
    ensures Others(plan, lines + [l])
            == Others(plan, lines) + if Retires(plan, l) || Wanted(plan, l).Some? then [] else [l]
  {
    assert (lines + [l])[..|lines|] == lines;
  }

  lemma RewriteKeepsRole(plan: Plan, l: Line, newline: string)
    requires Fit(plan) && !Retires(plan, l)
    ensures var r := Rewrite(plan, l, newline);
      !Retires(plan, r) && Wanted(plan, r) == Wanted(plan, l) && (Wanted(plan, l).None? ==> r == l)
  {
    RewriteIsClean(plan, l, newline);
  }

  lemma {:induction false} RewritingKeepsOthers(plan: Plan, lines: seq<Line>, newline: string)
    requires Fit(plan)
    ensures Others(plan, Rewritten(plan, lines, newline)) == Others(plan, lines)
  {
    if lines != [] {
      var before, l := lines[..|lines| - 1], lines[|lines| - 1];
      RewritingKeepsOthers(plan, before, newline);
      if Retires(plan, l) {
        assert Rewritten(plan, lines, newline) == Rewritten(plan, before, newline);
      } else {
        RewriteKeepsRole(plan, l, newline);
        OthersGrow(plan, Rewritten(plan, before, newline), Rewrite(plan, l, newline));
      }
    }
  }

  lemma {:induction false} AddingAddsNoOthers(plan: Plan, lines: seq<Line>, wanted: seq<Setting>, seen: set<string>,
                                              newline: string)
    requires Fit(plan) && forall w :: w in wanted ==> w in plan.wanted
    ensures Others(plan, lines + Added(wanted, seen, newline)) == Others(plan, lines)
  {
    if wanted == [] {
      assert lines + [] == lines;
    } else {
      var before, w := wanted[..|wanted| - 1], wanted[|wanted| - 1];
      var earlier := lines + Added(before, seen, newline);
      AddingAddsNoOthers(plan, lines, before, seen, newline);
      if w.key in seen {
        assert lines + Added(wanted, seen, newline) == earlier;
      } else {
        var l := Line(SettingLine(w), newline);
        assert lines + Added(wanted, seen, newline) == earlier + [l];
        LookupFinds(plan, w);
        SettingReads(w, w.key);
        OthersGrow(plan, earlier, l);
      }
    }
  }

  /** The same lines in the same order; only the last of them may have got its missing line feed. */
  ghost predicate SameButLastEnding(a: seq<Line>, b: seq<Line>, newline: string) {
    && |b| == |a|
    && forall i :: 0 <= i < |a| ==>
         b[i] == a[i] || (i == |a| - 1 && b[i] == a[i].(ending := a[i].ending + newline))
  }

  lemma EndingKeepsOthers(plan: Plan, lines: seq<Line>, newline: string)
    ensures SameButLastEnding(Others(plan, lines), Others(plan, Ended(lines, newline)), newline)
  {
    if lines != [] && !EndsLine(lines[|lines| - 1].ending) {
      var before, last := lines[..|lines| - 1], lines[|lines| - 1];
      var ended := last.(ending := last.ending + newline);
      OthersGrow(plan, before, ended);
      assert Wanted(plan, ended) == Wanted(plan, last) && Retires(plan, ended) == Retires(plan, last);
    }
  }

  /** Every line that is neither retired nor wanted is kept, whole and in order, but for a final line
      ending. */
  lemma OtherLinesAreKept(plan: Plan, old_: string)
    requires Fit(plan)
    ensures SameButLastEnding(Others(plan, SplitLines(old_)), Others(plan, DraftLines(plan, old_)), Newline(old_))
  {
    var lines, newline := SplitLines(old_), Newline(old_);
    RewritingKeepsOthers(plan, lines, newline);
    EndingKeepsOthers(plan, Rewritten(plan, lines, newline), newline);
    AddingAddsNoOthers(plan, Ended(Rewritten(plan, lines, newline), newline), plan.wanted, Seen(plan, lines), newline);
  }

  lemma {:induction false} OthersAre(plan: Plan, lines: seq<Line>, l: Line)
    requires l in lines && !Retires(plan, l) && Wanted(plan, l).None?
    ensures l in Others(plan, lines)
  {
    if l != lines[|lines| - 1] {
      OthersAre(plan, lines[..|lines| - 1], l);
    }
  }
}
