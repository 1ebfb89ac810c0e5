/**
What the reader gets out of a finished `native.env` for each key, in terms of the old file.
*/
module NativeEnvReading {
  import opened Wrappers
  import opened EnvText
  import opened NativeEnv
  import opened NativeEnvShape
  import opened NativeEnvLaws

  // ---- One line sets it, or another hides it ----------------------------------------------------

  /** The reader finds the key within a line that is not the key's own: after a break only it knows. */
  ghost predicate Hides(bodies: seq<string>, key: string) {
    exists b :: b in bodies && KeyOf(b) != Some(key) && Values(b, key) != []
  }

  lemma {:induction false} NothingElseSetsIt(bodies: seq<string>, key: string)
    requires Count(bodies, key) == 0 && !Hides(bodies, key)
    ensures BodyValues(bodies, key) == []
  {
    if bodies != [] {
      assert bodies[0] in bodies && forall b :: b in bodies[1..] ==> b in bodies;
      NothingElseSetsIt(bodies[1..], key);
    }
  }

  lemma {:induction false} HiddenIsFound(bodies: seq<string>, key: string, b: string)
    requires b in bodies && Values(b, key) != []
    ensures BodyValues(bodies, key) != []
  {
    if b != bodies[0] {
      HiddenIsFound(bodies[1..], key, b);
    }
  }

  lemma {:induction false} OneLineSetsIt(plan: Plan, bodies: seq<string>, w: Setting)
    requires Fit(plan) && w in plan.wanted && Clean(plan, bodies) && Count(bodies, w.key) == 1
    ensures SettingLine(w) in bodies
    ensures !Hides(bodies, w.key) ==> BodyValues(bodies, w.key) == [Unquoted(w.value)]
    ensures Hides(bodies, w.key) ==> |BodyValues(bodies, w.key)| > 1
  {
    var first, rest := bodies[0], bodies[1..];
    assert first in bodies && forall b :: b in rest ==> b in bodies;
    if KeyOf(first) == Some(w.key) {
      LookupFinds(plan, w);
      assert CleanBody(plan, first);
      SettingReads(w, w.key);
      if Hides(bodies, w.key) {
        var b :| b in bodies && KeyOf(b) != Some(w.key) && Values(b, w.key) != [];
        HiddenIsFound(rest, w.key, b);
      } else {
        NothingElseSetsIt(rest, w.key);
      }
    } else {
      OneLineSetsIt(plan, rest, w);
    }
  }

  // ---- The finished lines and the old ones ------------------------------------------------------

  /** The lines that are not retired. */
  function Kept(plan: Plan, lines: seq<Line>): seq<Line> {
    if lines == [] then []
    else
      var l := lines[|lines| - 1];
      Kept(plan, lines[..|lines| - 1]) + if Retires(plan, l) then [] else [l]
  }

  lemma {:induction false} RewrittenAt(plan: Plan, lines: seq<Line>, newline: string, k: nat)
    requires k < |Kept(plan, lines)|
    ensures |Rewritten(plan, lines, newline)| == |Kept(plan, lines)|
    ensures Rewritten(plan, lines, newline)[k] == Rewrite(plan, Kept(plan, lines)[k], newline)
    ensures Kept(plan, lines)[k] in lines && !Retires(plan, Kept(plan, lines)[k])
    decreases |lines|
  {
    var before := lines[..|lines| - 1];
    RewrittenSize(plan, before, newline);
    if k < |Kept(plan, before)| {
      RewrittenAt(plan, before, newline, k);
    }
  }

  lemma {:induction false} RewrittenSize(plan: Plan, lines: seq<Line>, newline: string)
    ensures |Rewritten(plan, lines, newline)| == |Kept(plan, lines)|
  {
    if lines != [] {
      RewrittenSize(plan, lines[..|lines| - 1], newline);
    }
  }

  lemma {:induction false} KeptIsWhole(plan: Plan, lines: seq<Line>)
    requires Whole(lines)
    ensures Whole(Kept(plan, lines))
  {
    if lines != [] {
      KeptIsWhole(plan, lines[..|lines| - 1]);
    }
  }

  /** Only the last kept line may lack an ending. */
  lemma KeptEnding(plan: Plan, lines: seq<Line>, k: nat)
    requires Proper(lines) && k + 1 < |Kept(plan, lines)|
    ensures Kept(plan, lines)[k].ending != ""
  {
    var before := lines[..|lines| - 1];
    assert Whole(before);
    KeptIsWhole(plan, before);
    assert k < |Kept(plan, before)|;
  }

  /** The former limit is what the lines that stay set. */
  predicate LimitReads(plan: Plan, old_: string) {
    LineValues(Others(plan, SplitLines(old_)), BODY_LIMIT) == [OLD_LIMIT]
  }

  /** The kept line is the one whose limit is replaced, with whatever follows on it. */
  predicate Replaced(plan: Plan, old_: string, kept: seq<Line>, k: nat)
    requires k < |kept|
  {
    LimitReads(plan, old_) && Sets(kept[k].body, BODY_LIMIT) && AtStart(kept, k)
  }

  /** A line of the old file that stays as it is and in which the reader finds the key. */
  predicate HidesAt(plan: Plan, old_: string, kept: seq<Line>, k: nat, key: string)
    requires k < |kept|
  {
    Wanted(plan, kept[k]).None? && !Replaced(plan, old_, kept, k) && Values(kept[k].body, key) != []
  }

  ghost predicate HiddenBefore(plan: Plan, old_: string, key: string) {
    var kept := Kept(plan, SplitLines(old_));
    exists k :: 0 <= k < |kept| && HidesAt(plan, old_, kept, k, key)
  }

  // ---- Keys that are not wanted -----------------------------------------------------------------

  lemma {:induction false} OthersSetIt(plan: Plan, lines: seq<Line>, key: string)
    requires forall l :: l in lines ==> !Retires(plan, l) && (Wanted(plan, l).Some? ==> Values(l.body, key) == [])
    ensures LineValues(lines, key) == LineValues(Others(plan, lines), key)
  {
    if lines != [] {
      var before, l := lines[..|lines| - 1], lines[|lines| - 1];
      assert lines == before + [l] && l in lines;
      OthersSetIt(plan, before, key);
      LineValuesGrow(before, l, key);
      if Wanted(plan, l).None? {
        LineValuesGrow(Others(plan, before), l, key);
      } else {
        assert Others(plan, lines) == Others(plan, before);
      }
    }
  }

  lemma {:induction false} SameBodiesSameValues(a: seq<Line>, b: seq<Line>, key: string)
    requires |a| == |b| && forall i :: 0 <= i < |a| ==> a[i].body == b[i].body
    ensures LineValues(a, key) == LineValues(b, key)
  {
    if a != [] {
      var n := |a| - 1;
      assert a == a[..n] + [a[n]] && b == b[..n] + [b[n]];
      SameBodiesSameValues(a[..n], b[..n], key);
      LineValuesGrow(a[..n], a[n], key);
      LineValuesGrow(b[..n], b[n], key);
    }
  }

  lemma DraftLineIsClean(plan: Plan, old_: string, l: Line)
    requires Fit(plan) && !SetTwice(plan, SplitLines(old_)) && l in DraftLines(plan, old_)
    ensures !Retires(plan, l)
    ensures Wanted(plan, l).Some? ==>
      Wanted(plan, l).value in plan.wanted && l.body == SettingLine(Wanted(plan, l).value)
  {
    DraftIsClean(plan, old_);
    if KeyOf(l.body).Some? {
      BodiesAre(DraftLines(plan, old_), l.body);
      assert CleanBody(plan, l.body);
    }
  }

  /** A key that is not wanted reads from the draft what the other lines of the old file set. */
  lemma OtherKeysRead(plan: Plan, old_: string, key: string)
    requires Fit(plan) && !SetTwice(plan, SplitLines(old_)) && Name(key)
    requires forall w :: w in plan.wanted ==> w.key != key
    ensures Values(Join(DraftLines(plan, old_)), key) == LineValues(Others(plan, SplitLines(old_)), key)
  {
    var draft := DraftLines(plan, old_);
    DraftIsProper(plan, old_);
    RunsOfJoin(draft);
    ValuesByLine(Join(draft), key);
    forall l | l in draft ensures !Retires(plan, l) && (Wanted(plan, l).Some? ==> Values(l.body, key) == []) {
      DraftLineIsClean(plan, old_, l);
      if Wanted(plan, l).Some? {
        SettingReads(Wanted(plan, l).value, key);
      }
    }
    OthersSetIt(plan, draft, key);
    OtherLinesAreKept(plan, old_);
    SameBodiesSameValues(Others(plan, SplitLines(old_)), Others(plan, draft), key);
  }

  // ---- The finished lines, one by one -----------------------------------------------------------

  /** The lines of the finished text. */
  function FinishedLines(plan: Plan, old_: string): seq<Line> {
    if LimitReads(plan, old_) then Raise(DraftLines(plan, old_), true) else DraftLines(plan, old_)
  }

  lemma LimitReadsIff(plan: Plan, old_: string)
    requires Fit(plan) && !SetTwice(plan, SplitLines(old_)) && EnvValue(Join(DraftLines(plan, old_)), BODY_LIMIT).Ok?
    ensures LimitReads(plan, old_) <==> EnvValue(Join(DraftLines(plan, old_)), BODY_LIMIT).value == Some(OLD_LIMIT)
  {
    LimitIsASetting();
    OtherKeysRead(plan, old_, BODY_LIMIT);
    var values := Values(Join(DraftLines(plan, old_)), BODY_LIMIT);
    assert values == [OLD_LIMIT] <==> |values| == 1 && values[0] == OLD_LIMIT;
  }

  lemma FinishedIsProper(plan: Plan, old_: string)
    requires Fit(plan)
    ensures Proper(FinishedLines(plan, old_))
    ensures LimitReads(plan, old_) ==> RaisedText(Join(DraftLines(plan, old_)), true) == Join(FinishedLines(plan, old_))
  {
    var draft := DraftLines(plan, old_);
    DraftIsProper(plan, old_);
    RaisedTextOfJoin(draft, true);
    RaiseIsRaised(draft);
    RaisedIsProper(draft, Raise(draft, true));
  }

  lemma CheckedText(plan: Plan, draft: string)
    requires Checked(plan, draft).Ok?
    ensures EnvValue(draft, BODY_LIMIT).Ok?
    ensures Checked(plan, draft).value
            == if EnvValue(draft, BODY_LIMIT).value == Some(OLD_LIMIT) then RaisedText(draft, true) else draft
  {
  }

  lemma FinishedIsJoined(plan: Plan, old_: string)
    requires Fit(plan) && Cutover(plan, old_).Ok?
    ensures Cutover(plan, old_).value == Join(FinishedLines(plan, old_))
    ensures Runs(Cutover(plan, old_).value, LineBreak) == Bodies(FinishedLines(plan, old_))
  {
    CheckedText(plan, Join(DraftLines(plan, old_)));
    LimitReadsIff(plan, old_);
    FinishedIsProper(plan, old_);
    RunsOfJoin(FinishedLines(plan, old_));
  }

  /** Up to the additions, the draft's lines are the kept ones, rewritten. */
  lemma DraftAt(plan: Plan, old_: string, k: nat)
    requires Fit(plan) && k < |Kept(plan, SplitLines(old_))|
    ensures var kept, draft := Kept(plan, SplitLines(old_)), DraftLines(plan, old_);
      && |kept| <= |draft| && draft[k].body == Rewrite(plan, kept[k], Newline(old_)).body
      && (k + 1 < |kept| ==> draft[k].ending == kept[k].ending)
      && !Retires(plan, kept[k])
  {
    var lines, newline := SplitLines(old_), Newline(old_);
    var rewritten := Rewritten(plan, lines, newline);
    RewrittenSize(plan, lines, newline);
    RewrittenAt(plan, lines, newline, k);
    EndedAt(rewritten, newline, k);
    AppendedAt(Ended(rewritten, newline), Added(plan.wanted, Seen(plan, lines), newline), k);
    SplitLinesProper(old_);
    if k + 1 < |Kept(plan, lines)| {
      KeptEnding(plan, lines, k);
    }
  }

  lemma EndedAt(lines: seq<Line>, newline: string, k: nat)
    requires k < |lines|
    ensures |Ended(lines, newline)| == |lines| && Ended(lines, newline)[k].body == lines[k].body
    ensures k + 1 < |lines| ==> Ended(lines, newline)[k] == lines[k]
  {
  }

  lemma AppendedAt(a: seq<Line>, b: seq<Line>, k: nat)
    requires k < |a|
    ensures (a + b)[k] == a[k] && |a + b| >= |a|
  {
  }

  lemma StartsAlike(a: seq<Line>, b: seq<Line>, k: nat)
    requires k < |a| && k < |b| && (k > 0 ==> a[k - 1].ending == b[k - 1].ending)
    ensures AtStart(a, k) <==> AtStart(b, k)
  {
  }

  lemma DraftStartsAlike(plan: Plan, old_: string, k: nat)
    requires Fit(plan) && k < |Kept(plan, SplitLines(old_))|
    ensures k < |DraftLines(plan, old_)|
    ensures AtStart(DraftLines(plan, old_), k) <==> AtStart(Kept(plan, SplitLines(old_)), k)
  {
    var kept, draft := Kept(plan, SplitLines(old_)), DraftLines(plan, old_);
    DraftAt(plan, old_, k);
    if k > 0 {
      DraftAt(plan, old_, k - 1);
    }
    StartsAlike(draft, kept, k);
  }

  /** A rewritten line sets the limit exactly when the old one did. */
  lemma RewriteSetsLimit(plan: Plan, l: Line, newline: string)
    requires Fit(plan) && !Retires(plan, l)
    ensures Sets(Rewrite(plan, l, newline).body, BODY_LIMIT) <==> Sets(l.body, BODY_LIMIT)
    ensures Sets(l.body, BODY_LIMIT) ==> Wanted(plan, l).None?
  {
    LimitIsASetting();
    RewriteIsClean(plan, l, newline);
    SetsMeansKey(l.body, BODY_LIMIT);
    SetsMeansKey(Rewrite(plan, l, newline).body, BODY_LIMIT);
  }

  /** What became of a kept line. */
  lemma FinishedAt(plan: Plan, old_: string, k: nat)
    requires Fit(plan) && k < |Kept(plan, SplitLines(old_))|
    ensures var kept, finished := Kept(plan, SplitLines(old_)), FinishedLines(plan, old_);
      && k < |finished|
      && finished[k].body ==
           if Replaced(plan, old_, kept, k) then SettingLine(LIMIT) else Rewrite(plan, kept[k], Newline(old_)).body
  {
    var kept, draft := Kept(plan, SplitLines(old_)), DraftLines(plan, old_);
    DraftAt(plan, old_, k);
    DraftStartsAlike(plan, old_, k);
    RewriteSetsLimit(plan, kept[k], Newline(old_));
    RaiseAt(draft, true, k);
    LimitIsASetting();
  }

  lemma {:induction false} AddedAreSettings(wanted: seq<Setting>, seen: set<string>, newline: string, k: nat)
    requires k < |Added(wanted, seen, newline)|
    ensures exists w :: w in wanted && Added(wanted, seen, newline)[k].body == SettingLine(w)
  {
    var before := wanted[..|wanted| - 1];
    if k < |Added(before, seen, newline)| {
      AddedAreSettings(before, seen, newline, k);
      var w :| w in before && Added(before, seen, newline)[k].body == SettingLine(w);
      assert w in wanted;
    } else {
      assert wanted[|wanted| - 1] in wanted;
    }
  }

  /** The lines after the kept ones are settings that were missing. */
  lemma FinishedBeyond(plan: Plan, old_: string, k: nat)
    requires Fit(plan) && |Kept(plan, SplitLines(old_))| <= k < |FinishedLines(plan, old_)|
    ensures exists w :: w in plan.wanted && FinishedLines(plan, old_)[k].body == SettingLine(w)
  {
    var lines, newline := SplitLines(old_), Newline(old_);
    var draft, n := DraftLines(plan, old_), |Kept(plan, lines)|;
    RewrittenSize(plan, lines, newline);
    if draft != [] {
      RaiseAt(draft, true, 0);
    }
    AddedAreSettings(plan.wanted, Seen(plan, lines), newline, k - n);
    var w :| w in plan.wanted && draft[k].body == SettingLine(w);
    RaiseAt(draft, true, k);
    LimitIsASetting();
    SettingReads(w, w.key);
    SetsMeansKey(SettingLine(w), BODY_LIMIT);
  }

  // ---- Hidden before, hidden after --------------------------------------------------------------

  /** A finished line that hides the key is an old line that did and stays. */
  lemma HiddenWasThere(plan: Plan, old_: string, w: Setting, k: nat)
    requires Fit(plan) && w in plan.wanted && k < |FinishedLines(plan, old_)|
    requires KeyOf(FinishedLines(plan, old_)[k].body) != Some(w.key)
    requires Values(FinishedLines(plan, old_)[k].body, w.key) != []
    ensures var kept := Kept(plan, SplitLines(old_)); k < |kept| && HidesAt(plan, old_, kept, k, w.key)
  {
    var kept := Kept(plan, SplitLines(old_));
    if k >= |kept| {
      FinishedBeyond(plan, old_, k);
      var v :| v in plan.wanted && FinishedLines(plan, old_)[k].body == SettingLine(v);
      SettingReads(v, w.key);
    } else {
      FinishedAt(plan, old_, k);
      DraftAt(plan, old_, k);
      LimitIsASetting();
      SettingReads(LIMIT, w.key);
      if Wanted(plan, kept[k]).Some? {
        assert Wanted(plan, kept[k]).value in plan.wanted;
        SettingReads(Wanted(plan, kept[k]).value, w.key);
      }
    }
  }

  /** An old line that hides the key and stays is a finished line that does. */
  lemma HiddenStays(plan: Plan, old_: string, w: Setting, k: nat)
    requires Fit(plan) && w in plan.wanted && k < |Kept(plan, SplitLines(old_))|
    requires HidesAt(plan, old_, Kept(plan, SplitLines(old_)), k, w.key)
    ensures k < |FinishedLines(plan, old_)|
    ensures var b := FinishedLines(plan, old_)[k].body; KeyOf(b) != Some(w.key) && Values(b, w.key) != []
  {
    FinishedAt(plan, old_, k);
    DraftAt(plan, old_, k);
    LookupFinds(plan, w);
  }

  lemma HiddenIff(plan: Plan, old_: string, w: Setting)
    requires Fit(plan) && w in plan.wanted
    ensures Hides(Bodies(FinishedLines(plan, old_)), w.key) <==> HiddenBefore(plan, old_, w.key)
  {
    var kept, finished := Kept(plan, SplitLines(old_)), FinishedLines(plan, old_);
    if Hides(Bodies(finished), w.key) {
      var b :| b in Bodies(finished) && KeyOf(b) != Some(w.key) && Values(b, w.key) != [];
      BodiesAre(finished, b);
      var k :| 0 <= k < |finished| && finished[k].body == b;
      HiddenWasThere(plan, old_, w, k);
    }
    if HiddenBefore(plan, old_, w.key) {
      var k :| 0 <= k < |kept| && HidesAt(plan, old_, kept, k, w.key);
      HiddenStays(plan, old_, w, k);
      var b := finished[k].body;
      assert Values("", w.key) == [];
      BodiesAre(finished, b);
    }
  }

  // ---- Reading back -----------------------------------------------------------------------------

  /** What reading a wanted setting back gives: the new value with matching quotes removed, or the
      duplicate error when a line of the old file that stays hides a second setting of it. */
  lemma ReadBack(plan: Plan, old_: string, w: Setting)
    requires Fit(plan) && w in plan.wanted && Cutover(plan, old_).Ok?
    ensures EnvValue(Cutover(plan, old_).value, w.key)
            == if HiddenBefore(plan, old_, w.key) then Err(()) else Ok(Some(Unquoted(w.value)))
  {
    var content := Cutover(plan, old_).value;
    FinishedIsClean(plan, old_);
    FinishedIsJoined(plan, old_);
    HiddenIff(plan, old_, w);
    ValuesByLine(content, w.key);
    OneLineSetsIt(plan, Runs(content, LineBreak), w);
  }

  /** It is the wanted value if and only if the value is not in quotes and no line of the old file that
      stays hides the key. */
  lemma ReadBackIsWanted(plan: Plan, old_: string, w: Setting)
    requires Fit(plan) && w in plan.wanted && Cutover(plan, old_).Ok?
    ensures EnvValue(Cutover(plan, old_).value, w.key) == Ok(Some(w.value)) <==>
      Unquoted(w.value) == w.value && !HiddenBefore(plan, old_, w.key)
  {
    ReadBack(plan, old_, w);
  }

  // ---- A file that passes -----------------------------------------------------------------------

  /** The draft gives the required key a value: a new one that nothing hides, or that of one other line. */
  ghost predicate HasValue(plan: Plan, old_: string, key: string) {
    || (exists w :: w in plan.wanted && w.key == key && Unquoted(w.value) != "" && !HiddenBefore(plan, old_, key))
    || (&& Name(key) && (forall w :: w in plan.wanted ==> w.key != key)
        && exists v :: v != "" && LineValues(Others(plan, SplitLines(old_)), key) == [v])
  }

  predicate ReadsSome(content: string, key: string) {
    EnvValue(content, key).Ok? && EnvValue(content, key).value.Some? && EnvValue(content, key).value.value != ""
  }

  lemma OneValueReads(content: string, key: string, v: string)
    requires Values(content, key) == [v]
    ensures EnvValue(content, key) == Ok(Some(v))
  {
  }

  /** Where the limit is not replaced, a new setting that nothing hides reads from the draft. */
  lemma NewValueReads(plan: Plan, old_: string, w: Setting)
    requires Fit(plan) && !SetTwice(plan, SplitLines(old_)) && w in plan.wanted
    requires !LimitReads(plan, old_) && !HiddenBefore(plan, old_, w.key)
    ensures Values(Join(DraftLines(plan, old_)), w.key) == [Unquoted(w.value)]
  {
    var draft := DraftLines(plan, old_);
    HiddenIff(plan, old_, w);
    DraftIsClean(plan, old_);
    DraftIsProper(plan, old_);
    RunsOfJoin(draft);
    ValuesByLine(Join(draft), w.key);
    OneLineSetsIt(plan, Bodies(draft), w);
  }

  lemma HasValueReads(plan: Plan, old_: string, key: string)
    requires Fit(plan) && !SetTwice(plan, SplitLines(old_)) && HasValue(plan, old_, key) && !LimitReads(plan, old_)
    ensures ReadsSome(Join(DraftLines(plan, old_)), key)
  {
    if w :| w in plan.wanted && w.key == key && Unquoted(w.value) != "" && !HiddenBefore(plan, old_, key) {
      NewValueReads(plan, old_, w);
      OneValueReads(Join(DraftLines(plan, old_)), key, Unquoted(w.value));
    } else {
      OtherKeysRead(plan, old_, key);
      var v :| v != "" && LineValues(Others(plan, SplitLines(old_)), key) == [v];
      OneValueReads(Join(DraftLines(plan, old_)), key, v);
    }
  }

  lemma TakenAsItIs(plan: Plan, content: string)
    requires EnvValue(content, BODY_LIMIT) == Ok(None) && EnvValue(content, "WAVEFORM_APP_ID") == Ok(None)
    requires forall k :: k in plan.retired ==> EnvValue(content, k) == Ok(None)
    requires forall k :: k in plan.required ==> ReadsSome(content, k)
    ensures Checked(plan, content) == Ok(content)
  {
  }

  lemma UnsetReads(plan: Plan, old_: string, key: string)
    requires Fit(plan) && !SetTwice(plan, SplitLines(old_)) && Unset(plan, old_, key)
    ensures EnvValue(Join(DraftLines(plan, old_)), key) == Ok(None)
  {
    OtherKeysRead(plan, old_, key);
  }

  /** No new setting and no line that stays sets the key. */
  ghost predicate Unset(plan: Plan, old_: string, key: string) {
    && Name(key) && (forall w :: w in plan.wanted ==> w.key != key)
    && LineValues(Others(plan, SplitLines(old_)), key) == []
  }

  /** An old file whose lines that stay set nothing retired, no limit and no app, and in which the required
      keys get values, is taken. */
  lemma PlainFileIsTaken(plan: Plan, old_: string)
    requires Fit(plan) && !SetTwice(plan, SplitLines(old_))
    requires Unset(plan, old_, BODY_LIMIT) && Unset(plan, old_, "WAVEFORM_APP_ID")
    requires forall k :: k in plan.retired ==> Unset(plan, old_, k)
    requires forall k :: k in plan.required ==> HasValue(plan, old_, k)
    ensures Cutover(plan, old_).Ok?
  {
    var content := Join(DraftLines(plan, old_));
    UnsetReads(plan, old_, BODY_LIMIT);
    UnsetReads(plan, old_, "WAVEFORM_APP_ID");
    forall k | k in plan.retired ensures EnvValue(content, k) == Ok(None) {
      UnsetReads(plan, old_, k);
    }
    forall k | k in plan.required ensures ReadsSome(content, k) {
      HasValueReads(plan, old_, k);
    }
    TakenAsItIs(plan, content);
  }
}
