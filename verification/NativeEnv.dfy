/**
The cutover's rewrite of `native.env`: settings of the earlier sign-in are dropped, the new ones set,
every other line kept; then the former body limit is raised and the result is read back and checked.
*/
module NativeEnv {
  import opened Wrappers
  import opened EnvText

  datatype Setting = Setting(key: string, value: string)

  const BODY_LIMIT := "WAVEFORM_JSON_BODY_LIMIT_BYTES"
  const OLD_LIMIT := "65536"
  const NEW_LIMIT := "327680"

  /** What the run is given: the retired keys, the new settings, and the keys that must have a value. */
  datatype Plan = Plan(retired: seq<string>, wanted: seq<Setting>, required: seq<string>)

  predicate Upper(c: char) {
    'A' <= c <= 'Z'
  }

  predicate NameChar(c: char) {
    Upper(c) || '0' <= c <= '9' || c == '_'
  }

  predicate Name(key: string) {
    key != "" && Upper(key[0]) && forall i :: 0 <= i < |key| ==> NameChar(key[i])
  }

  predicate NotNameChar(c: char) {
    !NameChar(c)
  }

  /** The key a line sets: a name at its very start, then an equals sign. */
  function KeyOf(body: string): Option<string> {
    var n := RunLength(body, NotNameChar);
    if 0 < n < |body| && Upper(body[0]) && body[n] == '=' then Some(body[..n]) else None
  }

  function Lookup(wanted: seq<Setting>, key: string): (value: Option<string>)
    ensures value.Some? ==> Setting(key, value.value) in wanted
    ensures value.None? ==> forall w :: w in wanted ==> w.key != key
  {
    if wanted == [] then None
    else if wanted[0].key == key then Some(wanted[0].value)
    else Lookup(wanted[1..], key)
  }

  predicate Word(v: string) {
    v != "" && forall i :: 0 <= i < |v| ==> !Space(v[i])
  }

  /** The tables in the scripts, and what reading the operator's file guarantees of its values. */
  ghost predicate Fit(plan: Plan) {
    && plan.wanted != []
    && (forall i, j :: 0 <= i < j < |plan.wanted| ==> plan.wanted[i].key != plan.wanted[j].key)
    && (forall w :: w in plan.wanted ==> Name(w.key) && Word(w.value) && w.key !in plan.retired && w.key != BODY_LIMIT)
    && (forall k :: k in plan.retired ==> Name(k) && k != BODY_LIMIT)
  }

  function SettingLine(w: Setting): string {
    w.key + "=" + w.value
  }

  // ---- The rewrite, line by line ----------------------------------------------------------------

  predicate Retires(plan: Plan, l: Line) {
    KeyOf(l.body).Some? && KeyOf(l.body).value in plan.retired
  }

  /** The new value of the setting the line is for, if it is for a wanted one. */
  function Wanted(plan: Plan, l: Line): Option<Setting> {
    if Retires(plan, l) || KeyOf(l.body).None? then None
    else
      match Lookup(plan.wanted, KeyOf(l.body).value)
      case None => None
      case Some(v) => Some(Setting(KeyOf(l.body).value, v))
  }

  function Rewrite(plan: Plan, l: Line, newline: string): Line {
    match Wanted(plan, l)
    case None => l
    case Some(w) => Line(SettingLine(w), if l.ending == "" then newline else l.ending)
  }

  function Rewritten(plan: Plan, lines: seq<Line>, newline: string): seq<Line> {
    if lines == [] then []
    else
      var l := lines[|lines| - 1];
      Rewritten(plan, lines[..|lines| - 1], newline) + if Retires(plan, l) then [] else [Rewrite(plan, l, newline)]
  }

  /** The wanted keys the file sets already. */
  function Seen(plan: Plan, lines: seq<Line>): set<string> {
    set l | l in lines && Wanted(plan, l).Some? :: Wanted(plan, l).value.key
  }

  /** Some wanted key is set by two lines. */
  predicate SetTwice(plan: Plan, lines: seq<Line>) {
    exists i, j ::
      0 <= i < j < |lines| && Wanted(plan, lines[i]).Some? && Wanted(plan, lines[i]) == Wanted(plan, lines[j])
  }

  predicate EndsLine(s: string) {
    s != "" && s[|s| - 1] == '\n'
  }

  function Ended(lines: seq<Line>, newline: string): seq<Line> {
    if lines == [] || EndsLine(lines[|lines| - 1].ending) then lines
    else
      var last := lines[|lines| - 1];
      lines[..|lines| - 1] + [last.(ending := last.ending + newline)]
  }

  function Added(wanted: seq<Setting>, seen: set<string>, newline: string): seq<Line> {
    if wanted == [] then []
    else
      var w := wanted[|wanted| - 1];
      Added(wanted[..|wanted| - 1], seen, newline) + if w.key in seen then [] else [Line(SettingLine(w), newline)]
  }

  predicate HasCrLf(s: string) {
    exists i :: 0 <= i < |s| - 1 && s[i] == '\r' && s[i + 1] == '\n'
  }

  function Newline(s: string): (newline: string)
    ensures newline == "\r\n" || newline == "\n"
  {
    if HasCrLf(s) then "\r\n" else "\n"
  }

  function DraftLines(plan: Plan, old_: string): seq<Line> {
    var lines, newline := SplitLines(old_), Newline(old_);
    Ended(Rewritten(plan, lines, newline), newline) + Added(plan.wanted, Seen(plan, lines), newline)
  }

  // ---- The body limit ---------------------------------------------------------------------------

  /** Replaces the limit's setting wherever it stands at the start of the text or after a line feed, up to
      the next line break. `start` says whether `s` begins at such a place. */
  function RaisedText(s: string, start: bool): string
    decreases |s|
  {
    if s == "" then ""
    else if LineBreak(s[0]) then [s[0]] + RaisedText(s[1..], s[0] == '\n')
    else
      var n := RunLength(s, LineBreak);
      RaisedBody(s[..n], start) + RaisedText(s[n..], false)
  }

  function RaisedBody(body: string, start: bool): string {
    if start && Sets(body, BODY_LIMIT) then BODY_LIMIT + "=" + NEW_LIMIT else body
  }

  function UpgradeEnv(content: string): Result<string, ()> {
    match EnvValue(content, BODY_LIMIT)
    case Err(_) => Err(())
    case Ok(value) => Ok(if value == Some(OLD_LIMIT) then RaisedText(content, true) else content)
  }

  // ---- The checks -------------------------------------------------------------------------------

  /** No retired setting is read back, the app is `waveform`, and the required secrets have values. */
  predicate Accepted(plan: Plan, content: string) {
    && (forall k :: k in plan.retired ==> EnvValue(content, k) == Ok(None))
    && EnvValue(content, "WAVEFORM_APP_ID") in {Ok(None), Ok(Some("")), Ok(Some("waveform"))}
    && (forall k :: k in plan.required ==>
          EnvValue(content, k).Ok? && EnvValue(content, k).value.Some? && EnvValue(content, k).value.value != "")
  }

  /** The final text, when there is one. */
  function Checked(plan: Plan, draft: string): Result<string, ()> {
    match UpgradeEnv(draft)
    case Err(_) => Err(())
    case Ok(content) => if Accepted(plan, content) then Ok(content) else Err(())
  }

  function Cutover(plan: Plan, old_: string): Result<string, ()> {
    if SetTwice(plan, SplitLines(old_)) then Err(()) else Checked(plan, Join(DraftLines(plan, old_)))
  }

  /** The loop over the lines there are: drops, rewrites or keeps each one. */
  method RewriteLines(plan: Plan, all: seq<Line>, newline: string)
    returns (result: Result<seq<Line>, ()>, seen: set<string>)
    ensures result.Err? <==> SetTwice(plan, all)
    ensures result.Ok? ==> result.value == Rewritten(plan, all, newline) && seen == Seen(plan, all)
  {
    seen := {};
    var lines: seq<Line> := [];
    for i := 0 to |all|
      invariant lines == Rewritten(plan, all[..i], newline)
      invariant seen == Seen(plan, all[..i])
      invariant !SetTwice(plan, all[..i])
    {
      assert all[..i + 1] == all[..i] + [all[i]];
      SeenGrows(plan, all[..i], all[i]);
      if Retires(plan, all[i]) {
        continue;
      }
      var w := Wanted(plan, all[i]);
      if w.Some? {
        if w.value.key in seen {
          TwiceStays(plan, all, i + 1);
          return Err(()), seen;
        }
        seen := seen + {w.value.key};
        lines := lines + [Line(SettingLine(w.value), if all[i].ending == "" then newline else all[i].ending)];
      } else {
        lines := lines + [all[i]];
      }
    }
    assert all[..|all|] == all;
    result := Ok(lines);
  }

  method AddMissing(plan: Plan, lines: seq<Line>, seen: set<string>, newline: string) returns (all: seq<Line>)
    ensures all == lines + Added(plan.wanted, seen, newline)
  {
    all := lines;
    for i := 0 to |plan.wanted|
      invariant all == lines + Added(plan.wanted[..i], seen, newline)
    {
      assert plan.wanted[..i + 1][..i] == plan.wanted[..i];
      if plan.wanted[i].key !in seen {
        all := all + [Line(SettingLine(plan.wanted[i]), newline)];
      }
    }
    assert plan.wanted[..|plan.wanted|] == plan.wanted;
  }

  method CutoverEnv(plan: Plan, old_: string) returns (result: Result<string, ()>)
    ensures result == Cutover(plan, old_)
  {
    var newline := Newline(old_);
    var rewritten, seen := RewriteLines(plan, SplitLines(old_), newline);
    if rewritten.Err? {
      return Err(());
    }
    var lines := rewritten.value;
    if lines != [] && !EndsLine(lines[|lines| - 1].ending) {
      var last := lines[|lines| - 1];
      lines := lines[..|lines| - 1] + [last.(ending := last.ending + newline)];
    }
    lines := AddMissing(plan, lines, seen, newline);
    result := Checked(plan, Join(lines));
  }

  lemma SeenGrows(plan: Plan, lines: seq<Line>, l: Line)
    ensures Seen(plan, lines + [l])
            == Seen(plan, lines) + if Wanted(plan, l).Some? then {Wanted(plan, l).value.key} else {}
    ensures SetTwice(plan, lines + [l]) <==>
      SetTwice(plan, lines) || (Wanted(plan, l).Some? && Wanted(plan, l).value.key in Seen(plan, lines))
  {
    var all := lines + [l];
    assert forall x :: x in all <==> x in lines || x == l;
    if SetTwice(plan, lines) {
      assert all[..|lines|] == lines;
      TwiceStays(plan, all, |lines|);
    } else if Wanted(plan, l).Some? && Wanted(plan, l).value.key in Seen(plan, lines) {
      var x :| x in lines && Wanted(plan, x).Some? && Wanted(plan, x).value.key == Wanted(plan, l).value.key;
      SameKeySameSetting(plan, x, l);
      SecondIsTwice(plan, lines, x, l);
    } else {
      NewIsOnce(plan, lines, l);
    }
  }

  lemma SecondIsTwice(plan: Plan, lines: seq<Line>, x: Line, l: Line)
    requires x in lines && Wanted(plan, x).Some? && Wanted(plan, x) == Wanted(plan, l)
    ensures SetTwice(plan, lines + [l])
  {
    var i :| 0 <= i < |lines| && lines[i] == x;
    var all := lines + [l];
    assert all[i] == x && all[|lines|] == l;
  }

  lemma NewIsOnce(plan: Plan, lines: seq<Line>, l: Line)
    requires !SetTwice(plan, lines)
    requires Wanted(plan, l).Some? ==> forall x :: x in lines && Wanted(plan, x).Some? ==>
      Wanted(plan, x).value.key != Wanted(plan, l).value.key
    ensures !SetTwice(plan, lines + [l])
  {
    var all := lines + [l];
    forall i, j | 0 <= i < j < |all| && Wanted(plan, all[i]).Some?
      ensures Wanted(plan, all[i]) != Wanted(plan, all[j])
    {
      assert all[i] == lines[i] && lines[i] in lines;
      if j < |lines| {
        assert all[j] == lines[j];
      }
    }
  }

  lemma SameKeySameSetting(plan: Plan, a: Line, b: Line)
    requires Wanted(plan, a).Some? && Wanted(plan, b).Some? && Wanted(plan, a).value.key == Wanted(plan, b).value.key
    ensures Wanted(plan, a) == Wanted(plan, b)
  {
  }

  lemma TwiceStays(plan: Plan, lines: seq<Line>, n: nat)
    requires n <= |lines| && SetTwice(plan, lines[..n])
    ensures SetTwice(plan, lines)
  {
    var some := lines[..n];
    var i, j :| 0 <= i < j < n && Wanted(plan, some[i]).Some? && Wanted(plan, some[i]) == Wanted(plan, some[j]);
    assert lines[i] == some[i] && lines[j] == some[j];
  }
}
