/**
Two files the cutover takes, with settings the tool accepts, after which a new setting does not read back.
*/
module NativeExamples {
  import opened Wrappers
  import opened EnvText
  import opened NativeEnv
  import opened NativeEnvShape
  import opened NativeEnvLaws
  import opened NativeEnvReading
  import opened NativeKeys
  import opened NativeSettings

  /** A file of the earlier sign-in: its app id, the key secrets are sealed with, the address to bind, and
      after a break only the reader knows perhaps another setting. */
  datatype OldFile = OldFile(earlier: Setting, seal: Setting, bind: Setting, rest: Option<Setting>)

  const VERTICAL_TAB := 0x0b as char

  function Broken(a: string, tab: char, b: string): string {
    a + [tab] + b
  }

  function LastBody(old_: OldFile): string {
    match old_.rest
    case None => SettingLine(old_.bind)
    case Some(w) => Broken(SettingLine(old_.bind), VERTICAL_TAB, SettingLine(w))
  }

  function OldLines(old_: OldFile): seq<Line> {
    [Line(SettingLine(old_.earlier), "\n"), Line(SettingLine(old_.seal), "\n"), Line(LastBody(old_), "\n")]
  }

  /** An operator's file: the two secrets and the apps whose proofs are taken. */
  function NewSettings(secret: string, hook: string, issuers: string): seq<Setting> {
    [Setting(SECRET, secret), Setting(HOOK, hook), Setting(ISSUERS, issuers)]
  }

  // ---- The settings -----------------------------------------------------------------------------

  predicate Printable(v: string) {
    Word(v) && forall i :: 0 <= i < |v| ==> !Control(v[i])
  }

  predicate Secrets(secret: string, hook: string) {
    Printable(secret) && |secret| >= 32 && Printable(hook) && "whsec_" <= hook
  }

  lemma FirstIsFound(settings: seq<Setting>)
    requires settings != []
    ensures Lookup(settings, settings[0].key) == Some(settings[0].value)
  {
  }

  lemma SecretsAreFound(secret: string, hook: string, issuers: string)
    ensures Lookup(NewSettings(secret, hook, issuers), SECRET) == Some(secret)
    ensures Lookup(NewSettings(secret, hook, issuers), HOOK) == Some(hook)
  {
    var settings := NewSettings(secret, hook, issuers);
    KeysDiffer();
    assert settings[1..] == [Setting(HOOK, hook), Setting(ISSUERS, issuers)];
    FirstIsFound(settings);
    FirstIsFound(settings[1..]);
  }

  lemma ToolAccepts(secret: string, hook: string, issuers: string)
    requires Secrets(secret, hook) && Printable(issuers)
    ensures FromOperator(NewSettings(secret, hook, issuers))
  {
    KeysDiffer();
    KeysAreNotOrigins();
    KeysAreAccountsKeys();
    KeysAreNotHooks();
    SecretsAreFound(secret, hook, issuers);
    assert forall w :: w in NewSettings(secret, hook, issuers) ==>
      w == Setting(SECRET, secret) || w == Setting(HOOK, hook) || w == Setting(ISSUERS, issuers);
  }

  // ---- The old file -----------------------------------------------------------------------------

  lemma {:induction false} LinesOfJoin(lines: seq<Line>)
    requires forall l :: l in lines ==> Plain(l.body, LineBreak) && l.ending == "\n"
    ensures SplitLines(Join(lines)) == lines
  {
    if lines != [] {
      var l, rest := lines[0], Join(lines[1..]);
      FirstOfJoin(l, rest);
      LinesOfJoin(lines[1..]);
      SplitsOff(l.body + l.ending + rest);
    }
  }

  lemma SplitsOff(s: string)
    requires s != ""
    ensures SplitLines(s) == [FirstLine(s)] + SplitLines(s[LineEnd(s)..])
  {
  }

  lemma FirstOfJoin(l: Line, rest: string)
    requires Plain(l.body, LineBreak) && l.ending == "\n"
    ensures var s := l.body + l.ending + rest; s != "" && FirstLine(s) == l && s[LineEnd(s)..] == rest
  {
    var s, n := l.body + l.ending + rest, |l.body|;
    assert s[..n] == l.body && s[n] == '\n';
    RunLengthIs(s, n, LineBreak);
    assert LineEnd(s) == n + 1 && s[n..n + 1] == "\n";
  }

  predicate Fits(w: Setting) {
    Name(w.key) && Word(w.value)
  }

  predicate Shaped(old_: OldFile) {
    Fits(old_.earlier) && Fits(old_.seal) && Fits(old_.bind) && (old_.rest.Some? ==> Fits(old_.rest.value))
  }

  lemma BrokenRuns(a: string, tab: char, b: string)
    requires ReaderBreak(tab)
    ensures Runs(Broken(a, tab, b), ReaderBreak) == Runs(a, ReaderBreak) + Runs(b, ReaderBreak)
  {
    assert Broken(a, tab, b) == (a + [tab]) + b;
    RunsSplit(a + [tab], b, ReaderBreak);
    RunsSplit(a, [tab], ReaderBreak);
    assert [tab][1..] == [] && Runs([tab], ReaderBreak) == [];
  }

  lemma BrokenSets(a: string, tab: char, b: string, key: string)
    requires Sets(a, key)
    ensures Sets(Broken(a, tab, b), key)
  {
    assert a <= Broken(a, tab, b);
  }

  lemma BrokenIsPlain(a: string, tab: char, b: string)
    requires Plain(a, LineBreak) && Plain(b, LineBreak) && !LineBreak(tab)
    ensures Plain(Broken(a, tab, b), LineBreak)
  {
  }

  /** A line that goes on after such a break sets one key for the rewriter and two for the reader. */
  lemma BrokenLineReads(first: Setting, tab: char, second: Setting, key: string)
    requires Fits(first) && Fits(second) && Name(key) && ReaderBreak(tab) && !LineBreak(tab)
    ensures var body := Broken(SettingLine(first), tab, SettingLine(second));
      && KeyOf(body) == Some(first.key) && Plain(body, LineBreak)
      && Values(body, key) == Values(SettingLine(first), key) + Values(SettingLine(second), key)
  {
    var a, b := SettingLine(first), SettingLine(second);
    SettingReads(first, first.key);
    SettingReads(second, second.key);
    SetsMeansKey(a, first.key);
    BrokenSets(a, tab, b, first.key);
    SetsMeansKey(Broken(a, tab, b), first.key);
    BrokenIsPlain(a, tab, b);
    BrokenRuns(a, tab, b);
    ValuesInConcat(Runs(a, ReaderBreak), Runs(b, ReaderBreak), key);
  }

  function ValuesSet(w: Setting, key: string): seq<string> {
    if w.key == key then [Unquoted(w.value)] else []
  }

  lemma LastBodyReads(old_: OldFile, key: string)
    requires Shaped(old_) && Name(key)
    ensures KeyOf(LastBody(old_)) == Some(old_.bind.key) && Plain(LastBody(old_), LineBreak)
    ensures Values(LastBody(old_), key)
            == ValuesSet(old_.bind, key) + if old_.rest.Some? then ValuesSet(old_.rest.value, key) else []
  {
    SettingReads(old_.bind, key);
    if old_.rest.Some? {
      SettingReads(old_.rest.value, key);
      BrokenLineReads(old_.bind, VERTICAL_TAB, old_.rest.value, key);
    }
  }

  // ---- What stays of it -------------------------------------------------------------------------

  lemma OldLinesSplit(old_: OldFile)
    requires Shaped(old_)
    ensures SplitLines(Join(OldLines(old_))) == OldLines(old_)
  {
    SettingReads(old_.earlier, old_.earlier.key);
    SettingReads(old_.seal, old_.seal.key);
    LastBodyReads(old_, old_.bind.key);
    LinesOfJoin(OldLines(old_));
  }

  /** The plan drops the first line and has no new setting for the other two. */
  ghost predicate LeavesTwo(plan: Plan, old_: OldFile) {
    && old_.earlier.key in plan.retired && old_.seal.key !in plan.retired && old_.bind.key !in plan.retired
    && forall w :: w in plan.wanted ==> w.key != old_.seal.key && w.key != old_.bind.key
  }

  lemma LinesAre(plan: Plan, old_: OldFile)
    requires Shaped(old_) && LeavesTwo(plan, old_)
    ensures var lines := OldLines(old_);
      && Retires(plan, lines[0]) && !Retires(plan, lines[1]) && !Retires(plan, lines[2])
      && Wanted(plan, lines[0]).None? && Wanted(plan, lines[1]).None? && Wanted(plan, lines[2]).None?
  {
    SettingReads(old_.earlier, old_.earlier.key);
    SettingReads(old_.seal, old_.seal.key);
    LastBodyReads(old_, old_.bind.key);
  }

  lemma TwoStay(plan: Plan, a: Line, b: Line, c: Line)
    requires Retires(plan, a) && !Retires(plan, b) && !Retires(plan, c)
    requires Wanted(plan, a).None? && Wanted(plan, b).None? && Wanted(plan, c).None?
    ensures !SetTwice(plan, [a, b, c]) && Others(plan, [a, b, c]) == [b, c] && Kept(plan, [a, b, c]) == [b, c]
  {
    OthersGrow(plan, [], a);
    OthersGrow(plan, [a], b);
    OthersGrow(plan, [a, b], c);
    assert [] + [a] == [a] && [a] + [b] == [a, b] && [a, b] + [c] == [a, b, c];
    KeptGrows(plan, [], a);
    KeptGrows(plan, [a], b);
    KeptGrows(plan, [a, b], c);
  }

  lemma KeptGrows(plan: Plan, lines: seq<Line>, l: Line)
    ensures Kept(plan, lines + [l]) == Kept(plan, lines) + if Retires(plan, l) then [] else [l]
  {
    assert (lines + [l])[..|lines|] == lines;
  }

  lemma TwoLinesRead(a: Line, b: Line, key: string)
    ensures LineValues([a, b], key) == Values(a.body, key) + Values(b.body, key)
  {
    LineValuesGrow([], a, key);
    LineValuesGrow([a], b, key);
    assert [] + [a] == [a] && [a] + [b] == [a, b];
  }

  lemma OldFileReads(plan: Plan, old_: OldFile, key: string)
    requires Shaped(old_) && LeavesTwo(plan, old_) && Name(key)
    ensures var lines := SplitLines(Join(OldLines(old_)));
      && !SetTwice(plan, lines) && Kept(plan, lines) == [OldLines(old_)[1], OldLines(old_)[2]]
      && LineValues(Others(plan, lines), key) == ValuesSet(old_.seal, key) + Values(LastBody(old_), key)
  {
    var lines := OldLines(old_);
    OldLinesSplit(old_);
    LinesAre(plan, old_);
    TwoStay(plan, lines[0], lines[1], lines[2]);
    TwoLinesRead(lines[1], lines[2], key);
    SettingReads(old_.seal, key);
  }

  // ---- Whether it is taken ----------------------------------------------------------------------

  ghost predicate SetsKey(old_: OldFile, key: string) {
    old_.seal.key == key || old_.bind.key == key || (old_.rest.Some? && old_.rest.value.key == key)
  }

  lemma NotSetIsUnset(plan: Plan, old_: OldFile, key: string)
    requires Shaped(old_) && LeavesTwo(plan, old_) && Name(key) && !SetsKey(old_, key)
    requires forall w :: w in plan.wanted ==> w.key != key
    ensures Unset(plan, Join(OldLines(old_)), key)
  {
    OldFileReads(plan, old_, key);
    LastBodyReads(old_, key);
  }

  lemma NoLimitReads(plan: Plan, old_: OldFile)
    requires Shaped(old_) && LeavesTwo(plan, old_) && !SetsKey(old_, BODY_LIMIT)
    ensures !LimitReads(plan, Join(OldLines(old_)))
  {
    LimitIsASetting();
    OldFileReads(plan, old_, BODY_LIMIT);
    LastBodyReads(old_, BODY_LIMIT);
  }

  lemma HiddenInTwo(plan: Plan, text: string, a: Line, b: Line, key: string)
    requires Kept(plan, SplitLines(text)) == [a, b] && !LimitReads(plan, text)
    requires Wanted(plan, a).None? && Wanted(plan, b).None? && Values(a.body, key) == []
    ensures HiddenBefore(plan, text, key) <==> Values(b.body, key) != []
  {
    var kept := Kept(plan, SplitLines(text));
    assert HidesAt(plan, text, kept, 1, key) <==> Values(b.body, key) != [];
    assert !HidesAt(plan, text, kept, 0, key);
  }

  /** A new setting is hidden exactly when the last line goes on with its key. */
  lemma HiddenOnlyThere(plan: Plan, old_: OldFile, w: Setting)
    requires Fit(plan) && Shaped(old_) && LeavesTwo(plan, old_) && w in plan.wanted && !SetsKey(old_, BODY_LIMIT)
    ensures HiddenBefore(plan, Join(OldLines(old_)), w.key) <==> old_.rest.Some? && old_.rest.value.key == w.key
  {
    var lines := OldLines(old_);
    NoLimitReads(plan, old_);
    OldFileReads(plan, old_, w.key);
    LinesAre(plan, old_);
    SettingReads(old_.seal, w.key);
    LastBodyReads(old_, w.key);
    HiddenInTwo(plan, Join(lines), lines[1], lines[2], w.key);
  }

  lemma SealHasValue(plan: Plan, old_: OldFile)
    requires Shaped(old_) && LeavesTwo(plan, old_) && old_.bind.key != old_.seal.key && Unquoted(old_.seal.value) != ""
    requires old_.rest.Some? ==> old_.rest.value.key != old_.seal.key
    ensures HasValue(plan, Join(OldLines(old_)), old_.seal.key)
  {
    OldFileReads(plan, old_, old_.seal.key);
    LastBodyReads(old_, old_.seal.key);
    assert LineValues(Others(plan, SplitLines(Join(OldLines(old_)))), old_.seal.key) == [Unquoted(old_.seal.value)];
  }

  // ---- The keys at hand -------------------------------------------------------------------------

  lemma StorageIsWanted(secret: string, hook: string, issuers: string)
    requires Secrets(secret, hook) && Printable(issuers)
    ensures Setting(STORAGE, "briefcase") in Program(NewSettings(secret, hook, issuers)).wanted
  {
    ToolAccepts(secret, hook, issuers);
    KeysAreNotHooks();
    DefaultsAreOneEach();
    assert DEFAULT_SETTINGS[1] == Setting(STORAGE, "briefcase");
    UpdatedAllKeeps(DEFAULT_SETTINGS, NewSettings(secret, hook, issuers), Setting(STORAGE, "briefcase"));
  }

  lemma WantedKeys(secret: string, hook: string, issuers: string)
    requires Secrets(secret, hook) && Printable(issuers)
    ensures var wanted := Program(NewSettings(secret, hook, issuers)).wanted;
      && Setting(SECRET, secret) in wanted && Setting(HOOK, hook) in wanted && Setting(ISSUERS, issuers) in wanted
      && forall w :: w in wanted ==> w.key in {SECRET, HOOK, ISSUERS, STORAGE, "ACCOUNTS_URL"}
  {
    var accounts := NewSettings(secret, hook, issuers);
    ToolAccepts(secret, hook, issuers);
    ProgramIs(accounts);
    assert accounts[0] in accounts && accounts[1] in accounts && accounts[2] in accounts;
  }

  // ---- Taken, and not read back -----------------------------------------------------------------

  /** The old file of the examples, perhaps with a setting of Briefcase's app id after a vertical tab. */
  function Example(hides: bool): OldFile {
    OldFile(EARLIER, SEAL, BIND, if hides then Some(Setting(STORAGE, "z")) else None)
  }

  lemma ExampleIsShaped(hides: bool)
    ensures Shaped(Example(hides))
  {
    EarlierIsAName();
    SealIsAName();
    BindIsAName();
    StorageKeysAreNames();
    assert Word("z");
  }

  lemma TwoAreLeft(plan: Plan, hides: bool)
    requires plan.retired == RETIRED_KEYS
    requires forall w :: w in plan.wanted ==> w.key in {SECRET, HOOK, ISSUERS, STORAGE, "ACCOUNTS_URL"}
    ensures LeavesTwo(plan, Example(hides))
  {
    EarlierIsRetired();
    SealIsNotRetired();
    BindIsNotRetired();
    OldKeysAreNotWanted();
  }

  lemma SecretsHaveValues(secret: string, hook: string)
    requires Secrets(secret, hook)
    ensures Unquoted(secret) != "" && Unquoted(hook) != ""
  {
  }

  lemma NeededKeysHaveValues(plan: Plan, old_: string, secret: string, hook: string)
    requires plan.required == NEEDED_KEYS && Secrets(secret, hook)
    requires Setting(SECRET, secret) in plan.wanted && Setting(HOOK, hook) in plan.wanted
    requires !HiddenBefore(plan, old_, SECRET) && !HiddenBefore(plan, old_, HOOK) && HasValue(plan, old_, SEAL.key)
    ensures forall k :: k in plan.required ==> HasValue(plan, old_, k)
  {
    SecretsHaveValues(secret, hook);
    assert HasValue(plan, old_, Setting(SECRET, secret).key) && HasValue(plan, old_, Setting(HOOK, hook).key);
    assert NEEDED_KEYS == [SECRET, HOOK, SEAL.key];
  }

  lemma RetiredKeysAreUnset(plan: Plan, hides: bool)
    requires Fit(plan) && plan.retired == RETIRED_KEYS && LeavesTwo(plan, Example(hides)) && Shaped(Example(hides))
    ensures forall k :: k in plan.retired ==> Unset(plan, Join(OldLines(Example(hides))), k)
  {
    RetiredKeysAreNames();
    FolderKeysAreNotRetired();
    forall k | k in plan.retired ensures Unset(plan, Join(OldLines(Example(hides))), k) {
      NotSetIsUnset(plan, Example(hides), k);
    }
  }

  lemma CheckedKeysAreUnset(plan: Plan, hides: bool)
    requires Fit(plan) && LeavesTwo(plan, Example(hides)) && Shaped(Example(hides))
    requires forall w :: w in plan.wanted ==> w.key in {SECRET, HOOK, ISSUERS, STORAGE, "ACCOUNTS_URL"}
    ensures Unset(plan, Join(OldLines(Example(hides))), BODY_LIMIT)
    ensures Unset(plan, Join(OldLines(Example(hides))), "WAVEFORM_APP_ID")
  {
    LimitIsASetting();
    AppKeysAreNames();
    CheckedKeysAreNotSet();
    NotSetIsUnset(plan, Example(hides), BODY_LIMIT);
    NotSetIsUnset(plan, Example(hides), "WAVEFORM_APP_ID");
  }

  /** Only Briefcase's app id can be hidden. */
  lemma OnlyStorageHides(plan: Plan, hides: bool)
    requires Fit(plan) && Shaped(Example(hides)) && LeavesTwo(plan, Example(hides))
    ensures forall w :: w in plan.wanted ==>
      (HiddenBefore(plan, Join(OldLines(Example(hides))), w.key) <==> hides && w.key == STORAGE)
  {
    CheckedKeysAreNotSet();
    forall w | w in plan.wanted
      ensures HiddenBefore(plan, Join(OldLines(Example(hides))), w.key) <==> hides && w.key == STORAGE
    {
      HiddenOnlyThere(plan, Example(hides), w);
    }
  }

  lemma ExamplePasses(plan: Plan, hides: bool, secret: string, hook: string)
    requires Fit(plan) && plan.retired == RETIRED_KEYS && plan.required == NEEDED_KEYS && Secrets(secret, hook)
    requires forall w :: w in plan.wanted ==> w.key in {SECRET, HOOK, ISSUERS, STORAGE, "ACCOUNTS_URL"}
    requires Setting(SECRET, secret) in plan.wanted && Setting(HOOK, hook) in plan.wanted
    requires Shaped(Example(hides)) && LeavesTwo(plan, Example(hides))
    ensures Cutover(plan, Join(OldLines(Example(hides)))).Ok?
  {
    var old_ := Join(OldLines(Example(hides)));
    CheckedKeysAreUnset(plan, hides);
    RetiredKeysAreUnset(plan, hides);
    OnlyStorageHides(plan, hides);
    SealKeyDiffers();
    assert !HiddenBefore(plan, old_, Setting(SECRET, secret).key) && !HiddenBefore(plan, old_, Setting(HOOK, hook).key);
    SealHasValue(plan, Example(hides));
    NeededKeysHaveValues(plan, old_, secret, hook);
    OldFileReads(plan, Example(hides), BIND.key);
    PlainFileIsTaken(plan, old_);
  }

  /** The tool takes the settings and the file. */
  lemma ExampleIsTaken(secret: string, hook: string, issuers: string, hides: bool)
    requires Secrets(secret, hook) && Printable(issuers)
    ensures var plan, old_ := Program(NewSettings(secret, hook, issuers)), Join(OldLines(Example(hides)));
      && Fit(plan) && Cutover(plan, old_).Ok?
      && (forall w :: w in plan.wanted ==> (HiddenBefore(plan, old_, w.key) <==> hides && w.key == STORAGE))
  {
    var plan := Program(NewSettings(secret, hook, issuers));
    ToolAccepts(secret, hook, issuers);
    ProgramFits(NewSettings(secret, hook, issuers));
    WantedKeys(secret, hook, issuers);
    ExampleIsShaped(hides);
    TwoAreLeft(plan, hides);
    OnlyStorageHides(plan, hides);
    ExamplePasses(plan, hides, secret, hook);
  }

  /** A value the tool accepts in quotes of its own reads back without them. */
  lemma QuotedValueReadsBare(secret: string, hook: string)
    requires Secrets(secret, hook)
    ensures var accounts, old_ := NewSettings(secret, hook, "'x'"), Join(OldLines(Example(false)));
      && FromOperator(accounts) && Cutover(Program(accounts), old_).Ok?
      && EnvValue(Cutover(Program(accounts), old_).value, ISSUERS) == Ok(Some("x"))
  {
    assert Printable("'x'") && Unquoted("'x'") == "x";
    ToolAccepts(secret, hook, "'x'");
    WantedKeys(secret, hook, "'x'");
    ExampleIsTaken(secret, hook, "'x'", false);
    var plan, old_ := Program(NewSettings(secret, hook, "'x'")), Join(OldLines(Example(false)));
    assert Setting(ISSUERS, "'x'") in plan.wanted;
    ReadBack(plan, old_, Setting(ISSUERS, "'x'"));
  }

  /** A setting behind a vertical tab, on a line that stays, makes the new one unreadable. */
  lemma HiddenSettingCannotBeRead(secret: string, hook: string, issuers: string)
    requires Secrets(secret, hook) && Printable(issuers)
    ensures var accounts, old_ := NewSettings(secret, hook, issuers), Join(OldLines(Example(true)));
      && FromOperator(accounts) && Setting(STORAGE, "briefcase") in Program(accounts).wanted
      && Cutover(Program(accounts), old_).Ok?
      && EnvValue(Cutover(Program(accounts), old_).value, STORAGE) == Err(())
  {
    ToolAccepts(secret, hook, issuers);
    StorageIsWanted(secret, hook, issuers);
    ExampleIsTaken(secret, hook, issuers, true);
    var plan, old_ := Program(NewSettings(secret, hook, issuers)), Join(OldLines(Example(true)));
    ReadBack(plan, old_, Setting(STORAGE, "briefcase"));
  }

  /** Both files are ones the tool takes for the earlier sign-in's. */
  lemma ExampleIsEarlier(hides: bool)
    ensures EnvValue(Join(OldLines(Example(hides))), "WAVEFORM_IAM_APP_ID") == Ok(Some("waveform"))
  {
    ExampleIsShaped(hides);
    EarlierKeyDiffers();
    EarlierReads(Example(hides));
  }

  lemma EarlierReads(old_: OldFile)
    requires Shaped(old_) && !SetsKey(old_, old_.earlier.key)
    ensures EnvValue(Join(OldLines(old_)), old_.earlier.key) == Ok(Some(Unquoted(old_.earlier.value)))
  {
    var lines, key := OldLines(old_), old_.earlier.key;
    OldLinesSplit(old_);
    SplitLinesProper(Join(lines));
    RunsOfJoin(lines);
    ValuesByLine(Join(lines), key);
    assert lines == [lines[0], lines[1]] + [lines[2]];
    LineValuesGrow([lines[0], lines[1]], lines[2], key);
    TwoLinesRead(lines[0], lines[1], key);
    SettingReads(old_.earlier, key);
    SettingReads(old_.seal, key);
    LastBodyReads(old_, key);
    OneValueReads(Join(lines), key, Unquoted(old_.earlier.value));
  }
}
