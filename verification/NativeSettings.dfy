/**
The settings the cutover really works with: the retired keys, the keys an operator may set and what
reading the operator's file guarantees of them, the defaults, and the keys that must have a value. With
them every result about the rewrite of `native.env` applies to every run of the tool.
*/
module NativeSettings {
  import opened Wrappers
  import opened EnvText
  import opened NativeEnv
  import opened NativeKeys
  import opened NativeEnvShape
  import opened NativeEnvLaws
  import opened NativeEnvReading

  const DEFAULT_SETTINGS: seq<Setting> := [
    Setting("ACCOUNTS_URL", "https://accounts.teamofsilicons.com"),
    Setting("WAVEFORM_BRIEFCASE_APP_ID", "briefcase")]

  predicate Control(c: char) {
    c as int < 0x20 || c as int == 0x7f
  }

  /** What reading the operator's file of new settings lets through. */
  predicate FromOperator(accounts: seq<Setting>) {
    && (forall i, j :: 0 <= i < j < |accounts| ==> accounts[i].key != accounts[j].key)
    && (forall w :: w in accounts ==>
          w.key in ACCOUNTS_KEYS && Word(w.value) && forall i :: 0 <= i < |w.value| ==> !Control(w.value[i]))
    && Lookup(accounts, "WAVEFORM_APP_SECRET").Some? && Lookup(accounts, "WAVEFORM_ACCOUNTS_WEBHOOK_SECRET").Some?
    && |Lookup(accounts, "WAVEFORM_APP_SECRET").value| >= 32
    && (forall w :: w in accounts && w.key in HOOK_KEYS ==> "whsec_" <= w.value)
    && (forall w :: w in accounts && w.key in ORIGIN_KEYS ==> "https://" <= w.value)
    && (forall w :: w in accounts && w.key == "WAVEFORM_APP_ID" ==> w.value == "waveform")
    && (forall w :: w in accounts && w.key == "WAVEFORM_BRIEFCASE_APP_ID" ==> w.value != "waveform")
  }

  /** A dictionary updated with another setting: in place when the key is there, else at the end. */
  function Updated(settings: seq<Setting>, w: Setting): seq<Setting> {
    if settings == [] then [w]
    else if settings[0].key == w.key then [w] + settings[1..]
    else [settings[0]] + Updated(settings[1..], w)
  }

  function UpdatedAll(settings: seq<Setting>, more: seq<Setting>): seq<Setting> {
    if more == [] then settings else Updated(UpdatedAll(settings, more[..|more| - 1]), more[|more| - 1])
  }

  function Program(accounts: seq<Setting>): Plan {
    Plan(RETIRED_KEYS, UpdatedAll(DEFAULT_SETTINGS, accounts), NEEDED_KEYS)
  }

  // ---- Every operator's settings fit ------------------------------------------------------------

  ghost predicate OneEach(settings: seq<Setting>) {
    forall i, j :: 0 <= i < j < |settings| ==> settings[i].key != settings[j].key
  }

  lemma {:induction false} UpdatedIs(settings: seq<Setting>, w: Setting)
    requires OneEach(settings)
    ensures OneEach(Updated(settings, w)) && w in Updated(settings, w)
    ensures forall x :: x in Updated(settings, w) ==> x == w || (x in settings && x.key != w.key)
    ensures forall x :: x in settings && x.key != w.key ==> x in Updated(settings, w)
  {
    if settings != [] && settings[0].key != w.key {
      var rest := settings[1..];
      assert OneEach(rest);
      UpdatedIs(rest, w);
      assert forall x :: x in settings <==> x == settings[0] || x in rest;
      forall x | x in rest ensures x.key != settings[0].key {
        var i :| 0 <= i < |rest| && rest[i] == x;
        assert settings[i + 1] == x;
      }
    } else if settings != [] {
      forall x | x in settings[1..] ensures x.key != w.key {
        var i :| 0 <= i < |settings| - 1 && settings[i + 1] == x;
      }
    }
  }

  lemma {:induction false} UpdatedAllIs(settings: seq<Setting>, more: seq<Setting>)
    requires OneEach(settings) && OneEach(more)
    ensures OneEach(UpdatedAll(settings, more)) && (settings != [] ==> UpdatedAll(settings, more) != [])
    ensures forall x :: x in UpdatedAll(settings, more) ==> x in settings || x in more
    ensures forall x :: x in more ==> x in UpdatedAll(settings, more)
  {
    if more != [] {
      var before, w := more[..|more| - 1], more[|more| - 1];
      UpdatedAllIs(settings, before);
      UpdatedIs(UpdatedAll(settings, before), w);
      assert more == before + [w];
      forall x | x in before ensures x.key != w.key {
        var i :| 0 <= i < |before| && before[i] == x;
        assert more[i] == x;
      }
    }
  }

  lemma {:induction false} UpdatedAllKeeps(settings: seq<Setting>, more: seq<Setting>, x: Setting)
    requires OneEach(settings) && OneEach(more) && x in settings && forall m :: m in more ==> m.key != x.key
    ensures x in UpdatedAll(settings, more)
  {
    if more != [] {
      var before, w := more[..|more| - 1], more[|more| - 1];
      assert forall m :: m in before ==> m in more;
      UpdatedAllKeeps(settings, before, x);
      UpdatedAllIs(settings, before);
      UpdatedIs(UpdatedAll(settings, before), w);
    }
  }

  lemma AccountsUrlIsAWord()
    ensures Word("https://accounts.teamofsilicons.com")
  {
  }

  lemma BriefcaseIsAWord()
    ensures Word("briefcase")
  {
  }

  lemma DefaultsAreWords()
    ensures forall w :: w in DEFAULT_SETTINGS ==> Word(w.value)
  {
    AccountsUrlIsAWord();
    BriefcaseIsAWord();
  }

  lemma DefaultsAreAccountsKeys()
    ensures forall w :: w in DEFAULT_SETTINGS ==> w.key in ACCOUNTS_KEYS
  {
    assert ACCOUNTS_KEYS[0] == "ACCOUNTS_URL" && ACCOUNTS_KEYS[9] == "WAVEFORM_BRIEFCASE_APP_ID";
  }

  lemma DefaultsAreOneEach()
    ensures OneEach(DEFAULT_SETTINGS)
  {
    assert "ACCOUNTS_URL"[0] != "WAVEFORM_BRIEFCASE_APP_ID"[0];
  }

  lemma ProgramIs(accounts: seq<Setting>)
    requires OneEach(accounts)
    ensures var wanted := Program(accounts).wanted;
      && OneEach(wanted) && wanted != []
      && (forall x :: x in wanted ==> x in DEFAULT_SETTINGS || x in accounts)
      && (forall x :: x in accounts ==> x in wanted)
  {
    DefaultsAreOneEach();
    UpdatedAllIs(DEFAULT_SETTINGS, accounts);
  }

  /** The operator's settings are all written, and a default exactly when the operator does not set its key. */
  lemma ProgramMeans(accounts: seq<Setting>, w: Setting)
    requires OneEach(accounts)
    ensures w in Program(accounts).wanted <==>
      w in accounts || (w in DEFAULT_SETTINGS && forall m :: m in accounts ==> m.key != w.key)
  {
    DefaultsAreOneEach();
    ProgramIs(accounts);
    if w in DEFAULT_SETTINGS && forall m :: m in accounts ==> m.key != w.key {
      UpdatedAllKeeps(DEFAULT_SETTINGS, accounts, w);
    }
    var wanted := Program(accounts).wanted;
    if w in wanted && w !in accounts {
      forall m | m in accounts ensures m.key != w.key {
        var i :| 0 <= i < |wanted| && wanted[i] == m;
        var j :| 0 <= j < |wanted| && wanted[j] == w;
      }
    }
  }

  /** Whatever the operator's file holds, what it lets through meets the assumptions of the rewrite. */
  lemma ProgramFits(accounts: seq<Setting>)
    requires FromOperator(accounts)
    ensures Fit(Program(accounts))
  {
    DefaultsAreWords();
    DefaultsAreAccountsKeys();
    ProgramIs(accounts);
    AccountsKeysAreNames();
    AccountsKeysAreNotRetired();
    RetiredKeysAreNames();
    RetiredKeysAreNotTheLimit();
  }

  /** For every run of the tool: a wanted setting reads back from the new file if and only if its value
      is not in quotes and no line of the old file that stays hides its key; and doing it again changes
      nothing. */
  lemma ProgramReadsBack(accounts: seq<Setting>, old_: string, w: Setting)
    requires FromOperator(accounts) && w in Program(accounts).wanted && Cutover(Program(accounts), old_).Ok?
    ensures EnvValue(Cutover(Program(accounts), old_).value, w.key) == Ok(Some(w.value)) <==>
      Unquoted(w.value) == w.value && !HiddenBefore(Program(accounts), old_, w.key)
    ensures Cutover(Program(accounts), Cutover(Program(accounts), old_).value) == Cutover(Program(accounts), old_)
  {
    ProgramFits(accounts);
    ReadBackIsWanted(Program(accounts), old_, w);
    RewritingAgainChangesNothing(Program(accounts), old_);
  }
}
