/**
The tables `link-identities` works on, and the command's statements over them: one transaction that
links row by row, folds the settings of the linked keys, and commits or rolls back as a whole.
*/
module LinkDatabase {
  import opened Wrappers
  import opened LinkIdentities
  import opened LinkLaws

  ghost predicate Promised(vault: Option<Vault>, s: Storage, p: Provider, rows: Secrets, now: int,
                           target: Secrets, can: bool) {
    && SecretDue(rows)
    && target == FoldedSecret(vault, s, p, rows, now)
    && can == Resealed(vault, s, p, rows).Some?
  }

  class Database {
    var keys: map<Account, KeyRow>
    var accounts: map<Account, AccountRow>
    var links: map<Principal, LinkRow>
    var fences: map<Account, Fence>
    var settings: map<Storage, Settings>
    const facts: Facts

    function Identities(): Core
      reads this
    {
      Core(keys, accounts, links, fences)
    }

    function Seen(): View
      reads this
    {
      View(settings, facts)
    }

    method MarkLink(row: Row, s: Storage, now: int)
      modifies this`links
      ensures links == Marked(old(links), row, s, now)
    {
      if row.principal in links {
        var link := links[row.principal];
        var at := if link.account == Some(row.account) then link.linkedAt else None;
        links := links[row.principal := link.(account := Some(row.account),
                                              linkedAt := if at.Some? then at else Some(now))];
      } else {
        links := links[row.principal := LinkRow(None, s, Some(row.account), Some(now))];
      }
    }

    /** Takes the key back from the account this command gave it to, keeping that account fenced. */
    method Unlink(other: Account)
      requires other in keys && keys[other].source == ByThisCommand
      modifies this`keys, this`accounts, this`fences
      ensures Identities() == Unlinked(old(Identities()), other)
    {
      if other in accounts && (accounts[other].revokedBefore.Some? || accounts[other].deletedAt.Some?) {
        var row := accounts[other];
        var before := if row.revokedBefore.Some? then row.revokedBefore.value else row.deletedAt.value;
        var reason := if row.revokedReason.Some? then row.revokedReason.value else AccountDeleted;
        if other in fences {
          var fence := fences[other];
          fences := fences[other := Fence(Later(fence.revokedBefore, before), fence.reason,
                                          if fence.deletedAt.Some? then fence.deletedAt else row.deletedAt)];
        } else {
          fences := fences[other := Fence(before, reason, row.deletedAt)];
        }
      }
      accounts := accounts - {other};
      keys := keys - {other};
    }

    /** Gives the key to the row's account: a merge when the account has another one, else a new row. */
    method ClaimKey(row: Row, s: Storage, kind: Kind, publicId: Option<PublicId>, options: Options, now: int)
      returns (outcome: Result<bool, Refusal>)
      modifies this`keys, this`accounts, this`links
      ensures (Identities(), outcome) == Claim(old(Identities()), Seen(), row, s, kind, publicId, options, now)
    {
      var account := row.account;
      if account in keys && keys[account].storage != s {
        if LinkedElsewhere(links, account, s) {
          return Err(LinkedToAnotherIdentity);
        }
        if !options.merge {
          return Err(NeedsMerge);
        }
        if KeyHasData(Seen(), keys[account].storage) {
          return Err(HasItsOwnData);
        }
        keys := keys[account := KeyRow(s, keys[account].kind, ByThisCommand)];
        MarkLink(row, s, now);
        return Ok(true);
      }
      if account !in keys {
        keys := keys[account := KeyRow(s, kind, ByThisCommand)];
      }
      if account !in accounts {
        accounts := accounts[account := NewAccount(kind, publicId)];
      }
      MarkLink(row, s, now);
      return Ok(true);
    }

    method LinkOne(row: Row, s: Storage, kind: Kind, publicId: Option<PublicId>, options: Options, now: int)
      returns (outcome: Result<bool, Refusal>)
      requires Unique(keys)
      modifies this`keys, this`accounts, this`links, this`fences
      ensures (Identities(), outcome) == Linked(old(Identities()), Seen(), row, s, kind, publicId, options, now)
      ensures Unique(keys) && NotLowered(old(Identities()), Identities())
    {
      LinkedKeepsUnique(Identities(), Seen(), row, s, kind, publicId, options, now);
      LinkedKeepsFences(Identities(), Seen(), row, s, kind, publicId, options, now);
      var holder := Holder(keys, s);
      if holder.Some? {
        var other := holder.value;
        if other == row.account {
          MarkLink(row, s, now);
          return Ok(false);
        }
        if !(options.relink && keys[other].source == ByThisCommand) {
          return Err(HeldByAnother);
        }
        if UsedSince(Identities(), Seen(), s, other) {
          return Err(UsedSinceLinked);
        }
        Unlink(other);
      }
      outcome := ClaimKey(row, s, kind, publicId, options, now);
    }

    /** One provider's rows, with its newest key sealed for the account when that works. */
    method ReSealOne(vault: Option<Vault>, s: Storage, p: Provider, rows: Secrets, now: int,
                     ghost target: Secrets, ghost can: bool)
      returns (after: Secrets, ok: bool)
      requires Promised(vault, s, p, rows, now, target, can)
      ensures after == target && ok == can
    {
      var cipher := Resealed(vault, s, p, rows);
      if cipher.None? {
        return rows, false;
      }
      return rows.(own := Some(Secret(cipher.value, now))), true;
    }

    /** Works off the providers that are due; `target` is where each of them should end up. */
    method ReSealEach(vault: Option<Vault>, s: Storage, rows: map<Provider, Secrets>, due: set<Provider>,
                      now: int, ghost target: map<Provider, Secrets>, ghost can: set<Provider>)
      returns (secrets: map<Provider, Secrets>, resealed: set<Provider>, skipped: set<Provider>)
      requires due <= rows.Keys == target.Keys && can <= due
      requires forall p :: p in due ==> Promised(vault, s, p, rows[p], now, target[p], p in can)
      requires forall p :: p in rows && p !in due ==> target[p] == rows[p]
      ensures secrets == target && resealed == can && skipped == due - can
    {
      var todo := due;
      secrets, resealed, skipped := rows, {}, {};
      while todo != {}
        invariant todo <= due
        invariant secrets.Keys == rows.Keys
        invariant forall p :: p in secrets ==> secrets[p] == if p in todo then rows[p] else target[p]
        invariant resealed == can - todo && skipped == (due - can) - todo
      {
        var p :| p in todo;
        assert Promised(vault, s, p, rows[p], now, target[p], p in can);
        var after, ok := ReSealOne(vault, s, p, rows[p], now, target[p], p in can);
        OneLess(can, todo, p);
        OneLess(due - can, todo, p);
        todo := todo - {p};
        secrets := secrets[p := after];
        if ok {
          resealed := resealed + {p};
        } else {
          skipped := skipped + {p};
        }
      }
      assert secrets == target by {
        assert secrets.Keys == target.Keys;
        assert forall p :: p in secrets ==> secrets[p] == target[p];
      }
    }

    /** Re-seals the newest key of every provider that has no account-wide one. */
    method ReSeal(vault: Option<Vault>, s: Storage, x: Settings, now: int)
      returns (secrets: map<Provider, Secrets>, resealed: set<Provider>, skipped: set<Provider>)
      ensures secrets == Folded(vault, s, x, now).secrets
      ensures resealed == Resealable(vault, s, x) && skipped == Due(x) - Resealable(vault, s, x)
    {
      secrets, resealed, skipped :=
        ReSealEach(vault, s, x.secrets, Due(x), now, Folded(vault, s, x, now).secrets, Resealable(vault, s, x));
    }

    method Consolidate(vault: Option<Vault>, s: Storage, report: Report, now: int) returns (after: Report)
      modifies this`settings
      ensures settings == FoldAll(vault, old(settings), [s], now)
      ensures after == FoldedCounts(report, vault, s, SettingsOf(old(settings), s))
    {
      FoldOne(vault, settings, s, now);
      NothingToCount(report, vault, s);
      if s !in settings {
        return report;
      }
      var x, counts := Fold(vault, s, settings[s], report, now);
      settings := settings[s := x];
      return counts;
    }

    /** The statements of one key's consolidation, over its own rows. */
    method Fold(vault: Option<Vault>, s: Storage, x: Settings, report: Report, now: int)
      returns (after: Settings, counts: Report)
      ensures after == Folded(vault, s, x, now) && counts == FoldedCounts(report, vault, s, x)
    {
      var folded := 0;
      var own := x.own;
      if PrefsDue(x) {
        own := Some(x.legacy[NewestOf(PrefAges(x.legacy))]);
        folded := 1;
      }
      var secrets, resealed, skipped := ReSeal(vault, s, x, now);
      var open := OpenGrants(x);
      var grants := map g | g in x.grants :: if g in open then Some(now) else x.grants[g];
      assert grants == Folded(vault, s, x, now).grants;
      after := Settings(own, x.legacy, secrets, grants);
      counts := Tallied(report, folded, |resealed|, |skipped|, |open|);
    }

    /** One row of the mapping: who the principal was, the checks against earlier rows, and the link. */
    method Apply(p: Progress, row: Row, options: Options, now: int) returns (q: Progress)
      requires Unique(keys) && p.core == Identities()
      modifies this`keys, this`accounts, this`links, this`fences
      ensures q == Advanced(p, Seen(), row, options, now) && q.core == Identities()
    {
      var legacy := LegacyKey(links, Seen(), row.principal);
      if legacy.NoData? {
        return p.(report := p.report.(unmatched := p.report.unmatched + [row.principal]));
      }
      if legacy.UnknownKind? {
        return Conflict(p, row, UnknownKindOf);
      }
      var s := legacy.storage;
      q := p.(sources := p.sources[row.account := s]);
      if row.account in p.sources && p.sources[row.account] != s {
        return Conflict(q, row, AccountHasTwoSources);
      }
      q := q.(targets := q.targets[s := row.account]);
      if s in p.targets && p.targets[s] != row.account {
        return Conflict(q, row, KeyHasTwoTargets);
      }
      var outcome := LinkOne(row, s, legacy.kind, legacy.publicId, options, now);
      q := Counted(q, row, s, (Identities(), outcome));
    }

    method LinkRows(rows: seq<Row>, options: Options, now: int) returns (p: Progress)
      requires Unique(keys)
      modifies this`keys, this`accounts, this`links, this`fences
      ensures p == Walk(Start(old(Identities()), |rows|, options), Seen(), rows, options, now)
      ensures p.core == Identities() && Unique(keys)
    {
      ghost var start := Start(Identities(), |rows|, options);
      p := Start(Identities(), |rows|, options);
      for i := 0 to |rows|
        invariant p == Walk(start, Seen(), rows[..i], options, now)
        invariant p.core == Identities() && Unique(keys)
      {
        assert rows[..i + 1][..i] == rows[..i];
        RowKeepsUnique(p, Seen(), rows[i], options, now);
        p := Apply(p, rows[i], options, now);
      }
      assert rows[..|rows|] == rows;
    }

    method ConsolidateAll(vault: Option<Vault>, linked: seq<Storage>, report: Report, now: int) returns (after: Report)
      requires Differ(linked)
      modifies this`settings
      ensures settings == FoldAll(vault, old(settings), linked, now)
      ensures after == CountAll(report, vault, old(settings), linked)
    {
      after := report;
      for i := 0 to |linked|
        invariant settings == FoldAll(vault, old(settings), linked[..i], now)
        invariant after == CountAll(report, vault, old(settings), linked[..i])
      {
        assert linked[..i + 1] == linked[..i] + [linked[i]];
        FoldMore(vault, old(settings), linked[..i], linked[i], now);
        CountMore(report, vault, old(settings), linked[..i], linked[i]);
        after := Consolidate(vault, linked[i], after, now);
      }
      assert linked[..|linked|] == linked;
    }

    /** The command: one transaction over all rows, rolled back on any conflict and on a dry run. */
    method LinkAll(vault: Option<Vault>, rows: seq<Row>, options: Options, now: int) returns (report: Report)
      requires Unique(keys)
      modifies this
      ensures report == Ran(old(Identities()), old(Seen()), vault, rows, options, now).0
      ensures options.dryRun || report.conflicts != [] ==>
        Identities() == old(Identities()) && settings == old(settings)
      ensures Identities() ==
        if options.dryRun then old(Identities()) else Ran(old(Identities()), old(Seen()), vault, rows, options, now).1
      ensures settings ==
        if options.dryRun then old(settings) else Ran(old(Identities()), old(Seen()), vault, rows, options, now).2
      // Storage keys stay private, no fence is lowered, and a committed run holds every row.
      ensures Unique(keys) && NotLowered(old(Identities()), Identities())
      ensures report.conflicts == [] && !options.dryRun ==> forall r :: r in rows ==> RowHolds(Identities(), Seen(), r)
    {
      var before, unfolded := Identities(), settings;
      RunLaws(before, Seen(), vault, rows, options, now);
      var p := LinkRows(rows, options, now);
      if p.report.conflicts != [] {
        Restore(before, unfolded);
        return p.report;
      }
      LinkedKeysDiffer(Start(before, |rows|, options), Seen(), rows, options, now);
      CountingKeepsTheRest(p.report, vault, settings, p.linkedKeys);
      report := ConsolidateAll(vault, p.linkedKeys, p.report, now);
      if options.dryRun {
        Restore(before, unfolded);
      }
    }

    method Restore(before: Core, unfolded: map<Storage, Settings>)
      modifies this
      ensures Identities() == before && settings == unfolded
    {
      keys, accounts, links, fences := before.keys, before.accounts, before.links, before.fences;
      settings := unfolded;
    }
  }

  /** What the laws say of a run from the given tables. */
  lemma RunLaws(c: Core, view: View, vault: Option<Vault>, rows: seq<Row>, options: Options, now: int)
    requires Unique(c.keys)
    ensures var (report, after, settings) := Ran(c, view, vault, rows, options, now);
      && Unique(after.keys) && NotLowered(c, after) && NotLowered(c, c)
      && (report.conflicts == [] ==> forall r :: r in rows ==> RowHolds(after, View(settings, view.facts), r))
  {
    var start := Start(c, |rows|, options);
    var p := Walk(start, view, rows, options, now);
    SameLevels(c, c);
    FencesOnlyRise(start, view, rows, options, now);
    CountingKeepsTheRest(p.report, vault, view.settings, p.linkedKeys);
    if p.report.conflicts == [] {
      CommittedRowsHold(c, view, vault, rows, options, now);
    }
  }

  lemma OneLess(some: set<Provider>, todo: set<Provider>, p: Provider)
    requires p in todo
    ensures some - (todo - {p}) == (some - todo) + if p in some then {p} else {}
  {
  }

  lemma FoldMore(vault: Option<Vault>, settings: map<Storage, Settings>, some: seq<Storage>, s: Storage, now: int)
    requires s !in some
    ensures FoldAll(vault, FoldAll(vault, settings, some, now), [s], now) == FoldAll(vault, settings, some + [s], now)
    ensures SettingsOf(FoldAll(vault, settings, some, now), s) == SettingsOf(settings, s)
  {
    var mid, all := FoldAll(vault, settings, some, now), FoldAll(vault, settings, some + [s], now);
    forall k | k in settings ensures FoldAll(vault, mid, [s], now)[k] == all[k] {
      assert k in some + [s] <==> k in some || k == s;
    }
  }

  lemma CountMore(r: Report, vault: Option<Vault>, settings: map<Storage, Settings>, some: seq<Storage>, s: Storage)
    ensures CountAll(r, vault, settings, some + [s])
            == FoldedCounts(CountAll(r, vault, settings, some), vault, s, SettingsOf(settings, s))
  {
    assert (some + [s])[..|some|] == some;
  }

  ghost predicate Differ(keys: seq<Storage>) {
    forall i, j :: 0 <= i < j < |keys| ==> keys[i] != keys[j]
  }

  lemma RowAddsKeyOnce(p: Progress, view: View, row: Row, options: Options, now: int)
    requires Unique(p.core.keys) && Differ(p.linkedKeys)
    ensures Differ(Advanced(p, view, row, options, now).linkedKeys)
  {
    var legacy := LegacyKey(p.core.links, view, row.principal);
    if legacy.Found? {
      var keys := Advanced(p, view, row, options, now).linkedKeys;
      assert keys == p.linkedKeys || keys == WithKey(p.linkedKeys, legacy.storage);
    }
  }

  lemma {:induction false} LinkedKeysDiffer(p: Progress, view: View, rows: seq<Row>, options: Options, now: int)
    requires Unique(p.core.keys) && p.linkedKeys == []
    ensures Differ(Walk(p, view, rows, options, now).linkedKeys)
  {
    if rows != [] {
      LinkedKeysDiffer(p, view, rows[..|rows| - 1], options, now);
      RowAddsKeyOnce(Walk(p, view, rows[..|rows| - 1], options, now), view, rows[|rows| - 1], options, now);
    }
  }

  lemma FoldOne(vault: Option<Vault>, settings: map<Storage, Settings>, s: Storage, now: int)
    ensures FoldAll(vault, settings, [s], now)
            == if s in settings then settings[s := Folded(vault, s, settings[s], now)] else settings
  {
  }

  lemma NothingToCount(report: Report, vault: Option<Vault>, s: Storage)
    ensures FoldedCounts(report, vault, s, NO_SETTINGS) == report
  {
    assert Due(NO_SETTINGS) == {} && OpenGrants(NO_SETTINGS) == {};
    assert Resealable(vault, s, NO_SETTINGS) == {};
    assert Due(NO_SETTINGS) - Resealable(vault, s, NO_SETTINGS) == {};
  }
}
