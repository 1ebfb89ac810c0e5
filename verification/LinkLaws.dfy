/**
What `link-identities` promises over all mappings: accounts and storage keys stay one to one, every
accepted row ends linked, nothing a signed-in account owns is taken away, no fence is lowered, and a
second run of a committed mapping changes nothing.
*/
module LinkLaws {
  import opened Wrappers
  import opened LinkIdentities

  // ---- One row ----------------------------------------------------------------------------------

  lemma AcceptedClaim(c: Core, view: View, row: Row, s: Storage, kind: Kind, publicId: Option<PublicId>,
                      options: Options, now: int)
    requires Claim(c, view, row, s, kind, publicId, options, now).1.Ok?
    ensures var after := Claim(c, view, row, s, kind, publicId, options, now).0;
      && row.account in after.keys && after.keys[row.account].storage == s
      && after.links == Marked(c.links, row, s, now)
      && forall a :: a in c.keys && a != row.account ==> a in after.keys && after.keys[a] == c.keys[a]
  {
  }

  /** An accepted row gives its account the key, marks the link, and leaves unrelated accounts alone. */
  lemma AcceptedRow(c: Core, view: View, row: Row, s: Storage, kind: Kind, publicId: Option<PublicId>,
                    options: Options, now: int)
    requires Unique(c.keys) && Linked(c, view, row, s, kind, publicId, options, now).1.Ok?
    ensures var after := Linked(c, view, row, s, kind, publicId, options, now).0;
      && row.account in after.keys && after.keys[row.account].storage == s
      && after.links == Marked(c.links, row, s, now)
      && forall a :: a in c.keys && a != row.account && c.keys[a].storage != s ==>
           a in after.keys && after.keys[a] == c.keys[a]
  {
    var holder := Holder(c.keys, s);
    if holder.None? {
      AcceptedClaim(c, view, row, s, kind, publicId, options, now);
    } else if holder.value != row.account {
      AcceptedClaim(Unlinked(c, holder.value), view, row, s, kind, publicId, options, now);
    }
  }

  lemma ClaimChangesOnlyIf(c: Core, view: View, row: Row, s: Storage, kind: Kind, publicId: Option<PublicId>,
                           options: Options, now: int, a: Account)
    requires a in c.keys
    ensures var after := Claim(c, view, row, s, kind, publicId, options, now).0;
      && a in after.keys
      && (after.keys[a] == c.keys[a]
          || (options.merge && a == row.account && c.keys[a].storage != s && !KeyHasData(view, c.keys[a].storage)
              && !LinkedElsewhere(c.links, a, s) && after.keys[a] == KeyRow(s, c.keys[a].kind, ByThisCommand)))
  {
  }

  /** A key row changes or disappears only under the flag, the origin and the disuse that allow it. */
  lemma KeysChangeOnlyIf(c: Core, view: View, row: Row, s: Storage, kind: Kind, publicId: Option<PublicId>,
                         options: Options, now: int, a: Account)
    requires Unique(c.keys) && a in c.keys
    ensures var after := Linked(c, view, row, s, kind, publicId, options, now).0;
      || (a in after.keys && after.keys[a] == c.keys[a])
      || (options.relink && a != row.account && c.keys[a].storage == s && c.keys[a].source == ByThisCommand
          && !UsedSince(c, view, s, a))
      || (options.merge && a == row.account && c.keys[a].storage != s && !KeyHasData(view, c.keys[a].storage)
          && !LinkedElsewhere(c.links, a, s)
          && a in after.keys && after.keys[a] == KeyRow(s, c.keys[a].kind, ByThisCommand))
  {
    var holder := Holder(c.keys, s);
    if holder.None? {
      ClaimChangesOnlyIf(c, view, row, s, kind, publicId, options, now, a);
    } else if holder.value != a && c.keys[holder.value].source == ByThisCommand {
      ClaimChangesOnlyIf(Unlinked(c, holder.value), view, row, s, kind, publicId, options, now, a);
    }
  }

  /** `at` is when the account was first linked to the key. */
  ghost predicate FirstLinked(links: map<Principal, LinkRow>, s: Storage, a: Account, at: int) {
    && (exists p :: p in links && links[p].storage == s && links[p].account == Some(a) && links[p].linkedAt == Some(at))
    && (forall p :: p in links && links[p].storage == s && links[p].account == Some(a) && links[p].linkedAt.Some? ==>
          at <= links[p].linkedAt.value)
  }

  /** A link counts as used exactly when something changed after its first link time. */
  lemma UsedMeansAfterFirstLink(c: Core, view: View, s: Storage, a: Account, first: int)
    requires FirstLinked(c.links, s, a, first)
    ensures UsedSince(c, view, s, a) <==> exists at :: at in Times(c, view, s, a) && first < at
  {
    var p :| p in c.links && c.links[p].storage == s && c.links[p].account == Some(a)
             && c.links[p].linkedAt == Some(first);
    if at :| at in Times(c, view, s, a) && first < at {
      assert p in c.links && at in Times(c, view, s, a);
    }
  }

  /** Something of the settings rows of a key is newer than the given time: its own or a former
      preference, its own or a former key of any provider. */
  predicate SettingsChangedAfter(x: Settings, first: int) {
    || (x.own.Some? && first < x.own.value.updatedAt)
    || (exists o :: o in x.legacy && first < x.legacy[o].updatedAt)
    || (exists p :: p in x.secrets && x.secrets[p].own.Some? && first < x.secrets[p].own.value.updatedAt)
    || (exists p, o :: p in x.secrets && o in x.secrets[p].legacy && first < x.secrets[p].legacy[o].updatedAt)
  }

  /** So is a job, a record, a proof or held audio of the key, a settings row of it, or the time the
      account's id or custodian changed. */
  predicate ChangedAfter(c: Core, view: View, s: Storage, a: Account, first: int) {
    || (s in view.facts.activity && exists at :: at in view.facts.activity[s] && first < at)
    || (s in view.settings && SettingsChangedAfter(view.settings[s], first))
    || (a in c.accounts && c.accounts[a].idChangedAt.Some? && first < c.accounts[a].idChangedAt.value)
    || (a in c.accounts && c.accounts[a].custodianChangedAt.Some? && first < c.accounts[a].custodianChangedAt.value)
  }

  lemma SettingsTimesAre(x: Settings, first: int)
    ensures (exists at :: at in SettingsTimes(x) && first < at) <==> SettingsChangedAfter(x, first)
  {
    if x.own.Some? && first < x.own.value.updatedAt {
      assert x.own.value.updatedAt in SettingsTimes(x);
    } else if o :| o in x.legacy && first < x.legacy[o].updatedAt {
      assert x.legacy[o].updatedAt in SettingsTimes(x);
    } else if p :| p in x.secrets && x.secrets[p].own.Some? && first < x.secrets[p].own.value.updatedAt {
      assert x.secrets[p].own.value.updatedAt in SettingsTimes(x);
    } else if p, o :| p in x.secrets && o in x.secrets[p].legacy && first < x.secrets[p].legacy[o].updatedAt {
      assert x.secrets[p].legacy[o].updatedAt in SettingsTimes(x);
    }
  }

  lemma TimesAre(c: Core, view: View, s: Storage, a: Account, first: int)
    ensures (exists at :: at in Times(c, view, s, a) && first < at) <==> ChangedAfter(c, view, s, a, first)
  {
    SettingsTimesAre(SettingsOf(view.settings, s), first);
    if at :| at in SettingsTimes(SettingsOf(view.settings, s)) && first < at {
      assert at in Times(c, view, s, a);
    }
    if s in view.facts.activity && exists at :: at in view.facts.activity[s] && first < at {
      var at :| at in view.facts.activity[s] && first < at;
      assert at in Times(c, view, s, a);
    }
    if a in c.accounts && c.accounts[a].idChangedAt.Some? && first < c.accounts[a].idChangedAt.value {
      assert c.accounts[a].idChangedAt.value in Times(c, view, s, a);
    }
    if a in c.accounts && c.accounts[a].custodianChangedAt.Some? && first < c.accounts[a].custodianChangedAt.value {
      assert c.accounts[a].custodianChangedAt.value in Times(c, view, s, a);
    }
  }

  /** A key this command gave to another account is taken back under relink unless something of the key
      or of that account changed after its first link; then the row is refused and no table changes. */
  lemma RelinkRefusedIff(c: Core, view: View, row: Row, s: Storage, kind: Kind, publicId: Option<PublicId>,
                         options: Options, now: int, other: Account, first: int)
    requires Unique(c.keys) && other in c.keys && c.keys[other].storage == s && other != row.account
    requires options.relink && c.keys[other].source == ByThisCommand && FirstLinked(c.links, s, other, first)
    ensures Linked(c, view, row, s, kind, publicId, options, now) == (c, Err(UsedSinceLinked))
            <==> ChangedAfter(c, view, s, other, first)
    ensures Linked(c, view, row, s, kind, publicId, options, now).1 == Err(UsedSinceLinked) ==>
      Linked(c, view, row, s, kind, publicId, options, now).0 == c
  {
    assert Holder(c.keys, s) == Some(other);
    UsedMeansAfterFirstLink(c, view, s, other, first);
    TimesAre(c, view, s, other, first);
  }

  /** A key that was never linked with a time counts as unused. */
  lemma UnlinkedIsUnused(c: Core, view: View, s: Storage, a: Account)
    requires forall p :: p in c.links && c.links[p].storage == s && c.links[p].account == Some(a) ==>
      c.links[p].linkedAt.None?
    ensures !UsedSince(c, view, s, a)
  {
  }

  /** When every reader of an account's tokens stops honouring them, from both tables. */
  function Level(c: Core, a: Account): Option<int> {
    var own := if a in c.accounts then c.accounts[a].revokedBefore else None;
    if a !in c.fences then own
    else if own.None? then Some(c.fences[a].revokedBefore)
    else Some(Later(own.value, c.fences[a].revokedBefore))
  }

  predicate Gone(c: Core, a: Account) {
    (a in c.accounts && c.accounts[a].deletedAt.Some?) || (a in c.fences && c.fences[a].deletedAt.Some?)
  }

  ghost predicate NotLowered(c: Core, d: Core) {
    && (forall a :: Level(c, a).Some? ==> Level(d, a).Some? && Level(d, a).value >= Level(c, a).value)
    && (forall a :: Gone(c, a) ==> Gone(d, a))
  }

  lemma StillNotLowered(c: Core, d: Core, e: Core)
    requires NotLowered(c, d) && NotLowered(d, e)
    ensures NotLowered(c, e)
  {
  }

  lemma SameLevels(c: Core, d: Core)
    requires forall a :: Level(d, a) == Level(c, a) && Gone(d, a) == Gone(c, a)
    ensures NotLowered(c, d)
  {
  }

  lemma UnlinkKeepsFences(c: Core, other: Account)
    requires other in c.keys && c.keys[other].source == ByThisCommand
    ensures NotLowered(c, Unlinked(c, other))
  {
    var d := Unlinked(c, other);
    forall a | a != other ensures Level(d, a) == Level(c, a) && Gone(d, a) == Gone(c, a) {
    }
  }

  /** A new cached account carries no revocation, so it changes nobody's level. */
  lemma ClaimKeepsLevel(c: Core, view: View, row: Row, s: Storage, kind: Kind, publicId: Option<PublicId>,
                        options: Options, now: int, a: Account)
    ensures var d := Claim(c, view, row, s, kind, publicId, options, now).0;
      Level(d, a) == Level(c, a) && Gone(d, a) == Gone(c, a)
  {
    var d := Claim(c, view, row, s, kind, publicId, options, now).0;
    assert d.fences == c.fences;
    assert a in c.accounts ==> a in d.accounts && d.accounts[a] == c.accounts[a];
    assert a !in c.accounts && a in d.accounts ==> d.accounts[a] == NewAccount(kind, publicId);
  }

  lemma ClaimKeepsFences(c: Core, view: View, row: Row, s: Storage, kind: Kind, publicId: Option<PublicId>,
                         options: Options, now: int)
    ensures NotLowered(c, Claim(c, view, row, s, kind, publicId, options, now).0)
  {
    var d := Claim(c, view, row, s, kind, publicId, options, now).0;
    forall a ensures Level(d, a) == Level(c, a) && Gone(d, a) == Gone(c, a) {
      ClaimKeepsLevel(c, view, row, s, kind, publicId, options, now, a);
    }
    SameLevels(c, d);
  }

  lemma LinkedKeepsFences(c: Core, view: View, row: Row, s: Storage, kind: Kind, publicId: Option<PublicId>,
                          options: Options, now: int)
    requires Unique(c.keys)
    ensures NotLowered(c, Linked(c, view, row, s, kind, publicId, options, now).0)
  {
    var after := Linked(c, view, row, s, kind, publicId, options, now).0;
    var holder := Holder(c.keys, s);
    if holder.None? {
      ClaimKeepsFences(c, view, row, s, kind, publicId, options, now);
    } else if after.accounts == c.accounts && after.fences == c.fences {
      SameLevels(c, after);
    } else {
      var freed := Unlinked(c, holder.value);
      UnlinkKeepsFences(c, holder.value);
      ClaimKeepsFences(freed, view, row, s, kind, publicId, options, now);
      StillNotLowered(c, freed, after);
    }
  }

  lemma RowKeepsFences(p: Progress, view: View, row: Row, options: Options, now: int)
    requires Unique(p.core.keys)
    ensures NotLowered(p.core, Advanced(p, view, row, options, now).core)
  {
    var legacy := LegacyKey(p.core.links, view, row.principal);
    var after := Advanced(p, view, row, options, now).core;
    if legacy.Found? {
      LinkedKeepsFences(p.core, view, row, legacy.storage, legacy.kind, legacy.publicId, options, now);
    }
    if after == p.core {
      SameLevels(p.core, after);
    }
  }

  /** No sequence of rows lowers the revocation or undoes the deletion of any account. */
  lemma {:induction false} FencesOnlyRise(p: Progress, view: View, rows: seq<Row>, options: Options, now: int)
    requires Unique(p.core.keys)
    ensures NotLowered(p.core, Walk(p, view, rows, options, now).core)
  {
    if rows == [] {
      SameLevels(p.core, p.core);
    } else {
      var before, row := rows[..|rows| - 1], rows[|rows| - 1];
      var q := Walk(p, view, before, options, now);
      FencesOnlyRise(p, view, before, options, now);
      RowKeepsFences(q, view, row, options, now);
      StillNotLowered(p.core, q.core, Advanced(q, view, row, options, now).core);
    }
  }

  lemma RowKeepsOwnData(p: Progress, view: View, row: Row, options: Options, now: int, a: Account)
    requires Unique(p.core.keys)
    requires a in p.core.keys && p.core.keys[a].source == Elsewhere && KeyHasData(view, p.core.keys[a].storage)
    ensures var q := Advanced(p, view, row, options, now);
      a in q.core.keys && q.core.keys[a] == p.core.keys[a]
  {
    var legacy := LegacyKey(p.core.links, view, row.principal);
    if legacy.Found? {
      KeysChangeOnlyIf(p.core, view, row, legacy.storage, legacy.kind, legacy.publicId, options, now, a);
    }
  }

  /** An account that signed in by itself and has data keeps its key, whatever the mapping says. */
  lemma {:induction false} OwnDataStays(p: Progress, view: View, rows: seq<Row>, options: Options, now: int, a: Account)
    requires Unique(p.core.keys)
    requires a in p.core.keys && p.core.keys[a].source == Elsewhere && KeyHasData(view, p.core.keys[a].storage)
    ensures var q := Walk(p, view, rows, options, now);
      a in q.core.keys && q.core.keys[a] == p.core.keys[a]
  {
    if rows != [] {
      var before, row := rows[..|rows| - 1], rows[|rows| - 1];
      OwnDataStays(p, view, before, options, now, a);
      RowKeepsOwnData(Walk(p, view, before, options, now), view, row, options, now, a);
    }
  }

  // ---- Who a principal was does not change while linking ----------------------------------------

  lemma MarkKeepsLegacy(links: map<Principal, LinkRow>, view: View, row: Row, s: Storage, now: int, p: Principal)
    requires LegacyKey(links, view, row.principal).Found? && LegacyKey(links, view, row.principal).storage == s
    ensures LegacyKey(Marked(links, row, s, now), view, p) == LegacyKey(links, view, p)
  {
  }

  ghost predicate SameLegacy(links: map<Principal, LinkRow>, after: map<Principal, LinkRow>, view: View) {
    forall p :: LegacyKey(after, view, p) == LegacyKey(links, view, p)
  }

  lemma RowKeepsLegacy(p: Progress, view: View, row: Row, options: Options, now: int)
    requires Unique(p.core.keys)
    ensures SameLegacy(p.core.links, Advanced(p, view, row, options, now).core.links, view)
  {
    var legacy := LegacyKey(p.core.links, view, row.principal);
    var after := Advanced(p, view, row, options, now).core.links;
    if legacy.Found? {
      LinksAreMarked(p.core, view, row, legacy.storage, legacy.kind, legacy.publicId, options, now);
      forall x ensures LegacyKey(after, view, x) == LegacyKey(p.core.links, view, x) {
        MarkKeepsLegacy(p.core.links, view, row, legacy.storage, now, x);
      }
    }
  }

  lemma ClaimMarks(c: Core, view: View, row: Row, s: Storage, kind: Kind, publicId: Option<PublicId>,
                   options: Options, now: int)
    ensures var after := Claim(c, view, row, s, kind, publicId, options, now).0.links;
      after == c.links || after == Marked(c.links, row, s, now)
  {
  }

  lemma LinksAreMarked(c: Core, view: View, row: Row, s: Storage, kind: Kind, publicId: Option<PublicId>,
                       options: Options, now: int)
    requires Unique(c.keys)
    ensures var after := Linked(c, view, row, s, kind, publicId, options, now).0.links;
      after == c.links || after == Marked(c.links, row, s, now)
  {
    var holder := Holder(c.keys, s);
    if holder.None? {
      ClaimMarks(c, view, row, s, kind, publicId, options, now);
    } else if holder.value != row.account && c.keys[holder.value].source == ByThisCommand {
      ClaimMarks(Unlinked(c, holder.value), view, row, s, kind, publicId, options, now);
    }
  }

  lemma {:induction false} WalkKeepsLegacy(p: Progress, view: View, rows: seq<Row>, options: Options, now: int)
    requires Unique(p.core.keys)
    ensures SameLegacy(p.core.links, Walk(p, view, rows, options, now).core.links, view)
  {
    if rows != [] {
      WalkKeepsLegacy(p, view, rows[..|rows| - 1], options, now);
      RowKeepsLegacy(Walk(p, view, rows[..|rows| - 1], options, now), view, rows[|rows| - 1], options, now);
    }
  }

  // ---- After a run without conflicts ------------------------------------------------------------

  /** The row's account uses the row's key, and the link says so. */
  ghost predicate RowHolds(c: Core, view: View, row: Row) {
    match LegacyKey(c.links, view, row.principal)
    case NoData => true
    case UnknownKind => false
    case Found(s, _, _) =>
      && row.account in c.keys && c.keys[row.account].storage == s
      && row.principal in c.links
      && c.links[row.principal].account == Some(row.account) && c.links[row.principal].linkedAt.Some?
  }

  ghost predicate RowRemembered(p: Progress, view: View, row: Row) {
    match LegacyKey(p.core.links, view, row.principal)
    case Found(s, _, _) =>
      && row.account in p.sources && p.sources[row.account] == s
      && s in p.targets && p.targets[s] == row.account
      && s in p.linkedKeys
    case _ => true
  }

  ghost predicate Settled(p: Progress, view: View, rows: seq<Row>) {
    forall r :: r in rows ==> RowHolds(p.core, view, r) && RowRemembered(p, view, r)
  }

  /** What a row that raised no conflict did to the run. */
  ghost predicate Accepts(p: Progress, q: Progress, row: Row, s: Storage, now: int) {
    && (row.account in p.sources ==> p.sources[row.account] == s)
    && (s in p.targets ==> p.targets[s] == row.account)
    && q.sources == p.sources[row.account := s] && q.targets == p.targets[s := row.account]
    && q.linkedKeys == WithKey(p.linkedKeys, s)
    && row.account in q.core.keys && q.core.keys[row.account].storage == s
    && q.core.links == Marked(p.core.links, row, s, now)
    && forall a :: a in p.core.keys && a != row.account && p.core.keys[a].storage != s ==>
         a in q.core.keys && q.core.keys[a] == p.core.keys[a]
  }

  lemma RowAccepts(p: Progress, view: View, row: Row, options: Options, now: int)
    requires Unique(p.core.keys) && Advanced(p, view, row, options, now).report.conflicts == []
    requires LegacyKey(p.core.links, view, row.principal).Found?
    ensures Accepts(p, Advanced(p, view, row, options, now), row,
                    LegacyKey(p.core.links, view, row.principal).storage, now)
  {
    var legacy := LegacyKey(p.core.links, view, row.principal);
    var outcome := Linked(p.core, view, row, legacy.storage, legacy.kind, legacy.publicId, options, now);
    assert outcome.1.Ok?;
    AcceptedRow(p.core, view, row, legacy.storage, legacy.kind, legacy.publicId, options, now);
  }

  lemma AcceptedSettles(p: Progress, q: Progress, view: View, row: Row, s: Storage, now: int)
    requires Accepts(p, q, row, s, now) && SameLegacy(p.core.links, q.core.links, view)
    requires LegacyKey(p.core.links, view, row.principal).Found?
    requires LegacyKey(p.core.links, view, row.principal).storage == s
    ensures RowHolds(q.core, view, row) && RowRemembered(q, view, row)
  {
    assert LegacyKey(q.core.links, view, row.principal) == LegacyKey(p.core.links, view, row.principal);
  }

  lemma AcceptedKeeps(p: Progress, q: Progress, view: View, row: Row, s: Storage, now: int, r: Row)
    requires Accepts(p, q, row, s, now) && SameLegacy(p.core.links, q.core.links, view)
    requires LegacyKey(p.core.links, view, row.principal).Found?
    requires LegacyKey(p.core.links, view, row.principal).storage == s
    requires RowHolds(p.core, view, r) && RowRemembered(p, view, r)
    ensures RowHolds(q.core, view, r) && RowRemembered(q, view, r)
  {
    assert LegacyKey(q.core.links, view, r.principal) == LegacyKey(p.core.links, view, r.principal);
  }

  lemma RowSettles(p: Progress, view: View, row: Row, options: Options, now: int)
    requires Unique(p.core.keys) && Advanced(p, view, row, options, now).report.conflicts == []
    ensures var q := Advanced(p, view, row, options, now);
      RowHolds(q.core, view, row) && RowRemembered(q, view, row)
  {
    RowKeepsLegacy(p, view, row, options, now);
    var legacy := LegacyKey(p.core.links, view, row.principal);
    if legacy.Found? {
      RowAccepts(p, view, row, options, now);
      AcceptedSettles(p, Advanced(p, view, row, options, now), view, row, legacy.storage, now);
    }
  }

  lemma EarlierRowStays(p: Progress, view: View, row: Row, options: Options, now: int, r: Row)
    requires Unique(p.core.keys) && Advanced(p, view, row, options, now).report.conflicts == []
    requires RowHolds(p.core, view, r) && RowRemembered(p, view, r)
    ensures var q := Advanced(p, view, row, options, now);
      RowHolds(q.core, view, r) && RowRemembered(q, view, r)
  {
    RowKeepsLegacy(p, view, row, options, now);
    var legacy := LegacyKey(p.core.links, view, row.principal);
    if legacy.Found? {
      RowAccepts(p, view, row, options, now);
      AcceptedKeeps(p, Advanced(p, view, row, options, now), view, row, legacy.storage, now, r);
    }
  }

  lemma ConflictsStay(p: Progress, view: View, row: Row, options: Options, now: int)
    requires Unique(p.core.keys) && Advanced(p, view, row, options, now).report.conflicts == []
    ensures p.report.conflicts == []
  {
  }

  lemma {:induction false} WalkSettles(p: Progress, view: View, rows: seq<Row>, options: Options, now: int)
    requires Unique(p.core.keys)
    requires Walk(p, view, rows, options, now).report.conflicts == []
    ensures p.report.conflicts == [] && Settled(Walk(p, view, rows, options, now), view, rows)
  {
    if rows != [] {
      var before, row := rows[..|rows| - 1], rows[|rows| - 1];
      var q := Walk(p, view, before, options, now);
      ConflictsStay(q, view, row, options, now);
      WalkSettles(p, view, before, options, now);
      RowSettles(q, view, row, options, now);
      forall r | r in before ensures RowHolds(Advanced(q, view, row, options, now).core, view, r)
                                  && RowRemembered(Advanced(q, view, row, options, now), view, r)
      {
        EarlierRowStays(q, view, row, options, now, r);
      }
      assert forall r :: r in rows ==> r in before || r == row;
    }
  }

  // ---- Running a committed mapping again --------------------------------------------------------

  lemma FoldKeepsHasSettings(vault: Option<Vault>, s: Storage, x: Settings, now: int)
    ensures HasSettings(Folded(vault, s, x, now)) == HasSettings(x)
  {
    var y := Folded(vault, s, x, now);
    assert forall p :: p in x.secrets ==> y.secrets[p].legacy == x.secrets[p].legacy;
    if p :| p in x.secrets && x.secrets[p].own.Some? {
      assert p in y.secrets && y.secrets[p].own.Some?;
    } else if p, o :| p in x.secrets && o in x.secrets[p].legacy {
      assert p in y.secrets && o in y.secrets[p].legacy;
    }
    if p :| p in y.secrets && y.secrets[p].own.Some? {
      assert p in x.secrets && (x.secrets[p].own.Some? || SecretDue(x.secrets[p]));
    }
  }

  /** Consolidation does not change who a principal was either. */
  lemma FoldKeepsLegacy(vault: Option<Vault>, view: View, linked: seq<Storage>, now: int,
                        links: map<Principal, LinkRow>, p: Principal)
    ensures LegacyKey(links, View(FoldAll(vault, view.settings, linked, now), view.facts), p)
            == LegacyKey(links, view, p)
  {
    var after := View(FoldAll(vault, view.settings, linked, now), view.facts);
    forall s ensures HasSettings(SettingsOf(after.settings, s)) == HasSettings(SettingsOf(view.settings, s)) {
      if s in view.settings {
        FoldKeepsHasSettings(vault, s, view.settings[s], now);
      }
    }
  }

  /** The principals the report lists as having no data. */
  function Unmatched(links: map<Principal, LinkRow>, view: View, rows: seq<Row>): seq<Principal> {
    if rows == [] then []
    else
      Unmatched(links, view, rows[..|rows| - 1])
      + if LegacyKey(links, view, rows[|rows| - 1].principal).NoData? then [rows[|rows| - 1].principal] else []
  }

  lemma {:induction false} ReportsUnmatched(p: Progress, view: View, rows: seq<Row>, options: Options, now: int)
    requires Unique(p.core.keys)
    ensures Walk(p, view, rows, options, now).report.unmatched
            == p.report.unmatched + Unmatched(p.core.links, view, rows)
  {
    if rows != [] {
      var before := rows[..|rows| - 1];
      ReportsUnmatched(p, view, before, options, now);
      WalkKeepsLegacy(p, view, before, options, now);
      RowReportsUnmatched(Walk(p, view, before, options, now), view, rows[|rows| - 1], options, now);
    }
  }

  lemma RowReportsUnmatched(p: Progress, view: View, row: Row, options: Options, now: int)
    requires Unique(p.core.keys)
    ensures Advanced(p, view, row, options, now).report.unmatched
            == p.report.unmatched + if LegacyKey(p.core.links, view, row.principal).NoData? then [row.principal] else []
  {
  }

  /** A row that already holds changes no table, whatever the options. */
  lemma HeldRowIsANoOp(p: Progress, view: View, row: Row, options: Options, now: int)
    requires Unique(p.core.keys) && RowHolds(p.core, view, row)
    requires forall a :: a in p.sources ==> a in p.core.keys && p.core.keys[a].storage == p.sources[a]
    requires forall s :: s in p.targets ==> p.targets[s] in p.core.keys && p.core.keys[p.targets[s]].storage == s
    ensures var q := Advanced(p, view, row, options, now);
      && q.core == p.core && q.report.conflicts == p.report.conflicts && q.report.linked == p.report.linked
      && q.report.alreadyLinked + |q.report.unmatched| == p.report.alreadyLinked + |p.report.unmatched| + 1
      && (forall a :: a in q.sources ==> a in q.core.keys && q.core.keys[a].storage == q.sources[a])
      && (forall s :: s in q.targets ==> q.targets[s] in q.core.keys && q.core.keys[q.targets[s]].storage == s)
      && (forall s :: s in q.linkedKeys ==> s in p.linkedKeys || KeyOf(p.core, view, row) == Some(s))
      && q.report.prefsConsolidated == p.report.prefsConsolidated && q.report.keysResealed == p.report.keysResealed
      && q.report.grantsInvalidated == p.report.grantsInvalidated
  {
    var legacy := LegacyKey(p.core.links, view, row.principal);
    if legacy.Found? {
      assert Holder(p.core.keys, legacy.storage) == Some(row.account);
      var link := p.core.links[row.principal];
      assert link.(account := Some(row.account), linkedAt := link.linkedAt) == link;
      assert Marked(p.core.links, row, legacy.storage, now) == p.core.links;
    }
  }

  function KeyOf(c: Core, view: View, row: Row): Option<Storage> {
    match LegacyKey(c.links, view, row.principal)
    case Found(s, _, _) => Some(s)
    case _ => None
  }

  /** Walking rows that all hold changes no table and reports every matched row as already linked. */
  lemma {:induction false} HeldRowsAreANoOp(c: Core, view: View, rows: seq<Row>, n: nat, options: Options, now: int)
    requires Unique(c.keys) && n <= |rows| && forall r :: r in rows ==> RowHolds(c, view, r)
    ensures var q := Walk(Start(c, |rows|, options), view, rows[..n], options, now);
      && q.core == c && q.report.conflicts == [] && q.report.linked == 0
      && q.report.alreadyLinked + |q.report.unmatched| == n
      && (forall a :: a in q.sources ==> a in c.keys && c.keys[a].storage == q.sources[a])
      && (forall s :: s in q.targets ==> q.targets[s] in c.keys && c.keys[q.targets[s]].storage == s)
      && (forall s :: s in q.linkedKeys ==> exists r :: r in rows && KeyOf(c, view, r) == Some(s))
      && q.report.prefsConsolidated == 0 && q.report.keysResealed == 0 && q.report.grantsInvalidated == 0
    decreases n
  {
    if n > 0 {
      HeldRowsAreANoOp(c, view, rows, n - 1, options, now);
      assert rows[..n][..n - 1] == rows[..n - 1];
      HeldRowIsANoOp(Walk(Start(c, |rows|, options), view, rows[..n - 1], options, now), view, rows[n - 1],
                     options, now);
    }
  }

  lemma FoldTwice(vault: Option<Vault>, s: Storage, x: Settings, now: int, later: int)
    ensures var y := Folded(vault, s, x, now);
      && Folded(vault, s, y, later) == y
      && !PrefsDue(y) && Resealable(vault, s, y) == {} && OpenGrants(y) == {}
  {
    var y := Folded(vault, s, x, now);
    forall p | p in y.secrets
      ensures FoldedSecret(vault, s, p, y.secrets[p], later) == y.secrets[p]
      ensures SecretDue(y.secrets[p]) ==> Resealed(vault, s, p, y.secrets[p]).None?
    {
    }
    assert Folded(vault, s, y, later).secrets == y.secrets;
    assert Folded(vault, s, y, later).grants == y.grants;
  }

  lemma FoldAllFolds(vault: Option<Vault>, settings: map<Storage, Settings>, linked: seq<Storage>, now: int, s: Storage)
    requires s in linked
    ensures SettingsOf(FoldAll(vault, settings, linked, now), s) == Folded(vault, s, SettingsOf(settings, s), now)
  {
    assert Folded(vault, s, NO_SETTINGS, now) == NO_SETTINGS;
  }

  /** Counting a key that was folded before adds nothing but the keys that cannot be sealed. */
  lemma CountsNothingFor(r: Report, vault: Option<Vault>, s: Storage, x: Settings, now: int)
    ensures var after := FoldedCounts(r, vault, s, Folded(vault, s, x, now));
      && after.prefsConsolidated == r.prefsConsolidated && after.keysResealed == r.keysResealed
      && after.grantsInvalidated == r.grantsInvalidated
  {
    FoldTwice(vault, s, x, now, now);
  }

  lemma {:induction false} CountsNothingNew(r: Report, vault: Option<Vault>, settings: map<Storage, Settings>,
                                            linked: seq<Storage>, again: seq<Storage>, now: int)
    requires forall s :: s in again ==> s in linked
    ensures var after := CountAll(r, vault, FoldAll(vault, settings, linked, now), again);
      && after.prefsConsolidated == r.prefsConsolidated && after.keysResealed == r.keysResealed
      && after.grantsInvalidated == r.grantsInvalidated
  {
    if again != [] {
      var before, last := again[..|again| - 1], again[|again| - 1];
      var folded := FoldAll(vault, settings, linked, now);
      CountsNothingNew(r, vault, settings, linked, before, now);
      FoldAllFolds(vault, settings, linked, now, last);
      CountsNothingFor(CountAll(r, vault, folded, before), vault, last, SettingsOf(settings, last), now);
    }
  }

  lemma FoldsNothingNew(vault: Option<Vault>, settings: map<Storage, Settings>, linked: seq<Storage>,
                        again: seq<Storage>, now: int, later: int)
    requires forall s :: s in again ==> s in linked
    ensures FoldAll(vault, FoldAll(vault, settings, linked, now), again, later) == FoldAll(vault, settings, linked, now)
  {
    var folded := FoldAll(vault, settings, linked, now);
    forall s | s in settings ensures FoldAll(vault, folded, again, later)[s] == folded[s] {
      if s in again {
        FoldTwice(vault, s, settings[s], now, later);
      }
    }
  }

  /** The tables a committed run left hold every row of its mapping. */
  lemma CommittedRowsHold(c: Core, view: View, vault: Option<Vault>, rows: seq<Row>, options: Options, now: int)
    requires Unique(c.keys)
    requires Walk(Start(c, |rows|, options), view, rows, options, now).report.conflicts == []
    ensures var p := Walk(Start(c, |rows|, options), view, rows, options, now);
      var folded := View(FoldAll(vault, view.settings, p.linkedKeys, now), view.facts);
      && (forall r :: r in rows ==> RowHolds(p.core, folded, r))
      && (forall r :: r in rows && KeyOf(p.core, folded, r).Some? ==> KeyOf(p.core, folded, r).value in p.linkedKeys)
  {
    var p := Walk(Start(c, |rows|, options), view, rows, options, now);
    WalkSettles(Start(c, |rows|, options), view, rows, options, now);
    var folded := View(FoldAll(vault, view.settings, p.linkedKeys, now), view.facts);
    forall x ensures LegacyKey(p.core.links, folded, x) == LegacyKey(p.core.links, view, x) {
      FoldKeepsLegacy(vault, view, p.linkedKeys, now, p.core.links, x);
    }
    assert forall r :: r in rows ==> RowHolds(p.core, view, r) && RowRemembered(p, view, r);
  }

  lemma {:induction false} SameUnmatched(links: map<Principal, LinkRow>, view: View,
                                         after: map<Principal, LinkRow>, later: View, rows: seq<Row>)
    requires forall x :: LegacyKey(after, later, x) == LegacyKey(links, view, x)
    ensures Unmatched(after, later, rows) == Unmatched(links, view, rows)
  {
    if rows != [] {
      SameUnmatched(links, view, after, later, rows[..|rows| - 1]);
    }
  }

  lemma RerunReportsTheSameUnmatched(c: Core, view: View, vault: Option<Vault>, rows: seq<Row>, options: Options,
                                     now: int, again: Options, later: int)
    requires Unique(c.keys)
    ensures var p := Walk(Start(c, |rows|, options), view, rows, options, now);
      var folded := View(FoldAll(vault, view.settings, p.linkedKeys, now), view.facts);
      Walk(Start(p.core, |rows|, again), folded, rows, again, later).report.unmatched == p.report.unmatched
  {
    var start := Start(c, |rows|, options);
    var p := Walk(start, view, rows, options, now);
    var folded := View(FoldAll(vault, view.settings, p.linkedKeys, now), view.facts);
    ReportsUnmatched(start, view, rows, options, now);
    ReportsUnmatched(Start(p.core, |rows|, again), folded, rows, again, later);
    WalkKeepsLegacy(start, view, rows, options, now);
    forall x ensures LegacyKey(p.core.links, folded, x) == LegacyKey(c.links, view, x) {
      FoldKeepsLegacy(vault, view, p.linkedKeys, now, p.core.links, x);
    }
    SameUnmatched(c.links, view, p.core.links, folded, rows);
  }

  /** Running the same mapping again, with any options, changes no row of any table and reports every
      matched row as linked already. */
  lemma RerunChangesNothing(c: Core, view: View, vault: Option<Vault>, rows: seq<Row>, options: Options, now: int,
                            again: Options, later: int)
    requires Unique(c.keys) && Ran(c, view, vault, rows, options, now).0.conflicts == []
    ensures var (r1, c1, s1) := Ran(c, view, vault, rows, options, now);
      var (r2, c2, s2) := Ran(c1, View(s1, view.facts), vault, rows, again, later);
      && c2 == c1 && s2 == s1
      && r2.conflicts == [] && r2.linked == 0
      && r2.unmatched == r1.unmatched && r2.alreadyLinked + |r1.unmatched| == |rows|
      && r2.prefsConsolidated == 0 && r2.keysResealed == 0 && r2.grantsInvalidated == 0
  {
    CountingKeepsTheRest(Walk(Start(c, |rows|, options), view, rows, options, now).report, vault, view.settings,
                         Walk(Start(c, |rows|, options), view, rows, options, now).linkedKeys);
    RerunOfWalk(c, view, vault, rows, options, now, again, later);
  }

  lemma RerunOfWalk(c: Core, view: View, vault: Option<Vault>, rows: seq<Row>, options: Options, now: int,
                    again: Options, later: int)
    requires Unique(c.keys) && Walk(Start(c, |rows|, options), view, rows, options, now).report.conflicts == []
    ensures var p := Walk(Start(c, |rows|, options), view, rows, options, now);
      var s1 := FoldAll(vault, view.settings, p.linkedKeys, now);
      var (r2, c2, s2) := Ran(p.core, View(s1, view.facts), vault, rows, again, later);
      && c2 == p.core && s2 == s1
      && r2.conflicts == [] && r2.linked == 0
      && r2.unmatched == p.report.unmatched && r2.alreadyLinked + |r2.unmatched| == |rows|
      && r2.prefsConsolidated == 0 && r2.keysResealed == 0 && r2.grantsInvalidated == 0
  {
    var p := Walk(Start(c, |rows|, options), view, rows, options, now);
    CommittedRowsHold(c, view, vault, rows, options, now);
    RerunReportsTheSameUnmatched(c, view, vault, rows, options, now, again, later);
    var s1 := FoldAll(vault, view.settings, p.linkedKeys, now);
    var folded := View(s1, view.facts);
    assert rows[..|rows|] == rows;
    HeldRowsAreANoOp(p.core, folded, rows, |rows|, again, later);
    var q := Walk(Start(p.core, |rows|, again), folded, rows, again, later);
    CountsNothingNew(q.report, vault, view.settings, p.linkedKeys, q.linkedKeys, now);
    CountingKeepsTheRest(q.report, vault, s1, q.linkedKeys);
    FoldsNothingNew(vault, view.settings, p.linkedKeys, q.linkedKeys, now, later);
  }

  // ---- A dry run --------------------------------------------------------------------------------

  lemma {:induction false} CountingKeepsTheRest(r: Report, vault: Option<Vault>, settings: map<Storage, Settings>,
                                                linked: seq<Storage>)
    ensures var after := CountAll(r, vault, settings, linked);
      && after.dryRun == r.dryRun && after.rows == r.rows && after.linked == r.linked
      && after.alreadyLinked == r.alreadyLinked && after.unmatched == r.unmatched && after.conflicts == r.conflicts
  {
    if linked != [] {
      CountingKeepsTheRest(r, vault, settings, linked[..|linked| - 1]);
    }
  }

  function Flagged(r: Report, flag: bool): Report {
    r.(dryRun := flag)
  }

  function FlaggedRun(p: Progress, flag: bool): Progress {
    p.(report := Flagged(p.report, flag))
  }

  lemma TallyIgnoresTheFlag(r: Report, flag: bool, prefs: nat, resealed: nat, skipped: nat, grants: nat)
    ensures Tallied(Flagged(r, flag), prefs, resealed, skipped, grants)
            == Flagged(Tallied(r, prefs, resealed, skipped, grants), flag)
  {
  }

  lemma {:induction false} CountingIgnoresTheFlag(r: Report, vault: Option<Vault>, settings: map<Storage, Settings>,
                                                  linked: seq<Storage>, flag: bool)
    ensures CountAll(Flagged(r, flag), vault, settings, linked) == Flagged(CountAll(r, vault, settings, linked), flag)
  {
    if linked != [] {
      var before, last := linked[..|linked| - 1], linked[|linked| - 1];
      var x := SettingsOf(settings, last);
      CountingIgnoresTheFlag(r, vault, settings, before, flag);
      TallyIgnoresTheFlag(CountAll(r, vault, settings, before), flag, if PrefsDue(x) then 1 else 0,
                          |Resealable(vault, last, x)|, |Due(x) - Resealable(vault, last, x)|, |OpenGrants(x)|);
    }
  }

  lemma LinkingIgnoresTheFlag(c: Core, view: View, row: Row, s: Storage, kind: Kind, publicId: Option<PublicId>,
                              options: Options, now: int, flag: bool)
    requires Unique(c.keys)
    ensures Linked(c, view, row, s, kind, publicId, options.(dryRun := flag), now)
            == Linked(c, view, row, s, kind, publicId, options, now)
  {
  }

  lemma CountedIgnoresTheFlag(p: Progress, row: Row, s: Storage, outcome: (Core, Result<bool, Refusal>), flag: bool)
    ensures Counted(FlaggedRun(p, flag), row, s, outcome) == FlaggedRun(Counted(p, row, s, outcome), flag)
  {
  }

  lemma RowIgnoresTheFlag(p: Progress, view: View, row: Row, options: Options, now: int, flag: bool)
    requires Unique(p.core.keys)
    ensures Advanced(FlaggedRun(p, flag), view, row, options.(dryRun := flag), now)
            == FlaggedRun(Advanced(p, view, row, options, now), flag)
  {
    var legacy := LegacyKey(p.core.links, view, row.principal);
    if legacy.Found? {
      var s := legacy.storage;
      LinkingIgnoresTheFlag(p.core, view, row, s, legacy.kind, legacy.publicId, options, now, flag);
      var p2 := p.(sources := p.sources[row.account := s], targets := p.targets[s := row.account]);
      CountedIgnoresTheFlag(p2, row, s, Linked(p.core, view, row, s, legacy.kind, legacy.publicId, options, now), flag);
    }
  }

  lemma {:induction false} WalkIgnoresTheFlag(p: Progress, view: View, rows: seq<Row>, options: Options, now: int,
                                              flag: bool)
    requires Unique(p.core.keys)
    ensures Walk(FlaggedRun(p, flag), view, rows, options.(dryRun := flag), now)
            == FlaggedRun(Walk(p, view, rows, options, now), flag)
  {
    if rows != [] {
      var before := rows[..|rows| - 1];
      WalkIgnoresTheFlag(p, view, before, options, now, flag);
      RowIgnoresTheFlag(Walk(p, view, before, options, now), view, rows[|rows| - 1], options, now, flag);
    }
  }

  /** A dry run reports exactly what the live run from the same tables reports. */
  lemma DryRunForetells(c: Core, view: View, vault: Option<Vault>, rows: seq<Row>, options: Options, now: int)
    requires Unique(c.keys)
    ensures Ran(c, view, vault, rows, options.(dryRun := true), now).0
            == Ran(c, view, vault, rows, options.(dryRun := false), now).0.(dryRun := true)
  {
    var live := options.(dryRun := false);
    WalkIgnoresTheFlag(Start(c, |rows|, live), view, rows, live, now, true);
    var p := Walk(Start(c, |rows|, live), view, rows, live, now);
    CountingIgnoresTheFlag(p.report, vault, view.settings, p.linkedKeys, true);
  }

  // ---- Consolidated settings --------------------------------------------------------------------

  /** The newest preferences of any former organisation become the account's, unless it has its own. */
  lemma NewestPreferencesWin(vault: Option<Vault>, s: Storage, x: Settings, now: int)
    ensures var y := Folded(vault, s, x, now);
      && y.legacy == x.legacy
      && (x.own.Some? || (forall o :: o !in x.legacy) ==> y.own == x.own)
      && (x.own.None? && (exists o :: o in x.legacy) ==>
            && y.own.Some?
            && (exists o :: o in x.legacy && x.legacy[o] == y.own.value)
            && (forall o :: o in x.legacy ==> x.legacy[o].updatedAt <= y.own.value.updatedAt))
  {
    if x.own.None? && exists o :: o in x.legacy {
      var some :| some in x.legacy;
      assert some in PrefAges(x.legacy);
      var newest := NewestOf(PrefAges(x.legacy));
      forall o | o in x.legacy ensures x.legacy[o].updatedAt <= x.legacy[newest].updatedAt {
        assert o in PrefAges(x.legacy);
      }
    }
  }

  /** Opening gives back what was sealed for the same purpose. */
  ghost predicate Faithful(vault: Vault) {
    forall plain, context :: vault.seal(plain, context).Some? ==>
      vault.open(vault.seal(plain, context).value, context) == Some(plain)
  }

  /** A provider key sealed anew opens to the newest secret any former organisation had, and every
      earlier row is kept. */
  lemma ResealingKeepsTheSecret(vault: Vault, s: Storage, p: Provider, rows: Secrets, now: int)
    requires Faithful(vault)
    ensures var after := FoldedSecret(Some(vault), s, p, rows, now);
      && after.legacy == rows.legacy
      && (rows.own.Some? ==> after.own == rows.own)
      && (rows.own.None? && after.own.Some? ==>
            exists o :: o in rows.legacy
              && (forall q :: q in rows.legacy ==> rows.legacy[q].updatedAt <= rows.legacy[o].updatedAt)
              && vault.open(rows.legacy[o].cipher, OfOrg(o, s, p)).Some?
              && vault.open(after.own.value.cipher, OfAccount(s, p))
                 == vault.open(rows.legacy[o].cipher, OfOrg(o, s, p)))
  {
    if rows.own.None? && FoldedSecret(Some(vault), s, p, rows, now).own.Some? {
      var newest := NewestOf(SecretAges(rows.legacy));
      forall q | q in rows.legacy ensures rows.legacy[q].updatedAt <= rows.legacy[newest].updatedAt {
        assert q in SecretAges(rows.legacy);
      }
      assert newest in rows.legacy;
      assert vault.open(rows.legacy[newest].cipher, OfOrg(newest, s, p)).Some?;
    }
  }
}
