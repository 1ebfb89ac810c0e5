/**
What `link-identities` answers and writes, row by row and in all, stated on the tables alone: which
mapping lines become rows, who a principal was, when each refusal is given, and which rows change.
*/
module LinkMeaning {
  import opened Wrappers
  import opened LinkIdentities
  import opened LinkLaws

  // ---- The mapping file -------------------------------------------------------------------------

  /** Each row is the mapping at its line. */
  lemma {:induction false} RowsStandInTheFile(lines: seq<Line>, k: nat)
    requires k < |RowsOf(lines)|
    ensures var row := RowsOf(lines)[k];
      && 1 <= row.line <= |lines| && lines[row.line - 1] == Mapping(row.principal, row.account)
      && (k > 0 ==> RowsOf(lines)[k - 1].line < row.line)
  {
    var before := lines[..|lines| - 1];
    if k < |RowsOf(before)| {
      RowsStandInTheFile(before, k);
    } else if k > 0 {
      RowsStandInTheFile(before, k - 1);
    }
  }

  /** No mapping of the file is passed over. */
  lemma {:induction false} MappingsBecomeRows(lines: seq<Line>, i: nat)
    requires i < |lines| && lines[i].Mapping?
    ensures Row(i + 1, lines[i].principal, lines[i].account) in RowsOf(lines)
  {
    if i < |lines| - 1 {
      MappingsBecomeRows(lines[..|lines| - 1], i);
    }
  }

  // ---- Who a principal was ----------------------------------------------------------------------

  /** A key has settings when any of its settings rows, own or former, ever changed. */
  lemma HasSettingsMeans(x: Settings)
    ensures HasSettings(x) <==> exists first :: SettingsChangedAfter(x, first)
  {
    if x.own.Some? {
      assert SettingsChangedAfter(x, x.own.value.updatedAt - 1);
    } else if o :| o in x.legacy {
      assert SettingsChangedAfter(x, x.legacy[o].updatedAt - 1);
    } else if p :| p in x.secrets && x.secrets[p].own.Some? {
      assert SettingsChangedAfter(x, x.secrets[p].own.value.updatedAt - 1);
    } else if p, o :| p in x.secrets && o in x.secrets[p].legacy {
      assert SettingsChangedAfter(x, x.secrets[p].legacy[o].updatedAt - 1);
    }
  }

  ghost predicate EverChanged(view: View, s: Storage) {
    s in view.settings && exists first :: SettingsChangedAfter(view.settings[s], first)
  }

  /** A key has data: activity, settings, or a reported bug. */
  lemma KeyHasDataMeans(view: View, s: Storage)
    ensures KeyHasData(view, s) <==>
      || (s in view.facts.activity && view.facts.activity[s] != {})
      || EverChanged(view, s) || s in view.facts.reported
  {
    HasSettingsMeans(SettingsOf(view.settings, s));
    HasSettingsMeans(NO_SETTINGS);
  }

  /** What is known of an earlier principal: its key is the linked one or itself, its kind that of its
      public id or else of its rows. */
  lemma LegacyMeans(links: map<Principal, LinkRow>, view: View, p: Principal)
    ensures p in links || p in view.facts.uuids ==>
      var s := if p in links then links[p].storage else view.facts.uuids[p];
      var publicId := if p in links then links[p].publicId else None;
      var legacy := LegacyKey(links, view, p);
      && (publicId.Some? && publicId.value.kind.Some? ==> legacy == Found(s, publicId.value.kind.value, publicId))
      && (publicId.None? || publicId.value.kind.None? ==>
            && (s in view.facts.recordedKind ==> legacy == Found(s, view.facts.recordedKind[s], publicId))
            && (s !in view.facts.recordedKind && (EverChanged(view, s) || s in view.facts.reported) ==>
                  legacy == UnknownKind)
            && (s !in view.facts.recordedKind && !EverChanged(view, s) && s !in view.facts.reported ==>
                  legacy == NoData))
    ensures p !in links && p !in view.facts.uuids ==> LegacyKey(links, view, p) == NoData
  {
    if p in links || p in view.facts.uuids {
      var s := if p in links then links[p].storage else view.facts.uuids[p];
      HasSettingsMeans(SettingsOf(view.settings, s));
      HasSettingsMeans(NO_SETTINGS);
    }
  }

  // ---- One row ----------------------------------------------------------------------------------

  /** The link of the row's principal names the account; it keeps its key and public id, and its time
      while the account is the same. No other link changes. */
  lemma MarkedMeans(links: map<Principal, LinkRow>, row: Row, s: Storage, now: int)
    ensures var after := Marked(links, row, s, now);
      && after.Keys == links.Keys + {row.principal}
      && (forall p :: p in links && p != row.principal ==> after[p] == links[p])
      && after[row.principal].account == Some(row.account)
      && (row.principal !in links ==>
            after[row.principal].storage == s && after[row.principal].publicId == None
            && after[row.principal].linkedAt == Some(now))
      && (row.principal in links ==>
            && after[row.principal].storage == links[row.principal].storage
            && after[row.principal].publicId == links[row.principal].publicId
            && after[row.principal].linkedAt
               == if links[row.principal].account == Some(row.account) && links[row.principal].linkedAt != None
                  then links[row.principal].linkedAt else Some(now))
  {
  }

  /** What stays of an account whose key is taken back: no key, no cached row, and a fence as strict as
      the row and an earlier fence together. */
  lemma UnlinkedMeans(c: Core, other: Account)
    requires other in c.keys && c.keys[other].source == ByThisCommand
    ensures var d := Unlinked(c, other);
      && d.keys == c.keys - {other} && d.accounts == c.accounts - {other} && d.links == c.links
      && (forall a :: a in c.fences ==> a in d.fences && (a != other ==> d.fences[a] == c.fences[a]))
      && (forall a :: a in d.fences && a != other ==> a in c.fences)
      && (other !in c.accounts || (c.accounts[other].revokedBefore == None && c.accounts[other].deletedAt == None) ==>
            d.fences == c.fences)
      && (other in c.accounts && (c.accounts[other].revokedBefore != None || c.accounts[other].deletedAt != None) ==>
            var row := c.accounts[other];
            var before := if row.revokedBefore != None then row.revokedBefore.value else row.deletedAt.value;
            && other in d.fences
            && (other !in c.fences ==>
                  && d.fences[other].revokedBefore == before && d.fences[other].deletedAt == row.deletedAt
                  && (row.revokedReason == None ==> d.fences[other].reason == AccountDeleted)
                  && (row.revokedReason != None ==> d.fences[other].reason == row.revokedReason.value))
            && (other in c.fences ==>
                  && d.fences[other].reason == c.fences[other].reason
                  && d.fences[other].revokedBefore >= before
                  && d.fences[other].revokedBefore >= c.fences[other].revokedBefore
                  && d.fences[other].revokedBefore in {before, c.fences[other].revokedBefore}
                  && (c.fences[other].deletedAt != None ==> d.fences[other].deletedAt == c.fences[other].deletedAt)
                  && (c.fences[other].deletedAt == None ==> d.fences[other].deletedAt == row.deletedAt)))
  {
  }

  /** The account is linked to some other key. */
  ghost predicate HasAnotherLink(c: Core, a: Account, s: Storage) {
    exists p :: p in c.links && c.links[p].account == Some(a) && c.links[p].storage != s
  }

  /** A free key goes to the row's account unless that account has a key of its own which may not be
      given up: it belongs to another linked identity, merging was not asked for, or it has data. */
  lemma ClaimMeans(c: Core, view: View, row: Row, s: Storage, kind: Kind, publicId: Option<PublicId>,
                   options: Options, now: int)
    ensures var (d, outcome) := Claim(c, view, row, s, kind, publicId, options, now);
      var a := row.account;
      var another := a in c.keys && c.keys[a].storage != s;
      && (outcome == Err(LinkedToAnotherIdentity) <==> another && HasAnotherLink(c, a, s))
      && (outcome == Err(NeedsMerge) <==> another && !HasAnotherLink(c, a, s) && !options.merge)
      && (outcome == Err(HasItsOwnData) <==>
            another && !HasAnotherLink(c, a, s) && options.merge && KeyHasData(view, c.keys[a].storage))
      && (outcome.Err? ==> d == c && outcome.error in {LinkedToAnotherIdentity, NeedsMerge, HasItsOwnData})
      && (outcome.Ok? ==> outcome.value && d.links == Marked(c.links, row, s, now) && d.fences == c.fences)
  {
  }

  /** What such a row writes: the key row, and the cached account if there is none. */
  lemma ClaimWrites(c: Core, view: View, row: Row, s: Storage, kind: Kind, publicId: Option<PublicId>,
                    options: Options, now: int)
    requires Claim(c, view, row, s, kind, publicId, options, now).1.Ok?
    ensures var d := Claim(c, view, row, s, kind, publicId, options, now).0;
      var a := row.account;
      && d.keys.Keys == c.keys.Keys + {a} && (forall b :: b in c.keys && b != a ==> d.keys[b] == c.keys[b])
      && (a !in c.keys ==> d.keys[a] == KeyRow(s, kind, ByThisCommand))
      && (a in c.keys && c.keys[a].storage == s ==> d.keys[a] == c.keys[a])
      && (a in c.keys && c.keys[a].storage != s ==>
            d.keys[a] == KeyRow(s, c.keys[a].kind, ByThisCommand) && d.accounts == c.accounts)
      && (forall b :: b in c.accounts ==> b in d.accounts && d.accounts[b] == c.accounts[b])
      && (forall b :: b in d.accounts && b != a ==> b in c.accounts)
      && (a !in c.keys && a !in c.accounts ==>
            && a in d.accounts && d.accounts[a].kind == kind
            && d.accounts[a].revokedBefore == None && d.accounts[a].revokedReason == None
            && d.accounts[a].deletedAt == None
            && d.accounts[a].idChangedAt == None && d.accounts[a].custodianChangedAt == None
            && (publicId.Some? && publicId.value.kind == Some(kind) ==> d.accounts[a].currentId == publicId)
            && (publicId.None? || publicId.value.kind != Some(kind) ==> d.accounts[a].currentId == None))
  {
  }

  /** What becomes of a row by who holds its key: nobody, its own account, or another one. */
  lemma LinkedMeans(c: Core, view: View, row: Row, s: Storage, kind: Kind, publicId: Option<PublicId>,
                    options: Options, now: int, other: Account)
    requires Unique(c.keys) && other in c.keys && c.keys[other].storage == s
    ensures var (d, outcome) := Linked(c, view, row, s, kind, publicId, options, now);
      && (outcome == Ok(false) <==> other == row.account)
      && (other == row.account ==>
            d.links == Marked(c.links, row, s, now)
            && d.keys == c.keys && d.accounts == c.accounts && d.fences == c.fences)
      && (outcome == Err(HeldByAnother) <==>
            other != row.account && (!options.relink || c.keys[other].source == Elsewhere))
      && (outcome == Err(HeldByAnother) || outcome == Err(UsedSinceLinked) ==> d == c)
      && (other != row.account && outcome != Err(HeldByAnother) && outcome != Err(UsedSinceLinked) ==>
            (d, outcome) == Claim(Unlinked(c, other), view, row, s, kind, publicId, options, now))
  {
    assert Holder(c.keys, s) == Some(other);
  }

  lemma FreeKeyMeans(c: Core, view: View, row: Row, s: Storage, kind: Kind, publicId: Option<PublicId>,
                     options: Options, now: int)
    requires Unique(c.keys) && forall a :: a in c.keys ==> c.keys[a].storage != s
    ensures Linked(c, view, row, s, kind, publicId, options, now)
            == Claim(c, view, row, s, kind, publicId, options, now)
  {
  }

  // ---- All rows ---------------------------------------------------------------------------------

  ghost predicate Refuses(p: Progress, q: Progress, row: Row, why: Refusal) {
    && q.core == p.core && q.linkedKeys == p.linkedKeys
    && q.report.conflicts == p.report.conflicts + [(row.line, why)]
    && q.report.linked == p.report.linked && q.report.alreadyLinked == p.report.alreadyLinked
    && q.report.unmatched == p.report.unmatched
  }

  /** The report follows the outcome of the link, and an accepted key is to be consolidated. */
  ghost predicate Follows(p: Progress, q: Progress, row: Row, s: Storage, done: (Core, Result<bool, Refusal>)) {
    && q.core == done.0
    && (done.1.Err? ==> q.report.conflicts == p.report.conflicts + [(row.line, done.1.error)])
    && (done.1.Ok? ==> q.report.conflicts == p.report.conflicts)
    && q.report.linked == p.report.linked + (if done.1 == Ok(true) then 1 else 0)
    && q.report.alreadyLinked == p.report.alreadyLinked + (if done.1 == Ok(false) then 1 else 0)
    && q.report.unmatched == p.report.unmatched
    && (done.1.Err? ==> q.linkedKeys == p.linkedKeys)
    && (done.1.Ok? ==> forall k :: k in q.linkedKeys <==> k in p.linkedKeys || k == s)
  }

  predicate SameTallies(r: Report, before: Report) {
    && r.rows == before.rows && r.dryRun == before.dryRun
    && r.prefsConsolidated == before.prefsConsolidated && r.keysResealed == before.keysResealed
    && r.keysSkipped == before.keysSkipped && r.grantsInvalidated == before.grantsInvalidated
  }

  lemma CountedFollows(p: Progress, row: Row, s: Storage, done: (Core, Result<bool, Refusal>))
    ensures var q := Counted(p, row, s, done);
      && Follows(p, q, row, s, done) && SameTallies(q.report, p.report)
      && q.sources == p.sources && q.targets == p.targets
  {
  }

  function CountedRows(r: Report): nat {
    r.linked + r.alreadyLinked + |r.unmatched| + |r.conflicts|
  }

  lemma RowIsCounted(p: Progress, view: View, row: Row, options: Options, now: int)
    requires Unique(p.core.keys)
    ensures var r := Advanced(p, view, row, options, now).report;
      CountedRows(r) == CountedRows(p.report) + 1 && SameTallies(r, p.report)
  {
    hide Counted;
    var legacy := LegacyKey(p.core.links, view, row.principal);
    if legacy.Found? {
      var s := legacy.storage;
      CountedFollows(p.(sources := p.sources[row.account := s], targets := p.targets[s := row.account]), row, s,
                     Linked(p.core, view, row, s, legacy.kind, legacy.publicId, options, now));
    }
  }

  /** Every row is counted once: as linked, as linked already, as unmatched or as a conflict. */
  lemma {:induction false} EveryRowIsCounted(c: Core, view: View, rows: seq<Row>, n: nat, options: Options, now: int)
    requires Unique(c.keys)
    ensures var r := Walk(Start(c, n, options), view, rows, options, now).report;
      && r.linked + r.alreadyLinked + |r.unmatched| + |r.conflicts| == |rows|
      && r.rows == n && r.dryRun == options.dryRun
      && r.prefsConsolidated == r.keysResealed == r.keysSkipped == r.grantsInvalidated == 0
  {
    if rows != [] {
      var before := rows[..|rows| - 1];
      EveryRowIsCounted(c, view, before, n, options, now);
      RowIsCounted(Walk(Start(c, n, options), view, before, options, now), view, rows[|rows| - 1], options, now);
    }
  }

  /** A row without a key to link is only reported. */
  lemma UnknownRowMeans(p: Progress, view: View, row: Row, options: Options, now: int)
    requires Unique(p.core.keys) && !LegacyKey(p.core.links, view, row.principal).Found?
    ensures var q := Advanced(p, view, row, options, now);
      && q.sources == p.sources && q.targets == p.targets
      && (LegacyKey(p.core.links, view, row.principal).UnknownKind? ==> Refuses(p, q, row, UnknownKindOf))
      && (LegacyKey(p.core.links, view, row.principal).NoData? ==>
            q == p.(report := p.report.(unmatched := p.report.unmatched + [row.principal])))
  {
  }

  /** A row whose account or key an earlier row of the file matched otherwise is refused; any other is
      linked. Later rows are checked against it. */
  lemma MatchedRowMeans(p: Progress, view: View, row: Row, options: Options, now: int)
    requires Unique(p.core.keys) && LegacyKey(p.core.links, view, row.principal).Found?
    ensures var q := Advanced(p, view, row, options, now);
      var Found(s, kind, publicId) := LegacyKey(p.core.links, view, row.principal);
      var twoSources := row.account in p.sources && p.sources[row.account] != s;
      var twoTargets := s in p.targets && p.targets[s] != row.account;
      && q.sources == p.sources[row.account := s]
      && q.targets == (if twoSources then p.targets else p.targets[s := row.account])
      && (twoSources ==> Refuses(p, q, row, AccountHasTwoSources))
      && (!twoSources && twoTargets ==> Refuses(p, q, row, KeyHasTwoTargets))
      && (!twoSources && !twoTargets ==>
            Follows(p, q, row, s, Linked(p.core, view, row, s, kind, publicId, options, now)))
  {
    hide Counted;
    var Found(s, kind, publicId) := LegacyKey(p.core.links, view, row.principal);
    CountedFollows(p.(sources := p.sources[row.account := s], targets := p.targets[s := row.account]), row, s,
                   Linked(p.core, view, row, s, kind, publicId, options, now));
  }


  // ---- Consolidation ----------------------------------------------------------------------------

  /** The newest former secret of a provider, of equally new ones the lowest organisation's. */
  ghost predicate NewestSecret(rows: Secrets, o: Org) {
    && o in rows.legacy
    && forall q :: q in rows.legacy && q != o ==>
         rows.legacy[q].updatedAt < rows.legacy[o].updatedAt
         || (rows.legacy[q].updatedAt == rows.legacy[o].updatedAt && o < q)
  }

  /** A provider without an account-wide key gets the newest former one if the vault can open it as it was
      sealed and seal it for the account; whatever happens, nothing else of the provider changes. */
  lemma ResealedMeans(vault: Option<Vault>, s: Storage, p: Provider, rows: Secrets, now: int, o: Org)
    requires NewestSecret(rows, o)
    ensures var after := FoldedSecret(vault, s, p, rows, now);
      var plain := if vault == None then None else vault.value.open(rows.legacy[o].cipher, OfOrg(o, s, p));
      var cipher := if plain == None then None else vault.value.seal(plain.value, OfAccount(s, p));
      && after.legacy == rows.legacy
      && (rows.own != None || cipher == None ==> after.own == rows.own)
      && (rows.own == None && cipher != None ==> after.own == Some(Secret(cipher.value, now)))
  {
    assert o in SecretAges(rows.legacy);
    assert IsNewest(SecretAges(rows.legacy), o);
    assert NewestOf(SecretAges(rows.legacy)) == o;
  }

  lemma NothingToReseal(vault: Option<Vault>, s: Storage, p: Provider, rows: Secrets, now: int)
    requires forall o :: o !in rows.legacy
    ensures FoldedSecret(vault, s, p, rows, now) == rows
  {
  }

  /** Consolidation works provider by provider, withdraws every grant still open, and removes no row. */
  lemma FoldedMeans(vault: Option<Vault>, s: Storage, x: Settings, now: int)
    ensures var y := Folded(vault, s, x, now);
      && y.legacy == x.legacy && y.secrets.Keys == x.secrets.Keys && y.grants.Keys == x.grants.Keys
      && (forall p :: p in x.secrets ==> y.secrets[p] == FoldedSecret(vault, s, p, x.secrets[p], now))
      && (forall g :: g in x.grants ==> y.grants[g] == if x.grants[g] == None then Some(now) else x.grants[g])
  {
  }

  function ChangedSecrets(x: Settings, y: Settings): set<Provider>
    requires x.secrets.Keys <= y.secrets.Keys
  {
    set p | p in x.secrets && y.secrets[p] != x.secrets[p]
  }

  /** Providers that still have former keys only. */
  function LeftSecrets(y: Settings): set<Provider> {
    set p | p in y.secrets && y.secrets[p].own == None && exists o :: o in y.secrets[p].legacy
  }

  function ChangedGrants(x: Settings, y: Settings): set<Grant>
    requires x.grants.Keys <= y.grants.Keys
  {
    set g | g in x.grants && y.grants[g] != x.grants[g]
  }

  lemma ResealableAre(vault: Option<Vault>, s: Storage, x: Settings, now: int)
    ensures Resealable(vault, s, x) == ChangedSecrets(x, Folded(vault, s, x, now))
  {
  }

  lemma SkippedAre(vault: Option<Vault>, s: Storage, x: Settings, now: int)
    ensures Due(x) - Resealable(vault, s, x) == LeftSecrets(Folded(vault, s, x, now))
  {
    var y := Folded(vault, s, x, now);
    forall p | p in x.secrets
      ensures p in Due(x) - Resealable(vault, s, x) <==> p in LeftSecrets(y)
    {
      assert y.secrets[p] == FoldedSecret(vault, s, p, x.secrets[p], now);
      if o :| o in x.secrets[p].legacy {
        assert o in SecretAges(x.secrets[p].legacy) && o in y.secrets[p].legacy;
      }
    }
  }

  lemma OpenGrantsAre(vault: Option<Vault>, s: Storage, x: Settings, now: int)
    ensures OpenGrants(x) == ChangedGrants(x, Folded(vault, s, x, now))
  {
  }

  lemma PrefsDueMeans(vault: Option<Vault>, s: Storage, x: Settings, now: int)
    ensures PrefsDue(x) <==> Folded(vault, s, x, now).own != x.own
  {
  }

  /** What consolidating one key adds to the counts of the report. */
  datatype Tally = Tally(prefs: nat, resealed: nat, skipped: nat, grants: nat)

  /** The rows of a key that changed, and the provider keys that had to be left. */
  function Changes(x: Settings, y: Settings): Tally
    requires x.secrets.Keys <= y.secrets.Keys && x.grants.Keys <= y.grants.Keys
  {
    Tally(if y.own != x.own then 1 else 0, |ChangedSecrets(x, y)|, |LeftSecrets(y)|, |ChangedGrants(x, y)|)
  }

  predicate Adds(r: Report, after: Report, t: Tally) {
    && after.prefsConsolidated == r.prefsConsolidated + t.prefs
    && after.keysResealed == r.keysResealed + t.resealed
    && after.keysSkipped == r.keysSkipped + t.skipped
    && after.grantsInvalidated == r.grantsInvalidated + t.grants
  }

  lemma FoldedCountsMean(r: Report, vault: Option<Vault>, s: Storage, x: Settings, now: int)
    ensures Adds(r, FoldedCounts(r, vault, s, x), Changes(x, Folded(vault, s, x, now)))
  {
    ResealableAre(vault, s, x, now);
    SkippedAre(vault, s, x, now);
    OpenGrantsAre(vault, s, x, now);
    PrefsDueMeans(vault, s, x, now);
  }

  /** The sum over some keys of what changed between two states of the settings. */
  function Total(linked: seq<Storage>, before: map<Storage, Settings>, after: map<Storage, Settings>): Tally
    requires forall s :: s in linked ==>
      && SettingsOf(before, s).secrets.Keys <= SettingsOf(after, s).secrets.Keys
      && SettingsOf(before, s).grants.Keys <= SettingsOf(after, s).grants.Keys
  {
    if linked == [] then Tally(0, 0, 0, 0)
    else
      var rest := Total(linked[1..], before, after);
      var first := Changes(SettingsOf(before, linked[0]), SettingsOf(after, linked[0]));
      Tally(rest.prefs + first.prefs, rest.resealed + first.resealed, rest.skipped + first.skipped,
            rest.grants + first.grants)
  }

  lemma {:induction false} TotalOfLast(linked: seq<Storage>, s: Storage, before: map<Storage, Settings>,
                                       after: map<Storage, Settings>)
    requires forall k :: k in linked + [s] ==>
      && SettingsOf(before, k).secrets.Keys <= SettingsOf(after, k).secrets.Keys
      && SettingsOf(before, k).grants.Keys <= SettingsOf(after, k).grants.Keys
    ensures var all, most := Total(linked + [s], before, after), Total(linked, before, after);
      var last := Changes(SettingsOf(before, s), SettingsOf(after, s));
      all == Tally(most.prefs + last.prefs, most.resealed + last.resealed, most.skipped + last.skipped,
                   most.grants + last.grants)
  {
    if linked == [] {
      assert [s][1..] == [];
    } else {
      assert (linked + [s])[1..] == linked[1..] + [s];
      TotalOfLast(linked[1..], s, before, after);
    }
  }

  lemma FoldAllKeepsKeys(vault: Option<Vault>, settings: map<Storage, Settings>, linked: seq<Storage>, now: int,
                         s: Storage)
    ensures var x, y := SettingsOf(settings, s), SettingsOf(FoldAll(vault, settings, linked, now), s);
      x.secrets.Keys <= y.secrets.Keys && x.grants.Keys <= y.grants.Keys
  {
  }

  /** The report counts exactly the rows that consolidation changed, over all keys to be consolidated. */
  lemma {:induction false} CountsAreChanges(r: Report, vault: Option<Vault>, settings: map<Storage, Settings>,
                                            linked: seq<Storage>, some: seq<Storage>, now: int)
    requires forall s :: s in some ==> s in linked
    ensures forall s :: s in some ==>
      && SettingsOf(settings, s).secrets.Keys <= SettingsOf(FoldAll(vault, settings, linked, now), s).secrets.Keys
      && SettingsOf(settings, s).grants.Keys <= SettingsOf(FoldAll(vault, settings, linked, now), s).grants.Keys
    ensures Adds(r, CountAll(r, vault, settings, some),
                 Total(some, settings, FoldAll(vault, settings, linked, now)))
    decreases |some|
  {
    var after := FoldAll(vault, settings, linked, now);
    forall s | s in some
      ensures SettingsOf(settings, s).secrets.Keys <= SettingsOf(after, s).secrets.Keys
      ensures SettingsOf(settings, s).grants.Keys <= SettingsOf(after, s).grants.Keys
    {
      FoldAllKeepsKeys(vault, settings, linked, now, s);
    }
    if some != [] {
      var most, last := some[..|some| - 1], some[|some| - 1];
      CountsAreChanges(r, vault, settings, linked, most, now);
      FoldAllFolds(vault, settings, linked, now, last);
      FoldedCountsMean(CountAll(r, vault, settings, most), vault, last, SettingsOf(settings, last), now);
      assert some == most + [last];
      TotalOfLast(most, last, settings, after);
    }
  }

  /** Only the settings of the linked keys change, each once. */
  lemma FoldAllMeans(vault: Option<Vault>, settings: map<Storage, Settings>, linked: seq<Storage>, now: int)
    ensures var after := FoldAll(vault, settings, linked, now);
      && after.Keys == settings.Keys
      && (forall s :: s in settings && s in linked ==> after[s] == Folded(vault, s, settings[s], now))
      && (forall s :: s in settings && s !in linked ==> after[s] == settings[s])
  {
  }

  predicate Distinct(keys: seq<Storage>) {
    forall i, j :: 0 <= i < j < |keys| ==> keys[i] != keys[j]
  }

  lemma RowKeepsDistinct(p: Progress, view: View, row: Row, options: Options, now: int)
    requires Unique(p.core.keys) && Distinct(p.linkedKeys)
    ensures Distinct(Advanced(p, view, row, options, now).linkedKeys)
  {
  }

  /** No key is consolidated, or counted, twice. */
  lemma {:induction false} WalkKeysAreDistinct(c: Core, view: View, rows: seq<Row>, n: nat, options: Options, now: int)
    requires Unique(c.keys)
    ensures Distinct(Walk(Start(c, n, options), view, rows, options, now).linkedKeys)
  {
    if rows != [] {
      var before := rows[..|rows| - 1];
      WalkKeysAreDistinct(c, view, before, n, options, now);
      RowKeepsDistinct(Walk(Start(c, n, options), view, before, options, now), view, rows[|rows| - 1], options, now);
    }
  }

  /** The whole run: with a conflict nothing changes and nothing is counted; otherwise the counts of the
      report are the changes of the tables, key by key, and only keys of accepted rows change. */
  lemma RunCountsItsChanges(c: Core, view: View, vault: Option<Vault>, rows: seq<Row>, options: Options, now: int)
    requires Unique(c.keys)
    ensures var (report, after, settings) := Ran(c, view, vault, rows, options, now);
      var p := Walk(Start(c, |rows|, options), view, rows, options, now);
      && report.conflicts == p.report.conflicts && Distinct(p.linkedKeys)
      && report.linked + report.alreadyLinked + |report.unmatched| + |report.conflicts| == |rows| == report.rows
      && (report.conflicts != [] ==> after == c && settings == view.settings && report == p.report)
      && (report.conflicts == [] ==>
            && after == p.core && settings.Keys == view.settings.Keys
            && (forall s :: s in settings && s !in p.linkedKeys ==> settings[s] == view.settings[s])
            && (forall s :: s in p.linkedKeys ==>
                  && SettingsOf(view.settings, s).secrets.Keys <= SettingsOf(settings, s).secrets.Keys
                  && SettingsOf(view.settings, s).grants.Keys <= SettingsOf(settings, s).grants.Keys)
            && Adds(p.report, report, Total(p.linkedKeys, view.settings, settings)))
  {
    var p := Walk(Start(c, |rows|, options), view, rows, options, now);
    EveryRowIsCounted(c, view, rows, |rows|, options, now);
    WalkKeysAreDistinct(c, view, rows, |rows|, options, now);
    CountingKeepsTheRest(p.report, vault, view.settings, p.linkedKeys);
    CountsAreChanges(p.report, vault, view.settings, p.linkedKeys, p.linkedKeys, now);
    FoldAllMeans(vault, view.settings, p.linkedKeys, now);
  }
}
