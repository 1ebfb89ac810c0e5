/**
`waveform-api link-identities`: gives the private storage keys of earlier principals to the accounts
an operator mapped them to, then folds each linked key's settings into its account-wide rows.

`Core` and `Settings` are the values the transaction reads and writes; the functions say what one
row, all rows and the consolidation do to them. `Database` holds the tables themselves and is proved
against those functions.
*/
module LinkIdentities {
  import opened Wrappers

  type Principal = int
  type Account = int
  type Storage = int
  type Org = int
  type Provider = int
  type Grant = int
  type Bytes = int

  datatype Kind = Carbon | Silicon

  /** A `c:` or `si:` id; `kind` is absent when the text is not a well-formed one. */
  datatype PublicId = PublicId(name: nat, kind: Option<Kind>)

  datatype Source = ByThisCommand | Elsewhere

  datatype KeyRow = KeyRow(storage: Storage, kind: Kind, source: Source)

  datatype Reason = AccountDeleted | OtherReason(code: nat)

  datatype AccountRow = AccountRow(
    kind: Kind, currentId: Option<PublicId>,
    revokedBefore: Option<int>, revokedReason: Option<Reason>, deletedAt: Option<int>,
    idChangedAt: Option<int>, custodianChangedAt: Option<int>)

  datatype LinkRow = LinkRow(
    publicId: Option<PublicId>, storage: Storage, account: Option<Account>, linkedAt: Option<int>)

  datatype Fence = Fence(revokedBefore: int, reason: Reason, deletedAt: Option<int>)

  /** What linking writes. */
  datatype Core = Core(
    keys: map<Account, KeyRow>,
    accounts: map<Account, AccountRow>,
    links: map<Principal, LinkRow>,
    fences: map<Account, Fence>)

  datatype Pref = Pref(value: nat, updatedAt: int)

  datatype Secret = Secret(cipher: Bytes, updatedAt: int)

  /** One provider's keys of one storage key: the account-wide (`@`) row and those of former organisations. */
  datatype Secrets = Secrets(own: Option<Secret>, legacy: map<Org, Secret>)

  /** The settings rows of one storage key, with preferences kept the same way. */
  datatype Settings = Settings(
    own: Option<Pref>,
    legacy: map<Org, Pref>,
    secrets: map<Provider, Secrets>,
    grants: map<Grant, Option<int>>)

  const NO_SETTINGS := Settings(None, map[], map[], map[])

  /** What the run only reads: principals that are uuids, and the activity of each storage key. */
  datatype Facts = Facts(
    uuids: map<Principal, Storage>,
    recordedKind: map<Storage, Kind>,
    activity: map<Storage, set<int>>,
    reported: set<Storage>)

  datatype Row = Row(line: nat, principal: Principal, account: Account)

  datatype Options = Options(dryRun: bool, merge: bool, relink: bool)

  datatype Refusal =
    | UnknownKindOf
    | AccountHasTwoSources
    | KeyHasTwoTargets
    | HeldByAnother
    | UsedSinceLinked
    | LinkedToAnotherIdentity
    | NeedsMerge
    | HasItsOwnData

  ghost predicate Unique(keys: map<Account, KeyRow>) {
    forall a, b :: a in keys && b in keys && keys[a].storage == keys[b].storage ==> a == b
  }

  // ---- The mapping file -------------------------------------------------------------------------

  datatype Line = Skipped | Malformed | Mapping(principal: Principal, account: Account)

  ghost predicate OneAccountEach(rows: seq<Row>) {
    forall i, j :: 0 <= i < j < |rows| && rows[i].principal == rows[j].principal ==> rows[i].account == rows[j].account
  }

  /** Rows are the mappings of the file in order, with their 1-based lines. */
  function RowsOf(lines: seq<Line>): seq<Row> {
    if lines == [] then []
    else
      var rest := RowsOf(lines[..|lines| - 1]);
      match lines[|lines| - 1]
      case Mapping(p, a) => rest + [Row(|lines|, p, a)]
      case _ => rest
  }

  /** The row maps its principal to another account than an earlier row does. */
  ghost predicate Contradicts(rows: seq<Row>, line: nat) {
    exists i, j :: 0 <= i < j < |rows| && rows[j].line == line
                   && rows[i].principal == rows[j].principal && rows[i].account != rows[j].account
  }

  /** `Err` carries the line numbers of the errors reported: every malformed line, and lines that map a
      principal a second time to another account. */
  method ParseMapping(lines: seq<Line>) returns (result: Result<seq<Row>, seq<nat>>)
    ensures result.Ok? <==> Malformed !in lines && OneAccountEach(RowsOf(lines))
    ensures result.Ok? ==> result.value == RowsOf(lines)
    ensures result.Err? ==> forall i :: 0 <= i < |lines| && lines[i] == Malformed ==> i + 1 in result.error
    ensures result.Err? ==> forall n :: n in result.error ==>
      (1 <= n <= |lines| && lines[n - 1] == Malformed) || Contradicts(RowsOf(lines), n)
  {
    var rows: seq<Row>, errors: seq<nat> := [], [];
    for index := 0 to |lines|
      invariant rows == RowsOf(lines[..index])
      invariant errors == [] <==> Malformed !in lines[..index]
      invariant forall i :: 0 <= i < index && lines[i] == Malformed ==> i + 1 in errors
      invariant forall n :: n in errors ==> 1 <= n <= index && lines[n - 1] == Malformed
    {
      assert lines[..index + 1][..index] == lines[..index];
      match lines[index]
      case Skipped =>
      case Malformed => errors := errors + [index + 1];
      case Mapping(principal, account) => rows := rows + [Row(index + 1, principal, account)];
    }
    assert lines[..|lines|] == lines;
    var byPrincipal: map<Principal, Account> := map[];
    for i := 0 to |rows|
      invariant forall p :: p in byPrincipal <==> exists k :: 0 <= k < i && rows[k].principal == p
      invariant errors == [] ==> forall k :: 0 <= k < i ==> byPrincipal[rows[k].principal] == rows[k].account
      invariant errors == [] ==> Malformed !in lines
      invariant Malformed !in lines && OneAccountEach(rows) ==> errors == []
      invariant forall p :: p in byPrincipal ==>
        exists k :: 0 <= k < i && rows[k].principal == p && rows[k].account == byPrincipal[p]
      invariant forall n :: 0 <= n < |lines| && lines[n] == Malformed ==> n + 1 in errors
      invariant forall n :: n in errors ==>
        (1 <= n <= |lines| && lines[n - 1] == Malformed) || Contradicts(rows, n)
    {
      if rows[i].principal in byPrincipal && byPrincipal[rows[i].principal] != rows[i].account {
        errors := errors + [rows[i].line];
      }
      byPrincipal := byPrincipal[rows[i].principal := rows[i].account];
    }
    result := if errors == [] then Ok(rows) else Err(errors);
  }

  // ---- Who a principal was ----------------------------------------------------------------------

  datatype Legacy = Found(storage: Storage, kind: Kind, publicId: Option<PublicId>) | NoData | UnknownKind

  /** The tables behind the storage keys: settings rows and read-only activity. */
  datatype View = View(settings: map<Storage, Settings>, facts: Facts)

  function SettingsOf(settings: map<Storage, Settings>, s: Storage): Settings {
    if s in settings then settings[s] else NO_SETTINGS
  }

  predicate HasSettings(x: Settings) {
    || x.own.Some? || (exists o :: o in x.legacy)
    || exists p :: p in x.secrets && (x.secrets[p].own.Some? || exists o :: o in x.secrets[p].legacy)
  }

  function KindFromRows(view: View, s: Storage, publicId: Option<PublicId>): Legacy {
    if s in view.facts.recordedKind then Found(s, view.facts.recordedKind[s], publicId)
    else if HasSettings(SettingsOf(view.settings, s)) || s in view.facts.reported then UnknownKind
    else NoData
  }

  function LegacyKey(links: map<Principal, LinkRow>, view: View, p: Principal): Legacy {
    if p in links then
      if links[p].publicId.Some? && links[p].publicId.value.kind.Some? then
        Found(links[p].storage, links[p].publicId.value.kind.value, links[p].publicId)
      else
        KindFromRows(view, links[p].storage, links[p].publicId)
    else if p in view.facts.uuids then
      KindFromRows(view, view.facts.uuids[p], None)
    else
      NoData
  }

  function Activity(view: View, s: Storage): set<int> {
    if s in view.facts.activity then view.facts.activity[s] else {}
  }

  predicate KeyHasData(view: View, s: Storage) {
    Activity(view, s) != {} || HasSettings(SettingsOf(view.settings, s)) || s in view.facts.reported
  }

  // ---- One row ----------------------------------------------------------------------------------

  function Holder(keys: map<Account, KeyRow>, s: Storage): (holder: Option<Account>)
    requires Unique(keys)
    ensures holder.Some? ==> holder.value in keys && keys[holder.value].storage == s
    ensures holder.None? ==> forall a :: a in keys ==> keys[a].storage != s
  {
    if exists a :: a in keys && keys[a].storage == s then
      var a :| a in keys && keys[a].storage == s;
      Some(a)
    else
      None
  }

  /** When the settings rows of a key last changed. */
  function SettingsTimes(x: Settings): set<int> {
    (if x.own.Some? then {x.own.value.updatedAt} else {})
    + (set o | o in x.legacy :: x.legacy[o].updatedAt)
    + (set p | p in x.secrets && x.secrets[p].own.Some? :: x.secrets[p].own.value.updatedAt)
    + (set p, o | p in x.secrets && o in x.secrets[p].legacy :: x.secrets[p].legacy[o].updatedAt)
  }

  /** When a row of the storage key, or of the account using it, last changed. */
  function Times(c: Core, view: View, s: Storage, a: Account): set<int> {
    Activity(view, s)
    + SettingsTimes(SettingsOf(view.settings, s))
    + (if a in c.accounts && c.accounts[a].idChangedAt.Some? then {c.accounts[a].idChangedAt.value} else {})
    + (if a in c.accounts && c.accounts[a].custodianChangedAt.Some?
       then {c.accounts[a].custodianChangedAt.value} else {})
  }

  /** Something changed after the earliest link of the account to the key. */
  predicate UsedSince(c: Core, view: View, s: Storage, a: Account) {
    exists p, at :: p in c.links && at in Times(c, view, s, a)
      && c.links[p].storage == s && c.links[p].account == Some(a)
      && c.links[p].linkedAt.Some? && c.links[p].linkedAt.value < at
  }

  function Later(a: int, b: int): int {
    if a < b then b else a
  }

  /** The fence an account needs once its own row is gone, on top of one it may already have. */
  function Refenced(fences: map<Account, Fence>, a: Account, row: AccountRow): map<Account, Fence> {
    if row.revokedBefore.None? && row.deletedAt.None? then
      fences
    else
      var before := if row.revokedBefore.Some? then row.revokedBefore.value else row.deletedAt.value;
      if a in fences then
        fences[a := Fence(Later(fences[a].revokedBefore, before), fences[a].reason,
                          if fences[a].deletedAt.Some? then fences[a].deletedAt else row.deletedAt)]
      else
        fences[a := Fence(before, if row.revokedReason.Some? then row.revokedReason.value else AccountDeleted,
                          row.deletedAt)]
  }

  /** Takes a key back from an account this command had linked to it. */
  function Unlinked(c: Core, other: Account): Core
    requires other in c.keys && c.keys[other].source == ByThisCommand
  {
    Core(c.keys - {other}, c.accounts - {other}, c.links,
         if other in c.accounts then Refenced(c.fences, other, c.accounts[other]) else c.fences)
  }

  function Marked(links: map<Principal, LinkRow>, row: Row, s: Storage, now: int): map<Principal, LinkRow> {
    if row.principal in links then
      var link := links[row.principal];
      links[row.principal := link.(account := Some(row.account),
        linkedAt := if link.account == Some(row.account) && link.linkedAt.Some? then link.linkedAt else Some(now))]
    else
      links[row.principal := LinkRow(None, s, Some(row.account), Some(now))]
  }

  predicate LinkedElsewhere(links: map<Principal, LinkRow>, a: Account, s: Storage) {
    exists p :: p in links && links[p].account == Some(a) && links[p].storage != s
  }

  function Claim(c: Core, view: View, row: Row, s: Storage, kind: Kind, publicId: Option<PublicId>,
                 options: Options, now: int): (Core, Result<bool, Refusal>)
  {
    var a := row.account;
    if a in c.keys && c.keys[a].storage != s then
      if LinkedElsewhere(c.links, a, s) then (c, Err(LinkedToAnotherIdentity))
      else if !options.merge then (c, Err(NeedsMerge))
      else if KeyHasData(view, c.keys[a].storage) then (c, Err(HasItsOwnData))
      else
        (c.(keys := c.keys[a := c.keys[a].(storage := s, source := ByThisCommand)],
            links := Marked(c.links, row, s, now)), Ok(true))
    else
      (c.(keys := if a in c.keys then c.keys else c.keys[a := KeyRow(s, kind, ByThisCommand)],
          accounts := if a in c.accounts then c.accounts else c.accounts[a := NewAccount(kind, publicId)],
          links := Marked(c.links, row, s, now)), Ok(true))
  }

  function NewAccount(kind: Kind, publicId: Option<PublicId>): AccountRow {
    AccountRow(kind, if publicId.Some? && publicId.value.kind == Some(kind) then publicId else None,
               None, None, None, None, None)
  }

  /** The tables after one row, and whether it linked, was linked already, or conflicts. */
  function Linked(c: Core, view: View, row: Row, s: Storage, kind: Kind, publicId: Option<PublicId>,
                  options: Options, now: int): (Core, Result<bool, Refusal>)
    requires Unique(c.keys)
  {
    match Holder(c.keys, s)
    case None => Claim(c, view, row, s, kind, publicId, options, now)
    case Some(other) =>
      if other == row.account then
        (c.(links := Marked(c.links, row, s, now)), Ok(false))
      else if !(options.relink && c.keys[other].source == ByThisCommand) then
        (c, Err(HeldByAnother))
      else if UsedSince(c, view, s, other) then
        (c, Err(UsedSinceLinked))
      else
        Claim(Unlinked(c, other), view, row, s, kind, publicId, options, now)
  }

  // ---- All rows ---------------------------------------------------------------------------------

  datatype Report = Report(
    dryRun: bool, rows: nat, linked: nat, alreadyLinked: nat,
    unmatched: seq<Principal>, conflicts: seq<(nat, Refusal)>,
    prefsConsolidated: nat, keysResealed: nat, keysSkipped: nat, grantsInvalidated: nat)

  /** How far a run has come: the tables, the report, and what it remembers of the earlier rows. */
  datatype Progress = Progress(
    core: Core, report: Report,
    sources: map<Account, Storage>, targets: map<Storage, Account>, linkedKeys: seq<Storage>)

  function Conflict(p: Progress, row: Row, why: Refusal): Progress {
    p.(report := p.report.(conflicts := p.report.conflicts + [(row.line, why)]))
  }

  function WithKey(keys: seq<Storage>, s: Storage): seq<Storage> {
    if s in keys then keys else keys + [s]
  }

  function Counted(p: Progress, row: Row, s: Storage, outcome: (Core, Result<bool, Refusal>)): Progress {
    var q := p.(core := outcome.0);
    match outcome.1
    case Err(why) => Conflict(q, row, why)
    case Ok(true) => q.(report := p.report.(linked := p.report.linked + 1), linkedKeys := WithKey(p.linkedKeys, s))
    case Ok(false) =>
      q.(report := p.report.(alreadyLinked := p.report.alreadyLinked + 1), linkedKeys := WithKey(p.linkedKeys, s))
  }

  function Advanced(p: Progress, view: View, row: Row, options: Options, now: int): Progress
    requires Unique(p.core.keys)
  {
    match LegacyKey(p.core.links, view, row.principal)
    case NoData => p.(report := p.report.(unmatched := p.report.unmatched + [row.principal]))
    case UnknownKind => Conflict(p, row, UnknownKindOf)
    case Found(s, kind, publicId) =>
      var p1 := p.(sources := p.sources[row.account := s]);
      if row.account in p.sources && p.sources[row.account] != s then
        Conflict(p1, row, AccountHasTwoSources)
      else
        var p2 := p1.(targets := p1.targets[s := row.account]);
        if s in p.targets && p.targets[s] != row.account then
          Conflict(p2, row, KeyHasTwoTargets)
        else
          Counted(p2, row, s, Linked(p.core, view, row, s, kind, publicId, options, now))
  }

  function Start(c: Core, rows: nat, options: Options): Progress {
    Progress(c, Report(options.dryRun, rows, 0, 0, [], [], 0, 0, 0, 0), map[], map[], [])
  }

  /** The state after the given rows; no row puts two accounts on one key. */
  function Walk(p: Progress, view: View, rows: seq<Row>, options: Options, now: int): (q: Progress)
    requires Unique(p.core.keys)
    ensures Unique(q.core.keys)
  {
    if rows == [] then p
    else
      var q := Walk(p, view, rows[..|rows| - 1], options, now);
      RowKeepsUnique(q, view, rows[|rows| - 1], options, now);
      Advanced(q, view, rows[|rows| - 1], options, now)
  }

  lemma ClaimKeepsUnique(c: Core, view: View, row: Row, s: Storage, kind: Kind, publicId: Option<PublicId>,
                         options: Options, now: int)
    requires Unique(c.keys) && forall a :: a in c.keys ==> c.keys[a].storage != s
    ensures Unique(Claim(c, view, row, s, kind, publicId, options, now).0.keys)
  {
  }

  lemma LinkedKeepsUnique(c: Core, view: View, row: Row, s: Storage, kind: Kind, publicId: Option<PublicId>,
                          options: Options, now: int)
    requires Unique(c.keys)
    ensures Unique(Linked(c, view, row, s, kind, publicId, options, now).0.keys)
  {
    match Holder(c.keys, s)
    case None => ClaimKeepsUnique(c, view, row, s, kind, publicId, options, now);
    case Some(other) =>
      if c.keys[other].source == ByThisCommand {
        var freed := Unlinked(c, other);
        assert forall a :: a in freed.keys ==> a in c.keys && freed.keys[a] == c.keys[a] && a != other;
        ClaimKeepsUnique(freed, view, row, s, kind, publicId, options, now);
      }
  }

  lemma RowKeepsUnique(p: Progress, view: View, row: Row, options: Options, now: int)
    requires Unique(p.core.keys)
    ensures Unique(Advanced(p, view, row, options, now).core.keys)
  {
    match LegacyKey(p.core.links, view, row.principal)
    case NoData =>
    case UnknownKind =>
    case Found(s, kind, publicId) => LinkedKeepsUnique(p.core, view, row, s, kind, publicId, options, now);
  }

  // ---- Consolidation ----------------------------------------------------------------------------

  /** What a secret is sealed for. */
  datatype Context =
    | OfOrg(org: Org, storage: Storage, provider: Provider)
    | OfAccount(storage: Storage, provider: Provider)

  datatype Vault = Vault(open: (Bytes, Context) -> Option<Bytes>, seal: (Bytes, Context) -> Option<Bytes>)

  /** The newest row; of equally new ones the database may return any, here the lowest. */
  predicate IsNewest(ages: map<Org, int>, o: Org) {
    && o in ages
    && forall p :: p in ages && p != o ==> ages[p] < ages[o] || (ages[p] == ages[o] && o < p)
  }

  lemma {:induction false} NewestExists(ages: map<Org, int>)
    requires exists o :: o in ages
    ensures exists o :: IsNewest(ages, o)
    decreases |ages|
  {
    var x :| x in ages;
    var rest := ages - {x};
    if forall o :: o !in rest {
      assert forall p :: p in ages ==> p == x || p in rest;
      assert IsNewest(ages, x);
    } else {
      assert rest.Keys == ages.Keys - {x};
      assert |rest.Keys| < |ages.Keys|;
      NewestExists(rest);
      var o :| IsNewest(rest, o);
      if ages[o] < ages[x] || (ages[o] == ages[x] && x < o) {
        assert forall p :: p in ages ==> p == x || p in rest;
        assert IsNewest(ages, x);
      } else {
        assert forall p :: p in ages ==> p == x || p in rest;
        assert IsNewest(ages, o);
      }
    }
  }

  function NewestOf(ages: map<Org, int>): (o: Org)
    requires exists o :: o in ages
    ensures IsNewest(ages, o)
  {
    NewestExists(ages);
    assert exists o: Org :: IsNewest(ages, o);
    var o: Org :| IsNewest(ages, o);
    o
  }

  function PrefAges(legacy: map<Org, Pref>): map<Org, int> {
    map o | o in legacy :: legacy[o].updatedAt
  }

  function SecretAges(legacy: map<Org, Secret>): map<Org, int> {
    map o | o in legacy :: legacy[o].updatedAt
  }

  predicate PrefsDue(x: Settings) {
    x.own.None? && exists o :: o in PrefAges(x.legacy)
  }

  function FoldedPref(x: Settings): Option<Pref> {
    if PrefsDue(x) then Some(x.legacy[NewestOf(PrefAges(x.legacy))]) else x.own
  }

  predicate SecretDue(rows: Secrets) {
    rows.own.None? && exists o :: o in SecretAges(rows.legacy)
  }

  /** The newest legacy key of a provider, sealed anew for the account. */
  function Resealed(vault: Option<Vault>, s: Storage, p: Provider, rows: Secrets): Option<Bytes>
    requires SecretDue(rows)
  {
    var org := NewestOf(SecretAges(rows.legacy));
    if vault.None? then None
    else
      match vault.value.open(rows.legacy[org].cipher, OfOrg(org, s, p))
      case None => None
      case Some(plain) => vault.value.seal(plain, OfAccount(s, p))
  }

  function FoldedSecret(vault: Option<Vault>, s: Storage, p: Provider, rows: Secrets, now: int): Secrets {
    if SecretDue(rows) && Resealed(vault, s, p, rows).Some? then
      rows.(own := Some(Secret(Resealed(vault, s, p, rows).value, now)))
    else
      rows
  }

  function Due(x: Settings): set<Provider> {
    set p | p in x.secrets && SecretDue(x.secrets[p])
  }

  function Resealable(vault: Option<Vault>, s: Storage, x: Settings): set<Provider> {
    set p | p in Due(x) && Resealed(vault, s, p, x.secrets[p]).Some?
  }

  function OpenGrants(x: Settings): set<Grant> {
    set g | g in x.grants && x.grants[g].None?
  }

  function Folded(vault: Option<Vault>, s: Storage, x: Settings, now: int): Settings {
    Settings(
      FoldedPref(x), x.legacy,
      map p | p in x.secrets :: FoldedSecret(vault, s, p, x.secrets[p], now),
      map g | g in x.grants :: if x.grants[g].None? then Some(now) else x.grants[g])
  }

  function Tallied(r: Report, prefs: nat, resealed: nat, skipped: nat, grants: nat): Report {
    r.(prefsConsolidated := r.prefsConsolidated + prefs,
       keysResealed := r.keysResealed + resealed,
       keysSkipped := r.keysSkipped + skipped,
       grantsInvalidated := r.grantsInvalidated + grants)
  }

  function FoldedCounts(r: Report, vault: Option<Vault>, s: Storage, x: Settings): Report {
    Tallied(r, if PrefsDue(x) then 1 else 0, |Resealable(vault, s, x)|,
            |Due(x) - Resealable(vault, s, x)|, |OpenGrants(x)|)
  }

  function FoldAll(vault: Option<Vault>, settings: map<Storage, Settings>, linked: seq<Storage>, now: int)
    : map<Storage, Settings>
  {
    map s | s in settings :: if s in linked then Folded(vault, s, settings[s], now) else settings[s]
  }

  function CountAll(r: Report, vault: Option<Vault>, settings: map<Storage, Settings>, linked: seq<Storage>): Report {
    if linked == [] then r
    else
      var last := linked[|linked| - 1];
      FoldedCounts(CountAll(r, vault, settings, linked[..|linked| - 1]), vault, last, SettingsOf(settings, last))
  }

  /** The whole run: the report, and the tables a commit leaves. */
  function Ran(c: Core, view: View, vault: Option<Vault>, rows: seq<Row>, options: Options, now: int)
    : (Report, Core, map<Storage, Settings>)
    requires Unique(c.keys)
  {
    var p := Walk(Start(c, |rows|, options), view, rows, options, now);
    if p.report.conflicts != [] then (p.report, c, view.settings)
    else
      (CountAll(p.report, vault, view.settings, p.linkedKeys), p.core,
       FoldAll(vault, view.settings, p.linkedKeys, now))
  }
}
