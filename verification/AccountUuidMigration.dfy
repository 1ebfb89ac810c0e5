/**
The move of every account from its earlier uuid to the uuid Silicon Accounts exported for it: the
validation of the export, and the one transaction that renames every reference against a ledger of
mappings already applied.
*/
module AccountUuidMigration {
  import opened Wrappers

  // ---- The export -------------------------------------------------------------------------------

  datatype Kind = Carbon | Silicon

  /** A mapping of the export, over whatever names accounts: strings in the file. */
  datatype Row<I> = Row(old_: I, new_: I, kind: Kind)

  predicate LowerHex(c: char) {
    '0' <= c <= '9' || 'a' <= c <= 'f'
  }

  predicate Alphanumeric(c: char) {
    '0' <= c <= '9' || 'a' <= c <= 'z' || 'A' <= c <= 'Z'
  }

  /** Eight, four, four, four and twelve lower-case hexadecimal digits joined by hyphens. */
  predicate UuidShaped(s: string) {
    |s| == 36 && forall i :: 0 <= i < 36 ==> if i in {8, 13, 18, 23} then s[i] == '-' else LowerHex(s[i])
  }

  predicate Variant(s: string)
    requires |s| == 36
  {
    s[19] == '8' || s[19] == '9' || s[19] == 'a' || s[19] == 'b'
  }

  /** What an account reference must look like unless the export or the ledger explains it. */
  predicate Modern(s: string) {
    UuidShaped(s) && Variant(s)
  }

  predicate CanonicalUuid4(s: string) {
    Modern(s) && s[14] == '4'
  }

  predicate ValidOld(s: string) {
    (1 <= |s| <= 64 && forall i :: 0 <= i < |s| ==> Alphanumeric(s[i])) || UuidShaped(s)
  }

  predicate ValidFields(fields: seq<string>) {
    && |fields| == 3
    && CanonicalUuid4(fields[1]) && ValidOld(fields[0])
    && (fields[2] == "carbon" || fields[2] == "silicon") && fields[0] != fields[1]
  }

  function RowOf(fields: seq<string>): Row<string>
    requires |fields| == 3
  {
    Row(fields[0], fields[1], if fields[2] == "carbon" then Carbon else Silicon)
  }

  const HEADER := ["old_uuid", "new_uuid", "kind"]

  /** The rows of the non-empty lines after the header, in order. */
  function RowsOf(lines: seq<seq<string>>): seq<Row<string>> {
    if lines == [] then []
    else
      var rest := RowsOf(lines[..|lines| - 1]);
      var fields := lines[|lines| - 1];
      if |fields| == 3 then rest + [RowOf(fields)] else rest
  }

  function Olds(rows: seq<Row<string>>): set<string> {
    set r | r in rows :: r.old_
  }

  function News(rows: seq<Row<string>>): set<string> {
    set r | r in rows :: r.new_
  }

  /** No account appears twice on a side. */
  ghost predicate Distinct<I(!new)>(rows: seq<Row<I>>) {
    forall i, j :: 0 <= i < j < |rows| ==> rows[i].old_ != rows[j].old_ && rows[i].new_ != rows[j].new_
  }

  /** ... and none appears on both sides, so no mapping chains into another. */
  ghost predicate OneToOne<I(!new)>(rows: seq<Row<I>>) {
    && Distinct(rows)
    && (forall i, j :: 0 <= i < |rows| && 0 <= j < |rows| ==> rows[i].old_ != rows[j].new_)
  }

  ghost predicate AllValid(lines: seq<seq<string>>) {
    forall i :: 0 <= i < |lines| && lines[i] != [] ==> ValidFields(lines[i])
  }

  ghost predicate Acceptable(reader: seq<seq<string>>) {
    && reader != [] && reader[0] == HEADER
    && AllValid(reader[1..])
    && RowsOf(reader[1..]) != [] && OneToOne(RowsOf(reader[1..]))
  }

  /** The sets kept beside the rows decide whether one more row keeps them distinct. */
  lemma Grows(rows: seq<Row<string>>, row: Row<string>)
    requires Distinct(rows)
    ensures Olds(rows + [row]) == Olds(rows) + {row.old_}
    ensures News(rows + [row]) == News(rows) + {row.new_}
    ensures Distinct(rows + [row]) <==> row.old_ !in Olds(rows) && row.new_ !in News(rows)
  {
    var all := rows + [row];
    forall x | x in Olds(rows) + {row.old_} ensures x in Olds(all) {
      var r :| (r in rows && r.old_ == x) || (r == row && r.old_ == x);
      assert r in all;
    }
    forall x | x in News(rows) + {row.new_} ensures x in News(all) {
      var r :| (r in rows && r.new_ == x) || (r == row && r.new_ == x);
      assert r in all;
    }
    if row.old_ in Olds(rows) || row.new_ in News(rows) {
      var r :| r in rows && (r.old_ == row.old_ || r.new_ == row.new_);
      var i :| 0 <= i < |rows| && rows[i] == r;
      assert all[i] == r && all[|rows|] == row;
    }
  }

  lemma DisjointSides(rows: seq<Row<string>>)
    requires Distinct(rows)
    ensures OneToOne(rows) <==> Olds(rows) * News(rows) == {}
  {
    if Olds(rows) * News(rows) != {} {
      var x :| x in Olds(rows) * News(rows);
      var r, s :| r in rows && r.old_ == x && s in rows && s.new_ == x;
      var i :| 0 <= i < |rows| && rows[i] == r;
      var j :| 0 <= j < |rows| && rows[j] == s;
      assert rows[i].old_ == rows[j].new_;
    } else {
      forall i, j | 0 <= i < |rows| && 0 <= j < |rows| ensures rows[i].old_ != rows[j].new_ {
        assert rows[i] in rows && rows[j] in rows;
        assert rows[i].old_ in Olds(rows) && rows[j].new_ in News(rows);
        assert rows[i].old_ !in Olds(rows) * News(rows);
      }
    }
  }

  /** The rows of the first lines are a prefix of all rows. */
  lemma {:induction false} RowsGrow(lines: seq<seq<string>>, n: nat)
    requires n <= |lines|
    ensures RowsOf(lines[..n]) <= RowsOf(lines)
    decreases |lines|
  {
    if n < |lines| {
      RowsGrow(lines[..|lines| - 1], n);
      assert lines[..|lines| - 1][..n] == lines[..n];
    } else {
      assert lines[..n] == lines;
    }
  }

  lemma EarlyRefusal(lines: seq<seq<string>>, n: nat)
    requires n <= |lines| && !Distinct(RowsOf(lines[..n]))
    ensures !OneToOne(RowsOf(lines))
  {
    RowsGrow(lines, n);
    var some, all := RowsOf(lines[..n]), RowsOf(lines);
    var i, j :| 0 <= i < j < |some| && (some[i].old_ == some[j].old_ || some[i].new_ == some[j].new_);
    assert all[i] == some[i] && all[j] == some[j];
  }

  /** One non-empty line: its row, unless the fields are invalid or an account is already listed. */
  method ParseLine(fields: seq<string>, oldIds: set<string>, newIds: set<string>)
    returns (result: Result<Row<string>, ()>)
    ensures result.Ok? <==> ValidFields(fields) && fields[0] !in oldIds && fields[1] !in newIds
    ensures result.Ok? ==> result.value == RowOf(fields)
  {
    if !ValidFields(fields) || fields[0] in oldIds || fields[1] in newIds {
      return Err(());
    }
    return Ok(RowOf(fields));
  }

  /** The non-empty lines, in order. */
  function Filled(lines: seq<seq<string>>): seq<seq<string>> {
    if lines == [] then []
    else Filled(lines[..|lines| - 1]) + if lines[|lines| - 1] == [] then [] else [lines[|lines| - 1]]
  }

  /** A row says what its line says, field by field. */
  predicate Reads(row: Row<string>, fields: seq<string>) {
    && |fields| == 3 && row.old_ == fields[0] && row.new_ == fields[1]
    && (row.kind.Carbon? <==> fields[2] == "carbon") && (row.kind.Silicon? <==> fields[2] == "silicon")
  }

  lemma {:induction false} RowsReadLines(lines: seq<seq<string>>)
    requires AllValid(lines)
    ensures |RowsOf(lines)| == |Filled(lines)|
    ensures forall k :: 0 <= k < |Filled(lines)| ==> Reads(RowsOf(lines)[k], Filled(lines)[k])
  {
    if lines != [] {
      var before := lines[..|lines| - 1];
      assert forall i :: 0 <= i < |before| ==> before[i] == lines[i];
      RowsReadLines(before);
      assert lines[|lines| - 1] != [] ==> ValidFields(lines[|lines| - 1]);
    }
  }

  lemma {:induction false} FilledHolds(lines: seq<seq<string>>, fields: seq<string>)
    ensures fields in Filled(lines) <==> fields in lines && fields != []
  {
    if lines != [] {
      var before, last := lines[..|lines| - 1], lines[|lines| - 1];
      assert lines == before + [last];
      FilledHolds(before, fields);
    }
  }

  /** `reader` holds the parsed lines of the file; an error stands for every refusal. */
  method ParseMapping(reader: seq<seq<string>>) returns (result: Result<seq<Row<string>>, ()>)
    ensures result.Ok? <==> Acceptable(reader)
    ensures result.Ok? ==> result.value == RowsOf(reader[1..])
    // The k-th row is what the k-th non-empty line says.
    ensures result.Ok? ==> |result.value| == |Filled(reader[1..])|
    ensures result.Ok? ==>
      forall k :: 0 <= k < |result.value| ==> Reads(result.value[k], Filled(reader[1..])[k])
  {
    if reader == [] || reader[0] != HEADER {
      return Err(());
    }
    var lines := reader[1..];
    var rows: seq<Row<string>>, oldIds: set<string>, newIds: set<string> := [], {}, {};
    var line := 0;
    while line < |lines|
      invariant 0 <= line <= |lines|
      invariant rows == RowsOf(lines[..line]) && oldIds == Olds(rows) && newIds == News(rows)
      invariant AllValid(lines[..line]) && Distinct(rows)
    {
      var fields := lines[line];
      assert lines[..line + 1] == lines[..line] + [fields];
      if fields != [] {
        var parsed := ParseLine(fields, oldIds, newIds);
        if parsed.Err? {
          if ValidFields(fields) {
            Grows(rows, RowOf(fields));
            EarlyRefusal(lines, line + 1);
          }
          return Err(());
        }
        Grows(rows, parsed.value);
        rows := rows + [parsed.value];
        oldIds := oldIds + {parsed.value.old_};
        newIds := newIds + {parsed.value.new_};
      }
      line := line + 1;
    }
    assert lines[..line] == lines;
    DisjointSides(rows);
    if rows == [] || oldIds * newIds != {} {
      return Err(());
    }
    RowsReadLines(lines);
    result := Ok(rows);
  }

  // ---- The tables -------------------------------------------------------------------------------

  type Storage = int
  type Principal = nat
  type EventId = nat
  type ProofKey = nat

  datatype Entry<I> = Entry(new_: I, kind: Kind)

  datatype Key = Key(storage: Storage, kind: Kind)

  datatype Account<I> = Account(profile: int, custodian: Option<I>)

  datatype Link<I> = Link(storage: Storage, account: Option<I>)

  datatype Reason = AccountUuidMigrated | Other(text: string)

  /** Sign-out and deletion state of an account that has not been seen yet. */
  datatype Fence = Fence(revokedBefore: int, reason: Reason, deletedAt: Option<int>)

  datatype Cipher = Empty | Sealed(number: nat)

  datatype Proof = Proof(storage: Storage, proofId: nat, token: Cipher, refresh: Option<Cipher>,
                         invalidatedAt: Option<int>, invalidatedReason: Option<Reason>)

  datatype Tables<I> = Tables(
    keys: map<I, Key>,
    accounts: map<I, Account<I>>,
    links: map<Principal, Link<I>>,
    fences: map<I, Fence>,
    events: map<EventId, Option<I>>,
    proofs: map<ProofKey, Proof>,
    ledger: map<I, Entry<I>>)

  /** The foreign key of the account cache, which also cascades a renamed key. */
  ghost predicate Valid<I(!new)>(t: Tables<I>) {
    t.accounts.Keys <= t.keys.Keys
  }

  /** No account is the target of two mappings, nor the source of one and the target of another. */
  ghost predicate Sound<I(!new)>(ledger: map<I, Entry<I>>) {
    && (forall o, p :: o in ledger && p in ledger && o != p ==> ledger[o].new_ != ledger[p].new_)
    && (forall o, p :: o in ledger && p in ledger ==> ledger[o].new_ != p)
  }

  function Imported<I(==, !new)>(rows: seq<Row<I>>): (m: map<I, Entry<I>>)
    requires Distinct(rows)
  {
    map i | 0 <= i < |rows| :: rows[i].old_ := Entry(rows[i].new_, rows[i].kind)
  }

  lemma ImportIsSound<I(!new)>(rows: seq<Row<I>>)
    requires OneToOne(rows)
    ensures Sound(Imported(rows))
  {
  }

  /** The name an account has once the mappings of `f` are carried out. */
  function To<I(==, !new)>(f: map<I, Entry<I>>, x: I): I {
    if x in f then f[x].new_ else x
  }

  function Custodians<I(==, !new)>(accounts: map<I, Account<I>>): set<I> {
    set a | a in accounts && accounts[a].custodian.Some? :: accounts[a].custodian.value
  }

  function Linked<I(==, !new)>(links: map<Principal, Link<I>>): set<I> {
    set p | p in links && links[p].account.Some? :: links[p].account.value
  }

  function Mentioned<I(==, !new)>(events: map<EventId, Option<I>>): set<I> {
    set e | e in events && events[e].Some? :: events[e].value
  }

  function Referenced<I(==, !new)>(t: Tables<I>): set<I> {
    t.keys.Keys + Custodians(t.accounts) + Linked(t.links) + t.fences.Keys + Mentioned(t.events)
  }

  // ---- The checks -------------------------------------------------------------------------------

  datatype Refusal = ConflictsWithLedger | UnexplainedReference | WrongKind | TargetExists | TargetIsFenced

  predicate Contradicts<I(==, !new)>(m: map<I, Entry<I>>, ledger: map<I, Entry<I>>) {
    exists o, p :: o in m && p in ledger
      && (o == p || m[o].new_ == ledger[p].new_ || o == ledger[p].new_ || m[o].new_ == p)
      && !(o == p && m[o] == ledger[p])
  }

  predicate Unexplained<I(==, !new)>(m: map<I, Entry<I>>, t: Tables<I>, modern: I -> bool) {
    exists u :: u in Referenced(t) && !modern(u) && u !in m && u !in t.ledger
  }

  predicate KindDiffers<I(==, !new)>(m: map<I, Entry<I>>, t: Tables<I>) {
    exists o :: o in m && o in t.keys && t.keys[o].kind != m[o].kind
  }

  predicate TargetTaken<I(==, !new)>(m: map<I, Entry<I>>, t: Tables<I>) {
    exists o :: o in m && m[o].new_ in t.keys && (o !in t.ledger || t.keys[m[o].new_].kind != m[o].kind)
  }

  predicate TargetFenced<I(==, !new)>(m: map<I, Entry<I>>, t: Tables<I>) {
    exists o :: o in m && m[o].new_ in t.fences && o !in t.ledger
  }

  function Checked<I(==, !new)>(m: map<I, Entry<I>>, t: Tables<I>, modern: I -> bool): Option<Refusal> {
    if Contradicts(m, t.ledger) then Some(ConflictsWithLedger)
    else if Unexplained(m, t, modern) then Some(UnexplainedReference)
    else if KindDiffers(m, t) then Some(WrongKind)
    else if TargetTaken(m, t) then Some(TargetExists)
    else if TargetFenced(m, t) then Some(TargetIsFenced)
    else None
  }

  /** The mappings of the export the ledger does not hold yet. */
  function Fresh<I(==, !new)>(m: map<I, Entry<I>>, ledger: map<I, Entry<I>>): map<I, Entry<I>> {
    m - ledger.Keys
  }

  // ---- The renames ------------------------------------------------------------------------------

  /** Two rows never get the same primary key, so no update stops at a uniqueness violation. */
  ghost predicate Apart<I(!new)>(names: set<I>, f: map<I, Entry<I>>) {
    forall x, y :: x in names && y in names && To(f, x) == To(f, y) ==> x == y
  }

  function Follow<I(==, !new)>(f: map<I, Entry<I>>, reference: Option<I>): Option<I> {
    if reference.Some? then Some(To(f, reference.value)) else None
  }

  function Greatest(a: int, b: int): int {
    if a < b then b else a
  }

  function Tombstone<I(==, !new)>(fences: map<I, Fence>, o: I, now: int): Fence {
    if o in fences then
      Fence(Greatest(fences[o].revokedBefore, now), AccountUuidMigrated,
            if fences[o].deletedAt.Some? then fences[o].deletedAt else Some(now))
    else
      Fence(now, AccountUuidMigrated, Some(now))
  }

  function Discard(p: Proof, actors: set<Storage>, now: int): Proof {
    if p.invalidatedAt.None? && p.storage in actors then
      p.(token := Empty, refresh := None, invalidatedAt := Some(now), invalidatedReason := Some(AccountUuidMigrated))
    else
      p
  }

  function Actors<I(==, !new)>(keys: map<I, Key>, f: map<I, Entry<I>>): set<Storage> {
    set o | o in f && o in keys :: keys[o].storage
  }

  // ---- What one committed run means -------------------------------------------------------------

  function NamesAfter<I(==, !new)>(names: set<I>, f: map<I, Entry<I>>): set<I> {
    set x | x in names :: To(f, x)
  }

  /** Every row is found under its account's new name, unchanged, and there is no other row. */
  ghost predicate RowsMoved<I(!new), V>(before: map<I, V>, after: map<I, V>, f: map<I, Entry<I>>) {
    && Apart(before.Keys, f)
    && after.Keys == NamesAfter(before.Keys, f)
    && (forall x :: x in before ==> after[To(f, x)] == before[x])
  }

  ghost predicate AccountsMoved<I(!new)>(before: map<I, Account<I>>, after: map<I, Account<I>>, f: map<I, Entry<I>>) {
    && Apart(before.Keys, f)
    && after.Keys == NamesAfter(before.Keys, f)
    && (forall x :: x in before ==>
          && after[To(f, x)].profile == before[x].profile
          && after[To(f, x)].custodian == Follow(f, before[x].custodian))
  }

  ghost predicate LinksFollow<I(!new)>(before: map<Principal, Link<I>>, after: map<Principal, Link<I>>,
                                         f: map<I, Entry<I>>) {
    && after.Keys == before.Keys
    && (forall p :: p in before ==> after[p] == Link(before[p].storage, Follow(f, before[p].account)))
  }

  ghost predicate EventsFollow<I(!new)>(before: map<EventId, Option<I>>, after: map<EventId, Option<I>>,
                               f: map<I, Entry<I>>) {
    && after.Keys == before.Keys
    && (forall e :: e in before ==> after[e] == Follow(f, before[e]))
  }

  /** Each fence moves with its account, and every name left behind is fenced for good. */
  ghost predicate FencesMoved<I(!new)>(before: map<I, Fence>, after: map<I, Fence>, f: map<I, Entry<I>>, now: int) {
    && Apart(before.Keys, f)
    && after.Keys == NamesAfter(before.Keys, f) + f.Keys
    && (forall x :: x in before ==> after[To(f, x)] == before[x])
    && (forall o :: o in f ==> after[o] == Fence(now, AccountUuidMigrated, Some(now)))
  }

  /** The proofs of the given storage keys, and no others, stop working; what identifies them stays. */
  ghost predicate ProofsDiscarded(before: map<ProofKey, Proof>, after: map<ProofKey, Proof>,
                                  actors: set<Storage>, now: int) {
    && after.Keys == before.Keys
    && (forall p :: p in before ==>
          after[p] ==
          if before[p].invalidatedAt.None? && before[p].storage in actors
          then Proof(before[p].storage, before[p].proofId, Empty, None, Some(now), Some(AccountUuidMigrated))
          else before[p])
  }

  ghost predicate MovedBy<I(!new)>(t: Tables<I>, u: Tables<I>, f: map<I, Entry<I>>, now: int) {
    && RowsMoved(t.keys, u.keys, f)
    && AccountsMoved(t.accounts, u.accounts, f)
    && LinksFollow(t.links, u.links, f)
    && EventsFollow(t.events, u.events, f)
    && FencesMoved(t.fences, u.fences, f, now)
    && ProofsDiscarded(t.proofs, u.proofs, Actors(t.keys, f), now)
    && u.ledger == t.ledger + f
  }

  ghost predicate Moved<I(!new)>(t: Tables<I>, u: Tables<I>, m: map<I, Entry<I>>, now: int) {
    MovedBy(t, u, Fresh(m, t.ledger), now)
  }

  lemma ApartFrom<I(!new)>(names: set<I>, f: map<I, Entry<I>>)
    requires Sound(f) && forall o :: o in f ==> f[o].new_ !in names
    ensures Apart(names, f)
  {
  }

  /** The checks leave no name on which two rows could meet. */
  lemma NothingCollides<I(!new)>(m: map<I, Entry<I>>, t: Tables<I>)
    requires Valid(t) && Sound(m) && !TargetTaken(m, t) && !TargetFenced(m, t)
    ensures var f := Fresh(m, t.ledger);
      Sound(f) && Apart(t.keys.Keys, f) && Apart(t.accounts.Keys, f) && Apart(t.fences.Keys, f)
    ensures Fresh(m, t.ledger).Keys !! NamesAfter(t.fences.Keys, Fresh(m, t.ledger))
  {
    var f := Fresh(m, t.ledger);
    forall o | o in f ensures f[o].new_ !in t.keys && f[o].new_ !in t.fences {
      assert o in m && m[o] == f[o];
    }
    ApartFrom(t.keys.Keys, f);
    ApartFrom(t.accounts.Keys, f);
    ApartFrom(t.fences.Keys, f);
    NamesLeaveSources(t.fences.Keys, f);
  }

  lemma NamesLeaveSources<I(!new)>(names: set<I>, f: map<I, Entry<I>>)
    requires Sound(f)
    ensures f.Keys !! NamesAfter(names, f)
  {
    forall o | o in f ensures o !in NamesAfter(names, f) {
      forall x | x in names ensures To(f, x) != o {
      }
    }
  }

  lemma ImportedGrows<I(!new)>(rest: seq<Row<I>>, last: Row<I>)
    requires Distinct(rest + [last])
    ensures Distinct(rest) && last.old_ !in Imported(rest)
    ensures Imported(rest + [last]) == Imported(rest)[last.old_ := Entry(last.new_, last.kind)]
  {
    var all := rest + [last];
    assert Distinct(rest) by {
      forall i, j | 0 <= i < j < |rest| ensures rest[i].old_ != rest[j].old_ && rest[i].new_ != rest[j].new_ {
        assert all[i] == rest[i] && all[j] == rest[j];
      }
    }
    assert all[|rest|] == last;
    forall i | 0 <= i < |rest| ensures rest[i].old_ != last.old_ {
      assert all[i] == rest[i];
    }
    forall x | x in Imported(rest) ensures x in Imported(all) && Imported(all)[x] == Imported(rest)[x] {
      var i :| 0 <= i < |rest| && rest[i].old_ == x;
      assert all[i] == rest[i];
    }
    assert last.old_ in Imported(all);
    forall x | x in Imported(all) ensures x in Imported(rest) || x == last.old_ {
      var i :| 0 <= i < |all| && all[i].old_ == x;
      if i < |rest| {
        assert rest[i].old_ == x;
      }
    }
  }

  lemma {:induction false} ImportedSize<I(!new)>(rows: seq<Row<I>>)
    requires Distinct(rows)
    ensures |Imported(rows)| == |rows|
  {
    if rows != [] {
      var rest, last := rows[..|rows| - 1], rows[|rows| - 1];
      assert rows == rest + [last];
      ImportedGrows(rest, last);
      ImportedSize(rest);
    }
  }

  method Rename<I(==, !new), V>(rows: map<I, V>, f: map<I, Entry<I>>) returns (renamed: map<I, V>)
    requires Apart(rows.Keys, f)
    ensures RowsMoved(rows, renamed, f)
  {
    renamed := map x | x in rows :: To(f, x) := rows[x];
  }

  datatype Report = Report(apply: bool, mappingRows: nat, newMappings: nat, storageKeysPreserved: nat,
                           alreadyApplied: int)

  class Database<I(==, !new)> {
    /** Whether a name has the form Silicon Accounts gives out now. */
    const modern: I -> bool

    var keys: map<I, Key>
    var accounts: map<I, Account<I>>
    var links: map<Principal, Link<I>>
    var fences: map<I, Fence>
    var events: map<EventId, Option<I>>
    var proofs: map<ProofKey, Proof>
    var ledger: map<I, Entry<I>>

    function Snapshot(): Tables<I>
      reads this
    {
      Tables(keys, accounts, links, fences, events, proofs, ledger)
    }

    method DiscardProofs(f: map<I, Entry<I>>, now: int) returns (actors: set<Storage>)
      modifies this`proofs
      ensures actors == Actors(keys, f) && ProofsDiscarded(old(proofs), proofs, actors, now)
    {
      actors := Actors(keys, f);
      proofs := map p | p in proofs :: Discard(proofs[p], actors, now);
    }

    /** Renames the keys, and with them the cached accounts; custody is a separate reference. */
    method RenameAccounts(f: map<I, Entry<I>>)
      requires Apart(keys.Keys, f) && Apart(accounts.Keys, f)
      modifies this`keys, this`accounts
      ensures RowsMoved(old(keys), keys, f) && AccountsMoved(old(accounts), accounts, f)
    {
      keys := Rename(keys, f);
      accounts := Rename(accounts, f);
      accounts := map a | a in accounts :: accounts[a].(custodian := Follow(f, accounts[a].custodian));
    }

    method RenameReferences(f: map<I, Entry<I>>)
      modifies this`links, this`events
      ensures LinksFollow(old(links), links, f) && EventsFollow(old(events), events, f)
    {
      links := map p | p in links :: links[p].(account := Follow(f, links[p].account));
      events := map e | e in events :: Follow(f, events[e]);
    }

    method RenameFences(f: map<I, Entry<I>>, now: int)
      requires Apart(fences.Keys, f) && f.Keys !! NamesAfter(fences.Keys, f)
      modifies this`fences
      ensures FencesMoved(old(fences), fences, f, now)
    {
      fences := Rename(fences, f);
      fences := fences + map o | o in f :: Tombstone(fences, o, now);
    }

    method RunStatements(f: map<I, Entry<I>>, now: int) returns (actors: set<Storage>)
      requires Apart(keys.Keys, f) && Apart(accounts.Keys, f) && Apart(fences.Keys, f)
      requires f.Keys !! NamesAfter(fences.Keys, f)
      modifies this
      ensures MovedBy(old(Snapshot()), Snapshot(), f, now) && actors == Actors(old(keys), f)
    {
      actors := DiscardProofs(f, now);
      RenameAccounts(f);
      RenameReferences(f);
      RenameFences(f, now);
      ledger := ledger + f;
    }

    method Rollback(saved: Tables<I>)
      modifies this
      ensures Snapshot() == saved
    {
      keys, accounts, links := saved.keys, saved.accounts, saved.links;
      fences, events, proofs, ledger := saved.fences, saved.events, saved.proofs, saved.ledger;
    }

    /** The generated transaction: its checks, its statements, and its last word. */
    method Migrate(rows: seq<Row<I>>, apply: bool, now: int) returns (result: Result<Report, Refusal>)
      requires Valid(Snapshot()) && OneToOne(rows)
      modifies this
      ensures result.Err? <==> Checked(Imported(rows), old(Snapshot()), modern).Some?
      ensures result.Err? ==> Checked(Imported(rows), old(Snapshot()), modern) == Some(result.error)
      ensures result.Ok? ==> result.value.apply == apply && result.value.mappingRows == |rows|
      ensures result.Ok? ==> result.value.newMappings == |Fresh(Imported(rows), old(ledger))|
      ensures result.Ok? ==> result.value.alreadyApplied == |rows| - |Fresh(Imported(rows), old(ledger))|
      ensures result.Ok? ==>
        result.value.storageKeysPreserved == |Actors(old(keys), Fresh(Imported(rows), old(ledger)))|
      ensures result.Err? || !apply ==> Snapshot() == old(Snapshot())
      ensures result.Ok? && apply ==> Moved(old(Snapshot()), Snapshot(), Imported(rows), now)
    {
      var m := Imported(rows);
      var refusal := Checked(m, Snapshot(), modern);
      if refusal.Some? {
        return Err(refusal.value);
      }
      var saved := Snapshot();
      ImportIsSound(rows);
      NothingCollides(m, saved);
      var f := Fresh(m, ledger);
      ImportedSize(rows);
      var actors := RunStatements(f, now);
      result := Ok(Report(apply, |m|, |f|, |actors|, |m| - |f|));
      if !apply {
        Rollback(saved);
      }
    }
  }
}
