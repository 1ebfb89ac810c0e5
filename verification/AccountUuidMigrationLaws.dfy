/**
What a committed run of the account uuid migration means: a faithful renaming, harmless to repeat, and
over any history of runs every account moves at most once.
*/
module AccountUuidMigrationLaws {
  import opened Wrappers
  import opened AccountUuidMigration

  // ---- One run is a faithful renaming -----------------------------------------------------------

  /** A run the checks let through and the operator committed. */
  ghost predicate Committed<I(!new)>(t: Tables<I>, u: Tables<I>, m: map<I, Entry<I>>, now: int, modern: I -> bool) {
    Valid(t) && Sound(m) && Checked(m, t, modern).None? && Moved(t, u, m, now)
  }

  ghost predicate StorageIsPrivate<I(!new)>(keys: map<I, Key>) {
    forall x, y :: x in keys && y in keys && keys[x].storage == keys[y].storage ==> x == y
  }

  /** A storage key still belongs to one account, and the cache still points at existing keys. */
  lemma StorageStaysPrivate<I(!new)>(t: Tables<I>, u: Tables<I>, m: map<I, Entry<I>>, now: int, modern: I -> bool)
    requires Committed(t, u, m, now, modern) && StorageIsPrivate(t.keys)
    ensures StorageIsPrivate(u.keys) && Valid(u)
  {
    var f := Fresh(m, t.ledger);
    forall a | a in u.accounts ensures a in u.keys {
      var x :| x in t.accounts && To(f, x) == a;
      assert x in t.keys;
    }
    forall y, z | y in u.keys && z in u.keys && u.keys[y].storage == u.keys[z].storage ensures y == z {
      var x :| x in t.keys && To(f, x) == y;
      var w :| w in t.keys && To(f, w) == z;
      assert t.keys[x].storage == t.keys[w].storage;
    }
  }

  /** After the run no table but the fences mentions a name that was left behind. */
  lemma NothingPointsBack<I(!new)>(t: Tables<I>, u: Tables<I>, m: map<I, Entry<I>>, now: int, modern: I -> bool, o: I)
    requires Committed(t, u, m, now, modern) && o in Fresh(m, t.ledger)
    ensures o !in u.keys && o !in u.accounts
    ensures forall a :: a in u.accounts ==> u.accounts[a].custodian != Some(o)
    ensures forall p :: p in u.links ==> u.links[p].account != Some(o)
    ensures forall e :: e in u.events ==> u.events[e] != Some(o)
  {
    var f := Fresh(m, t.ledger);
    forall x: I ensures To(f, x) != o {
      if x in f {
        assert m[x] == f[x];
      }
    }
    forall a | a in u.accounts ensures u.accounts[a].custodian != Some(o) {
      var x :| x in t.accounts && To(f, x) == a;
      assert u.accounts[a].custodian == Follow(f, t.accounts[x].custodian);
    }
  }

  /** The kind the ledger records is the kind of the account it moved. */
  lemma LedgerKindIsTheAccounts<I(!new)>(t: Tables<I>, u: Tables<I>, m: map<I, Entry<I>>, now: int,
                                         modern: I -> bool, o: I)
    requires Committed(t, u, m, now, modern) && o in Fresh(m, t.ledger) && o in t.keys
    ensures u.ledger[o].new_ in u.keys && u.keys[u.ledger[o].new_] == t.keys[o]
    ensures u.ledger[o].kind == u.keys[u.ledger[o].new_].kind
  {
    var f := Fresh(m, t.ledger);
    assert f[o] == m[o] && To(f, o) == m[o].new_;
    assert !KindDiffers(m, t);
  }

  lemma LedgerStaysSound<I(!new)>(t: Tables<I>, u: Tables<I>, m: map<I, Entry<I>>, now: int, modern: I -> bool)
    requires Committed(t, u, m, now, modern) && Sound(t.ledger)
    ensures Sound(u.ledger)
  {
    var f := Fresh(m, t.ledger);
    assert !Contradicts(m, t.ledger);
    forall o, p | o in u.ledger && p in u.ledger
      ensures o != p ==> u.ledger[o].new_ != u.ledger[p].new_
      ensures u.ledger[o].new_ != p
    {
      if o in f && p !in f {
        assert o in m && p in t.ledger;
      } else if o !in f && p in f {
        assert p in m && o in t.ledger;
      }
    }
  }

  // ---- Applying the same mapping again ----------------------------------------------------------

  lemma NoLongerContradicted<I(!new)>(t: Tables<I>, u: Tables<I>, m: map<I, Entry<I>>, now: int, modern: I -> bool)
    requires Committed(t, u, m, now, modern)
    ensures !Contradicts(m, u.ledger)
  {
    var f := Fresh(m, t.ledger);
    assert !Contradicts(m, t.ledger);
    forall o, p | o in m && p in u.ledger
        && (o == p || m[o].new_ == u.ledger[p].new_ || o == u.ledger[p].new_ || m[o].new_ == p)
      ensures o == p && m[o] == u.ledger[p]
    {
      if p in f {
        assert m[p] == f[p] == u.ledger[p];
      } else {
        assert p in t.ledger && u.ledger[p] == t.ledger[p];
      }
    }
  }

  lemma StillExplained<I(!new)>(t: Tables<I>, u: Tables<I>, m: map<I, Entry<I>>, now: int, modern: I -> bool)
    requires Committed(t, u, m, now, modern) && forall o :: o in m ==> modern(m[o].new_)
    ensures !Unexplained(m, u, modern)
  {
    var f := Fresh(m, t.ledger);
    forall y | y in Referenced(u) && y !in u.ledger
      ensures exists x :: x in Referenced(t) && y == To(f, x)
    {
      WhereFrom(t, u, f, now, y);
    }
    forall y | y in Referenced(u) && y !in u.ledger && y !in m ensures modern(y) {
      var x :| x in Referenced(t) && y == To(f, x);
      assert !Unexplained(m, t, modern);
      if x in f {
        assert x in m && m[x] == f[x];
      }
    }
  }

  /** After the run every reference is a name of the form given out now, or one the ledger explains. */
  lemma EveryReferenceIsExplained<I(!new)>(t: Tables<I>, u: Tables<I>, m: map<I, Entry<I>>, now: int,
                                           modern: I -> bool, y: I)
    requires Committed(t, u, m, now, modern) && (forall o :: o in m ==> modern(m[o].new_)) && y in Referenced(u)
    ensures modern(y) || y in u.ledger
  {
    StillExplained(t, u, m, now, modern);
    assert forall o :: o in m ==> o in u.ledger;
  }

  /** Every reference left after the run was one before it, renamed. */
  lemma WhereFrom<I(!new)>(t: Tables<I>, u: Tables<I>, f: map<I, Entry<I>>, now: int, y: I)
    requires MovedBy(t, u, f, now) && y in Referenced(u) && y !in f
    ensures exists x :: x in Referenced(t) && y == To(f, x)
  {
    if y in u.keys {
      var x := NamedFrom(t.keys.Keys, f, y);
    } else if y in u.fences {
      var x := NamedFrom(t.fences.Keys, f, y);
    } else if y in Custodians(u.accounts) {
      var x := CustodianFrom(t.accounts, u.accounts, f, y);
    } else if y in Linked(u.links) {
      var x := LinkedFrom(t.links, u.links, f, y);
    } else {
      var x := MentionedFrom(t.events, u.events, f, y);
    }
  }

  lemma NamedFrom<I(!new)>(before: set<I>, f: map<I, Entry<I>>, y: I) returns (x: I)
    requires y in NamesAfter(before, f)
    ensures x in before && To(f, x) == y
  {
    x :| x in before && To(f, x) == y;
  }

  lemma LinkedFrom<I(!new)>(before: map<Principal, Link<I>>, after: map<Principal, Link<I>>, f: map<I, Entry<I>>, y: I)
    returns (x: I)
    requires LinksFollow(before, after, f) && y in Linked(after)
    ensures x in Linked(before) && To(f, x) == y
  {
    var p :| p in after && after[p].account == Some(y);
    x := before[p].account.value;
  }

  lemma MentionedFrom<I(!new)>(before: map<EventId, Option<I>>, after: map<EventId, Option<I>>, f: map<I, Entry<I>>,
                               y: I)
    returns (x: I)
    requires EventsFollow(before, after, f) && y in Mentioned(after)
    ensures x in Mentioned(before) && To(f, x) == y
  {
    var e :| e in after && after[e] == Some(y);
    x := before[e].value;
  }

  lemma CustodianFrom<I(!new)>(before: map<I, Account<I>>, after: map<I, Account<I>>, f: map<I, Entry<I>>, y: I)
    returns (x: I)
    requires AccountsMoved(before, after, f) && y in Custodians(after)
    ensures x in Custodians(before) && To(f, x) == y
  {
    var a :| a in after && after[a].custodian == Some(y);
    var b :| b in before && To(f, b) == a;
    x := before[b].custodian.value;
  }

  lemma NothingFreshAgain<I(!new)>(m: map<I, Entry<I>>, ledger: map<I, Entry<I>>)
    ensures Fresh(m, ledger + Fresh(m, ledger)) == map[]
  {
    assert forall o :: o in m ==> o in ledger + Fresh(m, ledger);
  }

  lemma KeyCameFrom<I(!new)>(before: map<I, Key>, after: map<I, Key>, f: map<I, Entry<I>>, y: I) returns (x: I)
    requires RowsMoved(before, after, f) && y in after
    ensures x in before && To(f, x) == y && after[y] == before[x]
  {
    x :| x in before && To(f, x) == y;
  }

  lemma SourcesKeepTheirKind<I(!new)>(t: Tables<I>, u: Tables<I>, m: map<I, Entry<I>>, o: I)
    requires Sound(m) && RowsMoved(t.keys, u.keys, Fresh(m, t.ledger)) && !KindDiffers(m, t)
    requires o in m && o in u.keys
    ensures u.keys[o].kind == m[o].kind
  {
    var f := Fresh(m, t.ledger);
    assert forall p :: p in f ==> p in m && f[p] == m[p];
    var x := KeyCameFrom(t.keys, u.keys, f, o);
  }

  lemma TargetsAreTheirOwn<I(!new)>(t: Tables<I>, u: Tables<I>, m: map<I, Entry<I>>, o: I)
    requires Sound(m) && RowsMoved(t.keys, u.keys, Fresh(m, t.ledger)) && !KindDiffers(m, t) && !TargetTaken(m, t)
    requires o in m && m[o].new_ in u.keys
    ensures u.keys[m[o].new_].kind == m[o].kind
  {
    var f := Fresh(m, t.ledger);
    assert forall p :: p in f ==> p in m && f[p] == m[p];
    var x := KeyCameFrom(t.keys, u.keys, f, m[o].new_);
    if x in f {
      assert m[x].new_ == m[o].new_;
      assert x == o;
    }
  }

  lemma KindsStillMatch<I(!new)>(t: Tables<I>, u: Tables<I>, m: map<I, Entry<I>>)
    requires Sound(m) && RowsMoved(t.keys, u.keys, Fresh(m, t.ledger)) && u.ledger == t.ledger + Fresh(m, t.ledger)
    requires !KindDiffers(m, t) && !TargetTaken(m, t)
    ensures !KindDiffers(m, u) && !TargetTaken(m, u) && !TargetFenced(m, u)
  {
    assert forall o :: o in m ==> o in u.ledger;
    forall o | o in m && o in u.keys ensures u.keys[o].kind == m[o].kind {
      SourcesKeepTheirKind(t, u, m, o);
    }
    forall o | o in m && m[o].new_ in u.keys ensures u.keys[m[o].new_].kind == m[o].kind {
      TargetsAreTheirOwn(t, u, m, o);
    }
  }

  lemma PassedChecks<I(!new)>(m: map<I, Entry<I>>, t: Tables<I>, modern: I -> bool)
    ensures Checked(m, t, modern).None? <==>
      !Contradicts(m, t.ledger) && !Unexplained(m, t, modern) && !KindDiffers(m, t) && !TargetTaken(m, t)
      && !TargetFenced(m, t)
  {
  }

  lemma PassesAgain<I(!new)>(t: Tables<I>, u: Tables<I>, m: map<I, Entry<I>>, now: int, modern: I -> bool)
    requires Committed(t, u, m, now, modern) && forall o :: o in m ==> modern(m[o].new_)
    ensures Checked(m, u, modern).None?
  {
    PassedChecks(m, t, modern);
    PassedChecks(m, u, modern);
    NoLongerContradicted(t, u, m, now, modern);
    StillExplained(t, u, m, now, modern);
    KindsStillMatch(t, u, m);
  }

  /** Once committed, the same export passes every check again and the second run changes no row. */
  lemma ReapplyingChangesNothing<I(!new)>(t: Tables<I>, u: Tables<I>, v: Tables<I>, rows: seq<Row<I>>,
                                          now: int, later: int, modern: I -> bool)
    requires OneToOne(rows) && forall r :: r in rows ==> modern(r.new_)
    requires Committed(t, u, Imported(rows), now, modern)
    ensures Checked(Imported(rows), u, modern).None?
    ensures Moved(u, v, Imported(rows), later) ==> v == u
  {
    var m := Imported(rows);
    PassesAgain(t, u, m, now, modern);
    if Moved(u, v, m, later) {
      NothingToMove(t, u, v, m, now, later);
    }
  }

  lemma NothingToMove<I(!new)>(t: Tables<I>, u: Tables<I>, v: Tables<I>, m: map<I, Entry<I>>, now: int, later: int)
    requires u.ledger == t.ledger + Fresh(m, t.ledger) && Moved(u, v, m, later)
    ensures v.keys == u.keys && v.accounts == u.accounts && v.links == u.links && v.fences == u.fences
    ensures v.events == u.events && v.proofs == u.proofs && v.ledger == u.ledger
  {
    var f := Fresh(m, u.ledger);
    NothingFreshAgain(m, t.ledger);
    RowsStay(u.keys, v.keys, f);
    FencesStay(u.fences, v.fences, f, later);
    AccountsStay(u.accounts, v.accounts, f);
    LinksStay(u.links, v.links, f);
    EventsStay(u.events, v.events, f);
    ProofsStay(u.proofs, v.proofs, Actors(u.keys, f), later);
  }

  lemma LinksStay<I(!new)>(before: map<Principal, Link<I>>, after: map<Principal, Link<I>>, f: map<I, Entry<I>>)
    requires f == map[] && LinksFollow(before, after, f)
    ensures after == before
  {
  }

  lemma EventsStay<I(!new)>(before: map<EventId, Option<I>>, after: map<EventId, Option<I>>, f: map<I, Entry<I>>)
    requires f == map[] && EventsFollow(before, after, f)
    ensures after == before
  {
  }

  lemma ProofsStay(before: map<ProofKey, Proof>, after: map<ProofKey, Proof>, actors: set<Storage>, now: int)
    requires actors == {} && ProofsDiscarded(before, after, actors, now)
    ensures after == before
  {
  }

  lemma FencesStay<I(!new)>(before: map<I, Fence>, after: map<I, Fence>, f: map<I, Entry<I>>, now: int)
    requires f == map[] && FencesMoved(before, after, f, now)
    ensures after == before
  {
    NamesStay(before.Keys, f);
    RowsStay(before, after, f);
  }

  lemma NamesStay<I(!new)>(names: set<I>, f: map<I, Entry<I>>)
    requires f == map[]
    ensures NamesAfter(names, f) == names
  {
    forall x | x in names ensures x in NamesAfter(names, f) {
      assert To(f, x) == x;
    }
  }

  lemma RowsStay<I(!new), V>(before: map<I, V>, after: map<I, V>, f: map<I, Entry<I>>)
    requires f == map[] && after.Keys == NamesAfter(before.Keys, f)
    requires forall x :: x in before ==> To(f, x) in after && after[To(f, x)] == before[x]
    ensures after == before
  {
    NamesStay(before.Keys, f);
    forall x | x in before ensures after[x] == before[x] {
      assert To(f, x) == x;
    }
  }

  lemma AccountsStay<I(!new)>(before: map<I, Account<I>>, after: map<I, Account<I>>, f: map<I, Entry<I>>)
    requires f == map[] && AccountsMoved(before, after, f)
    ensures after == before
  {
    NamesStay(before.Keys, f);
    forall x | x in before ensures after[x] == before[x] {
      assert To(f, x) == x;
    }
  }

  // ---- The script, from the file to the tables --------------------------------------------------

  lemma {:induction false} ParsedRowsAreCanonical(lines: seq<seq<string>>)
    requires AllValid(lines)
    ensures forall r :: r in RowsOf(lines) ==> CanonicalUuid4(r.new_)
  {
    if lines != [] {
      var before, last := lines[..|lines| - 1], lines[|lines| - 1];
      ParsedRowsAreCanonical(before);
      if last != [] {
        assert ValidFields(last);
      }
    }
  }

  datatype Refused = BadFile | BadState(refusal: Refusal)

  /** Whether a database judges names as the script's pattern does. */
  ghost predicate JudgesNames(db: Database<string>) {
    forall name :: db.modern(name) == Modern(name)
  }

  /** One use of the script on a file. */
  method RunScript(db: Database<string>, reader: seq<seq<string>>, apply: bool, now: int)
    returns (result: Result<Report, Refused>)
    requires Valid(db.Snapshot())
    modifies db
    ensures result == Err(BadFile) <==> !Acceptable(reader)
    ensures result.Err? || !apply ==> db.Snapshot() == old(db.Snapshot())
    ensures Acceptable(reader) ==> OneToOne(RowsOf(reader[1..]))
    ensures Acceptable(reader) ==>
      (result.Ok? <==> Checked(Imported(RowsOf(reader[1..])), old(db.Snapshot()), db.modern).None?)
    ensures result.Err? && result.error.BadState? ==>
      Checked(Imported(RowsOf(reader[1..])), old(db.Snapshot()), db.modern) == Some(result.error.refusal)
    ensures result.Ok? ==> result.value.newMappings == |Fresh(Imported(RowsOf(reader[1..])), old(db.ledger))|
    ensures result.Ok? ==>
      result.value.apply == apply && result.value.mappingRows == |Filled(reader[1..])|
      && result.value.alreadyApplied == result.value.mappingRows - result.value.newMappings
    ensures result.Ok? && apply ==>
      Moved(old(db.Snapshot()), db.Snapshot(), Imported(RowsOf(reader[1..])), now)
    // Every line of the file is in the ledger as it stands there.
    ensures result.Ok? && apply ==>
      forall fields :: fields in reader[1..] && fields != [] ==> InLedger(db.ledger, fields)
  {
    var parsed := ParseMapping(reader);
    if parsed.Err? {
      return Err(BadFile);
    }
    var migrated := db.Migrate(parsed.value, apply, now);
    if migrated.Err? {
      return Err(BadState(migrated.error));
    }
    RowsReadLines(reader[1..]);
    if apply {
      LinesAreInLedger(reader, old(db.Snapshot()), db.Snapshot(), db.modern, now);
    }
    result := Ok(migrated.value);
  }

  /** The ledger has the line's mapping, with the line's kind. */
  predicate InLedger(ledger: map<string, Entry<string>>, fields: seq<string>) {
    && |fields| == 3 && fields[0] in ledger && ledger[fields[0]].new_ == fields[1]
    && (ledger[fields[0]].kind.Carbon? <==> fields[2] == "carbon")
    && (ledger[fields[0]].kind.Silicon? <==> fields[2] == "silicon")
  }

  /** Whether a row is new or was applied before, the ledger then has it as it says. */
  lemma RowIsInLedger<I(!new)>(rows: seq<Row<I>>, t: Tables<I>, u: Tables<I>, modern: I -> bool, now: int, k: nat)
    requires OneToOne(rows) && k < |rows| && Checked(Imported(rows), t, modern).None?
    requires Moved(t, u, Imported(rows), now)
    ensures rows[k].old_ in u.ledger && u.ledger[rows[k].old_] == Entry(rows[k].new_, rows[k].kind)
  {
    var m := Imported(rows);
    assert rows[k].old_ in m && m[rows[k].old_] == Entry(rows[k].new_, rows[k].kind);
    if rows[k].old_ in t.ledger {
      assert !Contradicts(m, t.ledger);
      assert m[rows[k].old_] == t.ledger[rows[k].old_];
    }
  }

  lemma LinesAreInLedger(reader: seq<seq<string>>, t: Tables<string>, u: Tables<string>, modern: string -> bool,
                         now: int)
    requires Acceptable(reader) && Checked(Imported(RowsOf(reader[1..])), t, modern).None?
    requires Moved(t, u, Imported(RowsOf(reader[1..])), now)
    ensures forall fields :: fields in reader[1..] && fields != [] ==> InLedger(u.ledger, fields)
  {
    var lines := reader[1..];
    RowsReadLines(lines);
    forall fields | fields in lines && fields != [] ensures InLedger(u.ledger, fields) {
      hide Checked, Moved, Imported;
      FilledHolds(lines, fields);
      var k :| 0 <= k < |Filled(lines)| && Filled(lines)[k] == fields;
      assert Reads(RowsOf(lines)[k], fields);
      RowIsInLedger(RowsOf(lines), t, u, modern, now, k);
    }
  }

  /** Whatever the file and the tables: when the script commits a file, using it again on the same file
      succeeds, has nothing new to move and leaves every table as it is. */
  method RunScriptTwice(db: Database<string>, reader: seq<seq<string>>, now: int, later: int)
    returns (first: Result<Report, Refused>, second: Result<Report, Refused>, ghost between: Tables<string>)
    requires Valid(db.Snapshot()) && JudgesNames(db)
    modifies db
    ensures first.Ok? ==> second.Ok? && second.value.newMappings == 0 && db.Snapshot() == between
    ensures first.Ok? ==>
      Acceptable(reader) && Moved(old(db.Snapshot()), between, Imported(RowsOf(reader[1..])), now)
    ensures first.Err? ==> between == old(db.Snapshot())
  {
    ghost var before := db.Snapshot();
    first := RunScript(db, reader, true, now);
    between := db.Snapshot();
    ghost var m := if Acceptable(reader) then Imported(RowsOf(reader[1..])) else map[];
    if first.Ok? {
      CommittedByTheScript(reader, before, between, db.modern, now);
      AgainIsEmpty(reader, before, between, db.modern, now);
      CacheStaysValid(before, between, Fresh(m, before.ledger), now);
    } else {
      assert between == before;
    }
    second := RunScript(db, reader, true, later);
    if first.Ok? {
      ExportReapplies(reader, before, between, db.Snapshot(), db.modern, now, later);
    }
  }

  lemma CommittedByTheScript(reader: seq<seq<string>>, t: Tables<string>, u: Tables<string>, modern: string -> bool,
                             now: int)
    requires Acceptable(reader) && Valid(t)
    requires Checked(Imported(RowsOf(reader[1..])), t, modern).None?
    requires Moved(t, u, Imported(RowsOf(reader[1..])), now)
    ensures Committed(t, u, Imported(RowsOf(reader[1..])), now, modern)
  {
    ImportIsSound(RowsOf(reader[1..]));
  }

  lemma AgainIsEmpty(reader: seq<seq<string>>, t: Tables<string>, u: Tables<string>, modern: string -> bool, now: int)
    requires Acceptable(reader) && Committed(t, u, Imported(RowsOf(reader[1..])), now, modern)
    ensures |Fresh(Imported(RowsOf(reader[1..])), u.ledger)| == 0
  {
    NothingFreshAgain(Imported(RowsOf(reader[1..])), t.ledger);
  }

  /** An accepted file, once committed, passes every check again and a second run changes no row. */
  lemma ExportReapplies(reader: seq<seq<string>>, t: Tables<string>, u: Tables<string>, v: Tables<string>,
                        modern: string -> bool, now: int, later: int)
    requires Acceptable(reader) && forall name :: modern(name) == Modern(name)
    requires Committed(t, u, Imported(RowsOf(reader[1..])), now, modern)
    ensures Checked(Imported(RowsOf(reader[1..])), u, modern).None?
    ensures Moved(u, v, Imported(RowsOf(reader[1..])), later) ==> v == u
  {
    var rows := RowsOf(reader[1..]);
    ParsedRowsAreCanonical(reader[1..]);
    assert forall r :: r in rows ==> modern(r.new_);
    ReapplyingChangesNothing(t, u, v, rows, now, later, modern);
  }

  // ---- Any number of runs -----------------------------------------------------------------------

  /** A run of the migration, or the work of the service between two runs. */
  datatype Step<I> = Run(rows: seq<Row<I>>, apply: bool, now: int) | Traffic

  ghost predicate Stepped<I(!new)>(t: Tables<I>, u: Tables<I>, s: Step<I>, modern: I -> bool) {
    match s
    case Run(rows, apply, now) =>
      && OneToOne(rows)
      && if apply && Checked(Imported(rows), t, modern).None? then Moved(t, u, Imported(rows), now) else u == t
    case Traffic =>
      // Nothing but the migration writes the ledger.
      u.ledger == t.ledger && Valid(u)
  }

  ghost predicate StepAt<I(!new)>(states: seq<Tables<I>>, steps: seq<Step<I>>, i: nat, modern: I -> bool)
    requires i < |steps| && |states| == |steps| + 1
  {
    Stepped(states[i], states[i + 1], steps[i], modern)
  }

  ghost predicate History<I(!new)>(states: seq<Tables<I>>, steps: seq<Step<I>>, modern: I -> bool) {
    && |states| == |steps| + 1
    && Valid(states[0]) && Sound(states[0].ledger)
    && (forall i :: 0 <= i < |steps| ==> StepAt(states, steps, i, modern))
  }

  /** The earlier mappings are still there, unchanged. */
  ghost predicate Kept<I(!new)>(earlier: map<I, Entry<I>>, later: map<I, Entry<I>>) {
    forall o :: o in earlier ==> o in later && later[o] == earlier[o]
  }

  lemma StepKeepsLedger<I(!new)>(t: Tables<I>, u: Tables<I>, s: Step<I>, modern: I -> bool)
    requires Valid(t) && Sound(t.ledger) && Stepped(t, u, s, modern)
    ensures Valid(u) && Sound(u.ledger) && Kept(t.ledger, u.ledger)
  {
    if s.Run? && s.apply && Checked(Imported(s.rows), t, modern).None? {
      var m := Imported(s.rows);
      ImportIsSound(s.rows);
      LedgerStaysSound(t, u, m, s.now, modern);
      CacheStaysValid(t, u, Fresh(m, t.ledger), s.now);
    }
  }

  lemma CacheStaysValid<I(!new)>(t: Tables<I>, u: Tables<I>, f: map<I, Entry<I>>, now: int)
    requires Valid(t) && MovedBy(t, u, f, now)
    ensures Valid(u)
  {
    forall a | a in u.accounts ensures a in u.keys {
      var x :| x in t.accounts && To(f, x) == a;
      assert x in t.keys;
    }
  }

  lemma {:induction false} LedgerOnlyGrows<I(!new)>(states: seq<Tables<I>>, steps: seq<Step<I>>, modern: I -> bool,
                                                    i: nat, j: nat)
    requires History(states, steps, modern) && i <= j < |states|
    ensures Valid(states[j]) && Sound(states[j].ledger) && Kept(states[i].ledger, states[j].ledger)
    decreases j
  {
    if j > 0 {
      LedgerOnlyGrows(states, steps, modern, if i < j then i else j - 1, j - 1);
      assert StepAt(states, steps, j - 1, modern);
      StepKeepsLedger(states[j - 1], states[j], steps[j - 1], modern);
    }
  }

  /** Once an account has moved it never moves again, and its new name is never moved away. */
  lemma NoAccountMovesTwice<I(!new)>(states: seq<Tables<I>>, steps: seq<Step<I>>, modern: I -> bool,
                                     i: nat, j: nat, o: I)
    requires History(states, steps, modern) && i <= j < |states| && o in states[i].ledger
    ensures o in states[j].ledger && states[j].ledger[o] == states[i].ledger[o]
    ensures states[i].ledger[o].new_ !in states[j].ledger
  {
    LedgerOnlyGrows(states, steps, modern, i, j);
  }

  ghost predicate Entombed<I(!new)>(t: Tables<I>) {
    forall o :: o in t.ledger ==> o in t.fences && t.fences[o].deletedAt.Some?
  }

  /** Where an account of the first state is found in a later one, and what is known there. */
  ghost predicate OneHopAway<I(!new)>(t: Tables<I>, u: Tables<I>) {
    && (forall x :: x in t.keys && x !in t.ledger ==>
          To(u.ledger, x) in u.keys && u.keys[To(u.ledger, x)] == t.keys[x])
    && (forall x :: x in t.accounts && x !in t.ledger ==>
          To(u.ledger, x) in u.accounts && u.accounts[To(u.ledger, x)].profile == t.accounts[x].profile)
  }

  lemma RunKeepsTombstones<I(!new)>(t: Tables<I>, u: Tables<I>, m: map<I, Entry<I>>, now: int, modern: I -> bool)
    requires Committed(t, u, m, now, modern) && Entombed(t)
    ensures Entombed(u)
  {
    var f := Fresh(m, t.ledger);
    forall o | o in u.ledger ensures o in u.fences && u.fences[o].deletedAt.Some? {
      if o !in f {
        assert To(f, o) == o;
      }
    }
  }

  lemma HopsCompose<I(!new)>(ledger: map<I, Entry<I>>, m: map<I, Entry<I>>, x: I)
    requires !Contradicts(m, ledger)
    ensures To(ledger + Fresh(m, ledger), x) == To(Fresh(m, ledger), To(ledger, x))
  {
    if x in ledger {
      var n := ledger[x].new_;
      assert n in m ==> n == x;
    }
  }

  lemma RunExtendsTheHop<I(!new)>(t: Tables<I>, u: Tables<I>, v: Tables<I>, m: map<I, Entry<I>>, now: int)
    requires !Contradicts(m, u.ledger) && Moved(u, v, m, now) && OneHopAway(t, u)
    ensures OneHopAway(t, v)
  {
    var f := Fresh(m, u.ledger);
    forall x | x in t.keys && x !in t.ledger
      ensures To(v.ledger, x) in v.keys && v.keys[To(v.ledger, x)] == t.keys[x]
    {
      HopsCompose(u.ledger, m, x);
    }
    forall x | x in t.accounts && x !in t.ledger
      ensures To(v.ledger, x) in v.accounts && v.accounts[To(v.ledger, x)].profile == t.accounts[x].profile
    {
      HopsCompose(u.ledger, m, x);
    }
  }

  lemma AlwaysValid<I(!new)>(states: seq<Tables<I>>, steps: seq<Step<I>>, modern: I -> bool, j: nat)
    requires History(states, steps, modern) && j < |states|
    ensures Valid(states[j])
  {
    LedgerOnlyGrows(states, steps, modern, 0, j);
  }

  lemma LastStep<I(!new)>(states: seq<Tables<I>>, steps: seq<Step<I>>, modern: I -> bool, j: nat)
    requires History(states, steps, modern) && 0 < j < |states|
    ensures Stepped(states[j - 1], states[j], steps[j - 1], modern)
  {
    assert StepAt(states, steps, j - 1, modern);
  }

  lemma StepIsOneHop<I(!new)>(t: Tables<I>, u: Tables<I>, v: Tables<I>, s: Step<I>, modern: I -> bool)
    requires Valid(u) && Stepped(u, v, s, modern) && s.Run? && OneHopAway(t, u)
    ensures OneHopAway(t, v)
    ensures Entombed(u) ==> Entombed(v)
  {
    if s.apply && Checked(Imported(s.rows), u, modern).None? {
      RunExtendsTheHop(t, u, v, Imported(s.rows), s.now);
      if Entombed(u) {
        ImportIsSound(s.rows);
        RunKeepsTombstones(u, v, Imported(s.rows), s.now, modern);
      }
    }
  }

  /** Without outside writes, every account's data stays one hop of the ledger away, and every name
      left behind stays deleted. */
  lemma {:induction false} MigrationsAreOneHop<I(!new)>(states: seq<Tables<I>>, steps: seq<Step<I>>,
                                                        modern: I -> bool, j: nat)
    requires History(states, steps, modern) && j < |states| && forall s :: s in steps ==> s.Run?
    ensures OneHopAway(states[0], states[j])
    ensures Entombed(states[0]) ==> Entombed(states[j])
    decreases j
  {
    if j > 0 {
      MigrationsAreOneHop(states, steps, modern, j - 1);
      AlwaysValid(states, steps, modern, j - 1);
      LastStep(states, steps, modern, j);
      assert steps[j - 1] in steps;
      StepIsOneHop(states[0], states[j - 1], states[j], steps[j - 1], modern);
    }
  }
}
