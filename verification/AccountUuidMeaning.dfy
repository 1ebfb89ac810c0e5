/**
What the account uuid migration takes, refuses and writes, stated on the text of the export and on the
tables alone.
*/
module AccountUuidMeaning {
  import opened Wrappers
  import opened AccountUuidMigration
  import opened AccountUuidMigrationLaws

  // ---- The export -------------------------------------------------------------------------------

  const DIGITS := "0123456789abcdef"

  predicate Hex(s: string, length: nat) {
    |s| == length && forall i :: 0 <= i < length ==> s[i] in DIGITS
  }

  /** Five groups of lower-case hexadecimal digits joined by hyphens. */
  predicate Hyphenated(s: string) {
    && |s| == 36
    && Hex(s[..8], 8) && s[8] == '-' && Hex(s[9..13], 4) && s[13] == '-' && Hex(s[14..18], 4) && s[18] == '-'
    && Hex(s[19..23], 4) && s[23] == '-' && Hex(s[24..], 12)
  }

  lemma DigitsAre(c: char)
    ensures c in DIGITS <==> '0' <= c <= '9' || 'a' <= c <= 'f'
  {
    assert DIGITS[0] == '0' && DIGITS[1] == '1' && DIGITS[2] == '2' && DIGITS[3] == '3' && DIGITS[4] == '4';
    assert DIGITS[5] == '5' && DIGITS[6] == '6' && DIGITS[7] == '7' && DIGITS[8] == '8' && DIGITS[9] == '9';
    assert DIGITS[10] == 'a' && DIGITS[11] == 'b' && DIGITS[12] == 'c' && DIGITS[13] == 'd';
    assert DIGITS[14] == 'e' && DIGITS[15] == 'f';
  }

  lemma GroupsMean(s: string)
    requires |s| == 36
    ensures Hex(s[..8], 8) <==> forall i :: 0 <= i < 8 ==> LowerHex(s[i])
    ensures Hex(s[9..13], 4) <==> forall i :: 9 <= i < 13 ==> LowerHex(s[i])
    ensures Hex(s[14..18], 4) <==> forall i :: 14 <= i < 18 ==> LowerHex(s[i])
    ensures Hex(s[19..23], 4) <==> forall i :: 19 <= i < 23 ==> LowerHex(s[i])
    ensures Hex(s[24..], 12) <==> forall i :: 24 <= i < 36 ==> LowerHex(s[i])
  {
    forall c: char ensures c in DIGITS <==> LowerHex(c) { DigitsAre(c); }
    GroupMeans(s, 0, 8);
    GroupMeans(s, 9, 13);
    GroupMeans(s, 14, 18);
    GroupMeans(s, 19, 23);
    GroupMeans(s, 24, 36);
    assert s[..8] == s[0..8] && s[24..] == s[24..36];
  }

  lemma GroupMeans(s: string, from: nat, to: nat)
    requires from <= to <= |s|
    ensures Hex(s[from..to], to - from) <==> forall i :: from <= i < to ==> LowerHex(s[i])
  {
    forall c: char ensures c in DIGITS <==> LowerHex(c) { DigitsAre(c); }
    var group := s[from..to];
    if forall i :: from <= i < to ==> LowerHex(s[i]) {
      forall i | 0 <= i < to - from ensures group[i] in DIGITS {
        assert group[i] == s[from + i];
      }
    }
    if Hex(group, to - from) {
      forall i | from <= i < to ensures LowerHex(s[i]) {
        assert group[i - from] == s[i];
      }
    }
  }

  lemma UuidShapedMeans(s: string)
    ensures UuidShaped(s) <==> Hyphenated(s)
  {
    if |s| == 36 {
      GroupsMean(s);
      if UuidShaped(s) {
        assert s[8] == '-' && s[13] == '-' && s[18] == '-' && s[23] == '-';
      }
    }
  }

  /** The form of the names Silicon Accounts gives out now. */
  predicate RandomName(s: string) {
    Hyphenated(s) && s[19] in {'8', '9', 'a', 'b'}
  }

  lemma ModernMeans(s: string)
    ensures Modern(s) <==> RandomName(s)
    ensures CanonicalUuid4(s) <==> RandomName(s) && s[14] == '4'
  {
    UuidShapedMeans(s);
  }

  /** An earlier name: one to sixty-four letters and digits, or a hyphenated one. */
  predicate EarlierName(s: string) {
    || (0 < |s| < 65 && forall i :: 0 <= i < |s| ==> '0' <= s[i] <= '9' || 'a' <= s[i] <= 'z' || 'A' <= s[i] <= 'Z')
    || Hyphenated(s)
  }

  /** A line is taken if and only if it names an earlier account, a new one, and its kind. */
  lemma ValidFieldsMean(fields: seq<string>)
    ensures ValidFields(fields) <==>
      && |fields| == 3
      && EarlierName(fields[0]) && RandomName(fields[1]) && fields[1][14] == '4'
      && fields[2] in {"carbon", "silicon"}
      && fields[0] != fields[1]
  {
    if |fields| == 3 {
      UuidShapedMeans(fields[0]);
      ModernMeans(fields[1]);
    }
  }

  /** A file is taken if and only if its header is this one, every non-empty line is taken, there is one,
      and no name stands in two of their name fields. */
  lemma AcceptableMeans(reader: seq<seq<string>>)
    ensures Acceptable(reader) <==>
      && reader != [] && reader[0] == ["old_uuid", "new_uuid", "kind"]
      && Filled(reader[1..]) != []
      && (forall line :: line in Filled(reader[1..]) ==> ValidFields(line))
      && NamesOnce(Filled(reader[1..]))
  {
    if reader != [] {
      var lines := reader[1..];
      forall fields ensures fields in Filled(lines) <==> fields in lines && fields != [] {
        FilledHolds(lines, fields);
      }
      assert AllValid(lines) <==> forall line :: line in Filled(lines) ==> ValidFields(line);
      if AllValid(lines) {
        RowsReadLines(lines);
        NamesOnceMeans(RowsOf(lines), Filled(lines));
      }
    }
  }

  predicate NamesOnce(lines: seq<seq<string>>) {
    && (forall line :: line in lines ==> |line| >= 2)
    && (forall k, l :: 0 <= k < l < |lines| ==> lines[k][0] != lines[l][0] && lines[k][1] != lines[l][1])
    && (forall k, l :: 0 <= k < |lines| && 0 <= l < |lines| ==> lines[k][0] != lines[l][1])
  }

  lemma NamesOnceMeans(rows: seq<Row<string>>, lines: seq<seq<string>>)
    requires |rows| == |lines| && forall k :: 0 <= k < |lines| ==> Reads(rows[k], lines[k])
    ensures NamesOnce(lines) <==> OneToOne(rows)
  {
    if NamesOnce(lines) {
      forall k, l | 0 <= k < l < |rows| ensures rows[k].old_ != rows[l].old_ && rows[k].new_ != rows[l].new_ {
        assert Reads(rows[k], lines[k]) && Reads(rows[l], lines[l]);
      }
      forall k, l | 0 <= k < |rows| && 0 <= l < |rows| ensures rows[k].old_ != rows[l].new_ {
        assert Reads(rows[k], lines[k]) && Reads(rows[l], lines[l]);
      }
    }
    if OneToOne(rows) {
      forall k, l | 0 <= k < l < |lines| ensures lines[k][0] != lines[l][0] && lines[k][1] != lines[l][1] {
        assert Reads(rows[k], lines[k]) && Reads(rows[l], lines[l]);
      }
      forall k, l | 0 <= k < |lines| && 0 <= l < |lines| ensures lines[k][0] != lines[l][1] {
        assert Reads(rows[k], lines[k]) && Reads(rows[l], lines[l]);
        assert rows[k].old_ != rows[l].new_;
      }
    }
  }

  // ---- The checks -------------------------------------------------------------------------------

  /** The mappings are the rows, whatever names are. */
  lemma ImportedMeans<I(!new)>(rows: seq<Row<I>>, o: I)
    requires Distinct(rows)
    ensures o in Imported(rows) <==> exists i :: 0 <= i < |rows| && rows[i].old_ == o
    ensures forall i :: 0 <= i < |rows| && rows[i].old_ == o ==>
      Imported(rows)[o].new_ == rows[i].new_ && Imported(rows)[o].kind == rows[i].kind
  {
  }

  /** A name is referenced by an account, as a custodian, by a link, by a fence, or by an event. */
  lemma ReferencedMeans<I(!new)>(t: Tables<I>, u: I)
    ensures u in Referenced(t) <==>
      || u in t.keys
      || (exists a :: a in t.accounts && t.accounts[a].custodian == Some(u))
      || (exists p :: p in t.links && t.links[p].account == Some(u))
      || u in t.fences
      || (exists e :: e in t.events && t.events[e] == Some(u))
  {
    if a :| a in t.accounts && t.accounts[a].custodian == Some(u) {
      assert u in Custodians(t.accounts);
    } else if p :| p in t.links && t.links[p].account == Some(u) {
      assert u in Linked(t.links);
    } else if e :| e in t.events && t.events[e] == Some(u) {
      assert u in Mentioned(t.events);
    }
  }

  /** A mapping of the export that shares a name with one of the ledger is that very mapping. */
  ghost predicate AgreesWithLedger<I(!new)>(m: map<I, Entry<I>>, ledger: map<I, Entry<I>>) {
    forall o, p :: o in m && p in ledger ==>
      var share := o == p || m[o].new_ == ledger[p].new_ || o == ledger[p].new_ || m[o].new_ == p;
      share ==> o == p && m[o].new_ == ledger[p].new_ && m[o].kind == ledger[p].kind
  }

  ghost predicate EachExplained<I(!new)>(m: map<I, Entry<I>>, t: Tables<I>, modern: I -> bool) {
    forall u :: u in Referenced(t) ==> modern(u) || u in m || u in t.ledger
  }

  ghost predicate KindsAgree<I(!new)>(m: map<I, Entry<I>>, t: Tables<I>) {
    forall o :: o in m && o in t.keys ==> t.keys[o].kind == m[o].kind
  }

  /** Only an account moved earlier may be found under its new name, and then with its kind. */
  ghost predicate TargetsAreFree<I(!new)>(m: map<I, Entry<I>>, t: Tables<I>) {
    forall o :: o in m && m[o].new_ in t.keys ==> o in t.ledger && t.keys[m[o].new_].kind == m[o].kind
  }

  ghost predicate TargetsAreUnfenced<I(!new)>(m: map<I, Entry<I>>, t: Tables<I>) {
    forall o :: o in m && m[o].new_ in t.fences ==> o in t.ledger
  }

  /** The checks answer with the first of their conditions that fails. */
  lemma CheckedMeans<I(!new)>(m: map<I, Entry<I>>, t: Tables<I>, modern: I -> bool)
    ensures var refusal := Checked(m, t, modern);
      && (refusal == Some(ConflictsWithLedger) <==> !AgreesWithLedger(m, t.ledger))
      && (refusal == Some(UnexplainedReference) <==> AgreesWithLedger(m, t.ledger) && !EachExplained(m, t, modern))
      && (refusal == Some(WrongKind) <==>
            AgreesWithLedger(m, t.ledger) && EachExplained(m, t, modern) && !KindsAgree(m, t))
      && (refusal == Some(TargetExists) <==>
            AgreesWithLedger(m, t.ledger) && EachExplained(m, t, modern) && KindsAgree(m, t) && !TargetsAreFree(m, t))
      && (refusal == None <==>
            && AgreesWithLedger(m, t.ledger) && EachExplained(m, t, modern) && KindsAgree(m, t)
            && TargetsAreFree(m, t) && TargetsAreUnfenced(m, t))
  {
  }

  // ---- What a committed run writes --------------------------------------------------------------

  lemma FreshMeans<I(!new)>(m: map<I, Entry<I>>, ledger: map<I, Entry<I>>, o: I)
    ensures o in Fresh(m, ledger) <==> o in m && o !in ledger
    ensures o in Fresh(m, ledger) ==> Fresh(m, ledger)[o] == m[o]
  {
  }

  /** Where the account named `x` is found after the run. */
  function NameAfter<I(==, !new)>(rows: seq<Row<I>>, t: Tables<I>, x: I): I
    requires Distinct(rows)
  {
    if x !in t.ledger && exists i :: 0 <= i < |rows| && rows[i].old_ == x then
      var i :| 0 <= i < |rows| && rows[i].old_ == x;
      rows[i].new_
    else x
  }

  lemma ToIsNameAfter<I(!new)>(rows: seq<Row<I>>, t: Tables<I>, x: I)
    requires Distinct(rows)
    ensures To(Fresh(Imported(rows), t.ledger), x) == NameAfter(rows, t, x)
  {
  }

  /** Row by row, table by table: an account named in a row not applied before is found, with all it had,
      under the row's new name; one that is not named stays; references follow; nothing is added or lost
      but the fences of the names left behind. */
  lemma CommittedMeans<I(!new)>(rows: seq<Row<I>>, t: Tables<I>, u: Tables<I>, now: int)
    requires OneToOne(rows) && Moved(t, u, Imported(rows), now)
    ensures forall x :: x in t.keys ==> NameAfter(rows, t, x) in u.keys && u.keys[NameAfter(rows, t, x)] == t.keys[x]
    ensures forall y :: y in u.keys ==> exists x :: x in t.keys && NameAfter(rows, t, x) == y
    ensures forall x :: x in t.accounts ==>
      && NameAfter(rows, t, x) in u.accounts
      && u.accounts[NameAfter(rows, t, x)].profile == t.accounts[x].profile
      && (t.accounts[x].custodian == None ==> u.accounts[NameAfter(rows, t, x)].custodian == None)
      && (t.accounts[x].custodian != None ==>
            u.accounts[NameAfter(rows, t, x)].custodian == Some(NameAfter(rows, t, t.accounts[x].custodian.value)))
  {
    var f := Fresh(Imported(rows), t.ledger);
    forall x ensures To(f, x) == NameAfter(rows, t, x) {
      ToIsNameAfter(rows, t, x);
    }
    forall y | y in u.keys ensures exists x :: x in t.keys && NameAfter(rows, t, x) == y {
      var x := NamedFrom(t.keys.Keys, f, y);
      assert NameAfter(rows, t, x) == y;
    }
  }

  lemma ReferencesFollow<I(!new)>(rows: seq<Row<I>>, t: Tables<I>, u: Tables<I>, now: int)
    requires OneToOne(rows) && Moved(t, u, Imported(rows), now)
    ensures u.links.Keys == t.links.Keys && u.events.Keys == t.events.Keys
    ensures forall p :: p in t.links ==>
      && u.links[p].storage == t.links[p].storage
      && (t.links[p].account == None ==> u.links[p].account == None)
      && (t.links[p].account != None ==>
            u.links[p].account == Some(NameAfter(rows, t, t.links[p].account.value)))
    ensures forall e :: e in t.events ==>
      && (t.events[e] == None ==> u.events[e] == None)
      && (t.events[e] != None ==> u.events[e] == Some(NameAfter(rows, t, t.events[e].value)))
  {
    var f := Fresh(Imported(rows), t.ledger);
    forall x ensures To(f, x) == NameAfter(rows, t, x) {
      ToIsNameAfter(rows, t, x);
    }
  }

  /** The name is the old one of a row that was not applied before. */
  ghost predicate Leaves<I(!new)>(rows: seq<Row<I>>, t: Tables<I>, o: I) {
    o !in t.ledger && exists i :: 0 <= i < |rows| && rows[i].old_ == o
  }

  lemma LeavesMeans<I(!new)>(rows: seq<Row<I>>, t: Tables<I>, o: I)
    requires Distinct(rows)
    ensures Leaves(rows, t, o) <==> o in Fresh(Imported(rows), t.ledger)
  {
    ImportedMeans(rows, o);
    FreshMeans(Imported(rows), t.ledger, o);
  }

  /** Every name left behind is deleted and revoked for good, and stands in the ledger; the fences of
      others move with their accounts. */
  lemma NamesLeftAreFenced<I(!new)>(rows: seq<Row<I>>, t: Tables<I>, u: Tables<I>, now: int)
    requires OneToOne(rows) && Moved(t, u, Imported(rows), now)
    ensures forall o :: Leaves(rows, t, o) ==>
      && o in u.fences && u.fences[o].revokedBefore == now && u.fences[o].deletedAt == Some(now)
      && u.fences[o].reason == AccountUuidMigrated
    ensures forall x :: x in t.fences ==>
      NameAfter(rows, t, x) in u.fences && u.fences[NameAfter(rows, t, x)] == t.fences[x]
    ensures forall y :: y in u.fences ==>
      Leaves(rows, t, y) || exists x :: x in t.fences && NameAfter(rows, t, x) == y
    ensures forall o :: o in u.ledger <==> o in t.ledger || Leaves(rows, t, o)
    ensures forall o :: o in t.ledger ==> u.ledger[o] == t.ledger[o]
    ensures forall i :: 0 <= i < |rows| && rows[i].old_ !in t.ledger ==>
      u.ledger[rows[i].old_].new_ == rows[i].new_ && u.ledger[rows[i].old_].kind == rows[i].kind
  {
    var f := Fresh(Imported(rows), t.ledger);
    forall x ensures To(f, x) == NameAfter(rows, t, x) && (Leaves(rows, t, x) <==> x in f) {
      ToIsNameAfter(rows, t, x);
      LeavesMeans(rows, t, x);
    }
    forall y | y in u.fences && !Leaves(rows, t, y) ensures exists x :: x in t.fences && NameAfter(rows, t, x) == y {
      var x := NamedFrom(t.fences.Keys, f, y);
      assert NameAfter(rows, t, x) == y;
    }
    forall i | 0 <= i < |rows| && rows[i].old_ !in t.ledger
      ensures u.ledger[rows[i].old_].new_ == rows[i].new_ && u.ledger[rows[i].old_].kind == rows[i].kind
    {
      ImportedMeans(rows, rows[i].old_);
    }
  }

  /** The proofs of the accounts that moved stop working, with what they could open; all others stay. */
  lemma ProofsOfTheMoved<I(!new)>(rows: seq<Row<I>>, t: Tables<I>, u: Tables<I>, now: int, p: ProofKey)
    requires OneToOne(rows) && Moved(t, u, Imported(rows), now) && p in t.proofs
    ensures u.proofs.Keys == t.proofs.Keys
    ensures var moved := exists o :: Leaves(rows, t, o) && o in t.keys && t.keys[o].storage == t.proofs[p].storage;
      && (t.proofs[p].invalidatedAt != None || !moved ==> u.proofs[p] == t.proofs[p])
      && (t.proofs[p].invalidatedAt == None && moved ==>
            && u.proofs[p].storage == t.proofs[p].storage && u.proofs[p].proofId == t.proofs[p].proofId
            && u.proofs[p].token == Empty && u.proofs[p].refresh == None
            && u.proofs[p].invalidatedAt == Some(now)
            && u.proofs[p].invalidatedReason == Some(AccountUuidMigrated))
  {
    var f := Fresh(Imported(rows), t.ledger);
    forall o ensures Leaves(rows, t, o) <==> o in f {
      LeavesMeans(rows, t, o);
    }
    assert t.proofs[p].storage in Actors(t.keys, f) <==>
      exists o :: Leaves(rows, t, o) && o in t.keys && t.keys[o].storage == t.proofs[p].storage;
  }

  /** A fence that a name already had is never lowered by the one for the name left behind. */
  lemma TombstoneMeans<I(!new)>(fences: map<I, Fence>, o: I, now: int)
    ensures var fence := Tombstone(fences, o, now);
      && fence.reason == AccountUuidMigrated && fence.deletedAt.Some? && fence.revokedBefore >= now
      && (o !in fences ==> fence.revokedBefore == now && fence.deletedAt == Some(now))
      && (o in fences ==>
            && fence.revokedBefore >= fences[o].revokedBefore
            && (fence.revokedBefore == now || fence.revokedBefore == fences[o].revokedBefore)
            && (fences[o].deletedAt == None ==> fence.deletedAt == Some(now))
            && (fences[o].deletedAt != None ==> fence.deletedAt == fences[o].deletedAt))
  {
  }
}
