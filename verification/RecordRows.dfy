/** Records as sets of rows: what a populator prints, what a store holds, what a parser may rely on
    (controlplane/ctlplanefuncs/server/populate.go, controlplane/ctlplanefuncs/server/parser.go). */
module RecordRows {
  import opened Finite
  import opened Text
  import opened Parsing

  datatype Row = Row(key: string, value: string)

  /** The rows of a record, by the key parts below its id. */
  type RowTable = seq<string> -> Option<string>

  function FieldKey(root: string, id: string, sub: seq<string>): string { KeyOf([root, id] + sub) }

  ghost predicate CleanSub(sub: seq<string>) { AllFree(sub, '/') && (sub != [] ==> sub[|sub|-1] != "") }

  lemma FieldKeyParts(root: string, id: string, sub: seq<string>)
    requires PlainId(root) && PlainId(id) && CleanSub(sub)
    ensures Parts(FieldKey(root, id, sub)) == [root, id] + sub
    ensures About(root, 1, id, FieldKey(root, id, sub))
  {
    PartsOfKey([root, id] + sub);
  }

  lemma FieldKeyInjective(root: string, id1: string, sub1: seq<string>, id2: string, sub2: seq<string>)
    requires PlainId(root) && PlainId(id1) && PlainId(id2) && CleanSub(sub1) && CleanSub(sub2)
    requires FieldKey(root, id1, sub1) == FieldKey(root, id2, sub2)
    ensures id1 == id2 && sub1 == sub2
  {
    FieldKeyParts(root, id1, sub1);
    FieldKeyParts(root, id2, sub2);
    var a, b := [root, id1] + sub1, [root, id2] + sub2;
    assert a[1] == b[1] && a[2..] == sub1 && b[2..] == sub2;
  }

  /** Record id of kind root has slash-free keys. */
  ghost predicate Printable(root: string, id: string, table: RowTable) {
    PlainId(root) && PlainId(id) && forall sub :: table(sub).Some? ==> CleanSub(sub)
  }

  ghost predicate IsRow(root: string, id: string, table: RowTable, sub: seq<string>, r: Row) {
    table(sub) == Some(r.value) && r.key == FieldKey(root, id, sub)
  }

  /** The list prints the record: every row of the record, and nothing else. */
  ghost predicate Prints(root: string, id: string, table: RowTable, chgs: seq<Row>) {
    && (forall r :: r in chgs ==> exists sub :: IsRow(root, id, table, sub, r))
    && (forall sub :: table(sub).Some? ==> Row(FieldKey(root, id, sub), table(sub).value) in chgs)
  }

  /** Among the keys of the record that the parser reads, the store holds exactly its rows. */
  ghost predicate Holds(rows: Rows, root: string, id: string, relevant: seq<string> -> bool, table: RowTable) {
    && Printable(root, id, table)
    && (forall k :: k in rows && About(root, 1, id, k) && relevant(Parts(k)) ==> exists sub :: IsRow(root, id, table, sub, Row(k, rows[k])))
    && (forall sub :: table(sub).Some? ==> FieldKey(root, id, sub) in rows && rows[FieldKey(root, id, sub)] == table(sub).value)
  }

  function ApplyRows(rows: Rows, chgs: seq<Row>): Rows {
    if chgs == [] then rows else
      var n := |chgs| - 1;
      ApplyRows(rows, chgs[..n])[chgs[n].key := chgs[n].value]
  }

  lemma {:induction false} AppliedRows(rows: Rows, chgs: seq<Row>, k: string)
    ensures k in ApplyRows(rows, chgs) ==> Row(k, ApplyRows(rows, chgs)[k]) in chgs || (k in rows && ApplyRows(rows, chgs)[k] == rows[k])
    ensures k in rows ==> k in ApplyRows(rows, chgs)
    ensures (exists r :: r in chgs && r.key == k) ==> k in ApplyRows(rows, chgs) && Row(k, ApplyRows(rows, chgs)[k]) in chgs
    ensures (forall r :: r in chgs ==> r.key != k) ==> (k in rows <==> k in ApplyRows(rows, chgs))
  {
    if chgs != [] {
      var n := |chgs| - 1;
      var before, last := chgs[..n], chgs[n];
      AppliedRows(rows, before, k);
      assert chgs == before + [last];
      assert last in chgs;
      if last.key == k {
        assert Row(k, ApplyRows(rows, chgs)[k]) == last;
      }
    }
  }

  /** Writing the printed record to a store without keys of that id makes the store hold it. */
  lemma {:induction false} PrintedHolds(rows: Rows, root: string, id: string, relevant: seq<string> -> bool, table: RowTable, chgs: seq<Row>)
    requires Printable(root, id, table) && Prints(root, id, table, chgs)
    requires forall k :: k in rows ==> !(About(root, 1, id, k) && relevant(Parts(k)))
    ensures Holds(ApplyRows(rows, chgs), root, id, relevant, table)
  {
    hide FieldKey, Parts, About;
    var rows' := ApplyRows(rows, chgs);
    forall k | k in rows' && About(root, 1, id, k) && relevant(Parts(k)) ensures exists sub :: IsRow(root, id, table, sub, Row(k, rows'[k])) {
      AppliedRows(rows, chgs, k);
    }
    forall sub | table(sub).Some? ensures FieldKey(root, id, sub) in rows' && rows'[FieldKey(root, id, sub)] == table(sub).value {
      var k := FieldKey(root, id, sub);
      assert Row(k, table(sub).value) in chgs;
      AppliedRows(rows, chgs, k);
      var sub2 :| IsRow(root, id, table, sub2, Row(k, rows'[k]));
      FieldKeyInjective(root, id, sub, id, sub2);
    }
  }

  /** Writing other rows, of another id or of keys the parser does not read, leaves the record held. */
  lemma {:induction false} OtherRowsKeep(rows: Rows, root: string, id: string, relevant: seq<string> -> bool, table: RowTable, chgs: seq<Row>)
    requires Holds(rows, root, id, relevant, table)
    requires forall r :: r in chgs ==> !(About(root, 1, id, r.key) && relevant(Parts(r.key)))
    requires forall sub :: table(sub).Some? ==> relevant([root, id] + sub)
    ensures Holds(ApplyRows(rows, chgs), root, id, relevant, table)
  {
    hide FieldKey, Parts, About;
    var rows' := ApplyRows(rows, chgs);
    forall k | k in rows' && About(root, 1, id, k) && relevant(Parts(k)) ensures exists sub :: IsRow(root, id, table, sub, Row(k, rows'[k])) {
      AppliedRows(rows, chgs, k);
    }
    forall sub | table(sub).Some? ensures FieldKey(root, id, sub) in rows' && rows'[FieldKey(root, id, sub)] == table(sub).value {
      var k := FieldKey(root, id, sub);
      FieldKeyParts(root, id, sub);
      AppliedRows(rows, chgs, k);
    }
  }

  /** A row that the parser meets is a row of the record. */
  lemma RowFound(rows: Rows, root: string, id: string, relevant: seq<string> -> bool, table: RowTable, k: string) returns (sub: seq<string>)
    requires Holds(rows, root, id, relevant, table) && k in rows && About(root, 1, id, k) && relevant(Parts(k))
    ensures table(sub) == Some(rows[k]) && k == FieldKey(root, id, sub) && Parts(k) == [root, id] + sub && CleanSub(sub)
  {
    sub :| IsRow(root, id, table, sub, Row(k, rows[k]));
    FieldKeyParts(root, id, sub);
  }

  lemma RowAbout(rows: Rows, root: string, id: string, relevant: seq<string> -> bool, table: RowTable, sub: seq<string>)
    requires Holds(rows, root, id, relevant, table) && table(sub).Some?
    ensures FieldKey(root, id, sub) in KeysAbout(rows.Keys, root, 1, id)
  {
    FieldKeyParts(root, id, sub);
  }

  /** For records without foreign keys below their id. */
  function AllParts(parts: seq<string>): bool { true }

  // ----- parsing back a set of records -----

  /** What a parser must do for record r: start from nothing, take in one row, and end with r itself
      (up to same) once all rows are in. */
  ghost predicate Starts<E(!new)>(shows: (E, set<string>, E) -> bool, newEntity: string -> E, id: string, r: E) {
    shows(r, {}, newEntity(id))
  }

  ghost predicate TakesRow<E(!new)>(rows: Rows, root: string, parseField: (E, seq<string>, string) -> E, shows: (E, set<string>, E) -> bool,
                                    id: string, r: E, done: set<string>, e: E, k: string)
  {
    k in rows && k !in done && About(root, 1, id, k) && shows(r, done, e) ==> shows(r, done + {k}, parseField(e, Parts(k), rows[k]))
  }

  ghost predicate Completes<E(!new)>(rows: Rows, root: string, shows: (E, set<string>, E) -> bool, same: (E, E) -> bool, id: string, r: E, e: E) {
    KeysAbout(rows.Keys, root, 1, id) != {} && (shows(r, KeysAbout(rows.Keys, root, 1, id), e) ==> same(e, r))
  }

  /** Parsing the rows of a set of records gives each of them back, whatever order the rows come in,
      and nothing else if there are no rows of other ids. */
  method ParseRecords<E(!new)>(rows: Rows, root: string, newEntity: string -> E, parseField: (E, seq<string>, string) -> E,
                               ghost recs: map<string, E>, ghost shows: (E, set<string>, E) -> bool, ghost same: (E, E) -> bool)
    returns (ents: map<string, E>)
    requires forall id | id in recs :: Starts(shows, newEntity, id, recs[id])
    requires forall id, done, e, k | id in recs :: TakesRow(rows, root, parseField, shows, id, recs[id], done, e, k)
    requires forall id, e | id in recs :: Completes(rows, root, shows, same, id, recs[id], e)
    ensures forall id :: id in recs ==> id in ents && same(ents[id], recs[id])
    ensures forall id :: id in ents <==> exists k :: k in rows && About(root, 1, id, k)
  {
    hide Parts, KeysAbout, Grouped, About;
    ghost var view := (d: set<string>, x: string, y: E) => x in recs ==> shows(recs[x], d, y);
    forall id ensures view({}, id, newEntity(id)) { if id in recs { assert Starts(shows, newEntity, id, recs[id]); } }
    forall done, id, e, k ensures Shown(rows, root, 1, parseField, view, done, id, e, k) {
      if id in recs { assert TakesRow(rows, root, parseField, shows, id, recs[id], done, e, k); }
    }
    ents := ParseEntities(rows, root, 1, newEntity, parseField, view);
    forall id | id in recs ensures id in ents && same(ents[id], recs[id]) {
      GroupedOne(root, 1, view, rows.Keys, ents, id);
      assert Completes(rows, root, shows, same, id, recs[id], if id in ents then ents[id] else newEntity(id));
    }
    forall id ensures id in ents <==> exists k :: k in rows && About(root, 1, id, k) {
      GroupedOne(root, 1, view, rows.Keys, ents, id);
      SomeKeyAbout(rows, root, id);
    }
  }

  lemma SomeKeyAbout(rows: Rows, root: string, id: string)
    ensures KeysAbout(rows.Keys, root, 1, id) != {} <==> exists k :: k in rows && About(root, 1, id, k)
  {
    if k :| k in rows && About(root, 1, id, k) { assert k in KeysAbout(rows.Keys, root, 1, id); }
  }
}
