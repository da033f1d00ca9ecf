/** Rack records (controlplane/ctlplanefuncs/server/populate.go, lines 23-48,
    controlplane/ctlplanefuncs/server/parser.go, lines 117-142). */
module RackCodec {
  import opened Finite
  import opened Text
  import opened Parsing
  import opened RecordRows

  datatype Rack = Rack(id: string, name: string, location: string, spec: string, pduId: string)

  datatype Field = Name | Location | Spec | Pdu

  const FIELDS := [Name, Location, Spec, Pdu]

  function FieldName(f: Field): string {
    match f
    case Name => "nm"
    case Location => "l"
    case Spec => "sp"
    case Pdu => "p"
  }

  function FieldNamed(s: string): Option<Field> {
    if s == "l" then Some(Location) else if s == "p" then Some(Pdu)
    else if s == "sp" then Some(Spec) else if s == "nm" then Some(Name) else None
  }

  lemma FieldNames(s: string, f: Field)
    ensures FieldNamed(s) == Some(f) <==> s == FieldName(f)
  {
  }

  function Get(r: Rack, f: Field): string {
    match f
    case Name => r.name
    case Location => r.location
    case Spec => r.spec
    case Pdu => r.pduId
  }

  function Set(r: Rack, f: Field, v: string): Rack {
    match f
    case Name => r.(name := v)
    case Location => r.(location := v)
    case Spec => r.(spec := v)
    case Pdu => r.(pduId := v)
  }

  function NewRack(id: string): Rack { Rack(id, "", "", "", "") }

  /** The rows of a rack: one for every field, empty or not. */
  function RackTable(r: Rack): RowTable {
    sub => if |sub| == 1 && FieldNamed(sub[0]).Some? then Some(Get(r, FieldNamed(sub[0]).value)) else None
  }

  lemma RackPrintable(r: Rack)
    requires PlainId(r.id)
    ensures Printable("r", r.id, RackTable(r))
  {
  }

  method PopulateRack(r: Rack) returns (chgs: seq<Row>)
    ensures Prints("r", r.id, RackTable(r), chgs)
  {
    hide FieldKey;
    chgs := [];
    for i := 0 to |FIELDS|
      invariant forall c :: c in chgs ==> exists sub :: IsRow("r", r.id, RackTable(r), sub, c)
      invariant forall j :: 0 <= j < i ==> Row(FieldKey("r", r.id, [FieldName(FIELDS[j])]), Get(r, FIELDS[j])) in chgs
    {
      var f := FIELDS[i];
      var c := Row(FieldKey("r", r.id, [FieldName(f)]), Get(r, f));
      FieldNames(FieldName(f), f);
      assert IsRow("r", r.id, RackTable(r), [FieldName(f)], c);
      chgs := chgs + [c];
    }
    forall sub | RackTable(r)(sub).Some? ensures Row(FieldKey("r", r.id, sub), RackTable(r)(sub).value) in chgs {
      var f := FieldNamed(sub[0]).value;
      FieldNames(sub[0], f);
      assert sub == [FieldName(f)];
      var j := if f == Name then 0 else if f == Location then 1 else if f == Spec then 2 else 3;
      assert FIELDS[j] == f;
    }
  }

  function ParseRackField(r: Rack, parts: seq<string>, value: string): Rack {
    if |parts| != 3 then r
    else match FieldNamed(parts[2])
         case None => r
         case Some(f) => Set(r, f, value)
  }

  /** e is r as far as the rows in done tell. */
  ghost predicate RackShows(r: Rack, done: set<string>, e: Rack) {
    e.id == r.id && forall f: Field :: ShowsField(r, done, e, f)
  }

  ghost predicate ShowsField(r: Rack, done: set<string>, e: Rack, f: Field) {
    Get(e, f) == if FieldKey("r", r.id, [FieldName(f)]) in done then Get(r, f) else ""
  }

  lemma RackStep(rows: Rows, r: Rack, done: set<string>, e: Rack, k: string)
    requires Holds(rows, "r", r.id, AllParts, RackTable(r)) && k in rows && About("r", 1, r.id, k) && RackShows(r, done, e)
    ensures RackShows(r, done + {k}, ParseRackField(e, Parts(k), rows[k]))
  {
    hide FieldKey, Parts, About;
    var sub := RowFound(rows, "r", r.id, AllParts, RackTable(r), k);
    var g := FieldNamed(sub[0]).value;
    FieldNames(sub[0], g);
    assert Parts(k)[2] == sub[0];
    var e' := ParseRackField(e, Parts(k), rows[k]);
    forall f: Field ensures ShowsField(r, done + {k}, e', f) {
      assert ShowsField(r, done, e, f);
      if FieldKey("r", r.id, [FieldName(f)]) == k {
        FieldNames(FieldName(f), f);
        FieldKeyInjective("r", r.id, [FieldName(f)], r.id, sub);
        assert [FieldName(f)][0] == sub[0];
      } else {
        assert sub == [FieldName(g)];
      }
    }
  }

  lemma RackComplete(rows: Rows, r: Rack, e: Rack)
    requires Holds(rows, "r", r.id, AllParts, RackTable(r)) && RackShows(r, KeysAbout(rows.Keys, "r", 1, r.id), e)
    ensures e == r
  {
    hide FieldKey, KeysAbout, FieldName, FieldNamed;
    forall f: Field ensures Get(e, f) == Get(r, f) && FieldKey("r", r.id, [FieldName(f)]) in KeysAbout(rows.Keys, "r", 1, r.id) {
      FieldNames(FieldName(f), f);
      RowAbout(rows, "r", r.id, AllParts, RackTable(r), [FieldName(f)]);
      assert ShowsField(r, KeysAbout(rows.Keys, "r", 1, r.id), e, f);
    }
    assert Get(e, Name) == Get(r, Name) && Get(e, Location) == Get(r, Location) && Get(e, Spec) == Get(r, Spec) && Get(e, Pdu) == Get(r, Pdu);
  }

  /** Racks come back as they were stored. */
  method ParseRacks(rows: Rows, ghost recs: map<string, Rack>) returns (ents: map<string, Rack>)
    requires forall id | id in recs :: recs[id].id == id && Holds(rows, "r", id, AllParts, RackTable(recs[id]))
    ensures forall id | id in recs :: id in ents && ents[id] == recs[id]
    ensures forall id :: id in ents <==> exists k :: k in rows && About("r", 1, id, k)
  {
    hide Parts, About, Holds, RackShows, ParseRackField, KeysAbout, FieldKey;
    forall id | id in recs ensures Starts(RackShows, NewRack, id, recs[id]) { NothingSeen(recs[id]); }
    forall id, done, e, k | id in recs ensures TakesRow(rows, "r", ParseRackField, RackShows, id, recs[id], done, e, k) {
      if k in rows && About("r", 1, id, k) && RackShows(recs[id], done, e) { RackStep(rows, recs[id], done, e, k); }
    }
    ghost var same := (a: Rack, b: Rack) => a == b;
    forall id, e | id in recs ensures Completes(rows, "r", RackShows, same, id, recs[id], e) {
      RackRows(rows, recs[id]);
      if RackShows(recs[id], KeysAbout(rows.Keys, "r", 1, id), e) { RackComplete(rows, recs[id], e); }
    }
    ents := ParseRecords(rows, "r", NewRack, ParseRackField, recs, RackShows, same);
  }

  lemma RackRows(rows: Rows, r: Rack)
    requires Holds(rows, "r", r.id, AllParts, RackTable(r))
    ensures KeysAbout(rows.Keys, "r", 1, r.id) != {}
  {
    FieldNames("nm", Name);
    RowAbout(rows, "r", r.id, AllParts, RackTable(r), ["nm"]);
  }

  lemma NothingSeen(r: Rack)
    ensures RackShows(r, {}, NewRack(r.id))
  {
  }

  /** Stored next to anything else and parsed back, a rack is unchanged. */
  method RoundTrip(rows: Rows, r: Rack) returns (e: Rack)
    requires PlainId(r.id) && forall k :: k in rows ==> !About("r", 1, r.id, k)
    ensures e == r
  {
    hide About, Parts, RackTable, Prints, Printable, Holds;
    var chgs := PopulateRack(r);
    RackPrintable(r);
    PrintedHolds(rows, "r", r.id, AllParts, RackTable(r), chgs);
    var ents := ParseRacks(ApplyRows(rows, chgs), map[r.id := r]);
    e := ents[r.id];
  }
}
