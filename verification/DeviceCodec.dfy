/** Device records with their partitions (controlplane/ctlplanefuncs/server/populate.go, lines 50-74 and
    126-182, controlplane/ctlplanefuncs/server/parser.go, lines 318-387). */
module DeviceCodec {
  import opened Finite
  import opened Text
  import opened Parsing
  import opened RecordRows

  datatype Partition = Partition(id: string, path: string, nisd: string, devId: string, size: int)

  datatype Device = Device(id: string, name: string, path: string, serial: string, state: nat, size: int,
                           hv: string, fdom: string, partitions: seq<Partition>)

  datatype Field = Name | Path | State | Size | Serial | Hv | Fdom

  datatype PtField = PtPath | PtNisd | PtDevice | PtSize

  const FIELDS := [Name, Path, State, Size, Serial, Hv, Fdom]
  const PT_FIELDS := [PtPath, PtNisd, PtDevice, PtSize]

  function FieldName(f: Field): string {
    match f
    case Name => "nm"
    case Path => "dp"
    case State => "s"
    case Size => "sz"
    case Serial => "sn"
    case Hv => "hv"
    case Fdom => "fd"
  }

  function FieldNamed(s: string): Option<Field> {
    if s == "hv" then Some(Hv) else if s == "sn" then Some(Serial) else if s == "s" then Some(State)
    else if s == "fd" then Some(Fdom) else if s == "dp" then Some(Path) else if s == "nm" then Some(Name)
    else if s == "sz" then Some(Size) else None
  }

  function PtFieldName(f: PtField): string {
    match f
    case PtPath => "ptp"
    case PtNisd => "n"
    case PtDevice => "d"
    case PtSize => "sz"
  }

  function PtFieldNamed(s: string): Option<PtField> {
    if s == "d" then Some(PtDevice) else if s == "sz" then Some(PtSize)
    else if s == "ptp" then Some(PtPath) else if s == "n" then Some(PtNisd) else None
  }

  lemma FieldNames(s: string, f: Field)
    ensures FieldNamed(s) == Some(f) <==> s == FieldName(f)
    ensures FieldName(f) != "" && Free(FieldName(f), '/')
  {
  }

  lemma PtFieldNames(s: string, f: PtField)
    ensures PtFieldNamed(s) == Some(f) <==> s == PtFieldName(f)
    ensures PtFieldName(f) != "" && Free(PtFieldName(f), '/')
  {
  }

  // ----- fields -----

  function Get(d: Device, f: Field): string {
    match f
    case Name => d.name
    case Path => d.path
    case State => Itoa(d.state)
    case Size => FormatInt(d.size)
    case Serial => d.serial
    case Hv => d.hv
    case Fdom => d.fdom
  }

  function Set(d: Device, f: Field, v: string): Device {
    match f
    case Name => d.(name := v)
    case Path => d.(path := v)
    case State => d.(state := ParseInt(v).GetOr(0) % UINT16)
    case Size => d.(size := ParseInt(v).GetOr(0))
    case Serial => d.(serial := v)
    case Hv => d.(hv := v)
    case Fdom => d.(fdom := v)
  }

  function PtGet(p: Partition, f: PtField): string {
    match f
    case PtPath => p.path
    case PtNisd => p.nisd
    case PtDevice => p.devId
    case PtSize => FormatInt(p.size)
  }

  function PtSet(p: Partition, f: PtField, v: string): Partition {
    match f
    case PtPath => p.(path := v)
    case PtNisd => p.(nisd := v)
    case PtDevice => p.(devId := v)
    case PtSize => p.(size := ParseInt(v).GetOr(0))
  }

  function NewDevice(id: string): Device { Device(id, "", "", "", 0, 0, "", "", []) }

  function NewPartition(id: string): Partition { Partition(id, "", "", "", 0) }

  ghost predicate DistinctIds(ps: seq<Partition>) { forall i, j :: 0 <= i < j < |ps| ==> ps[i].id != ps[j].id }

  ghost predicate Valid(d: Device) {
    PlainId(d.id) && d.state < UINT16 && Int64(d.size) && DistinctIds(d.partitions)
    && forall p :: p in d.partitions ==> PlainId(p.id) && Int64(p.size)
  }

  lemma SetGet(d: Device, e: Device, f: Field, g: Field)
    requires Valid(d)
    ensures Get(Set(e, f, Get(d, f)), g) == if f == g then Get(d, f) else Get(e, g)
    ensures Set(e, f, Get(d, f)).id == e.id && Set(e, f, Get(d, f)).partitions == e.partitions
  {
    hide ParseInt, FormatInt, Itoa;
    match f
    case State => ParseFormatInt(d.state); StateText(d.state);
    case Size => ParseFormatInt(d.size);
    case _ =>
  }

  lemma {:induction false} StateText(n: nat)
    ensures FormatInt(n) == Itoa(n)
  {
  }

  lemma PtSetGet(q: Partition, p: Partition, f: PtField, g: PtField)
    requires Int64(q.size)
    ensures PtGet(PtSet(p, f, PtGet(q, f)), g) == if f == g then PtGet(q, f) else PtGet(p, g)
    ensures PtSet(p, f, PtGet(q, f)).id == p.id
  {
    hide ParseInt, FormatInt;
    if f == PtSize { ParseFormatInt(q.size); }
  }

  // ----- the partition list -----

  function PtOf(ps: seq<Partition>, id: string): Option<Partition> {
    if ps == [] then None else if ps[0].id == id then Some(ps[0]) else PtOf(ps[1..], id)
  }

  /** The partition with this id takes the field; it is appended when it is not there yet. */
  function WithPt(ps: seq<Partition>, id: string, f: PtField, v: string): seq<Partition> {
    if ps == [] then [PtSet(NewPartition(id), f, v)]
    else if ps[0].id == id then [PtSet(ps[0], f, v)] + ps[1..]
    else [ps[0]] + WithPt(ps[1..], id, f, v)
  }

  lemma PtSetId(p: Partition, f: PtField, v: string)
    ensures PtSet(p, f, v).id == p.id
  {
  }

  lemma {:induction false} PtOfHasId(ps: seq<Partition>, id: string)
    ensures PtOf(ps, id).Some? ==> PtOf(ps, id).value.id == id && PtOf(ps, id).value in ps
    ensures PtOf(ps, id).None? ==> forall p :: p in ps ==> p.id != id
  {
    if ps != [] { PtOfHasId(ps[1..], id); }
  }

  lemma {:induction false} WithPtAt(ps: seq<Partition>, id: string, f: PtField, v: string, id2: string)
    ensures PtOf(WithPt(ps, id, f, v), id2) ==
            if id2 == id then Some(PtSet(PtOf(ps, id).GetOr(NewPartition(id)), f, v)) else PtOf(ps, id2)
  {
    hide PtSet;
    if ps == [] {
      PtSetId(NewPartition(id), f, v);
    } else {
      WithPtAt(ps[1..], id, f, v, id2);
      PtSetId(ps[0], f, v);
      var ps' := WithPt(ps, id, f, v);
      if ps[0].id == id { assert ps'[1..] == ps[1..]; } else { assert ps'[1..] == WithPt(ps[1..], id, f, v); }
    }
  }

  /** Ids stay where they are; a new one comes last. */
  lemma {:induction false} WithPtKeeps(ps: seq<Partition>, id: string, f: PtField, v: string)
    ensures var r := WithPt(ps, id, f, v);
            |ps| <= |r| <= |ps| + 1 && (forall i :: 0 <= i < |ps| ==> r[i].id == ps[i].id)
            && (|r| > |ps| ==> r[|ps|].id == id && forall i :: 0 <= i < |ps| ==> ps[i].id != id)
  {
    hide PtSet;
    if ps == [] {
      PtSetId(NewPartition(id), f, v);
    } else {
      PtSetId(ps[0], f, v);
      if ps[0].id != id {
        WithPtKeeps(ps[1..], id, f, v);
        var rest := WithPt(ps[1..], id, f, v);
        forall i | 0 < i < |ps| ensures rest[i-1].id == ps[i].id && (|rest| > |ps| - 1 ==> ps[i].id != id) { assert ps[1..][i-1] == ps[i]; }
      }
    }
  }

  lemma {:induction false} WithPtIds(ps: seq<Partition>, id: string, f: PtField, v: string)
    requires DistinctIds(ps)
    ensures DistinctIds(WithPt(ps, id, f, v))
  {
    hide WithPt;
    WithPtKeeps(ps, id, f, v);
  }

  lemma {:induction false} PtOfListed(ps: seq<Partition>, p: Partition)
    requires DistinctIds(ps)
    ensures PtOf(ps, p.id) == Some(p) <==> p in ps
  {
    if ps != [] {
      PtOfListed(ps[1..], p);
      assert ps == [ps[0]] + ps[1..];
      forall j | 0 <= j < |ps| - 1 ensures ps[1..][j].id != ps[0].id { assert ps[1..][j] == ps[j+1]; }
    }
  }

  // ----- printing -----

  /** The rows of a device: its bare key, its non-empty fields, and every field of every partition. */
  function DeviceTable(d: Device): RowTable {
    sub =>
      if |sub| == 0 then Some("")
      else if |sub| == 1 && FieldNamed(sub[0]).Some? && Get(d, FieldNamed(sub[0]).value) != "" then Some(Get(d, FieldNamed(sub[0]).value))
      else if |sub| == 3 && sub[0] == "pt" && PtOf(d.partitions, sub[1]).Some? && PtFieldNamed(sub[2]).Some?
      then Some(PtGet(PtOf(d.partitions, sub[1]).value, PtFieldNamed(sub[2]).value))
      else None
  }

  function DevKey(id: string, f: Field): string { FieldKey("d_cfg", id, [FieldName(f)]) }

  function PtKey(id: string, pt: string, f: PtField): string { FieldKey("d_cfg", id, ["pt", pt, PtFieldName(f)]) }

  lemma TableField(d: Device, f: Field)
    ensures DeviceTable(d)([FieldName(f)]) == if Get(d, f) != "" then Some(Get(d, f)) else None
  {
    FieldNames(FieldName(f), f);
  }

  lemma {:induction false} TablePt(d: Device, pt: string, f: PtField)
    ensures DeviceTable(d)(["pt", pt, PtFieldName(f)]) ==
            if PtOf(d.partitions, pt).Some? then Some(PtGet(PtOf(d.partitions, pt).value, f)) else None
  {
    PtFieldNames(PtFieldName(f), f);
  }

  datatype Source = Bare | OfField(f: Field) | OfPt(p: Partition, g: PtField)

  /** Where a row comes from. */
  lemma TableSub(d: Device, sub: seq<string>) returns (r: Source)
    requires DeviceTable(d)(sub).Some?
    ensures r.Bare? ==> sub == []
    ensures r.OfField? ==> sub == [FieldName(r.f)] && Get(d, r.f) != "" && DeviceTable(d)(sub) == Some(Get(d, r.f))
    ensures r.OfPt? ==> r.p in d.partitions && PtOf(d.partitions, r.p.id) == Some(r.p) && sub == ["pt", r.p.id, PtFieldName(r.g)]
                        && DeviceTable(d)(sub) == Some(PtGet(r.p, r.g))
  {
    hide Get, PtGet, FieldName, FieldNamed, PtFieldName, PtFieldNamed;
    if |sub| == 0 {
      r := Bare;
    } else if |sub| == 1 {
      r := OfField(FieldNamed(sub[0]).value);
      FieldNames(sub[0], r.f);
    } else {
      PtOfHasId(d.partitions, sub[1]);
      r := OfPt(PtOf(d.partitions, sub[1]).value, PtFieldNamed(sub[2]).value);
      PtFieldNames(sub[2], r.g);
    }
  }

  lemma CleanField(f: Field)
    ensures CleanSub([FieldName(f)])
  {
    FieldNames(FieldName(f), f);
  }

  lemma CleanPt(pt: string, f: PtField)
    requires PlainId(pt)
    ensures CleanSub(["pt", pt, PtFieldName(f)])
  {
    PtFieldNames(PtFieldName(f), f);
  }

  lemma DevicePrintable(d: Device)
    requires Valid(d)
    ensures Printable("d_cfg", d.id, DeviceTable(d))
  {
    hide DeviceTable, FieldName, PtFieldName;
    forall sub | DeviceTable(d)(sub).Some? ensures CleanSub(sub) {
      var r := TableSub(d, sub);
      match r
      case Bare =>
      case OfField(f) => CleanField(f);
      case OfPt(p, g) => CleanPt(p.id, g);
    }
  }

  ghost predicate RowsOnly(d: Device, chgs: seq<Row>) {
    forall c :: c in chgs ==> exists sub :: IsRow("d_cfg", d.id, DeviceTable(d), sub, c)
  }

  lemma RowsOnlyNext(d: Device, chgs: seq<Row>, sub: seq<string>)
    requires RowsOnly(d, chgs) && DeviceTable(d)(sub).Some?
    ensures RowsOnly(d, chgs + [Row(FieldKey("d_cfg", d.id, sub), DeviceTable(d)(sub).value)])
  {
    hide DeviceTable, FieldKey;
    var c := Row(FieldKey("d_cfg", d.id, sub), DeviceTable(d)(sub).value);
    assert IsRow("d_cfg", d.id, DeviceTable(d), sub, c);
  }

  /** devicePopulator: the bare key and the non-empty fields; links holds the entries that point from
      the hypervisor and from the failure domain to the device. */
  method PopulateDevice(d: Device) returns (chgs: seq<Row>, links: seq<Row>)
    ensures RowsOnly(d, chgs) && Row(FieldKey("d_cfg", d.id, []), "") in chgs
    ensures forall f: Field :: Get(d, f) != "" ==> Row(DevKey(d.id, f), Get(d, f)) in chgs
    ensures links == (if d.hv != "" then [Row(KeyOf(["hv", d.hv, "d_cfg"]), d.id)] else [])
                     + (if d.fdom != "" then [Row(KeyOf(["fd", d.fdom, "d_cfg"]), d.id)] else [])
  {
    hide FieldKey, Get, FieldName, RowsOnly, DeviceTable;
    NoRows(d);
    BareRow(d);
    RowsOnlyNext(d, [], []);
    chgs := [Row(FieldKey("d_cfg", d.id, []), "")];
    assert [] + chgs == chgs;
    for i := 0 to |FIELDS|
      invariant RowsOnly(d, chgs) && Row(FieldKey("d_cfg", d.id, []), "") in chgs
      invariant forall j :: 0 <= j < i && Get(d, FIELDS[j]) != "" ==> Row(DevKey(d.id, FIELDS[j]), Get(d, FIELDS[j])) in chgs
    {
      var f := FIELDS[i];
      if Get(d, f) != "" {
        TableField(d, f);
        RowsOnlyNext(d, chgs, [FieldName(f)]);
        chgs := chgs + [Row(DevKey(d.id, f), Get(d, f))];
      }
    }
    forall f: Field | Get(d, f) != "" ensures Row(DevKey(d.id, f), Get(d, f)) in chgs { var j := FieldAt(f); }
    links := [];
    if d.hv != "" {
      links := links + [Row(KeyOf(["hv", d.hv, "d_cfg"]), d.id)];
    }
    if d.fdom != "" {
      links := links + [Row(KeyOf(["fd", d.fdom, "d_cfg"]), d.id)];
    }
  }

  lemma NoRows(d: Device)
    ensures RowsOnly(d, [])
  {
  }

  lemma BareRow(d: Device)
    ensures DeviceTable(d)([]) == Some("")
  {
  }

  lemma FieldAt(f: Field) returns (j: nat)
    ensures j < |FIELDS| && FIELDS[j] == f
  {
    j := match f
      case Name => 0 case Path => 1 case State => 2 case Size => 3 case Serial => 4 case Hv => 5 case Fdom => 6;
  }

  lemma PtFieldAt(f: PtField) returns (j: nat)
    ensures j < |PT_FIELDS| && PT_FIELDS[j] == f
  {
    j := match f
      case PtPath => 0 case PtNisd => 1 case PtDevice => 2 case PtSize => 3;
  }

  /** partitionPopulator: all fields of a partition, empty or not. */
  method PopulatePartition(d: Device, p: Partition) returns (chgs: seq<Row>)
    requires Valid(d) && p in d.partitions
    ensures RowsOnly(d, chgs)
    ensures forall f: PtField :: Row(PtKey(d.id, p.id, f), PtGet(p, f)) in chgs
  {
    hide FieldKey, PtGet, PtFieldName, RowsOnly, DeviceTable;
    NoRows(d);
    chgs := [];
    for i := 0 to |PT_FIELDS|
      invariant RowsOnly(d, chgs)
      invariant forall j :: 0 <= j < i ==> Row(PtKey(d.id, p.id, PT_FIELDS[j]), PtGet(p, PT_FIELDS[j])) in chgs
    {
      var f := PT_FIELDS[i];
      PtOfListed(d.partitions, p);
      TablePt(d, p.id, f);
      RowsOnlyNext(d, chgs, ["pt", p.id, PtFieldName(f)]);
      chgs := chgs + [Row(PtKey(d.id, p.id, f), PtGet(p, f))];
    }
    forall f: PtField ensures Row(PtKey(d.id, p.id, f), PtGet(p, f)) in chgs { var j := PtFieldAt(f); }
  }

  /** WPDeviceInfo: the device, then its partitions. */
  method WriteDevice(d: Device) returns (chgs: seq<Row>, links: seq<Row>)
    requires Valid(d)
    ensures Prints("d_cfg", d.id, DeviceTable(d), chgs)
  {
    hide FieldKey, Get, PtGet, FieldName, PtFieldName, RowsOnly, DeviceTable, Valid;
    chgs, links := PopulateDevice(d);
    ghost var own := chgs;
    for i := 0 to |d.partitions|
      invariant RowsOnly(d, chgs) && forall c :: c in own ==> c in chgs
      invariant forall j, f: PtField :: 0 <= j < i ==> Row(PtKey(d.id, d.partitions[j].id, f), PtGet(d.partitions[j], f)) in chgs
    {
      var more := PopulatePartition(d, d.partitions[i]);
      RowsOnlyBoth(d, chgs, more);
      chgs := chgs + more;
    }
    forall sub | DeviceTable(d)(sub).Some? ensures Row(FieldKey("d_cfg", d.id, sub), DeviceTable(d)(sub).value) in chgs {
      var r := TableSub(d, sub);
      match r
      case Bare => BareRow(d);
      case OfField(f) => assert Row(DevKey(d.id, f), Get(d, f)) in own;
      case OfPt(p, g) =>
        var j :| 0 <= j < |d.partitions| && d.partitions[j] == p;
        assert Row(PtKey(d.id, d.partitions[j].id, g), PtGet(p, g)) in chgs;
    }
    OnlyRows(d, chgs);
  }

  lemma RowsOnlyBoth(d: Device, a: seq<Row>, b: seq<Row>)
    requires RowsOnly(d, a) && RowsOnly(d, b)
    ensures RowsOnly(d, a + b)
  {
  }

  lemma OnlyRows(d: Device, chgs: seq<Row>)
    requires RowsOnly(d, chgs)
    ensures forall c :: c in chgs ==> exists sub :: IsRow("d_cfg", d.id, DeviceTable(d), sub, c)
  {
  }

  // ----- parsing -----

  function EnsurePt(ps: seq<Partition>, id: string): seq<Partition> {
    if PtOf(ps, id).Some? then ps else ps + [NewPartition(id)]
  }

  /** A partition key without a field part is never written; the source does not guard against one. */
  function ParseDeviceField(d: Device, parts: seq<string>, value: string): Device {
    if |parts| == 3 then
      match FieldNamed(parts[2])
      case None => d
      case Some(f) => Set(d, f, value)
    else if |parts| > 4 && parts[2] == "pt" then
      match PtFieldNamed(parts[4])
      case None => d.(partitions := EnsurePt(d.partitions, parts[3]))
      case Some(f) => d.(partitions := WithPt(d.partitions, parts[3], f, value))
    else d
  }

  /** What is read where no row says anything, and where a number cannot be read: empty texts and zero. A
      partition row with an unknown field only makes sure that the partition is there. */
  lemma ReadWithoutRows(d: Device, id: string, parts: seq<string>, v: string, f: Field, g: PtField)
    ensures Get(NewDevice(id), f) == (if f == State || f == Size then Itoa(0) else "") && NewDevice(id).partitions == []
    ensures PtGet(NewPartition(id), g) == (if g == PtSize then Itoa(0) else "") && NewPartition(id).id == id
    ensures ParseInt(v).None? ==> Set(d, State, v) == d.(state := 0) && Set(d, Size, v) == d.(size := 0)
    ensures ParseInt(v).None? ==> PtSet(NewPartition(id), PtSize, v) == NewPartition(id)
    ensures |parts| > 4 && parts[2] == "pt" && PtFieldNamed(parts[4]).None? ==>
              ParseDeviceField(d, parts, v)
              == if exists p :: p in d.partitions && p.id == parts[3] then d else d.(partitions := d.partitions + [NewPartition(parts[3])])
  {
    hide Itoa, ParseInt;
    if |parts| > 4 { PtOfHasId(d.partitions, parts[3]); }
  }

  ghost predicate DeviceShows(d: Device, done: set<string>, e: Device) {
    e.id == d.id && (forall f: Field :: ShowsField(d, done, e, f))
    && DistinctIds(e.partitions) && forall pt :: ShowsPt(d, done, e.partitions, pt)
  }

  ghost predicate ShowsField(d: Device, done: set<string>, e: Device, f: Field) {
    Get(e, f) == if DevKey(d.id, f) in done then Get(d, f) else Get(NewDevice(d.id), f)
  }

  ghost predicate PtSeen(id: string, pt: string, done: set<string>) { exists g: PtField :: PtKey(id, pt, g) in done }

  /** The partition is listed once one of its rows is in, with the fields that are in. */
  ghost predicate ShowsPt(d: Device, done: set<string>, ps: seq<Partition>, pt: string) {
    (PtOf(ps, pt).Some? <==> PtOf(d.partitions, pt).Some? && PtSeen(d.id, pt, done))
    && (PtOf(ps, pt).Some? ==> forall g: PtField :: ShowsPtField(d, done, PtOf(ps, pt).value, pt, g))
  }

  ghost predicate ShowsPtField(d: Device, done: set<string>, p: Partition, pt: string, g: PtField) {
    PtOf(d.partitions, pt).Some?
    && PtGet(p, g) == if PtKey(d.id, pt, g) in done then PtGet(PtOf(d.partitions, pt).value, g) else PtGet(NewPartition(pt), g)
  }

  lemma DevKeysDiffer(id: string, f: Field, g: Field)
    requires PlainId(id)
    ensures DevKey(id, f) == DevKey(id, g) <==> f == g
  {
    FieldNames(FieldName(f), f);
    FieldNames(FieldName(g), g);
    if DevKey(id, f) == DevKey(id, g) {
      FieldKeyInjective("d_cfg", id, [FieldName(f)], id, [FieldName(g)]);
      assert [FieldName(f)][0] == [FieldName(g)][0];
    }
  }

  lemma PtKeyParts(id: string, pt: string, f: PtField)
    requires PlainId(id) && PlainId(pt)
    ensures Parts(PtKey(id, pt, f)) == ["d_cfg", id, "pt", pt, PtFieldName(f)]
  {
    hide PtFieldName;
    CleanPt(pt, f);
    FieldKeyParts("d_cfg", id, ["pt", pt, PtFieldName(f)]);
    assert ["d_cfg", id] + ["pt", pt, PtFieldName(f)] == ["d_cfg", id, "pt", pt, PtFieldName(f)];
  }

  lemma PtKeysDiffer(id: string, p1: string, f: PtField, p2: string, g: PtField)
    requires PlainId(id) && PlainId(p1) && PlainId(p2)
    ensures PtKey(id, p1, f) == PtKey(id, p2, g) <==> p1 == p2 && f == g
  {
    hide PtKey, Parts, PtFieldName;
    PtKeyParts(id, p1, f);
    PtKeyParts(id, p2, g);
    if PtKey(id, p1, f) == PtKey(id, p2, g) {
      var a, b := ["d_cfg", id, "pt", p1, PtFieldName(f)], ["d_cfg", id, "pt", p2, PtFieldName(g)];
      assert a[3] == b[3] && a[4] == b[4];
      PtFieldNames(PtFieldName(f), f);
      PtFieldNames(PtFieldName(f), g);
    }
  }

  lemma PtIsNoField(id: string, pt: string, g: PtField, f: Field)
    requires PlainId(id) && PlainId(pt)
    ensures PtKey(id, pt, g) != DevKey(id, f)
  {
    hide Parts, FieldName;
    PtKeyParts(id, pt, g);
    CleanField(f);
    FieldKeyParts("d_cfg", id, [FieldName(f)]);
    assert |["d_cfg", id] + [FieldName(f)]| == 3;
  }

  lemma BareIsNoField(id: string, f: Field)
    requires PlainId(id)
    ensures FieldKey("d_cfg", id, []) != DevKey(id, f)
  {
    hide Parts, FieldName;
    CleanField(f);
    FieldKeyParts("d_cfg", id, [FieldName(f)]);
    FieldKeyParts("d_cfg", id, []);
    assert |["d_cfg", id] + [FieldName(f)]| == 3;
  }

  lemma BareIsNoPt(id: string, pt: string, g: PtField)
    requires PlainId(id) && PlainId(pt)
    ensures FieldKey("d_cfg", id, []) != PtKey(id, pt, g)
  {
    hide Parts;
    PtKeyParts(id, pt, g);
    FieldKeyParts("d_cfg", id, []);
    assert |["d_cfg", id] + []| == 2;
  }

  lemma {:induction false} PtIsPlain(d: Device, pt: string)
    requires Valid(d) && PtOf(d.partitions, pt).Some?
    ensures PlainId(pt) && Int64(PtOf(d.partitions, pt).value.size)
  {
    PtOfHasId(d.partitions, pt);
  }

  /** A row that is no partition row leaves what the list shows. */
  lemma {:induction false} PtUntouched(d: Device, done: set<string>, ps: seq<Partition>, k: string, pt: string)
    requires ShowsPt(d, done, ps, pt)
    requires PtOf(d.partitions, pt).Some? ==> forall g: PtField :: k != PtKey(d.id, pt, g)
    ensures ShowsPt(d, done + {k}, ps, pt)
  {
    hide PtKey, PtGet;
    if PtOf(d.partitions, pt).Some? {
      assert PtSeen(d.id, pt, done) <==> PtSeen(d.id, pt, done + {k}) by {
        if g: PtField :| PtKey(d.id, pt, g) in done { assert PtKey(d.id, pt, g) in done + {k}; }
      }
      if PtOf(ps, pt).Some? {
        forall g: PtField ensures ShowsPtField(d, done + {k}, PtOf(ps, pt).value, pt, g) {
          assert ShowsPtField(d, done, PtOf(ps, pt).value, pt, g);
        }
      }
    }
  }

  lemma FieldStep(d: Device, done: set<string>, e: Device, f: Field)
    requires Valid(d) && DeviceShows(d, done, e)
    ensures DeviceShows(d, done + {DevKey(d.id, f)}, Set(e, f, Get(d, f)))
  {
    hide DevKey, PtKey, Get, Set, ShowsPt, PlainId, Int64, Valid;
    var k, e' := DevKey(d.id, f), Set(e, f, Get(d, f));
    SetGet(d, e, f, f);
    ValidId(d);
    forall g: Field ensures ShowsField(d, done + {k}, e', g) {
      assert ShowsField(d, done, e, g);
      SetGet(d, e, f, g);
      DevKeysDiffer(d.id, f, g);
    }
    forall pt ensures ShowsPt(d, done + {k}, e'.partitions, pt) {
      assert ShowsPt(d, done, e.partitions, pt);
      if PtOf(d.partitions, pt).Some? {
        PtIsPlain(d, pt);
        forall g: PtField ensures k != PtKey(d.id, pt, g) { PtIsNoField(d.id, pt, g, f); }
      }
      PtUntouched(d, done, e.partitions, k, pt);
    }
  }

  lemma ValidId(d: Device)
    requires Valid(d)
    ensures PlainId(d.id)
  {
  }

  lemma BareStep(d: Device, done: set<string>, e: Device)
    requires Valid(d) && DeviceShows(d, done, e)
    ensures DeviceShows(d, done + {FieldKey("d_cfg", d.id, [])}, e)
  {
    hide DevKey, PtKey, FieldKey, Get, ShowsPt, PlainId, Int64, Valid;
    var k := FieldKey("d_cfg", d.id, []);
    ValidId(d);
    forall g: Field ensures ShowsField(d, done + {k}, e, g) {
      assert ShowsField(d, done, e, g);
      BareIsNoField(d.id, g);
    }
    forall pt ensures ShowsPt(d, done + {k}, e.partitions, pt) {
      assert ShowsPt(d, done, e.partitions, pt);
      if PtOf(d.partitions, pt).Some? {
        PtIsPlain(d, pt);
        forall g: PtField ensures k != PtKey(d.id, pt, g) { BareIsNoPt(d.id, pt, g); }
      }
      PtUntouched(d, done, e.partitions, k, pt);
    }
  }

  lemma {:induction false} PtStep(d: Device, done: set<string>, e: Device, q: Partition, f: PtField)
    requires Valid(d) && DeviceShows(d, done, e) && PtOf(d.partitions, q.id) == Some(q)
    ensures DeviceShows(d, done + {PtKey(d.id, q.id, f)}, e.(partitions := WithPt(e.partitions, q.id, f, PtGet(q, f))))
  {
    hide DevKey, PtKey, Get, ShowsPt, PlainId, Int64, Valid, PtGet, PtSet, DistinctIds;
    var k, ps' := PtKey(d.id, q.id, f), WithPt(e.partitions, q.id, f, PtGet(q, f));
    ValidId(d);
    PtIsPlain(d, q.id);
    WithPtIds(e.partitions, q.id, f, PtGet(q, f));
    forall g: Field ensures ShowsField(d, done + {k}, e.(partitions := ps'), g) {
      assert ShowsField(d, done, e, g);
      PtIsNoField(d.id, q.id, f, g);
      PartitionsOnly(e, ps', g);
    }
    forall pt ensures ShowsPt(d, done + {k}, ps', pt) {
      assert ShowsPt(d, done, e.partitions, pt);
      WithPtAt(e.partitions, q.id, f, PtGet(q, f), pt);
      if pt == q.id {
        PtTaken(d, done, e.partitions, q, f);
      } else {
        if PtOf(d.partitions, pt).Some? {
          PtIsPlain(d, pt);
          forall g: PtField ensures k != PtKey(d.id, pt, g) { PtKeysDiffer(d.id, q.id, f, pt, g); }
        }
        PtUntouched(d, done, e.partitions, k, pt);
        SameList(d, done + {k}, e.partitions, ps', pt);
      }
    }
  }

  lemma PartitionsOnly(e: Device, ps: seq<Partition>, g: Field)
    ensures Get(e.(partitions := ps), g) == Get(e, g)
  {
  }

  lemma {:induction false} SameList(d: Device, done: set<string>, ps: seq<Partition>, ps': seq<Partition>, pt: string)
    requires ShowsPt(d, done, ps, pt) && PtOf(ps, pt) == PtOf(ps', pt)
    ensures ShowsPt(d, done, ps', pt)
  {
  }

  lemma {:induction false} PtTaken(d: Device, done: set<string>, ps: seq<Partition>, q: Partition, f: PtField)
    requires Valid(d) && PlainId(q.id) && Int64(q.size) && ShowsPt(d, done, ps, q.id) && PtOf(d.partitions, q.id) == Some(q)
    ensures ShowsPt(d, done + {PtKey(d.id, q.id, f)}, WithPt(ps, q.id, f, PtGet(q, f)), q.id)
  {
    hide PtKey, PtGet, PtSet, PlainId, Int64;
    var k, ps' := PtKey(d.id, q.id, f), WithPt(ps, q.id, f, PtGet(q, f));
    ValidId(d);
    WithPtAt(ps, q.id, f, PtGet(q, f), q.id);
    assert k in done + {k};
    var p := PtOf(ps, q.id).GetOr(NewPartition(q.id));
    forall g: PtField ensures ShowsPtField(d, done + {k}, PtOf(ps', q.id).value, q.id, g) {
      PtSetGet(q, p, f, g);
      PtKeysDiffer(d.id, q.id, f, q.id, g);
      if PtOf(ps, q.id).Some? {
        assert ShowsPtField(d, done, p, q.id, g);
      } else {
        assert PtKey(d.id, q.id, g) !in done;
      }
    }
  }

  lemma DeviceStep(rows: Rows, d: Device, done: set<string>, e: Device, k: string)
    requires Valid(d) && Holds(rows, "d_cfg", d.id, AllParts, DeviceTable(d))
    requires k in rows && About("d_cfg", 1, d.id, k) && DeviceShows(d, done, e)
    ensures DeviceShows(d, done + {k}, ParseDeviceField(e, Parts(k), rows[k]))
  {
    hide FieldKey, Parts, About, DeviceShows, Get, Set, PtGet, FieldName, FieldNamed, PtFieldName, PtFieldNamed, DeviceTable, WithPt, Valid, PtOf;
    var sub := RowFound(rows, "d_cfg", d.id, AllParts, DeviceTable(d), k);
    var r := TableSub(d, sub);
    match r
    case Bare =>
      BareRow(d);
      BareStep(d, done, e);
    case OfField(f) =>
      FieldNames(FieldName(f), f);
      assert Parts(k)[2] == FieldName(f);
      FieldStep(d, done, e, f);
    case OfPt(p, g) =>
      PtFieldNames(PtFieldName(g), g);
      assert Parts(k)[2] == "pt" && Parts(k)[3] == p.id && Parts(k)[4] == PtFieldName(g);
      PtStep(d, done, e, p, g);
  }

  /** Equal up to the order of the partitions. */
  ghost predicate SameDevice(e: Device, d: Device) {
    e.(partitions := d.partitions) == d && DistinctIds(e.partitions) && forall p :: p in e.partitions <==> p in d.partitions
  }

  lemma DeviceComplete(rows: Rows, d: Device, e: Device)
    requires Valid(d) && Holds(rows, "d_cfg", d.id, AllParts, DeviceTable(d)) && DeviceShows(d, KeysAbout(rows.Keys, "d_cfg", 1, d.id), e)
    ensures SameDevice(e, d)
  {
    hide FieldKey, KeysAbout, Get, FieldName, PtFieldName, DeviceTable, PtGet;
    var done := KeysAbout(rows.Keys, "d_cfg", 1, d.id);
    forall f: Field ensures Get(e, f) == Get(d, f) {
      assert ShowsField(d, done, e, f);
      TableField(d, f);
      if Get(d, f) == "" { EmptyByDefault(d, f); } else { RowAbout(rows, "d_cfg", d.id, AllParts, DeviceTable(d), [FieldName(f)]); }
    }
    FieldsDetermine(e, d);
    forall p ensures p in e.partitions <==> p in d.partitions {
      PtOfListed(e.partitions, p);
      PtOfListed(d.partitions, p);
      PtComplete(rows, d, e.partitions, p.id);
    }
  }

  lemma {:induction false} PtComplete(rows: Rows, d: Device, ps: seq<Partition>, pt: string)
    requires Valid(d) && Holds(rows, "d_cfg", d.id, AllParts, DeviceTable(d)) && ShowsPt(d, KeysAbout(rows.Keys, "d_cfg", 1, d.id), ps, pt)
    ensures PtOf(ps, pt) == PtOf(d.partitions, pt)
  {
    hide FieldKey, KeysAbout, PtFieldName, DeviceTable, PtGet, Valid;
    var done := KeysAbout(rows.Keys, "d_cfg", 1, d.id);
    if PtOf(d.partitions, pt).Some? {
      forall g: PtField ensures PtKey(d.id, pt, g) in done {
        TablePt(d, pt, g);
        RowAbout(rows, "d_cfg", d.id, AllParts, DeviceTable(d), ["pt", pt, PtFieldName(g)]);
      }
      assert PtKey(d.id, pt, PtSize) in done;
      var p, q := PtOf(ps, pt).value, PtOf(d.partitions, pt).value;
      forall g: PtField ensures PtGet(p, g) == PtGet(q, g) { assert ShowsPtField(d, done, p, pt, g); }
      PtOfHasId(ps, pt);
      PtOfHasId(d.partitions, pt);
      PtFieldsDetermine(p, q);
    }
  }

  lemma PtFieldsDetermine(p: Partition, q: Partition)
    requires p.id == q.id && forall g: PtField :: PtGet(p, g) == PtGet(q, g)
    ensures p == q
  {
    hide FormatInt;
    assert PtGet(p, PtPath) == PtGet(q, PtPath) && PtGet(p, PtNisd) == PtGet(q, PtNisd);
    assert PtGet(p, PtDevice) == PtGet(q, PtDevice) && PtGet(p, PtSize) == PtGet(q, PtSize);
    FormatIntInjective(p.size, q.size);
  }

  lemma EmptyByDefault(d: Device, f: Field)
    requires Get(d, f) == ""
    ensures Get(NewDevice(d.id), f) == ""
  {
    hide Itoa;
  }

  lemma FieldsDetermine(e: Device, d: Device)
    requires e.id == d.id && forall f: Field :: Get(e, f) == Get(d, f)
    ensures e.(partitions := d.partitions) == d
  {
    hide Itoa, FormatInt;
    assert Get(e, Name) == Get(d, Name) && Get(e, Path) == Get(d, Path) && Get(e, Serial) == Get(d, Serial) && Get(e, Hv) == Get(d, Hv);
    assert Get(e, Fdom) == Get(d, Fdom) && Get(e, State) == Get(d, State) && Get(e, Size) == Get(d, Size);
    ItoaInjective(e.state, d.state);
    FormatIntInjective(e.size, d.size);
  }

  /** Devices come back with all their partitions, whatever order the rows come in. */
  method ParseDevices(rows: Rows, ghost recs: map<string, Device>) returns (ents: map<string, Device>)
    requires forall id | id in recs :: recs[id].id == id && Valid(recs[id]) && Holds(rows, "d_cfg", id, AllParts, DeviceTable(recs[id]))
    ensures forall id | id in recs :: id in ents && SameDevice(ents[id], recs[id])
    ensures forall id :: id in ents <==> exists k :: k in rows && About("d_cfg", 1, id, k)
  {
    hide Parts, About, Holds, DeviceShows, ParseDeviceField, KeysAbout, FieldKey, SameDevice, Valid;
    forall id | id in recs ensures Starts(DeviceShows, NewDevice, id, recs[id]) { NothingSeen(recs[id]); }
    forall id, done, e, k | id in recs ensures TakesRow(rows, "d_cfg", ParseDeviceField, DeviceShows, id, recs[id], done, e, k) {
      if k in rows && k !in done && About("d_cfg", 1, id, k) && DeviceShows(recs[id], done, e) { DeviceStep(rows, recs[id], done, e, k); }
    }
    forall id, e | id in recs ensures Completes(rows, "d_cfg", DeviceShows, SameDevice, id, recs[id], e) {
      DeviceRows(rows, recs[id]);
      if DeviceShows(recs[id], KeysAbout(rows.Keys, "d_cfg", 1, id), e) { DeviceComplete(rows, recs[id], e); }
    }
    ents := ParseRecords(rows, "d_cfg", NewDevice, ParseDeviceField, recs, DeviceShows, SameDevice);
  }

  lemma DeviceRows(rows: Rows, d: Device)
    requires Holds(rows, "d_cfg", d.id, AllParts, DeviceTable(d))
    ensures KeysAbout(rows.Keys, "d_cfg", 1, d.id) != {}
  {
    BareRow(d);
    RowAbout(rows, "d_cfg", d.id, AllParts, DeviceTable(d), []);
  }

  lemma NothingSeen(d: Device)
    ensures DeviceShows(d, {}, NewDevice(d.id))
  {
  }

  /** Stored next to anything else and parsed back, a device is the same up to the order of its
      partitions. */
  method RoundTrip(rows: Rows, d: Device) returns (e: Device)
    requires Valid(d) && forall k :: k in rows ==> !About("d_cfg", 1, d.id, k)
    ensures SameDevice(e, d)
  {
    hide About, Parts, DeviceTable, Prints, Printable, Holds, Valid, SameDevice;
    var chgs, links := WriteDevice(d);
    DevicePrintable(d);
    PrintedHolds(rows, "d_cfg", d.id, AllParts, DeviceTable(d), chgs);
    var ents := ParseDevices(ApplyRows(rows, chgs), map[d.id := d]);
    e := ents[d.id];
  }
}
