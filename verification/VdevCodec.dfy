/** Vdev records among the placement and mount keys of the same vdev
    (controlplane/ctlplanefuncs/server/populate.go, lines 282-313,
    controlplane/ctlplanefuncs/server/srvctlplanefuncs.go, lines 691-719,
    controlplane/ctlplanefuncs/server/parser.go, lines 389-443). */
module VdevCodec {
  import opened Finite
  import opened Text
  import opened Parsing
  import opened RecordRows

  datatype Vdev = Vdev(id: string, size: int, chunkCnt: nat, dataBlkCnt: nat, parityBlkCnt: nat, redundancy: int, name: string,
                       filterType: string, filterId: string, pfsId: string, mountCounter: nat, lastUpdated: string)

  datatype Field = Size | NumChunks | DataBlks | ParityBlks | Mode | Name | FdType | FdId | Pfs

  const FIELDS := [Size, NumChunks, DataBlks, ParityBlks, Mode, Name, FdType, FdId, Pfs]

  function FieldName(f: Field): string {
    match f
    case Size => "sz"
    case NumChunks => "nc"
    case DataBlks => "nd"
    case ParityBlks => "np"
    case Mode => "rm"
    case Name => "nm"
    case FdType => "fdt"
    case FdId => "fdi"
    case Pfs => "pfs"
  }

  function FieldNamed(s: string): Option<Field> {
    if s == "sz" then Some(Size) else if s == "nc" then Some(NumChunks) else if s == "nd" then Some(DataBlks)
    else if s == "np" then Some(ParityBlks) else if s == "rm" then Some(Mode) else if s == "pfs" then Some(Pfs)
    else if s == "nm" then Some(Name) else if s == "fdt" then Some(FdType) else if s == "fdi" then Some(FdId) else None
  }

  lemma FieldNames(s: string, f: Field)
    ensures FieldNamed(s) == Some(f) <==> s == FieldName(f)
    ensures FieldName(f) != "" && Free(FieldName(f), '/')
  {
  }

  function Get(v: Vdev, f: Field): string {
    match f
    case Size => FormatInt(v.size)
    case NumChunks => Itoa(v.chunkCnt)
    case DataBlks => Itoa(v.dataBlkCnt)
    case ParityBlks => Itoa(v.parityBlkCnt)
    case Mode => FormatInt(v.redundancy)
    case Name => v.name
    case FdType => v.filterType
    case FdId => v.filterId
    case Pfs => v.pfsId
  }

  /** A number that does not parse leaves the field as it is. */
  function Set(v: Vdev, f: Field, x: string): Vdev {
    match f
    case Size => v.(size := ParseInt(x).GetOr(v.size))
    case NumChunks => v.(chunkCnt := ParseUint(x, UINT32).GetOr(v.chunkCnt))
    case DataBlks => v.(dataBlkCnt := ParseUint(x, UINT8).GetOr(v.dataBlkCnt))
    case ParityBlks => v.(parityBlkCnt := ParseUint(x, UINT8).GetOr(v.parityBlkCnt))
    case Mode => v.(redundancy := ParseInt(x).GetOr(v.redundancy))
    case Name => v.(name := x)
    case FdType => v.(filterType := x)
    case FdId => v.(filterId := x)
    case Pfs => v.(pfsId := x)
  }

  function NewVdev(id: string): Vdev { Vdev(id, 0, 0, 0, 0, 0, "", "", "", "", 0, "") }

  ghost predicate Valid(v: Vdev) {
    PlainId(v.id) && Int64(v.size) && Int64(v.redundancy) && v.chunkCnt < UINT32 && v.dataBlkCnt < UINT8 && v.parityBlkCnt < UINT8
  }

  lemma SetGet(v: Vdev, e: Vdev, f: Field, g: Field)
    requires Valid(v)
    ensures Get(Set(e, f, Get(v, f)), g) == if f == g then Get(v, f) else Get(e, g)
    ensures Set(e, f, Get(v, f)).id == e.id
  {
    hide ParseInt, FormatInt, Itoa, ParseUint;
    match f
    case Size => ParseFormatInt(v.size);
    case NumChunks => ParseUintItoa(v.chunkCnt, UINT32);
    case DataBlks => ParseUintItoa(v.dataBlkCnt, UINT8);
    case ParityBlks => ParseUintItoa(v.parityBlkCnt, UINT8);
    case Mode => ParseFormatInt(v.redundancy);
    case _ =>
  }

  /** The rows of a vdev record: its non-empty fields, under cfg. */
  function VdevTable(v: Vdev): RowTable {
    sub =>
      if |sub| == 2 && sub[0] == "cfg" && FieldNamed(sub[1]).Some? && Get(v, FieldNamed(sub[1]).value) != ""
      then Some(Get(v, FieldNamed(sub[1]).value)) else None
  }

  /** The keys the record is read from; placement keys (c) and mount keys (m) share the prefix. */
  function CfgParts(parts: seq<string>): bool { |parts| > 3 && parts[2] == "cfg" }

  function CfgKey(id: string, f: Field): string { FieldKey("v", id, ["cfg", FieldName(f)]) }

  lemma TableAt(v: Vdev, f: Field)
    ensures VdevTable(v)(["cfg", FieldName(f)]) == if Get(v, f) != "" then Some(Get(v, f)) else None
  {
    FieldNames(FieldName(f), f);
  }

  lemma TableSub(v: Vdev, sub: seq<string>) returns (f: Field)
    requires VdevTable(v)(sub).Some?
    ensures sub == ["cfg", FieldName(f)] && Get(v, f) != "" && VdevTable(v)(sub) == Some(Get(v, f))
  {
    hide Get, FieldName, FieldNamed;
    f := FieldNamed(sub[1]).value;
    FieldNames(sub[1], f);
  }

  lemma CleanCfg(f: Field)
    ensures CleanSub(["cfg", FieldName(f)])
  {
    FieldNames(FieldName(f), f);
  }

  lemma VdevPrintable(v: Vdev)
    requires Valid(v)
    ensures Printable("v", v.id, VdevTable(v))
  {
    hide Get, FieldName, FieldNamed, VdevTable, CleanSub;
    forall sub | VdevTable(v)(sub).Some? ensures CleanSub(sub) {
      var f := TableSub(v, sub);
      CleanCfg(f);
    }
  }

  method PopulateVdev(v: Vdev) returns (chgs: seq<Row>)
    ensures Prints("v", v.id, VdevTable(v), chgs)
  {
    hide FieldKey, Get, FieldName, VdevTable;
    chgs := [];
    for i := 0 to |FIELDS|
      invariant forall c :: c in chgs ==> exists sub :: IsRow("v", v.id, VdevTable(v), sub, c)
      invariant forall j :: 0 <= j < i && Get(v, FIELDS[j]) != "" ==> Row(CfgKey(v.id, FIELDS[j]), Get(v, FIELDS[j])) in chgs
    {
      var f := FIELDS[i];
      if Get(v, f) != "" {
        var c := Row(CfgKey(v.id, f), Get(v, f));
        TableAt(v, f);
        assert IsRow("v", v.id, VdevTable(v), ["cfg", FieldName(f)], c);
        chgs := chgs + [c];
      }
    }
    forall sub | VdevTable(v)(sub).Some? ensures Row(FieldKey("v", v.id, sub), VdevTable(v)(sub).value) in chgs {
      var f := TableSub(v, sub);
      var j := FieldAt(f);
      assert Row(CfgKey(v.id, FIELDS[j]), Get(v, FIELDS[j])) in chgs;
    }
  }

  lemma FieldAt(f: Field) returns (j: nat)
    ensures j < |FIELDS| && FIELDS[j] == f
  {
    j := match f
      case Size => 0 case NumChunks => 1 case DataBlks => 2 case ParityBlks => 3 case Mode => 4
      case Name => 5 case FdType => 6 case FdId => 7 case Pfs => 8;
  }

  function ParseVdevField(v: Vdev, parts: seq<string>, value: string): Vdev {
    if |parts| > 3 && parts[2] == "cfg" then
      match FieldNamed(parts[3])
      case None => v
      case Some(f) => Set(v, f, value)
    else if |parts| > 3 && parts[2] == "m" then
      if parts[3] == "mc" then v.(mountCounter := ParseUint(value, UINT64).GetOr(v.mountCounter))
      else if parts[3] == "lu" then v.(lastUpdated := value)
      else v
    else v
  }

  /** What is read where no row says anything: empty texts and zero. A number that cannot be read changes nothing. */
  lemma ReadWithoutRows(v: Vdev, id: string, x: string, f: Field)
    ensures Get(NewVdev(id), f) == if f == Size || f == NumChunks || f == DataBlks || f == ParityBlks || f == Mode then Itoa(0) else ""
    ensures NewVdev(id).mountCounter == 0 && NewVdev(id).lastUpdated == ""
    ensures ParseInt(x).None? && ParseUint(x, UINT32).None? && ParseUint(x, UINT8).None? && Get(NewVdev(id), f) == Itoa(0) ==> Set(v, f, x) == v
  {
    hide Itoa, ParseInt, ParseUint;
    ItoaNonEmpty();
  }

  lemma ItoaNonEmpty()
    ensures Itoa(0) != ""
  {
  }

  ghost predicate VdevShows(v: Vdev, done: set<string>, e: Vdev) {
    e.id == v.id && forall f: Field :: ShowsField(v, done, e, f)
  }

  ghost predicate ShowsField(v: Vdev, done: set<string>, e: Vdev, f: Field) {
    Get(e, f) == if CfgKey(v.id, f) in done then Get(v, f) else Get(NewVdev(v.id), f)
  }

  lemma CfgKeysDiffer(v: Vdev, f: Field, g: Field)
    requires Valid(v)
    ensures CfgKey(v.id, f) == CfgKey(v.id, g) <==> f == g
    ensures CfgParts(Parts(CfgKey(v.id, f)))
  {
    FieldNames(FieldName(f), f);
    FieldNames(FieldName(g), g);
    CleanCfg(f);
    CleanCfg(g);
    FieldKeyParts("v", v.id, ["cfg", FieldName(f)]);
    if CfgKey(v.id, f) == CfgKey(v.id, g) {
      FieldKeyInjective("v", v.id, ["cfg", FieldName(f)], v.id, ["cfg", FieldName(g)]);
      assert ["cfg", FieldName(f)][1] == ["cfg", FieldName(g)][1];
    }
  }

  lemma CfgStep(v: Vdev, done: set<string>, e: Vdev, g: Field)
    requires Valid(v) && VdevShows(v, done, e)
    ensures VdevShows(v, done + {CfgKey(v.id, g)}, Set(e, g, Get(v, g)))
  {
    hide CfgKey, Get, Set, FieldName, Parts;
    SetGet(v, e, g, g);
    forall f: Field ensures ShowsField(v, done + {CfgKey(v.id, g)}, Set(e, g, Get(v, g)), f) {
      assert ShowsField(v, done, e, f);
      SetGet(v, e, g, f);
      CfgKeysDiffer(v, f, g);
    }
  }

  /** A placement or mount key changes no field of the record. */
  lemma MixedStep(v: Vdev, done: set<string>, e: Vdev, k: string, value: string)
    requires Valid(v) && VdevShows(v, done, e) && !CfgParts(Parts(k))
    ensures VdevShows(v, done + {k}, ParseVdevField(e, Parts(k), value))
  {
    hide CfgKey, FieldName, Parts, Itoa, FormatInt, ParseUint;
    var e' := ParseVdevField(e, Parts(k), value);
    forall f: Field ensures ShowsField(v, done + {k}, e', f) {
      assert ShowsField(v, done, e, f);
      CfgKeysDiffer(v, f, f);
    }
  }

  lemma VdevStep(rows: Rows, v: Vdev, done: set<string>, e: Vdev, k: string)
    requires Valid(v) && Holds(rows, "v", v.id, CfgParts, VdevTable(v))
    requires k in rows && About("v", 1, v.id, k) && VdevShows(v, done, e)
    ensures VdevShows(v, done + {k}, ParseVdevField(e, Parts(k), rows[k]))
  {
    hide FieldKey, Parts, About, VdevShows, Get, Set, FieldName, FieldNamed, VdevTable, ParseUint, CfgParts;
    if CfgParts(Parts(k)) {
      var sub := RowFound(rows, "v", v.id, CfgParts, VdevTable(v), k);
      var g := TableSub(v, sub);
      ParsesCfg(e, Parts(k), rows[k], v.id, sub, g);
      CfgStep(v, done, e, g);
    } else {
      MixedStep(v, done, e, k, rows[k]);
    }
  }

  lemma ParsesCfg(e: Vdev, parts: seq<string>, value: string, id: string, sub: seq<string>, g: Field)
    requires sub == ["cfg", FieldName(g)] && parts == ["v", id] + sub
    ensures ParseVdevField(e, parts, value) == Set(e, g, value)
  {
    hide Set, FieldName, FieldNamed;
    FieldNames(FieldName(g), g);
    assert parts[2] == "cfg" && parts[3] == FieldName(g);
  }

  /** Equal in everything but the mount state. */
  ghost predicate SameCfg(e: Vdev, v: Vdev) { e.(mountCounter := v.mountCounter, lastUpdated := v.lastUpdated) == v }

  lemma VdevComplete(rows: Rows, v: Vdev, e: Vdev)
    requires Valid(v) && Holds(rows, "v", v.id, CfgParts, VdevTable(v)) && VdevShows(v, KeysAbout(rows.Keys, "v", 1, v.id), e)
    ensures SameCfg(e, v)
  {
    hide FieldKey, KeysAbout, Get, FieldName, VdevTable, CfgParts;
    var done := KeysAbout(rows.Keys, "v", 1, v.id);
    forall f: Field ensures Get(e, f) == Get(v, f) {
      assert ShowsField(v, done, e, f);
      TableAt(v, f);
      if Get(v, f) == "" { EmptyByDefault(v, f); } else {
        RowAbout(rows, "v", v.id, CfgParts, VdevTable(v), ["cfg", FieldName(f)]);
      }
    }
    FieldsDetermine(e, v);
  }

  lemma EmptyByDefault(v: Vdev, f: Field)
    requires Get(v, f) == ""
    ensures Get(NewVdev(v.id), f) == ""
  {
    hide Itoa;
  }

  lemma FieldsDetermine(e: Vdev, v: Vdev)
    requires e.id == v.id && forall f: Field :: Get(e, f) == Get(v, f)
    ensures SameCfg(e, v)
  {
    hide Itoa, FormatInt;
    assert Get(e, Name) == Get(v, Name) && Get(e, FdType) == Get(v, FdType) && Get(e, FdId) == Get(v, FdId) && Get(e, Pfs) == Get(v, Pfs);
    assert Get(e, Size) == Get(v, Size) && Get(e, Mode) == Get(v, Mode);
    assert Get(e, NumChunks) == Get(v, NumChunks) && Get(e, DataBlks) == Get(v, DataBlks) && Get(e, ParityBlks) == Get(v, ParityBlks);
    FormatIntInjective(e.size, v.size);
    FormatIntInjective(e.redundancy, v.redundancy);
    ItoaInjective(e.chunkCnt, v.chunkCnt);
    ItoaInjective(e.dataBlkCnt, v.dataBlkCnt);
    ItoaInjective(e.parityBlkCnt, v.parityBlkCnt);
  }

  // ----- the mount rows -----

  function MountKey(id: string, x: string): string { FieldKey("v", id, ["m", x]) }

  /** The mount counter and the last mount are each kept under one key. */
  ghost predicate PlainMounts(rows: Rows, id: string) {
    PlainId(id) && forall k :: k in rows && About("v", 1, id, k) ==> PlainMount(id, k)
  }

  ghost predicate PlainMount(id: string, k: string) {
    |Parts(k)| > 3 && Parts(k)[2] == "m" && (Parts(k)[3] == "mc" || Parts(k)[3] == "lu") ==> k == MountKey(id, Parts(k)[3])
  }

  ghost function CounterIn(rows: Rows, id: string): nat {
    if MountKey(id, "mc") in rows then ParseUint(rows[MountKey(id, "mc")], UINT64).GetOr(0) else 0
  }

  ghost function TimeIn(rows: Rows, id: string): string { if MountKey(id, "lu") in rows then rows[MountKey(id, "lu")] else "" }

  /** Of the mount rows in done, e shows what they say. */
  ghost predicate MountShows(rows: Rows, done: set<string>, e: Vdev) {
    && e.mountCounter == (if MountKey(e.id, "mc") in done then CounterIn(rows, e.id) else 0)
    && e.lastUpdated == if MountKey(e.id, "lu") in done then TimeIn(rows, e.id) else ""
  }

  lemma MountKeyParts(id: string, x: string)
    requires PlainId(id) && (x == "mc" || x == "lu")
    ensures Parts(MountKey(id, x)) == ["v", id, "m", x] && About("v", 1, id, MountKey(id, x))
  {
    assert CleanSub(["m", x]);
    FieldKeyParts("v", id, ["m", x]);
  }

  lemma MountStep(rows: Rows, done: set<string>, e: Vdev, k: string)
    requires PlainMounts(rows, e.id) && k in rows && k !in done && About("v", 1, e.id, k) && MountShows(rows, done, e)
    ensures MountShows(rows, done + {k}, ParseVdevField(e, Parts(k), rows[k]))
  {
    hide MountKey, Parts, ParseUint, FieldName, Get, ParseInt;
    MountKeyParts(e.id, "mc");
    MountKeyParts(e.id, "lu");
    assert PlainMount(e.id, k);
    SetKeepsMount(e, Parts(k), rows[k]);
    assert ["v", e.id, "m", "mc"][3] == "mc" && ["v", e.id, "m", "lu"][3] == "lu";
  }

  lemma SetKeepsMount(e: Vdev, parts: seq<string>, value: string)
    ensures var e' := ParseVdevField(e, parts, value);
            e'.id == e.id && (!(|parts| > 3 && parts[2] == "m" && parts[3] == "mc") ==> e'.mountCounter == e.mountCounter)
            && (!(|parts| > 3 && parts[2] == "m" && parts[3] == "lu") ==> e'.lastUpdated == e.lastUpdated)
  {
    hide ParseUint, ParseInt;
  }

  /** Everything that a row says, configuration and mount rows together. */
  ghost predicate ReadsFully(rows: Rows, v: Vdev, done: set<string>, e: Vdev) {
    VdevShows(v, done, e) && (PlainMounts(rows, v.id) ==> MountShows(rows, done, e))
  }

  ghost predicate SameVdev(rows: Rows, e: Vdev, v: Vdev) {
    SameCfg(e, v) && (PlainMounts(rows, v.id) ==> e.mountCounter == CounterIn(rows, v.id) && e.lastUpdated == TimeIn(rows, v.id))
  }

  lemma AllMountsShown(rows: Rows, e: Vdev)
    requires PlainMounts(rows, e.id) && MountShows(rows, KeysAbout(rows.Keys, "v", 1, e.id), e)
    ensures e.mountCounter == CounterIn(rows, e.id) && e.lastUpdated == TimeIn(rows, e.id)
  {
    hide MountKey, Parts, ParseUint;
    MountKeyParts(e.id, "mc");
    MountKeyParts(e.id, "lu");
  }

  lemma ReadsStep(rows: Rows, v: Vdev, done: set<string>, e: Vdev, k: string)
    requires Valid(v) && Holds(rows, "v", v.id, CfgParts, VdevTable(v))
    requires k in rows && k !in done && About("v", 1, v.id, k) && ReadsFully(rows, v, done, e)
    ensures ReadsFully(rows, v, done + {k}, ParseVdevField(e, Parts(k), rows[k]))
  {
    hide Parts, About, PlainMounts, MountShows, ParseVdevField, Holds, Valid;
    VdevStep(rows, v, done, e, k);
    SameId(v, done, e);
    if PlainMounts(rows, v.id) { MountStep(rows, done, e, k); }
  }

  lemma SameId(v: Vdev, done: set<string>, e: Vdev)
    requires VdevShows(v, done, e)
    ensures e.id == v.id
  {
  }

  lemma ReadsAll(rows: Rows, v: Vdev, e: Vdev)
    requires Valid(v) && Holds(rows, "v", v.id, CfgParts, VdevTable(v)) && ReadsFully(rows, v, KeysAbout(rows.Keys, "v", 1, v.id), e)
    ensures SameVdev(rows, e, v)
  {
    hide PlainMounts, MountShows, Holds, Valid, KeysAbout, SameCfg, CounterIn, TimeIn;
    VdevComplete(rows, v, e);
    SameId(v, KeysAbout(rows.Keys, "v", 1, v.id), e);
    if PlainMounts(rows, v.id) { AllMountsShown(rows, e); }
  }

  lemma ReadsNothing(rows: Rows, v: Vdev)
    ensures ReadsFully(rows, v, {}, NewVdev(v.id))
  {
    NothingSeen(v);
  }

  /** Vdev records come back as they were stored, whatever order the rows come in and whatever
      placement and mount rows stand among them, with the mount state that the mount rows hold. */
  method ParseVdevs(rows: Rows, ghost recs: map<string, Vdev>) returns (ents: map<string, Vdev>)
    requires forall id | id in recs :: recs[id].id == id && Valid(recs[id]) && Holds(rows, "v", id, CfgParts, VdevTable(recs[id]))
    ensures forall id | id in recs :: id in ents && SameVdev(rows, ents[id], recs[id])
    ensures forall id :: id in ents <==> exists k :: k in rows && About("v", 1, id, k)
  {
    hide Parts, About, Holds, ReadsFully, ParseVdevField, KeysAbout, FieldKey, SameVdev, Valid;
    ghost var shows := (v: Vdev, done: set<string>, e: Vdev) => ReadsFully(rows, v, done, e);
    ghost var same := (e: Vdev, v: Vdev) => SameVdev(rows, e, v);
    forall id | id in recs ensures Starts(shows, NewVdev, id, recs[id]) { ReadsNothing(rows, recs[id]); }
    forall id, done, e, k | id in recs ensures TakesRow(rows, "v", ParseVdevField, shows, id, recs[id], done, e, k) {
      if k in rows && k !in done && About("v", 1, id, k) && ReadsFully(rows, recs[id], done, e) { ReadsStep(rows, recs[id], done, e, k); }
    }
    forall id, e | id in recs ensures Completes(rows, "v", shows, same, id, recs[id], e) {
      VdevRows(rows, recs[id]);
      if ReadsFully(rows, recs[id], KeysAbout(rows.Keys, "v", 1, id), e) { ReadsAll(rows, recs[id], e); }
    }
    ents := ParseRecords(rows, "v", NewVdev, ParseVdevField, recs, shows, same);
  }

  lemma VdevRows(rows: Rows, v: Vdev)
    requires Holds(rows, "v", v.id, CfgParts, VdevTable(v))
    ensures KeysAbout(rows.Keys, "v", 1, v.id) != {}
  {
    TableAt(v, NumChunks);
    RowAbout(rows, "v", v.id, CfgParts, VdevTable(v), ["cfg", FieldName(NumChunks)]);
  }

  lemma NothingSeen(v: Vdev)
    ensures VdevShows(v, {}, NewVdev(v.id))
  {
  }

  /** Stored next to anything else, its own placement and mount rows included, and parsed back, a vdev
      keeps its configuration. */
  method RoundTrip(rows: Rows, v: Vdev) returns (e: Vdev)
    requires Valid(v) && forall k :: k in rows ==> !(About("v", 1, v.id, k) && CfgParts(Parts(k)))
    ensures SameCfg(e, v)
  {
    hide About, Parts, CfgParts, VdevTable, Prints, Printable, Holds, Valid, SameCfg;
    var chgs := PopulateVdev(v);
    VdevPrintable(v);
    PrintedHolds(rows, "v", v.id, CfgParts, VdevTable(v), chgs);
    var ents := ParseVdevs(ApplyRows(rows, chgs), map[v.id := v]);
    e := ents[v.id];
  }
}
