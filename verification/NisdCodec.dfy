/** NISD records with their network list (controlplane/ctlplanefuncs/server/populate.go, lines 76-124,
    controlplane/ctlplanefuncs/server/parser.go, lines 211-266). */
module NisdCodec {
  import opened Finite
  import opened Text
  import opened Parsing
  import opened RecordRows

  datatype NetworkInfo = NetworkInfo(ip: string, port: nat)

  datatype Nisd = Nisd(id: string, device: string, peerPort: nat, hv: string, total: int, avail: int, socket: string,
                       pdu: string, rack: string, partition: string, netCnt: int, netInfo: seq<NetworkInfo>)

  datatype Field = Device | PeerPort | Hv | TotalSpace | AvailSpace | Socket | Pdu | Rack | Partition | NetCnt

  const FIELDS := [Device, PeerPort, Hv, TotalSpace, AvailSpace, Socket, Pdu, Rack, Partition, NetCnt]

  function FieldName(f: Field): string {
    match f
    case Device => "d"
    case PeerPort => "pp"
    case Hv => "hv"
    case TotalSpace => "ts"
    case AvailSpace => "as"
    case Socket => "sck"
    case Pdu => "p"
    case Rack => "r"
    case Partition => "pt"
    case NetCnt => "nic"
  }

  function FieldNamed(s: string): Option<Field> {
    if s == "d" then Some(Device) else if s == "pp" then Some(PeerPort) else if s == "hv" then Some(Hv)
    else if s == "p" then Some(Pdu) else if s == "r" then Some(Rack) else if s == "pt" then Some(Partition)
    else if s == "ts" then Some(TotalSpace) else if s == "as" then Some(AvailSpace)
    else if s == "sck" then Some(Socket) else if s == "nic" then Some(NetCnt) else None
  }

  lemma FieldNames(s: string, f: Field)
    ensures FieldNamed(s) == Some(f) <==> s == FieldName(f)
    ensures FieldName(f) != "" && FieldName(f) != "ni" && Free(FieldName(f), '/')
  {
  }

  function Get(n: Nisd, f: Field): string
  {
    match f
    case Device => n.device
    case PeerPort => Itoa(n.peerPort)
    case Hv => n.hv
    case TotalSpace => FormatInt(n.total)
    case AvailSpace => FormatInt(n.avail)
    case Socket => n.socket
    case Pdu => n.pdu
    case Rack => n.rack
    case Partition => n.partition
    case NetCnt => FormatInt(n.netCnt)
  }

  function ToPort(v: string): nat { ParseInt(v).GetOr(0) % UINT16 }

  function Set(n: Nisd, f: Field, v: string): Nisd {
    match f
    case Device => n.(device := v)
    case PeerPort => n.(peerPort := ToPort(v))
    case Hv => n.(hv := v)
    case TotalSpace => n.(total := ParseInt(v).GetOr(0))
    case AvailSpace => n.(avail := ParseInt(v).GetOr(0))
    case Socket => n.(socket := v)
    case Pdu => n.(pdu := v)
    case Rack => n.(rack := v)
    case Partition => n.(partition := v)
    case NetCnt => n.(netCnt := ParseInt(v).GetOr(0))
  }

  function NewNisd(id: string): Nisd { Nisd(id, "", 0, "", 0, 0, "", "", "", "", 0, []) }

  /** Slash-free ids and addresses, no address twice, numbers in their ranges. */
  ghost predicate Valid(n: Nisd) {
    PlainId(n.id) && n.peerPort < UINT16 && Int64(n.total) && Int64(n.avail) && Int64(n.netCnt)
    && (forall x :: x in n.netInfo ==> PlainId(x.ip) && x.port < UINT16)
    && forall i, j :: 0 <= i < j < |n.netInfo| ==> n.netInfo[i].ip != n.netInfo[j].ip
  }

  lemma {:induction false} PortRoundTrip(p: nat)
    requires p < UINT16
    ensures ToPort(Itoa(p)) == p
  {
    hide ParseInt, Itoa;
    ParseFormatInt(p);
    assert FormatInt(p) == Itoa(p);
  }

  /** Writing a printed field sets that field and no other. */
  lemma SetGet(n: Nisd, e: Nisd, f: Field, g: Field)
    requires Valid(n)
    ensures Get(Set(e, f, Get(n, f)), g) == if f == g then Get(n, f) else Get(e, g)
    ensures Set(e, f, Get(n, f)).netInfo == e.netInfo && Set(e, f, Get(n, f)).id == e.id
  {
    hide ParseInt, FormatInt, Itoa, ToPort;
    match f
    case PeerPort => PortRoundTrip(n.peerPort);
    case TotalSpace => ParseFormatInt(n.total);
    case AvailSpace => ParseFormatInt(n.avail);
    case NetCnt => ParseFormatInt(n.netCnt);
    case _ =>
  }

  function PortOf(net: seq<NetworkInfo>, ip: string): Option<nat> {
    if net == [] then None else if net[0].ip == ip then Some(net[0].port) else PortOf(net[1..], ip)
  }

  lemma {:induction false} PortOfListed(net: seq<NetworkInfo>, x: NetworkInfo)
    requires forall i, j :: 0 <= i < j < |net| ==> net[i].ip != net[j].ip
    ensures PortOf(net, x.ip) == Some(x.port) <==> x in net
  {
    if net != [] {
      PortOfListed(net[1..], x);
      assert net == [net[0]] + net[1..];
      forall j | 0 <= j < |net| - 1 ensures net[1..][j].ip != net[0].ip { assert net[1..][j] == net[j+1]; }
    }
  }

  /** The rows of a NISD: its non-empty fields and a row for every address. */
  function NisdTable(n: Nisd): RowTable {
    sub =>
      if |sub| == 1 && FieldNamed(sub[0]).Some? && Get(n, FieldNamed(sub[0]).value) != "" then Some(Get(n, FieldNamed(sub[0]).value))
      else if |sub| == 2 && sub[0] == "ni" && PortOf(n.netInfo, sub[1]).Some? then Some(Itoa(PortOf(n.netInfo, sub[1]).value))
      else None
  }

  lemma NisdPrintable(n: Nisd)
    requires Valid(n)
    ensures Printable("n_cfg", n.id, NisdTable(n))
  {
    hide Get, FieldNamed, FieldName, Itoa, PortOf;
    forall sub | NisdTable(n)(sub).Some? ensures CleanSub(sub) {
      if |sub| == 1 {
        FieldNames(sub[0], FieldNamed(sub[0]).value);
      } else {
        PortOfListed(n.netInfo, NetworkInfo(sub[1], PortOf(n.netInfo, sub[1]).value));
      }
    }
  }

  ghost predicate RowsOnly(n: Nisd, chgs: seq<Row>) {
    forall c :: c in chgs ==> exists sub :: IsRow("n_cfg", n.id, NisdTable(n), sub, c)
  }

  lemma RowsOnlyNext(n: Nisd, chgs: seq<Row>, sub: seq<string>)
    requires RowsOnly(n, chgs) && NisdTable(n)(sub).Some?
    ensures RowsOnly(n, chgs + [Row(FieldKey("n_cfg", n.id, sub), NisdTable(n)(sub).value)])
  {
    hide NisdTable, FieldKey;
    var c := Row(FieldKey("n_cfg", n.id, sub), NisdTable(n)(sub).value);
    assert IsRow("n_cfg", n.id, NisdTable(n), sub, c);
  }

  method PopulateFields(n: Nisd) returns (chgs: seq<Row>)
    ensures RowsOnly(n, chgs)
    ensures forall f: Field :: Get(n, f) != "" ==> Row(FieldKey("n_cfg", n.id, [FieldName(f)]), Get(n, f)) in chgs
  {
    hide FieldKey, Get, FieldName, RowsOnly, NisdTable;
    chgs := [];
    NoRows(n);
    for i := 0 to |FIELDS|
      invariant RowsOnly(n, chgs)
      invariant forall j :: 0 <= j < i && Get(n, FIELDS[j]) != "" ==> Row(FieldKey("n_cfg", n.id, [FieldName(FIELDS[j])]), Get(n, FIELDS[j])) in chgs
    {
      var f := FIELDS[i];
      if Get(n, f) != "" {
        FieldRow(n, f);
        RowsOnlyNext(n, chgs, [FieldName(f)]);
        chgs := chgs + [Row(FieldKey("n_cfg", n.id, [FieldName(f)]), Get(n, f))];
      }
    }
    forall f: Field | Get(n, f) != "" ensures Row(FieldKey("n_cfg", n.id, [FieldName(f)]), Get(n, f)) in chgs {
      var j := FieldAt(f);
    }
  }

  method PopulateAddresses(n: Nisd) returns (chgs: seq<Row>)
    requires Valid(n)
    ensures RowsOnly(n, chgs)
    ensures forall x :: x in n.netInfo ==> Row(FieldKey("n_cfg", n.id, ["ni", x.ip]), Itoa(x.port)) in chgs
  {
    hide FieldKey, RowsOnly, NisdTable, Itoa;
    chgs := [];
    NoRows(n);
    for i := 0 to |n.netInfo|
      invariant RowsOnly(n, chgs)
      invariant forall j :: 0 <= j < i ==> Row(FieldKey("n_cfg", n.id, ["ni", n.netInfo[j].ip]), Itoa(n.netInfo[j].port)) in chgs
    {
      var x := n.netInfo[i];
      NetRow(n, x);
      RowsOnlyNext(n, chgs, ["ni", x.ip]);
      chgs := chgs + [Row(FieldKey("n_cfg", n.id, ["ni", x.ip]), Itoa(x.port))];
    }
  }

  lemma NoRows(n: Nisd)
    ensures RowsOnly(n, [])
  {
  }

  /** nisdPopulator: the list prints the record. */
  method PopulateNisd(n: Nisd) returns (chgs: seq<Row>)
    requires Valid(n)
    ensures Prints("n_cfg", n.id, NisdTable(n), chgs)
  {
    hide FieldKey, Get, FieldName, FieldNamed, Itoa, NisdTable, Valid;
    var a := PopulateFields(n);
    var b := PopulateAddresses(n);
    chgs := a + b;
    forall sub | NisdTable(n)(sub).Some? ensures Row(FieldKey("n_cfg", n.id, sub), NisdTable(n)(sub).value) in chgs {
      TableRow(n, sub);
      if |sub| == 1 {
        assert Row(FieldKey("n_cfg", n.id, sub), NisdTable(n)(sub).value) in a;
      } else {
        assert Row(FieldKey("n_cfg", n.id, sub), NisdTable(n)(sub).value) in b;
      }
    }
  }

  /** Every row is that of a non-empty field or of an address. */
  lemma TableRow(n: Nisd, sub: seq<string>)
    requires Valid(n) && NisdTable(n)(sub).Some?
    ensures |sub| == 1 ==> exists f: Field :: sub == [FieldName(f)] && Get(n, f) != "" && NisdTable(n)(sub).value == Get(n, f)
    ensures |sub| != 1 ==> exists x :: x in n.netInfo && sub == ["ni", x.ip] && NisdTable(n)(sub).value == Itoa(x.port)
  {
    hide Get, FieldName, FieldNamed, Itoa;
    if |sub| == 1 {
      var f := FieldNamed(sub[0]).value;
      FieldNames(sub[0], f);
      assert sub == [FieldName(f)];
    } else {
      var x := NetworkInfo(sub[1], PortOf(n.netInfo, sub[1]).value);
      PortOfListed(n.netInfo, x);
      assert sub == ["ni", x.ip];
    }
  }

  lemma NetRow(n: Nisd, x: NetworkInfo)
    requires Valid(n) && x in n.netInfo
    ensures NisdTable(n)(["ni", x.ip]) == Some(Itoa(x.port))
  {
    PortOfListed(n.netInfo, x);
  }

  lemma FieldAt(f: Field) returns (j: nat)
    ensures j < |FIELDS| && FIELDS[j] == f
  {
    j := match f
      case Device => 0 case PeerPort => 1 case Hv => 2 case TotalSpace => 3 case AvailSpace => 4
      case Socket => 5 case Pdu => 6 case Rack => 7 case Partition => 8 case NetCnt => 9;
  }

  function ParseNisdField(n: Nisd, parts: seq<string>, value: string): Nisd {
    if |parts| == 3 then
      match FieldNamed(parts[2])
      case None => n
      case Some(f) => Set(n, f, value)
    else if |parts| > 3 && parts[2] == "ni" then n.(netInfo := n.netInfo + [NetworkInfo(parts[3], ToPort(value))])
    else n
  }

  /** What is read where no row says anything, and where a number cannot be read: empty texts and zero. */
  lemma ReadWithoutRows(n: Nisd, id: string, ip: string, v: string, f: Field)
    ensures Get(NewNisd(id), f) == (if f == PeerPort || f == TotalSpace || f == AvailSpace || f == NetCnt then Itoa(0) else "")
    ensures NewNisd(id).id == id && NewNisd(id).netInfo == []
    ensures ParseInt(v).None? ==> Set(n, PeerPort, v) == n.(peerPort := 0) && Set(n, TotalSpace, v) == n.(total := 0)
                                  && Set(n, AvailSpace, v) == n.(avail := 0) && Set(n, NetCnt, v) == n.(netCnt := 0)
    ensures ParseInt(v).None? ==> ParseNisdField(n, ["n_cfg", id, "ni", ip], v) == n.(netInfo := n.netInfo + [NetworkInfo(ip, 0)])
  {
    hide Itoa, ParseInt;
  }

  /** e is n as far as the rows in done tell. */
  ghost predicate NisdShows(n: Nisd, done: set<string>, e: Nisd) {
    e.id == n.id && (forall f: Field :: ShowsField(n, done, e, f))
    && Distinct(e.netInfo) && forall x :: ShowsAddress(n, done, e, x)
  }

  ghost predicate ShowsField(n: Nisd, done: set<string>, e: Nisd, f: Field) {
    Get(e, f) == if FieldKey("n_cfg", n.id, [FieldName(f)]) in done then Get(n, f) else Get(NewNisd(n.id), f)
  }

  ghost predicate ShowsAddress(n: Nisd, done: set<string>, e: Nisd, x: NetworkInfo) {
    x in e.netInfo <==> x in n.netInfo && FieldKey("n_cfg", n.id, ["ni", x.ip]) in done
  }

  lemma FieldStep(n: Nisd, done: set<string>, e: Nisd, g: Field)
    requires Valid(n) && NisdShows(n, done, e)
    ensures NisdShows(n, done + {FieldKey("n_cfg", n.id, [FieldName(g)])}, Set(e, g, Get(n, g)))
  {
    hide FieldKey, Get, Set, FieldName;
    var k, e' := FieldKey("n_cfg", n.id, [FieldName(g)]), Set(e, g, Get(n, g));
    SetGet(n, e, g, g);
    forall f: Field ensures ShowsField(n, done + {k}, e', f) {
      assert ShowsField(n, done, e, f);
      SetGet(n, e, g, f);
      FieldKeysDiffer(n, f, g);
    }
    forall x ensures ShowsAddress(n, done + {k}, e', x) {
      assert ShowsAddress(n, done, e, x);
      if x in n.netInfo { AddressIsNoField(n, g, x); }
    }
  }

  lemma FieldKeysDiffer(n: Nisd, f: Field, g: Field)
    requires Valid(n)
    ensures FieldKey("n_cfg", n.id, [FieldName(f)]) == FieldKey("n_cfg", n.id, [FieldName(g)]) <==> f == g
  {
    FieldNames(FieldName(f), f);
    FieldNames(FieldName(g), g);
    if FieldKey("n_cfg", n.id, [FieldName(f)]) == FieldKey("n_cfg", n.id, [FieldName(g)]) {
      FieldKeyInjective("n_cfg", n.id, [FieldName(f)], n.id, [FieldName(g)]);
      assert [FieldName(f)][0] == [FieldName(g)][0];
    }
  }

  lemma AddressIsNoField(n: Nisd, g: Field, x: NetworkInfo)
    requires Valid(n) && x in n.netInfo
    ensures FieldKey("n_cfg", n.id, ["ni", x.ip]) != FieldKey("n_cfg", n.id, [FieldName(g)])
  {
    FieldNames(FieldName(g), g);
    if FieldKey("n_cfg", n.id, ["ni", x.ip]) == FieldKey("n_cfg", n.id, [FieldName(g)]) {
      FieldKeyInjective("n_cfg", n.id, ["ni", x.ip], n.id, [FieldName(g)]);
    }
  }

  lemma AddressStep(n: Nisd, done: set<string>, e: Nisd, y: NetworkInfo)
    requires Valid(n) && NisdShows(n, done, e) && y in n.netInfo && FieldKey("n_cfg", n.id, ["ni", y.ip]) !in done
    ensures NisdShows(n, done + {FieldKey("n_cfg", n.id, ["ni", y.ip])}, e.(netInfo := e.netInfo + [y]))
  {
    hide FieldKey, FieldName;
    var k, e' := FieldKey("n_cfg", n.id, ["ni", y.ip]), e.(netInfo := e.netInfo + [y]);
    assert ShowsAddress(n, done, e, y);
    forall f: Field ensures ShowsField(n, done + {k}, e', f) {
      assert ShowsField(n, done, e, f);
      AddressIsNoField(n, f, y);
    }
    forall x ensures ShowsAddress(n, done + {k}, e', x) {
      assert ShowsAddress(n, done, e, x);
      if x in n.netInfo { AddressKeysDiffer(n, x, y); }
    }
  }

  lemma AddressKeysDiffer(n: Nisd, x: NetworkInfo, y: NetworkInfo)
    requires Valid(n) && x in n.netInfo && y in n.netInfo
    ensures FieldKey("n_cfg", n.id, ["ni", x.ip]) == FieldKey("n_cfg", n.id, ["ni", y.ip]) <==> x == y
  {
    if FieldKey("n_cfg", n.id, ["ni", x.ip]) == FieldKey("n_cfg", n.id, ["ni", y.ip]) {
      FieldKeyInjective("n_cfg", n.id, ["ni", x.ip], n.id, ["ni", y.ip]);
      assert ["ni", x.ip][1] == ["ni", y.ip][1];
      PortOfListed(n.netInfo, x);
      PortOfListed(n.netInfo, y);
    }
  }

  lemma NisdStep(rows: Rows, n: Nisd, done: set<string>, e: Nisd, k: string)
    requires Valid(n) && Holds(rows, "n_cfg", n.id, AllParts, NisdTable(n))
    requires k in rows && k !in done && About("n_cfg", 1, n.id, k) && NisdShows(n, done, e)
    ensures NisdShows(n, done + {k}, ParseNisdField(e, Parts(k), rows[k]))
  {
    hide FieldKey, Parts, About, NisdShows, Get, Set, FieldName, FieldNamed, ToPort, Itoa;
    var sub := RowFound(rows, "n_cfg", n.id, AllParts, NisdTable(n), k);
    assert Parts(k)[2] == sub[0];
    if |sub| == 1 {
      var g := FieldNamed(sub[0]).value;
      FieldNames(sub[0], g);
      assert sub == [FieldName(g)];
      FieldStep(n, done, e, g);
    } else {
      var y := NetworkInfo(sub[1], PortOf(n.netInfo, sub[1]).value);
      PortOfListed(n.netInfo, y);
      PortRoundTrip(y.port);
      assert sub == ["ni", y.ip] && Parts(k)[3] == sub[1];
      AddressStep(n, done, e, y);
    }
  }

  /** Equal up to the order of the addresses. */
  ghost predicate SameNisd(e: Nisd, n: Nisd) {
    e.(netInfo := n.netInfo) == n && Distinct(e.netInfo) && forall x :: x in e.netInfo <==> x in n.netInfo
  }

  lemma NisdComplete(rows: Rows, n: Nisd, e: Nisd)
    requires Valid(n) && Holds(rows, "n_cfg", n.id, AllParts, NisdTable(n)) && NisdShows(n, KeysAbout(rows.Keys, "n_cfg", 1, n.id), e)
    ensures SameNisd(e, n)
  {
    hide FieldKey, KeysAbout, Get, FieldName;
    var done := KeysAbout(rows.Keys, "n_cfg", 1, n.id);
    forall f: Field ensures Get(e, f) == Get(n, f) {
      assert ShowsField(n, done, e, f);
      if Get(n, f) == "" { EmptyByDefault(n, f); } else {
        FieldRow(n, f);
        RowAbout(rows, "n_cfg", n.id, AllParts, NisdTable(n), [FieldName(f)]);
      }
    }
    FieldsDetermine(e, n);
    forall x ensures x in e.netInfo <==> x in n.netInfo {
      assert ShowsAddress(n, done, e, x);
      if x in n.netInfo {
        NetRow(n, x);
        RowAbout(rows, "n_cfg", n.id, AllParts, NisdTable(n), ["ni", x.ip]);
      }
    }
  }

  lemma FieldRow(n: Nisd, f: Field)
    requires Get(n, f) != ""
    ensures NisdTable(n)([FieldName(f)]) == Some(Get(n, f))
  {
    FieldNames(FieldName(f), f);
  }

  lemma EmptyByDefault(n: Nisd, f: Field)
    requires Get(n, f) == ""
    ensures Get(NewNisd(n.id), f) == ""
  {
    hide Itoa;
  }

  lemma FieldsDetermine(e: Nisd, n: Nisd)
    requires e.id == n.id && forall f: Field :: Get(e, f) == Get(n, f)
    ensures e.(netInfo := n.netInfo) == n
  {
    hide Itoa;
    assert Get(e, Device) == Get(n, Device) && Get(e, Hv) == Get(n, Hv) && Get(e, Socket) == Get(n, Socket) && Get(e, Pdu) == Get(n, Pdu);
    assert Get(e, Rack) == Get(n, Rack) && Get(e, Partition) == Get(n, Partition);
    assert Get(e, PeerPort) == Get(n, PeerPort) && Get(e, TotalSpace) == Get(n, TotalSpace);
    assert Get(e, AvailSpace) == Get(n, AvailSpace) && Get(e, NetCnt) == Get(n, NetCnt);
    ItoaInjective(e.peerPort, n.peerPort);
    FormatIntInjective(e.total, n.total);
    FormatIntInjective(e.avail, n.avail);
    FormatIntInjective(e.netCnt, n.netCnt);
  }

  /** NISDs come back as they were stored, whatever order the rows come in. */
  method ParseNisds(rows: Rows, ghost recs: map<string, Nisd>) returns (ents: map<string, Nisd>)
    requires forall id | id in recs :: recs[id].id == id && Valid(recs[id]) && Holds(rows, "n_cfg", id, AllParts, NisdTable(recs[id]))
    ensures forall id | id in recs :: id in ents && SameNisd(ents[id], recs[id])
    ensures forall id :: id in ents <==> exists k :: k in rows && About("n_cfg", 1, id, k)
  {
    hide Parts, About, Holds, NisdShows, ParseNisdField, KeysAbout, FieldKey, SameNisd, Valid;
    forall id | id in recs ensures Starts(NisdShows, NewNisd, id, recs[id]) { NothingSeen(recs[id]); }
    forall id, done, e, k | id in recs ensures TakesRow(rows, "n_cfg", ParseNisdField, NisdShows, id, recs[id], done, e, k) {
      if k in rows && k !in done && About("n_cfg", 1, id, k) && NisdShows(recs[id], done, e) { NisdStep(rows, recs[id], done, e, k); }
    }
    forall id, e | id in recs ensures Completes(rows, "n_cfg", NisdShows, SameNisd, id, recs[id], e) {
      NisdRows(rows, recs[id]);
      if NisdShows(recs[id], KeysAbout(rows.Keys, "n_cfg", 1, id), e) { NisdComplete(rows, recs[id], e); }
    }
    ents := ParseRecords(rows, "n_cfg", NewNisd, ParseNisdField, recs, NisdShows, SameNisd);
  }

  lemma NisdRows(rows: Rows, n: Nisd)
    requires Holds(rows, "n_cfg", n.id, AllParts, NisdTable(n))
    ensures KeysAbout(rows.Keys, "n_cfg", 1, n.id) != {}
  {
    FieldRow(n, PeerPort);
    RowAbout(rows, "n_cfg", n.id, AllParts, NisdTable(n), [FieldName(PeerPort)]);
  }

  lemma NothingSeen(n: Nisd)
    ensures NisdShows(n, {}, NewNisd(n.id))
  {
  }

  /** Stored next to anything else and parsed back, a NISD is the same up to the order of addresses. */
  method RoundTrip(rows: Rows, n: Nisd) returns (e: Nisd)
    requires Valid(n) && forall k :: k in rows ==> !About("n_cfg", 1, n.id, k)
    ensures SameNisd(e, n)
  {
    hide About, Parts, NisdTable, Prints, Printable, Holds, Valid, SameNisd;
    var chgs := PopulateNisd(n);
    NisdPrintable(n);
    PrintedHolds(rows, "n_cfg", n.id, AllParts, NisdTable(n), chgs);
    var ents := ParseNisds(ApplyRows(rows, chgs), map[n.id := n]);
    e := ents[n.id];
  }
}
