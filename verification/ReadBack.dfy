/** The configuration that a create stores, read back through the record parser
    (controlplane/ctlplanefuncs/server/populate.go, lines 282-313,
    controlplane/ctlplanefuncs/server/parser.go, lines 389-443). */
module ReadBack {
  import opened Changes
  import opened Finite
  import opened Lib
  import opened Store
  import opened Ledger
  import T = Text
  import Parsing
  import RecordRows
  import Codec = VdevCodec

  /** The row of the text form in which a field of the configuration is kept. */
  function FieldFor(f: CfgField): Codec.Field {
    match f
    case Size => Codec.Size
    case NumChunks => Codec.NumChunks
    case DataBlks => Codec.DataBlks
    case ParityBlks => Codec.ParityBlks
    case Mode => Codec.Mode
    case Name => Codec.Name
    case FdType => Codec.FdType
    case FdId => Codec.FdId
    case Pfs => Codec.Pfs
  }

  function RowKey(id: Id, f: CfgField): string { Codec.CfgKey(id.text, FieldFor(f)) }

  /** A value as text: numbers in decimal, names and ids as they are. */
  function Printed(x: Val): string {
    match x
    case Num(n) => T.FormatInt(n)
    case Text(s) => s
    case Ref(id) => id.text
    case _ => ""
  }

  /** Among the text rows the configuration rows of vdev id are those of the store. */
  ghost predicate Renders(rows: Parsing.Rows, s: KV, id: Id) {
    && (forall f: CfgField :: RendersField(rows, s, id, f))
    && (forall k :: k in rows && Parsing.About("v", 1, id.text, k) && Codec.CfgParts(T.Parts(k)) ==> exists f: CfgField :: k == RowKey(id, f))
  }

  ghost predicate RendersField(rows: Parsing.Rows, s: KV, id: Id, f: CfgField) {
    if VdevCfg(id, f) in s then IsAt(rows, RowKey(id, f), Printed(s[VdevCfg(id, f)])) else RowKey(id, f) !in rows
  }

  /** The record of a request. */
  ghost function AsRecord(r: VdevReq, pfs: Id): Codec.Vdev {
    var v := r.vdev;
    Codec.Vdev(v.id.text, v.size, v.chunkCnt, v.dataBlkCnt, v.parityBlkCnt, ModeNumber(v.redundancy), v.name, FDName(r.filter.fdType),
               r.filter.id.text, pfs.text, 0, "")
  }

  lemma FieldOfRecord(r: VdevReq, pfs: Id, f: CfgField)
    ensures Codec.Get(AsRecord(r, pfs), FieldFor(f)) == match CfgOf(r, pfs, f) case None => "" case Some(x) => Printed(x)
    ensures CfgOf(r, pfs, f).Some? ==> Codec.Get(AsRecord(r, pfs), FieldFor(f)) != ""
  {
  }

  lemma FieldFrom(g: Codec.Field) returns (f: CfgField)
    ensures FieldFor(f) == g
  {
    f := match g
      case Size => Size case NumChunks => NumChunks case DataBlks => DataBlks case ParityBlks => ParityBlks case Mode => Mode
      case Name => Name case FdType => FdType case FdId => FdId case Pfs => Pfs;
  }

  lemma RowsHoldRecord(rows: Parsing.Rows, s: KV, r: VdevReq, pfs: Id)
    requires ConfiguresVdev(s, r, pfs) && Renders(rows, s, r.vdev.id) && Codec.Valid(AsRecord(r, pfs))
    ensures RecordRows.Holds(rows, "v", r.vdev.id.text, Codec.CfgParts, Codec.VdevTable(AsRecord(r, pfs)))
  {
    hide CfgOf, Codec.Get, FieldFor, Printed, Codec.CfgParts, AsRecord, T.Parts, RecordRows.FieldKey, Codec.FieldName, Codec.FieldNamed;
    var id, rec := r.vdev.id, AsRecord(r, pfs);
    RecordId(r, pfs);
    Codec.VdevPrintable(rec);
    forall f: CfgField ensures Configured(s, r, pfs, f) && RendersField(rows, s, id, f) {}
    forall k | k in rows && Parsing.About("v", 1, id.text, k) && Codec.CfgParts(T.Parts(k))
      ensures exists sub :: RecordRows.IsRow("v", id.text, Codec.VdevTable(rec), sub, RecordRows.Row(k, rows[k]))
    {
      var f: CfgField :| k == RowKey(id, f);
      FieldIsRow(rows, s, r, pfs, f);
    }
    forall sub | Codec.VdevTable(rec)(sub).Some?
      ensures RecordRows.FieldKey("v", id.text, sub) in rows && rows[RecordRows.FieldKey("v", id.text, sub)] == Codec.VdevTable(rec)(sub).value
    {
      var g := Codec.TableSub(rec, sub);
      var f := FieldFrom(g);
      FieldInRows(rows, s, r, pfs, f);
      assert sub == ["cfg", Codec.FieldName(g)];
    }
  }

  lemma RecordId(r: VdevReq, pfs: Id)
    ensures AsRecord(r, pfs).id == r.vdev.id.text
  {
  }

  lemma FieldIsRow(rows: Parsing.Rows, s: KV, r: VdevReq, pfs: Id, f: CfgField)
    requires Configured(s, r, pfs, f) && RendersField(rows, s, r.vdev.id, f) && RowKey(r.vdev.id, f) in rows
    ensures var k, rec := RowKey(r.vdev.id, f), AsRecord(r, pfs);
            RecordRows.IsRow("v", r.vdev.id.text, Codec.VdevTable(rec), ["cfg", Codec.FieldName(FieldFor(f))], RecordRows.Row(k, rows[k]))
  {
    hide CfgOf, Codec.Get, FieldFor, Printed, AsRecord, RecordRows.FieldKey, Codec.FieldName, Codec.FieldNamed, Codec.VdevTable;
    FieldOfRecord(r, pfs, f);
    Codec.TableAt(AsRecord(r, pfs), FieldFor(f));
  }

  lemma FieldInRows(rows: Parsing.Rows, s: KV, r: VdevReq, pfs: Id, f: CfgField)
    requires Configured(s, r, pfs, f) && RendersField(rows, s, r.vdev.id, f) && Codec.Get(AsRecord(r, pfs), FieldFor(f)) != ""
    ensures IsAt(rows, RecordRows.FieldKey("v", r.vdev.id.text, ["cfg", Codec.FieldName(FieldFor(f))]), Codec.Get(AsRecord(r, pfs), FieldFor(f)))
  {
    hide CfgOf, Codec.Get, FieldFor, Printed, AsRecord, RecordRows.FieldKey, Codec.FieldName;
    FieldOfRecord(r, pfs, f);
  }

  /** From the text of its rows, in whatever order and among whatever placement and mount rows, a created
      vdev is read back with the sizes, counts, mode, name, failure domain and PFS it was created with. */
  method ReadVdev(rows: Parsing.Rows, id: Id, ghost s: KV, ghost r: VdevReq, ghost pfs: Id) returns (e: Codec.Vdev)
    requires id == r.vdev.id && ConfiguresVdev(s, r, pfs) && Renders(rows, s, id)
    requires T.PlainId(r.vdev.id.text) && T.Int64(r.vdev.size) && r.vdev.chunkCnt < T.UINT32
    ensures e.id == r.vdev.id.text && e.size == r.vdev.size && e.chunkCnt == r.vdev.chunkCnt
    ensures e.dataBlkCnt == r.vdev.dataBlkCnt && e.parityBlkCnt == r.vdev.parityBlkCnt && e.name == r.vdev.name
    ensures e.redundancy == match r.vdev.redundancy case RMReplica => 0 case RMEC32K => 1 case RMEC64K => 2 case RMEC128K => 3
    ensures e.filterType == (match r.filter.fdType case FD_ANY => "any" case FD_PDU => "pdu" case FD_RACK => "rack" case FD_HV => "hv"
                                                   case FD_DEVICE => "device" case FD_PARTITION => "partition")
    ensures e.filterId == r.filter.id.text && e.pfsId == pfs.text
  {
    hide Renders, ConfiguresVdev, T.Parts, Codec.CfgParts, Parsing.About, RecordRows.Holds, Codec.VdevTable;
    ghost var rec := AsRecord(r, pfs);
    RowsHoldRecord(rows, s, r, pfs);
    var ents := Codec.ParseVdevs(rows, map[id.text := rec]);
    e := ents[id.text];
  }
}
