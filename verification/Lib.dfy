/** Shared types of the control plane (controlplane/ctlplanefuncs/lib). */
module Lib {
  import opened Changes
  import opened Finite

  const CHUNK_SIZE: int := 8 * 1024 * 1024 * 1024
  const PDU_IDX := 0
  const DEVICE_IDX := 3
  const PARTITION_IDX := 4
  const FD_MAX := 5

  datatype FD = FD_ANY | FD_PDU | FD_RACK | FD_HV | FD_DEVICE | FD_PARTITION

  function GetFDIdx(t: FD): int {
    match t
    case FD_ANY => -1
    case FD_PDU => 0
    case FD_RACK => 1
    case FD_HV => 2
    case FD_DEVICE => 3
    case FD_PARTITION => 4
  }

  function FDName(t: FD): string {
    match t
    case FD_ANY => "any"
    case FD_PDU => "pdu"
    case FD_RACK => "rack"
    case FD_HV => "hv"
    case FD_DEVICE => "device"
    case FD_PARTITION => "partition"
  }

  datatype RedundancyMode = RMReplica | RMEC32K | RMEC64K | RMEC128K {
    predicate IsEC() { !RMReplica? }
  }

  function ModeNumber(r: RedundancyMode): nat {
    match r
    case RMReplica => 0
    case RMEC32K => 1
    case RMEC64K => 2
    case RMEC128K => 3
  }

  datatype ChunkType = Replica | Data | Parity

  /** Replica and data blocks share one key prefix. */
  datatype Prefix = D | P

  function ChunkPrefix(t: ChunkType): Prefix {
    if t == Parity then P else D
  }

  type byte = x: int | 0 <= x < 256

  datatype VdevConfig = VdevConfig(id: Id, name: string, size: int, redundancy: RedundancyMode, chunkCnt: nat,
                                   dataBlkCnt: byte, parityBlkCnt: byte, pfsId: Id, pfsName: string)
  {
    /** The sum of the two counts is an 8-bit sum in the source and wraps. */
    function TotalRedundancyBlocksPerChunk(): (r: nat) {
      if redundancy.RMReplica? then dataBlkCnt else (dataBlkCnt + parityBlkCnt) % 256
    }

    /** The type and sequence number of block i of a chunk. */
    function BlockOf(i: nat): (ChunkType, nat) {
      if redundancy.RMReplica? then (Replica, i)
      else if i < dataBlkCnt then (Data, i)
      else (Parity, i - dataBlkCnt)
    }
  }

  /** A filter without an entity has the empty id. */
  datatype Filter = Filter(id: Id, fdType: FD)

  const NO_ID := Id("")

  datatype VdevReq = VdevReq(vdev: VdevConfig, filter: Filter)

  // ----- chunk count -----

  /** Division and remainder that truncate toward zero. */
  function Quot(a: int, b: int): int requires b > 0 { if a >= 0 then a / b else -((-a) / b) }
  function Rem(a: int, b: int): int requires b > 0 { a - b * Quot(a, b) }

  function Count8GBChunks(size: int): int {
    if Rem(size, CHUNK_SIZE) == 0 then Quot(size, CHUNK_SIZE) else Quot(size, CHUNK_SIZE) + 1
  }

  /** The chunk count is the least number of chunks that hold the size exactly when the size is
      not a negative number with a remainder; for those it is one (or more) too large. */
  lemma Count8GBChunksIsLeastCover(size: int)
    ensures var c := Count8GBChunks(size);
            size <= c * CHUNK_SIZE
            && ((c - 1) * CHUNK_SIZE < size <==> 0 <= size || Rem(size, CHUNK_SIZE) == 0)
  {
    if size < 0 { assert (-size) / CHUNK_SIZE * CHUNK_SIZE <= -size < (-size) / CHUNK_SIZE * CHUNK_SIZE + CHUNK_SIZE; }
  }

  // ----- the key-value store -----

  datatype CfgField = Size | NumChunks | DataBlks | ParityBlks | Mode | Name | FdType | FdId | Pfs

  datatype MountField = MountCounter | LastUpdated

  datatype Key =
    | NisdConf(nisd: Id)                               // n_cfg/<nisd>/{p,r,hv,d,pt,ts}
    | NisdAvail(nisd: Id)                              // n_cfg/<nisd>/as
    | VdevCfg(vdev: Id, field: CfgField)               // v/<vdev>/cfg/<field>
    | VdevMount(vdev: Id, mount: MountField)           // v/<vdev>/m/<mount>
    | ChunkKey(vdev: Id, chunk: nat, prefix: Prefix, seqNo: nat)  // v/<vdev>/c/<chunk>/<prefix>.<seqNo>
    | NisdVdev(nisd: Id, vdev: Id)                     // n/<nisd>/<vdev>
    | VName(name: string)                              // vname/<name>
    | PfsMember(pfs: Id, vdev: Id)                 // pfs/<pfs>/v/<vdev>
    | PfsOffset(pfs: Id)                           // pfs/<pfs>/offset
    | PfsByName(name: string)                          // pfs/<name>
    | PfsTitle(pfs: Id)                            // pfs/<pfs>/nm
    | OwnsVdev(user: Id, vdev: Id)                     // /u/<user>/v/<vdev>
    | OwnsName(user: Id, name: string)                 // /u/<user>/vname/<name>

  datatype Val =
    | Text(s: string)
    | Ref(id: Id)
    | Num(n: int)
    | Conf(fdom: seq<Id>, total: int)
    | Where(prefix: Prefix, seqNo: nat, chunk: nat)

  type StoreChange = Change<Key, Val>
}
