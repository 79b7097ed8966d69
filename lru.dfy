/**
 * Positions in the bcachefs LRU btree (fs/bcachefs/lru.h). The inode field
 * of a position holds the LRU id above bit LRU_TIME_BITS (48) and the time
 * below it; the offset field holds the device bucket. The words are u64.
 */
module BcachefsLru {
  import opened Bits

  const U64: nat := 0x1_0000_0000_0000_0000
  /** 1 << LRU_TIME_BITS. */
  const TimeUnit: nat := 0x1_0000_0000_0000
  const LruTimeMax: nat := 0xFFFF_FFFF_FFFF
  /** BCH_LRU_FRAGMENTATION_START: the id of the fragmentation LRU. */
  const FragmentationStart: nat := 0xFFFF

  /** The two fields of a `struct bpos` these helpers use. */
  datatype Bpos = Bpos(inode: nat, offset: nat)

  datatype LruKind = Read | Fragmentation

  /** `lru_pos_id`: the inode field shifted right by LRU_TIME_BITS. */
  function PosId(p: Bpos): (r: nat)
    requires p.inode < U64
    ensures r < 0x1_0000
  {
    p.inode / TimeUnit
  }

  /** `lru_pos_time`: the inode field masked with `~(~0ULL << LRU_TIME_BITS)`, its low 48 bits. */
  function PosTime(p: Bpos): (r: nat)
    ensures r <= LruTimeMax
  {
    p.inode % TimeUnit
  }

  /**
   * `lru_pos`: the id shifted above the time and ORed with it, the bucket as
   * offset. The `EBUG_ON`s state the round trip, which holds whenever the
   * time is at most LRU_TIME_MAX.
   */
  function LruPos(lruId: nat, devBucket: nat, time: nat): (r: Bpos)
    requires lruId < 0x1_0000 && time < U64
    ensures r.inode < U64 && r.offset == devBucket
    ensures time <= LruTimeMax ==> PosId(r) == lruId && PosTime(r) == time
  {
    PackedInode(lruId, time);
    Bpos(Or(lruId * TimeUnit, time, 64), devBucket)
  }

  /** The OR is a u64, and for a time that fits below the id it is a sum. */
  lemma PackedInode(lruId: nat, time: nat)
    requires lruId < 0x1_0000
    ensures Or(lruId * TimeUnit, time, 64) < U64
    ensures time <= LruTimeMax ==> Or(lruId * TimeUnit, time, 64) == lruId * TimeUnit + time
    ensures time <= LruTimeMax ==> (lruId * TimeUnit + time) / TimeUnit == lruId
    ensures time <= LruTimeMax ==> (lruId * TimeUnit + time) % TimeUnit == time
  {
    Pow2Wide();
    OrBound(lruId * TimeUnit, time, 64);
    if time <= LruTimeMax {
      OrDisjoint(lruId, time, 48, 64);
      DivAdd(lruId, TimeUnit, time);
    }
  }

  /** The id and the time of any position recombine to its inode field, so `lru_pos` rebuilds it. */
  lemma PosSplit(p: Bpos)
    requires p.inode < U64
    ensures PosId(p) * TimeUnit + PosTime(p) == p.inode
    ensures LruPos(PosId(p), p.offset, PosTime(p)) == p
  {
    Pow2Wide();
    OrDisjoint(PosId(p), PosTime(p), 48, 64);
  }

  /** Above LRU_TIME_MAX the time spills into the id: the case the first `EBUG_ON` rejects. */
  lemma TimeOverflowSpills()
    ensures PosId(LruPos(0, 0, TimeUnit)) == 1 && PosTime(LruPos(0, 0, TimeUnit)) == 0
  {
    Pow2Wide();
    OrDisjoint(0, TimeUnit, 49, 64);
  }

  /** `lru_type`: the top 16 bits of the inode field, as a u16, select the LRU. */
  function LruType(inode: nat): (r: LruKind)
    requires inode < U64
    ensures r == Fragmentation <==> inode / TimeUnit == FragmentationStart
  {
    var lruId := (inode / TimeUnit) % 0x1_0000;
    if lruId == FragmentationStart then Fragmentation else Read
  }

  /** The type of an LRU entry is that of the id it was built with. */
  lemma LruTypeOfPos(lruId: nat, devBucket: nat, time: nat)
    requires lruId < 0x1_0000 && time <= LruTimeMax
    ensures LruType(LruPos(lruId, devBucket, time).inode) == (if lruId == FragmentationStart then Fragmentation else Read)
  {
  }
}
