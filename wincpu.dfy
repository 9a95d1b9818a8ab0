// The processor counts of the Windows back end (neo/sys/win32/win_cpu.cpp):
// CountSetBits over a processor mask, the walk of GetCPUInfo over the
// records GetLogicalProcessorInformation returns, and Sys_CPUCount and
// Sys_GetCPUCacheSize on top of it.
//
// The Windows call is outside the model: GetCPUInfo takes whether the
// entry point exists, whether the query fails for another reason than a
// short buffer, the records and returnLength as inputs.
module WinCpu {
  import opened Wrappers

  /** Bits of a ULONG_PTR on a 64-bit build; bit positions are DWORDs, as the loop's counter is. */
  const PTR_BITS: bv32 := 64
  /** sizeof( SYSTEM_LOGICAL_PROCESSOR_INFORMATION ) on a 64-bit build. */
  const RECORD_SIZE: nat := 32

  // ---------------------------------------------------------------------
  // CountSetBits

  /** The test of the loop: bitMask & bitTest with bitTest the bit at position p. */
  predicate BitSet(mask: bv64, p: bv32)
    requires p < PTR_BITS
  {
    mask & ((1 as bv64) << p) != 0
  }

  /** The set bits of mask at positions p and above. */
  function OnesFrom(mask: bv64, p: bv32): nat
    requires p <= PTR_BITS
    decreases PTR_BITS - p
  {
    if p == PTR_BITS then 0 else (if BitSet(mask, p) then 1 else 0) + OnesFrom(mask, p + 1)
  }

  /** The number of 1 bits of a mask. */
  function Ones(mask: bv64): nat {
    OnesFrom(mask, 0)
  }

  /** Halving the test bit moves it one position down. */
  lemma HalveTestBit(k: bv32)
    requires 1 <= k < PTR_BITS
    ensures ((1 as bv64) << k) / 2 == (1 as bv64) << (k - 1)
  {
  }

  /**
   * CountSetBits: bitTest starts at the top bit and is halved 64 times, so
   * each position is examined once, from the top down, and the count is the
   * number of 1 bits.
   */
  method CountSetBits(bitMask: bv64) returns (bitSetCount: nat)
    ensures bitSetCount == Ones(bitMask)
  {
    var LSHIFT: bv32 := PTR_BITS - 1;
    bitSetCount := 0;
    var bitTest: bv64 := (1 as bv64) << LSHIFT;
    var i: bv32 := 0;
    while i <= LSHIFT
      invariant i <= PTR_BITS
      invariant i < PTR_BITS ==> bitTest == (1 as bv64) << (LSHIFT - i)
      invariant bitSetCount == OnesFrom(bitMask, PTR_BITS - i)
      decreases PTR_BITS - i
    {
      ghost var p := LSHIFT - i;
      assert p + 1 == PTR_BITS - i && p == PTR_BITS - (i + 1);
      CountStep(bitMask, bitTest, p);
      bitSetCount := bitSetCount + (if bitMask & bitTest != 0 then 1 else 0);
      if i < LSHIFT {
        HalveTestBit(LSHIFT - i);
      }
      bitTest := bitTest / 2;
      i := i + 1;
    }
  }

  /** One turn of the loop: the test at bit p adds that bit to the count of the bits above it. */
  lemma CountStep(mask: bv64, bitTest: bv64, p: bv32)
    requires p < PTR_BITS && bitTest == (1 as bv64) << p
    ensures OnesFrom(mask, p) == (if mask & bitTest != 0 then 1 else 0) + OnesFrom(mask, p + 1)
  {
  }

  /** Whether position p holds a 1, seen through a shift down; an independent reading of BitSet. */
  lemma BitSetIsShiftedBit(mask: bv64, p: bv32)
    requires p < PTR_BITS
    ensures BitSet(mask, p) <==> (mask >> p) & 1 == 1
  {
  }

  /** An empty mask has no bits, a full one 64, and no mask more than 64. */
  lemma OnesBounds(mask: bv64)
    ensures Ones(0) == 0 && Ones(0xFFFF_FFFF_FFFF_FFFF) == 64 && Ones(mask) <= 64
  {
    EmptyFrom(0);
    FullFrom(0);
    AtMostFrom(mask, 0);
  }

  lemma {:induction false} EmptyFrom(p: bv32)
    requires p <= PTR_BITS
    ensures OnesFrom(0, p) == 0
    decreases PTR_BITS - p
  {
    if p < PTR_BITS {
      EmptyFrom(p + 1);
    }
  }

  lemma {:induction false} FullFrom(p: bv32)
    requires p <= PTR_BITS
    ensures OnesFrom(0xFFFF_FFFF_FFFF_FFFF, p) == (PTR_BITS - p) as int
    decreases PTR_BITS - p
  {
    if p < PTR_BITS {
      FullFrom(p + 1);
    }
  }

  lemma {:induction false} AtMostFrom(mask: bv64, p: bv32)
    requires p <= PTR_BITS
    ensures OnesFrom(mask, p) <= (PTR_BITS - p) as int
    decreases PTR_BITS - p
  {
    if p < PTR_BITS {
      AtMostFrom(mask, p + 1);
    }
  }

  /** A bit of a | b is set exactly when it is set in a or in b, and not in both when a & b is 0. */
  lemma BitOfUnion(a: bv64, b: bv64, p: bv32)
    requires p < PTR_BITS
    ensures BitSet(a | b, p) <==> BitSet(a, p) || BitSet(b, p)
    ensures a & b == 0 ==> !(BitSet(a, p) && BitSet(b, p))
  {
  }

  /** Masks with no bit in common: the bits of their union are counted once each. */
  lemma OnesOfDisjointUnion(a: bv64, b: bv64)
    requires a & b == 0
    ensures Ones(a | b) == Ones(a) + Ones(b)
  {
    UnionFrom(a, b, 0);
  }

  lemma {:induction false} UnionFrom(a: bv64, b: bv64, p: bv32)
    requires a & b == 0 && p <= PTR_BITS
    ensures OnesFrom(a | b, p) == OnesFrom(a, p) + OnesFrom(b, p)
    decreases PTR_BITS - p
  {
    if p < PTR_BITS {
      BitOfUnion(a, b, p);
      UnionFrom(a, b, p + 1);
    }
  }

  // ---------------------------------------------------------------------
  // The record walk of GetCPUInfo

  /** A CACHE_DESCRIPTOR: Level, Associativity, LineSize and Size. */
  datatype CacheDescriptor = CacheDescriptor(level: int, associativity: int, lineSize: int, size: int)

  /** A SYSTEM_LOGICAL_PROCESSOR_INFORMATION record by its Relationship. */
  datatype ProcessorRecord =
    | ProcessorCore(processorMask: bv64)
    | NumaNode
    | Cache(cache: CacheDescriptor)
    | ProcessorPackage
    | Unsupported(relationship: int)

  /** One entry of cpuInfo_t::cacheLevel. */
  datatype CacheInfo = CacheInfo(count: int, associativity: int, lineSize: int, size: int)

  const NO_CACHE: CacheInfo := CacheInfo(0, 0, 0, 0)

  /** cpuInfo_t's fields; cacheLevel has three entries. */
  datatype CpuInfoState = CpuInfoState(processorPackageCount: int, processorCoreCount: int, logicalProcessorCount: int,
                                       numaNodeCount: int, cacheLevel: seq<CacheInfo>)

  /** The cpuInfo_t the memset at the top of GetCPUInfo leaves. */
  const ZEROED: CpuInfoState := CpuInfoState(0, 0, 0, 0, [NO_CACHE, NO_CACHE, NO_CACHE])

  predicate WellFormed(info: CpuInfoState) {
    |info.cacheLevel| == 3
  }

  /**
   * The cache branch as written: a level entry whose count is positive is
   * counted up, any other has its details overwritten. Nothing ever makes
   * a count positive.
   */
  function CacheUpdateAsWritten(c: CacheInfo, d: CacheDescriptor): (r: CacheInfo)
    ensures (r.count > 0) == (c.count > 0)
    ensures c.count <= 0 ==> r.count == c.count
    ensures c.count <= 0 ==> r.associativity == d.associativity && r.lineSize == d.lineSize && r.size == d.size
  {
    if c.count > 0 then c.(count := c.count + 1)
    else c.(associativity := d.associativity, lineSize := d.lineSize, size := d.size)
  }

  /** The cache branch as evidently intended: every descriptor counted, the first one's details kept. */
  function CacheUpdate(c: CacheInfo, d: CacheDescriptor): (r: CacheInfo)
    ensures r.count == (if c.count > 0 then c.count else 0) + 1
    ensures c.count > 0 ==> r.(count := c.count) == c
    ensures c.count <= 0 ==> r.associativity == d.associativity && r.lineSize == d.lineSize && r.size == d.size
  {
    if c.count > 0 then c.(count := c.count + 1)
    else CacheInfo(1, d.associativity, d.lineSize, d.size)
  }

  /** One pass of the switch, with the cache branch given by `intended`. */
  function TallyRecordWith(info: CpuInfoState, r: ProcessorRecord, intended: bool): (t: CpuInfoState)
    requires WellFormed(info)
    ensures WellFormed(t)
  {
    match r
    case ProcessorCore(mask) =>
      info.(processorCoreCount := info.processorCoreCount + 1,
            logicalProcessorCount := info.logicalProcessorCount + Ones(mask))
    case NumaNode => info.(numaNodeCount := info.numaNodeCount + 1)
    case Cache(d) =>
      if 1 <= d.level <= 3 then
        var c := info.cacheLevel[d.level - 1];
        info.(cacheLevel := info.cacheLevel[d.level - 1 := if intended then CacheUpdate(c, d) else CacheUpdateAsWritten(c, d)])
      else info
    case ProcessorPackage => info.(processorPackageCount := info.processorPackageCount + 1)
    case Unsupported(_) => info
  }

  /** The records of a buffer the walk visits in order, with the corrected cache branch. */
  function Tally(info: CpuInfoState, rs: seq<ProcessorRecord>): (t: CpuInfoState)
    requires WellFormed(info)
    ensures WellFormed(t)
    decreases |rs|
  {
    if |rs| == 0 then info else TallyRecordWith(Tally(info, rs[..|rs| - 1]), rs[|rs| - 1], true)
  }

  /** The same walk with the cache branch as written. */
  function TallyAsWritten(info: CpuInfoState, rs: seq<ProcessorRecord>): (t: CpuInfoState)
    requires WellFormed(info)
    ensures WellFormed(t)
    decreases |rs|
  {
    if |rs| == 0 then info else TallyRecordWith(TallyAsWritten(info, rs[..|rs| - 1]), rs[|rs| - 1], false)
  }

  /** The number of records of a kind. */
  function CountOf(rs: seq<ProcessorRecord>, kind: ProcessorRecord -> bool): (n: nat)
    ensures n <= |rs|
    decreases |rs|
  {
    if |rs| == 0 then 0 else CountOf(rs[..|rs| - 1], kind) + (if kind(rs[|rs| - 1]) then 1 else 0)
  }

  /** The 1 bits of every core record's mask, summed. */
  function LogicalOf(rs: seq<ProcessorRecord>): nat
    decreases |rs|
  {
    if |rs| == 0 then 0
    else LogicalOf(rs[..|rs| - 1]) + (if rs[|rs| - 1].ProcessorCore? then Ones(rs[|rs| - 1].processorMask) else 0)
  }

  predicate IsCore(r: ProcessorRecord) { r.ProcessorCore? }
  predicate IsNuma(r: ProcessorRecord) { r.NumaNode? }
  predicate IsPackage(r: ProcessorRecord) { r.ProcessorPackage? }

  predicate CacheAt(r: ProcessorRecord, level: int) {
    r.Cache? && r.cache.level == level
  }

  /** The first cache descriptor of a level, if there is one. */
  function FirstCache(rs: seq<ProcessorRecord>, level: int): (d: Option<CacheDescriptor>)
    ensures d.Some? ==> exists k :: 0 <= k < |rs| && CacheAt(rs[k], level) && rs[k].cache == d.value
    decreases |rs|
  {
    if |rs| == 0 then None
    else
      var earlier := FirstCache(rs[..|rs| - 1], level);
      if earlier.Some? then earlier
      else if CacheAt(rs[|rs| - 1], level) then Some(rs[|rs| - 1].cache)
      else None
  }

  /** The last cache descriptor of a level, if there is one. */
  function LastCache(rs: seq<ProcessorRecord>, level: int): (d: Option<CacheDescriptor>)
    ensures d.Some? ==> exists k :: 0 <= k < |rs| && CacheAt(rs[k], level) && rs[k].cache == d.value
    decreases |rs|
  {
    if |rs| == 0 then None
    else if CacheAt(rs[|rs| - 1], level) then Some(rs[|rs| - 1].cache)
    else LastCache(rs[..|rs| - 1], level)
  }

  /** What the cacheLevel entry of a level should hold: the count of its descriptors and the first one's details. */
  function ExpectedCache(rs: seq<ProcessorRecord>, level: int): CacheInfo {
    var first := FirstCache(rs, level);
    var n := CountOf(rs, r => CacheAt(r, level));
    if first.Some? then CacheInfo(n, first.value.associativity, first.value.lineSize, first.value.size)
    else NO_CACHE
  }

  /**
   * From a zeroed cpuInfo_t: each core record adds one core and the 1 bits
   * of its mask, each NUMA record one node, each package record one package,
   * and each cache level counts its descriptors and keeps the first one's
   * details. Levels outside 1..3 and unsupported records change nothing.
   */
  lemma {:induction false} TallyCountsRecords(rs: seq<ProcessorRecord>)
    ensures var t := Tally(ZEROED, rs);
      t.processorCoreCount == CountOf(rs, IsCore)
      && t.numaNodeCount == CountOf(rs, IsNuma)
      && t.processorPackageCount == CountOf(rs, IsPackage)
      && t.logicalProcessorCount == LogicalOf(rs)
      && t.cacheLevel == [ExpectedCache(rs, 1), ExpectedCache(rs, 2), ExpectedCache(rs, 3)]
    decreases |rs|
  {
    if |rs| > 0 {
      TallyCountsRecords(rs[..|rs| - 1]);
      CacheStep(rs, 1);
      CacheStep(rs, 2);
      CacheStep(rs, 3);
    }
  }

  /** One record more: the level's entry follows its expected value. */
  lemma CacheStep(rs: seq<ProcessorRecord>, level: int)
    requires |rs| > 0 && 1 <= level <= 3
    ensures var c := ExpectedCache(rs[..|rs| - 1], level); var r := rs[|rs| - 1];
      ExpectedCache(rs, level) == if CacheAt(r, level) then CacheUpdate(c, r.cache) else c
  {
    var c := ExpectedCache(rs[..|rs| - 1], level);
    var first := FirstCache(rs[..|rs| - 1], level);
    assert first.None? <==> CountOf(rs[..|rs| - 1], r => CacheAt(r, level)) == 0 by {
      FirstCacheIffCounted(rs[..|rs| - 1], level);
    }
  }

  /** A level has a first descriptor exactly when it has at least one. */
  lemma {:induction false} FirstCacheIffCounted(rs: seq<ProcessorRecord>, level: int)
    ensures FirstCache(rs, level).None? <==> CountOf(rs, r => CacheAt(r, level)) == 0
    decreases |rs|
  {
    if |rs| > 0 {
      FirstCacheIffCounted(rs[..|rs| - 1], level);
    }
  }

  /**
   * As written, no cache level ever gets a positive count: a count starts
   * at 0 from the memset and is raised only when already positive. Each
   * entry keeps the details of the last descriptor of its level instead.
   */
  lemma {:induction false} CacheCountStaysZero(rs: seq<ProcessorRecord>)
    ensures forall l :: 0 <= l < 3 ==> TallyAsWritten(ZEROED, rs).cacheLevel[l].count == 0
    ensures forall l :: 0 <= l < 3 ==>
      var last := LastCache(rs, l + 1); var c := TallyAsWritten(ZEROED, rs).cacheLevel[l];
      last.Some? ==> c.associativity == last.value.associativity && c.lineSize == last.value.lineSize && c.size == last.value.size
    decreases |rs|
  {
    if |rs| > 0 {
      CacheCountStaysZero(rs[..|rs| - 1]);
    }
  }

  /** What the cacheLevel entry of a level holds as written: count 0 and the last descriptor's details. */
  function ExpectedCacheAsWritten(rs: seq<ProcessorRecord>, level: int): CacheInfo {
    var last := LastCache(rs, level);
    if last.Some? then CacheInfo(0, last.value.associativity, last.value.lineSize, last.value.size)
    else NO_CACHE
  }

  /**
   * The walk as written, in full: the core, NUMA, package and logical
   * counts are those of the corrected walk, and every cache level holds
   * count 0 with the last descriptor's details, or stays zeroed.
   */
  lemma {:induction false} TallyAsWrittenRecords(rs: seq<ProcessorRecord>)
    ensures var t := TallyAsWritten(ZEROED, rs);
      t.processorCoreCount == CountOf(rs, IsCore)
      && t.numaNodeCount == CountOf(rs, IsNuma)
      && t.processorPackageCount == CountOf(rs, IsPackage)
      && t.logicalProcessorCount == LogicalOf(rs)
      && t.cacheLevel == [ExpectedCacheAsWritten(rs, 1), ExpectedCacheAsWritten(rs, 2), ExpectedCacheAsWritten(rs, 3)]
    decreases |rs|
  {
    if |rs| > 0 {
      TallyAsWrittenRecords(rs[..|rs| - 1]);
      CacheStepAsWritten(rs, 1);
      CacheStepAsWritten(rs, 2);
      CacheStepAsWritten(rs, 3);
    }
  }

  /** One record more, as written: the level's entry follows ExpectedCacheAsWritten. */
  lemma CacheStepAsWritten(rs: seq<ProcessorRecord>, level: int)
    requires |rs| > 0 && 1 <= level <= 3
    ensures var c := ExpectedCacheAsWritten(rs[..|rs| - 1], level); var r := rs[|rs| - 1];
      ExpectedCacheAsWritten(rs, level) == if CacheAt(r, level) then CacheUpdateAsWritten(c, r.cache) else c
  {
  }

  /** One cache descriptor of level 1 is enough to tell the two apart: as written it is counted 0 times. */
  lemma OneCacheShowsIt(d: CacheDescriptor)
    requires d.level == 1
    ensures TallyAsWritten(ZEROED, [Cache(d)]).cacheLevel[0].count == 0
    ensures Tally(ZEROED, [Cache(d)]).cacheLevel[0].count == 1
  {
    assert [Cache(d)][..0] == [];
  }

  /** The result of GetLogicalProcessorInformation as GetCPUInfo finally sees it. */
  datatype ProcessorQuery = ProcessorQuery(supported: bool, failed: bool, records: seq<ProcessorRecord>, returnLength: nat)

  /** The query can be walked: the buffer holds every whole record of returnLength bytes. */
  predicate QueryFits(q: ProcessorQuery) {
    q.returnLength / RECORD_SIZE <= |q.records|
  }

  /**
   * What GetCPUInfo leaves in cpuInfo: zeroed on failure, otherwise the
   * tally of the whole records returned, with the cache branch as written
   * or, when intended holds, as corrected.
   */
  function CpuInfoOf(q: ProcessorQuery, intended: bool): (info: CpuInfoState)
    requires QueryFits(q)
    ensures WellFormed(info)
  {
    if !q.supported || q.failed then ZEROED
    else if intended then Tally(ZEROED, q.records[..q.returnLength / RECORD_SIZE])
    else TallyAsWritten(ZEROED, q.records[..q.returnLength / RECORD_SIZE])
  }

  /** The cpuInfo_t that GetCPUInfo fills by reference. */
  class CpuInfo {
    var processorPackageCount: int
    var processorCoreCount: int
    var logicalProcessorCount: int
    var numaNodeCount: int
    var cacheLevel: array<CacheInfo>

    function Snapshot(): CpuInfoState
      reads this, cacheLevel
    {
      CpuInfoState(processorPackageCount, processorCoreCount, logicalProcessorCount, numaNodeCount, cacheLevel[..])
    }

    /** An uninitialised cpuInfo_t on the stack: whatever the memory held. */
    constructor (stale: CpuInfoState)
      requires WellFormed(stale)
      ensures Snapshot() == stale && fresh(cacheLevel)
    {
      processorPackageCount := stale.processorPackageCount;
      processorCoreCount := stale.processorCoreCount;
      logicalProcessorCount := stale.logicalProcessorCount;
      numaNodeCount := stale.numaNodeCount;
      cacheLevel := new CacheInfo[3](l requires 0 <= l < 3 => stale.cacheLevel[l]);
      new;
      assert cacheLevel[..] == stale.cacheLevel;
    }

    /**
     * GetCPUInfo: cpuInfo zeroed; false if the entry point is missing or the
     * query fails; otherwise the records of returnLength bytes walked in
     * order and true. The cache branch runs as written unless intended.
     */
    method GetCPUInfo(q: ProcessorQuery, intended: bool) returns (ok: bool)
      requires cacheLevel.Length == 3 && QueryFits(q)
      modifies this, cacheLevel
      ensures cacheLevel == old(cacheLevel)
      ensures ok == (q.supported && !q.failed) && Snapshot() == CpuInfoOf(q, intended)
    {
      Clear();
      if !q.supported || q.failed {
        return false;
      }
      var byteOffset := 0;
      var k := 0;
      while byteOffset + RECORD_SIZE <= q.returnLength
        invariant byteOffset == k * RECORD_SIZE && byteOffset <= q.returnLength && k <= q.returnLength / RECORD_SIZE
        invariant cacheLevel == old(cacheLevel) && cacheLevel.Length == 3
        invariant Snapshot() == if intended then Tally(ZEROED, q.records[..k]) else TallyAsWritten(ZEROED, q.records[..k])
      {
        TallyOne(q.records[k], intended);
        assert q.records[..k + 1][..k] == q.records[..k];
        byteOffset := byteOffset + RECORD_SIZE;
        k := k + 1;
      }
      assert k == q.returnLength / RECORD_SIZE;
      return true;
    }

    /** The memset: every count and cache entry back to 0. */
    method Clear()
      requires cacheLevel.Length == 3
      modifies this, cacheLevel
      ensures cacheLevel == old(cacheLevel) && Snapshot() == ZEROED
    {
      processorPackageCount, processorCoreCount, logicalProcessorCount, numaNodeCount := 0, 0, 0, 0;
      cacheLevel[0], cacheLevel[1], cacheLevel[2] := NO_CACHE, NO_CACHE, NO_CACHE;
      assert cacheLevel[..] == [NO_CACHE, NO_CACHE, NO_CACHE];
    }

    /** One pass of the switch over ptr->Relationship, with the cache branch as written unless intended. */
    method TallyOne(r: ProcessorRecord, intended: bool)
      requires cacheLevel.Length == 3
      modifies this, cacheLevel
      ensures cacheLevel == old(cacheLevel)
      ensures Snapshot() == TallyRecordWith(old(Snapshot()), r, intended)
    {
      match r
      case ProcessorCore(mask) =>
        processorCoreCount := processorCoreCount + 1;
        var bits := CountSetBits(mask);
        logicalProcessorCount := logicalProcessorCount + bits;
      case NumaNode =>
        numaNodeCount := numaNodeCount + 1;
      case Cache(d) =>
        if d.level >= 1 && d.level <= 3 {
          var level := d.level - 1;
          if intended {
            cacheLevel[level] := CacheUpdate(cacheLevel[level], d);
          } else {
            cacheLevel[level] := CacheUpdateAsWritten(cacheLevel[level], d);
          }
        }
      case ProcessorPackage =>
        processorPackageCount := processorPackageCount + 1;
      case Unsupported(_) =>
    }
  }

  /** Sys_CPUCount: logical processors, cores and packages of the query, 0 each when it fails. */
  method CPUCount(q: ProcessorQuery, stale: CpuInfoState)
    returns (numLogicalCPUCores: int, numPhysicalCPUCores: int, numCPUPackages: int)
    requires QueryFits(q) && WellFormed(stale)
    ensures var rs := q.records[..q.returnLength / RECORD_SIZE];
      if q.supported && !q.failed then
        numPhysicalCPUCores == CountOf(rs, IsCore) && numLogicalCPUCores == LogicalOf(rs)
        && numCPUPackages == CountOf(rs, IsPackage)
      else numLogicalCPUCores == 0 && numPhysicalCPUCores == 0 && numCPUPackages == 0
  {
    var cpuInfo := new CpuInfo(stale);
    var _ := cpuInfo.GetCPUInfo(q, false);
    TallyAsWrittenRecords(q.records[..q.returnLength / RECORD_SIZE]);
    numPhysicalCPUCores := cpuInfo.processorCoreCount;
    numLogicalCPUCores := cpuInfo.logicalProcessorCount;
    numCPUPackages := cpuInfo.processorPackageCount;
  }

  /**
   * Sys_GetCPUCacheSize: the count, size and line size of cache level 1, 2
   * or 3. As written the count is 0 and the details are the last
   * descriptor's; when intended, the count of descriptors and the first
   * one's details.
   */
  method GetCPUCacheSize(level: int, q: ProcessorQuery, stale: CpuInfoState, intended: bool)
    returns (count: int, size: int, lineSize: int)
    requires 1 <= level <= 3 && QueryFits(q) && WellFormed(stale)
    ensures var rs := q.records[..q.returnLength / RECORD_SIZE];
      var c := if !q.supported || q.failed then NO_CACHE
               else if intended then ExpectedCache(rs, level) else ExpectedCacheAsWritten(rs, level);
      count == c.count && size == c.size && lineSize == c.lineSize
  {
    var cpuInfo := new CpuInfo(stale);
    var _ := cpuInfo.GetCPUInfo(q, intended);
    if intended {
      TallyCountsRecords(q.records[..q.returnLength / RECORD_SIZE]);
    } else {
      TallyAsWrittenRecords(q.records[..q.returnLength / RECORD_SIZE]);
    }
    count := cpuInfo.cacheLevel[level - 1].count;
    size := cpuInfo.cacheLevel[level - 1].size;
    lineSize := cpuInfo.cacheLevel[level - 1].lineSize;
  }
}
