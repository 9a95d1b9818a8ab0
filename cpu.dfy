// Processor identification and the SSE control register (neo/sys/common/cpu.cpp):
// the cpuid_t flags Sys_GetProcessorId composes and caches, and the
// rounding, denormals-are-zero and flush-to-zero updates of MXCSR.
//
// The CPUID instruction, the SDL feature probes and the x87 environment
// are inputs or fields; MXCSR is a 32-bit field read and written whole.
module CpuFeatures {
  import opened Wrappers

  // cpuid_t flags (declared in sys_public.h, which is not part of this model)
  const CPUID_NONE: bv32 := 0x0
  const CPUID_UNSUPPORTED: bv32 := 0x1
  const CPUID_GENERIC: bv32 := 0x2
  const CPUID_INTEL: bv32 := 0x4
  const CPUID_AMD: bv32 := 0x8
  const CPUID_MMX: bv32 := 0x10
  const CPUID_3DNOW: bv32 := 0x20
  const CPUID_SSE: bv32 := 0x40
  const CPUID_SSE2: bv32 := 0x80
  const CPUID_SSE3: bv32 := 0x100
  const CPUID_HTT: bv32 := 0x1000
  const CPUID_CMOV: bv32 := 0x2000
  const CPUID_FTZ: bv32 := 0x4000
  const CPUID_DAZ: bv32 := 0x8000

  /** flags_t: CPUID.1:EDX bit 15 (CMOV) and CPUID.80000001h:EDX bit 31 (3DNow!). */
  const BIT_CMOV: bv32 := 0x8000
  const BIT_3DNOW: bv32 := 0x8000_0000

  // Leaf numbers and the leaf counts nIds and nExIds are uint32_t values,
  // held as ints: they are only compared and counted through.

  /** CPU_VENDOR_BIT and CPU_BRAND_BIT: the leaves GetCPUInfo asks for the highest standard and extended leaf. */
  const CPU_VENDOR_BIT: int := 0x0
  const CPU_BRAND_BIT: int := 0x8000_0000
  /** The extended leaf Has3DNow queries. */
  const EXT_FEATURES_LEAF: int := 0x8000_0001
  /** The last brand-string leaf: the brand loop runs when it is available. */
  const BRAND_LAST_LEAF: int := 0x8000_0004

  /** _MM_DENORMALS_ZERO_ON and _MM_FLUSH_ZERO_ON: MXCSR bits 6 and 15. */
  const DENORMALS_ZERO_ON: bv32 := 0x40
  const FLUSH_ZERO_ON: bv32 := 0x8000
  /** The MXCSR rounding-control field, bits 13 and 14: 3 << 13. */
  const ROUNDING_MASK: bv32 := 0x6000

  /** The sizes of the static vendor and brand buffers. */
  const VENDOR_SIZE: int := 32
  const BRAND_SIZE: int := 64

  /** The four registers one CPUID query writes into cpui. */
  datatype Regs = Regs(eax: bv32, ebx: bv32, ecx: bv32, edx: bv32)

  /** The answers of SDL_HasMMX, SDL_HasSSE, SDL_HasSSE2 and SDL_HasSSE3. */
  datatype SdlFeatures = SdlFeatures(mmx: bool, sse: bool, sse2: bool, sse3: bool)

  /** The x87 rounding modes, FE_TONEAREST, FE_DOWNWARD, FE_UPWARD and FE_TOWARDZERO. */
  datatype RoundingMode = ToNearest | Downward | Upward | TowardZero

  /** roundingModes in Sys_FPU_SetRounding. */
  const ROUNDING_MODES: seq<RoundingMode> := [ToNearest, Downward, Upward, TowardZero]

  /** The text of a char buffer as strcmp reads it: up to the first NUL. */
  function CString(buf: seq<char>): (s: seq<char>)
    ensures |s| <= |buf| && s == buf[..|s|] && '\0' !in s
    ensures |s| < |buf| ==> buf[|s|] == '\0'
  {
    if |buf| == 0 || buf[0] == '\0' then [] else [buf[0]] + CString(buf[1..])
  }

  /** n NUL chars, as a memset or an initialiser leaves them. */
  function Nuls(n: nat): (s: seq<char>)
    ensures |s| == n && forall k :: 0 <= k < n ==> s[k] == '\0'
  {
    seq(n, _ => '\0')
  }

  /** A string padded with NULs to the vendor buffer's size. */
  function Padded(s: seq<char>): (buf: seq<char>)
    requires |s| <= VENDOR_SIZE
    ensures |buf| == VENDOR_SIZE && buf[..|s|] == s && forall k :: |s| <= k < VENDOR_SIZE ==> buf[k] == '\0'
  {
    s + Nuls(VENDOR_SIZE - |s|)
  }

  /** The vendor and brand buffers as their initialisers leave them: "Generic". */
  const INITIAL_VENDOR: seq<char> := Padded("Generic")
  const INITIAL_BRAND: seq<char> := "Generic" + Nuls(BRAND_SIZE - 7)

  /** The vendor check: AuthenticAMD, GenuineIntel, or anything else. */
  function VendorFlag(vendor: seq<char>): (flag: bv32)
    ensures flag in {CPUID_AMD, CPUID_INTEL, CPUID_GENERIC}
    ensures flag == CPUID_AMD <==> vendor == "AuthenticAMD"
    ensures flag == CPUID_INTEL <==> vendor == "GenuineIntel"
  {
    if vendor == "AuthenticAMD" then CPUID_AMD
    else if vendor == "GenuineIntel" then CPUID_INTEL
    else CPUID_GENERIC
  }

  /** `if ( test ) cpuid |= flag;` */
  function AddIf(id: bv32, test: bool, flag: bv32): bv32 {
    if test then id | flag else id
  }

  /**
   * The cpuid_t Sys_GetProcessorId composes: the vendor flag, then MMX,
   * 3DNow!, SSE with FTZ, SSE2, SSE3, CMOV and DAZ OR-ed in as found.
   */
  function ProcessorIdOf(vendor: seq<char>, f: SdlFeatures, has3DNow: bool, hasCmov: bool, hasDaz: bool): bv32 {
    var id := AddIf(VendorFlag(vendor), f.mmx, CPUID_MMX);
    var id := AddIf(id, has3DNow, CPUID_3DNOW);
    var id := AddIf(id, f.sse, CPUID_SSE | CPUID_FTZ);
    var id := AddIf(id, f.sse2, CPUID_SSE2);
    var id := AddIf(id, f.sse3, CPUID_SSE3);
    var id := AddIf(id, hasCmov, CPUID_CMOV);
    AddIf(id, hasDaz, CPUID_DAZ)
  }

  /** Whether a flag is set in a cpuid_t. */
  predicate Has(id: bv32, flag: bv32) {
    id & flag == flag
  }

  /**
   * Each flag of the composed id is there exactly when its test holds:
   * one vendor flag, SSE and FTZ together, and nothing the tests did not
   * add; the result is never CPUID_NONE, so the cache takes it.
   */
  lemma ProcessorIdFlags(vendor: seq<char>, f: SdlFeatures, has3DNow: bool, hasCmov: bool, hasDaz: bool)
    ensures var id := ProcessorIdOf(vendor, f, has3DNow, hasCmov, hasDaz);
      id != CPUID_NONE && !Has(id, CPUID_UNSUPPORTED) && !Has(id, CPUID_HTT)
      && (Has(id, CPUID_AMD) <==> vendor == "AuthenticAMD") && (Has(id, CPUID_INTEL) <==> vendor == "GenuineIntel")
      && (Has(id, CPUID_GENERIC) <==> vendor != "AuthenticAMD" && vendor != "GenuineIntel")
      && (Has(id, CPUID_MMX) <==> f.mmx) && (Has(id, CPUID_3DNOW) <==> has3DNow)
      && (Has(id, CPUID_SSE) <==> f.sse) && (Has(id, CPUID_FTZ) <==> f.sse)
      && (Has(id, CPUID_SSE2) <==> f.sse2) && (Has(id, CPUID_SSE3) <==> f.sse3)
      && (Has(id, CPUID_CMOV) <==> hasCmov) && (Has(id, CPUID_DAZ) <==> hasDaz)
  {
    var v := VendorFlag(vendor);
    assert v == CPUID_AMD || v == CPUID_INTEL || v == CPUID_GENERIC;
  }

  /** Adding a feature never takes a flag away: the flags only accumulate. */
  lemma FeaturesOnlyAdd(vendor: seq<char>, f: SdlFeatures, g: SdlFeatures, has3DNow: bool, hasCmov: bool, hasDaz: bool)
    requires (f.mmx ==> g.mmx) && (f.sse ==> g.sse) && (f.sse2 ==> g.sse2) && (f.sse3 ==> g.sse3)
    ensures var a := ProcessorIdOf(vendor, f, has3DNow, hasCmov, hasDaz);
      a & ProcessorIdOf(vendor, g, has3DNow, hasCmov, hasDaz) == a
  {
    ProcessorIdFlags(vendor, f, has3DNow, hasCmov, hasDaz);
    ProcessorIdFlags(vendor, g, has3DNow, hasCmov, hasDaz);
  }

  /** CMOV as HasCMOV tests it: bit 15 of the EDX value held in cpui. */
  predicate CmovBit(edx: bv32) {
    edx & BIT_CMOV != 0
  }

  /** HasDAZ: bit 6 of the denormals-zero mode, that is of MXCSR. */
  predicate DazOn(mxcsr: bv32) {
    mxcsr & DENORMALS_ZERO_ON == DENORMALS_ZERO_ON
  }

  /** The flush-to-zero mode is on: MXCSR bit 15. */
  predicate FtzOn(mxcsr: bv32) {
    mxcsr & FLUSH_ZERO_ON == FLUSH_ZERO_ON
  }

  /** The rounding-control field of MXCSR. */
  function RoundingField(mxcsr: bv32): bv32 {
    (mxcsr & ROUNDING_MASK) >> 13
  }

  /** How the SSE unit reads the rounding-control field: 0 nearest, 1 down, 2 up, 3 toward zero. */
  function SseRounding(field: bv32): RoundingMode {
    if field == 0 then ToNearest else if field == 1 then Downward else if field == 2 then Upward else TowardZero
  }

  /**
   * As written, GetCPUInfo is never called: the vendor buffer keeps
   * "Generic", cpui stays zero and nExIds 0. Whatever the processor,
   * Sys_GetProcessorId reports it as generic without 3DNow! or CMOV.
   */
  function ProcessorIdAsWritten(f: SdlFeatures, mxcsr: bv32): (id: bv32)
    ensures id == ProcessorIdOf("Generic", f, false, false, DazOn(mxcsr))
  {
    GenericPrefix();
    ProcessorIdOf(CString(INITIAL_VENDOR), f, false, CmovBit(0), DazOn(mxcsr))
  }

  lemma ProcessorIdIgnoresCpu(f: SdlFeatures, mxcsr: bv32)
    ensures var id := ProcessorIdAsWritten(f, mxcsr);
      Has(id, CPUID_GENERIC) && !Has(id, CPUID_AMD) && !Has(id, CPUID_INTEL) && !Has(id, CPUID_3DNOW) && !Has(id, CPUID_CMOV)
  {
    assert INITIAL_VENDOR[..7] == "Generic";
    assert CString(INITIAL_VENDOR) == "Generic" by {
      GenericPrefix();
    }
    ProcessorIdFlags("Generic", f, false, false, DazOn(mxcsr));
  }

  lemma GenericPrefix()
    ensures CString(INITIAL_VENDOR) == "Generic"
  {
    var buf := INITIAL_VENDOR;
    assert buf[7] == '\0';
    assert buf[..7] == "Generic";
    CStringOfTerminated(buf, 7);
  }

  /** A buffer whose first NUL is at index n reads as its first n chars. */
  lemma {:induction false} CStringOfTerminated(buf: seq<char>, n: nat)
    requires n < |buf| && buf[n] == '\0' && '\0' !in buf[..n]
    ensures CString(buf) == buf[..n]
  {
    if n > 0 {
      assert buf[0] in buf[..n];
      assert buf[1..][..n - 1] == buf[..n][1..];
      CStringOfTerminated(buf[1..], n - 1);
    }
  }

  // ---------------------------------------------------------------------
  // GetCPUInfo

  /**
   * The processor as CPUID answers it, leaf by leaf, and whether
   * __get_cpuid checks the leaf first: cpuid.h refuses a leaf above the
   * highest leaf of its range (or when that is 0) and writes nothing; the
   * MSVC shim at the top of the file queries any leaf.
   */
  datatype Processor = Processor(answer: int -> Regs, rangeChecked: bool)

  /** __get_cpuid: the registers of the leaf, or None when the leaf is refused. */
  function Cpuid(p: Processor, leaf: int): Option<Regs> {
    var max := p.answer(if leaf >= CPU_BRAND_BIT then CPU_BRAND_BIT else CPU_VENDOR_BIT).eax as int;
    if p.rangeChecked && (max == 0 || max < leaf) then None else Some(p.answer(leaf))
  }

  function RegsSeq(r: Regs): (c: seq<bv32>)
    ensures |c| == 4
  {
    [r.eax, r.ebx, r.ecx, r.edx]
  }

  /** cpui after __get_cpuid( leaf, &cpui[REG_EAX], &cpui[REG_EBX], &cpui[REG_ECX], &cpui[REG_EDX] ). */
  function Query(p: Processor, leaf: int, cpui: seq<bv32>): (c: seq<bv32>)
    requires |cpui| == 4
    ensures |c| == 4
  {
    match Cpuid(p, leaf)
    case Some(r) => RegsSeq(r)
    case None => cpui
  }

  /** Byte k of a register as memcpy lays it out on a little-endian machine. */
  function ByteChar(w: bv32, k: bv32): char
    requires k < 4
  {
    ((w >> (8 * k)) & 0xFF) as bv8 as int as char
  }

  function WordChars(w: bv32): (s: seq<char>)
    ensures |s| == 4
  {
    [ByteChar(w, 0), ByteChar(w, 1), ByteChar(w, 2), ByteChar(w, 3)]
  }

  /** The twelve vendor chars memcpy takes from cpui: EBX, then EDX, then ECX. */
  function VendorChars(cpui: seq<bv32>): (s: seq<char>)
    requires |cpui| == 4
    ensures |s| == 12
  {
    WordChars(cpui[1]) + WordChars(cpui[3]) + WordChars(cpui[2])
  }

  /** The sixteen chars memcpy( brand + n, cpui, sizeof( cpui ) ) copies: EAX, EBX, ECX, EDX. */
  function RegsChars(cpui: seq<bv32>): (s: seq<char>)
    requires |cpui| == 4
    ensures |s| == 16
  {
    WordChars(cpui[0]) + WordChars(cpui[1]) + WordChars(cpui[2]) + WordChars(cpui[3])
  }

  const ZERO_BRAND: seq<char> := Nuls(BRAND_SIZE)

  /** The brand loop's memcpy for leaf i: leaves 0x80000002, 0x80000003 and 0x80000004 go to brand + 0, 16 and 32. */
  function PutBrand(brand: seq<char>, i: int, cpui: seq<bv32>): (b: seq<char>)
    requires |brand| == BRAND_SIZE && |cpui| == 4
    ensures |b| == BRAND_SIZE
  {
    if i == 0x8000_0002 then RegsChars(cpui) + brand[16..]
    else if i == 0x8000_0003 then brand[..16] + RegsChars(cpui) + brand[32..]
    else if i == 0x8000_0004 then brand[..32] + RegsChars(cpui) + brand[48..]
    else brand
  }

  /** The brand loop from leaf i to leaf last: each leaf queried into cpui, the brand leaves copied. */
  function BrandWalk(p: Processor, i: int, last: int, cpui: seq<bv32>, brand: seq<char>): (r: (seq<bv32>, seq<char>))
    requires |cpui| == 4 && |brand| == BRAND_SIZE
    ensures |r.0| == 4 && |r.1| == BRAND_SIZE
    decreases last + 1 - i
  {
    if i > last then (cpui, brand)
    else
      var c := Query(p, i, cpui);
      BrandWalk(p, i + 1, last, c, PutBrand(brand, i, c))
  }

  /** The statics GetCPUInfo writes. */
  datatype CpuIdState = CpuIdState(vendor: seq<char>, brand: seq<char>, nIds: int, nExIds: int, cpui: seq<bv32>)

  /** The leaf whose EBX, EDX and ECX become the vendor: 0x80000000 as written, leaf 0 as intended. */
  function VendorLeaf(intended: bool): int {
    if intended then CPU_VENDOR_BIT else CPU_BRAND_BIT
  }

  /**
   * What GetCPUInfo leaves, from cpui as it was: leaf 0 then leaf
   * 0x80000000 queried, the vendor copied from the registers that the
   * second query left (as written) or the first one (as intended), and the
   * brand loop run when 0x80000004 is available.
   */
  function InfoOf(p: Processor, intended: bool, cpui0: seq<bv32>): (s: CpuIdState)
    requires |cpui0| == 4
    ensures |s.vendor| == VENDOR_SIZE && |s.brand| == BRAND_SIZE && |s.cpui| == 4
  {
    var c0 := Query(p, CPU_VENDOR_BIT, cpui0);
    var c1 := Query(p, CPU_BRAND_BIT, c0);
    var nExIds := c1[0] as int;
    var walked := if nExIds >= BRAND_LAST_LEAF then BrandWalk(p, CPU_BRAND_BIT, nExIds, c1, ZERO_BRAND)
                  else (c1, ZERO_BRAND);
    CpuIdState(Padded(VendorChars(if intended then c0 else c1)), walked.1, c0[0] as int, nExIds, walked.0)
  }

  /** The text the vendor test compares when the processor answers the vendor leaf. */
  function VendorText(p: Processor, intended: bool): seq<char> {
    CString(Padded(VendorChars(RegsSeq(p.answer(VendorLeaf(intended))))))
  }

  /**
   * The id Sys_GetProcessorId composes right after GetCPUInfo: the vendor
   * GetCPUInfo captured, and the 3DNow! and CMOV tests on the EDX that
   * Has3DNow's query leaves in cpui.
   */
  function IdAfterInfo(p: Processor, f: SdlFeatures, intended: bool, cpui0: seq<bv32>, mxcsr: bv32): bv32
    requires |cpui0| == 4
  {
    var s := InfoOf(p, intended, cpui0);
    var ext := s.nExIds >= EXT_FEATURES_LEAF;
    var c := if ext then Query(p, EXT_FEATURES_LEAF, s.cpui) else s.cpui;
    ProcessorIdOf(CString(s.vendor), f, ext && c[3] & BIT_3DNOW != 0, CmovBit(c[3]), DazOn(mxcsr))
  }

  /**
   * On a processor with extended leaves up to 0x80000001, the id reads
   * the vendor from the vendor leaf's EBX, EDX and ECX, and both 3DNow! and
   * CMOV from EDX of leaf 0x80000001: HasCMOV never sees leaf 1.
   */
  lemma ExtendedIdFlags(p: Processor, f: SdlFeatures, intended: bool, cpui0: seq<bv32>, mxcsr: bv32)
    requires |cpui0| == 4 && p.answer(CPU_VENDOR_BIT).eax as int != 0 && p.answer(CPU_BRAND_BIT).eax as int >= EXT_FEATURES_LEAF
    ensures var id := IdAfterInfo(p, f, intended, cpui0, mxcsr); var edx := p.answer(EXT_FEATURES_LEAF).edx;
      (Has(id, CPUID_AMD) <==> VendorText(p, intended) == "AuthenticAMD")
      && (Has(id, CPUID_INTEL) <==> VendorText(p, intended) == "GenuineIntel")
      && (Has(id, CPUID_3DNOW) <==> edx & BIT_3DNOW != 0) && (Has(id, CPUID_CMOV) <==> CmovBit(edx))
  {
    var s := InfoOf(p, intended, cpui0);
    assert s.nExIds == p.answer(CPU_BRAND_BIT).eax as int && CString(s.vendor) == VendorText(p, intended) by {
      InfoWithExtendedLeaves(p, intended, cpui0);
    }
    var c := Query(p, EXT_FEATURES_LEAF, s.cpui);
    assert c[3] == p.answer(EXT_FEATURES_LEAF).edx by {
      assert Cpuid(p, EXT_FEATURES_LEAF) == Some(p.answer(EXT_FEATURES_LEAF));
    }
    ProcessorIdFlags(CString(s.vendor), f, c[3] & BIT_3DNOW != 0, CmovBit(c[3]), DazOn(mxcsr));
  }

  /** With leaf 0 and leaf 0x80000000 answered, nExIds is the highest extended leaf and the vendor that of VendorLeaf. */
  lemma InfoWithExtendedLeaves(p: Processor, intended: bool, cpui0: seq<bv32>)
    requires |cpui0| == 4 && p.answer(CPU_VENDOR_BIT).eax as int != 0 && p.answer(CPU_BRAND_BIT).eax as int >= EXT_FEATURES_LEAF
    ensures InfoOf(p, intended, cpui0).nExIds == p.answer(CPU_BRAND_BIT).eax as int
    ensures CString(InfoOf(p, intended, cpui0).vendor) == VendorText(p, intended)
  {
    assert Cpuid(p, CPU_VENDOR_BIT) == Some(p.answer(CPU_VENDOR_BIT));
    assert Cpuid(p, CPU_BRAND_BIT) == Some(p.answer(CPU_BRAND_BIT));
  }

  /** "GenuineIntel" as leaf 0 spells it: EBX "Genu", EDX "ineI", ECX "ntel". */
  const INTEL_LEAF0: Regs := Regs(0x16, 0x756E_6547, 0x6C65_746E, 0x4965_6E69)

  /**
   * An Intel processor answers leaf 0 with "GenuineIntel" and leaf
   * 0x80000000 with zero EBX, ECX and EDX (reserved there). As written the
   * vendor is copied from the second leaf, reads as "" and the processor
   * is reported generic; copied from leaf 0 it is reported as Intel.
   */
  lemma IntelVendorLost(p: Processor, f: SdlFeatures, cpui0: seq<bv32>, mxcsr: bv32)
    requires |cpui0| == 4 && p.answer(CPU_VENDOR_BIT) == INTEL_LEAF0 && p.answer(CPU_BRAND_BIT) == Regs(0x8000_0008, 0, 0, 0)
    ensures !Has(IdAfterInfo(p, f, false, cpui0, mxcsr), CPUID_INTEL) && Has(IdAfterInfo(p, f, false, cpui0, mxcsr), CPUID_GENERIC)
    ensures Has(IdAfterInfo(p, f, true, cpui0, mxcsr), CPUID_INTEL)
  {
    assert VendorText(p, false) == "" by {
      var buf := Padded(VendorChars(RegsSeq(p.answer(CPU_BRAND_BIT))));
      assert WordChars(0) == ['\0', '\0', '\0', '\0'];
      assert buf[0] == '\0';
    }
    assert VendorText(p, true) == "GenuineIntel" by {
      assert WordChars(0x756E_6547) == "Genu";
      assert WordChars(0x4965_6E69) == "ineI";
      assert WordChars(0x6C65_746E) == "ntel";
      assert VendorChars(RegsSeq(INTEL_LEAF0)) == "GenuineIntel";
      PaddedReadsBack("GenuineIntel");
    }
    ExtendedIdFlags(p, f, false, cpui0, mxcsr);
    ExtendedIdFlags(p, f, true, cpui0, mxcsr);
    var s := InfoOf(p, false, cpui0);
    var c := Query(p, EXT_FEATURES_LEAF, s.cpui);
    ProcessorIdFlags(CString(s.vendor), f, c[3] & BIT_3DNOW != 0, CmovBit(c[3]), DazOn(mxcsr));
  }

  /**
   * The brand loop past the last brand leaf copies nothing more: the
   * brand is left as it was.
   */
  lemma {:induction false} BrandWalkPastBrand(p: Processor, i: int, last: int, cpui: seq<bv32>, brand: seq<char>)
    requires BRAND_LAST_LEAF < i && |cpui| == 4 && |brand| == BRAND_SIZE
    ensures BrandWalk(p, i, last, cpui, brand).1 == brand
    decreases last + 1 - i
  {
    if i <= last {
      BrandWalkPastBrand(p, i + 1, last, Query(p, i, cpui), brand);
    }
  }

  /** The three brand leaves, walked from 0x80000002 with every query answered, fill the first 48 bytes. */
  lemma BrandLeavesFill(p: Processor, last: int, c: seq<bv32>, brand: seq<char>)
    requires BRAND_LAST_LEAF <= last && |c| == 4 && |brand| == BRAND_SIZE
    requires forall leaf :: 0x8000_0002 <= leaf <= BRAND_LAST_LEAF ==> Cpuid(p, leaf) == Some(p.answer(leaf))
    ensures BrandWalk(p, 0x8000_0002, last, c, brand).1
      == RegsChars(RegsSeq(p.answer(0x8000_0002))) + RegsChars(RegsSeq(p.answer(0x8000_0003)))
         + RegsChars(RegsSeq(p.answer(0x8000_0004))) + brand[48..]
  {
    var r2, r3, r4 := RegsSeq(p.answer(0x8000_0002)), RegsSeq(p.answer(0x8000_0003)), RegsSeq(p.answer(0x8000_0004));
    var b2 := RegsChars(r2) + brand[16..];
    var b3 := b2[..16] + RegsChars(r3) + b2[32..];
    var b4 := b3[..32] + RegsChars(r4) + b3[48..];
    assert BrandWalk(p, 0x8000_0002, last, c, brand) == BrandWalk(p, 0x8000_0003, last, r2, b2) by {
      assert Query(p, 0x8000_0002, c) == r2;
    }
    assert BrandWalk(p, 0x8000_0003, last, r2, b2) == BrandWalk(p, 0x8000_0004, last, r3, b3) by {
      assert Query(p, 0x8000_0003, r2) == r3;
    }
    assert BrandWalk(p, 0x8000_0004, last, r3, b3) == BrandWalk(p, 0x8000_0005, last, r4, b4) by {
      assert Query(p, 0x8000_0004, r3) == r4;
    }
    BrandWalkPastBrand(p, 0x8000_0005, last, r4, b4);
    assert b4 == RegsChars(r2) + RegsChars(r3) + RegsChars(r4) + brand[48..] by {
      assert b3 == RegsChars(r2) + RegsChars(r3) + brand[32..];
    }
  }

  /**
   * With the extended leaves up to last >= 0x80000004 answered, the brand
   * loop leaves the registers of leaves 0x80000002, 0x80000003 and
   * 0x80000004 at brand + 0, 16 and 32, and the last sixteen chars as they
   * were.
   */
  lemma BrandWalkBrand(p: Processor, last: int, cpui: seq<bv32>, brand: seq<char>)
    requires BRAND_LAST_LEAF <= last && |cpui| == 4 && |brand| == BRAND_SIZE
    requires !p.rangeChecked || p.answer(CPU_BRAND_BIT).eax as int >= BRAND_LAST_LEAF
    ensures BrandWalk(p, CPU_BRAND_BIT, last, cpui, brand).1
      == RegsChars(RegsSeq(p.answer(0x8000_0002))) + RegsChars(RegsSeq(p.answer(0x8000_0003)))
         + RegsChars(RegsSeq(p.answer(0x8000_0004))) + brand[48..]
  {
    var c0 := Query(p, CPU_BRAND_BIT, cpui);
    var c1 := Query(p, 0x8000_0001, c0);
    assert BrandWalk(p, CPU_BRAND_BIT, last, cpui, brand) == BrandWalk(p, 0x8000_0002, last, c1, brand);
    BrandLeavesFill(p, last, c1, brand);
  }

  /** The file statics of cpu.cpp and the control registers it touches. */
  class CpuState {
    /** The static vendor and brand buffers. */
    var vendor: seq<char>
    var brand: seq<char>
    var nIds: int
    var nExIds: int
    /** The static cpui, indexed by REG_EAX, REG_EBX, REG_ECX, REG_EDX. */
    var cpui: array<bv32>
    /** The function-local static of Sys_GetProcessorId. */
    var processorId: bv32
    var mxcsr: bv32
    var x87Rounding: RoundingMode
    /** The number of writes to MXCSR. */
    var mxcsrWrites: nat

    /** The statics as initialised, with the control registers as the process found them. */
    constructor (mxcsr0: bv32, x87Rounding0: RoundingMode)
      ensures vendor == INITIAL_VENDOR && brand == INITIAL_BRAND && nIds == 0 && nExIds == 0
      ensures fresh(cpui) && cpui[..] == [0, 0, 0, 0]
      ensures processorId == CPUID_NONE && mxcsr == mxcsr0 && x87Rounding == x87Rounding0 && mxcsrWrites == 0
    {
      vendor, brand := INITIAL_VENDOR, INITIAL_BRAND;
      nIds, nExIds := 0, 0;
      cpui := new bv32[4](_ => 0);
      processorId := CPUID_NONE;
      mxcsr, x87Rounding, mxcsrWrites := mxcsr0, x87Rounding0, 0;
      new;
      assert cpui[..] == [0, 0, 0, 0];
    }

    /** HasCMOV: the CMOV bit of cpui[REG_EDX], whichever query last wrote it. */
    predicate HasCMOV()
      requires cpui.Length == 4
      reads this, cpui
    {
      CmovBit(cpui[3])
    }

    /** HasDAZ: whether denormals-are-zero mode is on. */
    predicate HasDAZ()
      reads this
    {
      DazOn(mxcsr)
    }

    /** __get_cpuid( leaf, &cpui[REG_EAX], &cpui[REG_EBX], &cpui[REG_ECX], &cpui[REG_EDX] ). */
    method CpuidInto(p: Processor, leaf: int)
      requires cpui.Length == 4
      modifies cpui
      ensures cpui[..] == Query(p, leaf, old(cpui[..]))
    {
      var r := Cpuid(p, leaf);
      if r.Some? {
        cpui[0], cpui[1], cpui[2], cpui[3] := r.value.eax, r.value.ebx, r.value.ecx, r.value.edx;
      }
      assert cpui[..] == Query(p, leaf, old(cpui[..]));
    }

    /**
     * GetCPUInfo: both buffers cleared, leaf 0 and leaf 0x80000000 queried
     * into cpui, the vendor copied from EBX, EDX and ECX (after the second
     * query as written, after the first when intended), and with
     * 0x80000004 available every leaf from 0x80000000 to nExIds queried,
     * the three brand leaves copied into brand.
     */
    method GetCPUInfo(p: Processor, intended: bool)
      requires cpui.Length == 4
      modifies this, cpui
      ensures cpui == old(cpui)
      ensures var s := InfoOf(p, intended, old(cpui[..]));
        vendor == s.vendor && brand == s.brand && nIds == s.nIds && nExIds == s.nExIds && cpui[..] == s.cpui
      ensures processorId == old(processorId) && mxcsr == old(mxcsr) && x87Rounding == old(x87Rounding)
      ensures mxcsrWrites == old(mxcsrWrites)
    {
      brand := ZERO_BRAND;
      ReadRanges(p, intended);
      if nExIds >= BRAND_LAST_LEAF {
        BrandLoop(p);
      }
    }

    /**
     * The first half of GetCPUInfo: leaf 0 gives nIds, leaf 0x80000000 gives
     * nExIds, and the vendor is copied from whichever of the two the build
     * takes it from.
     */
    method ReadRanges(p: Processor, intended: bool)
      requires cpui.Length == 4
      modifies this`vendor, this`nIds, this`nExIds, cpui
      ensures var c0 := Query(p, CPU_VENDOR_BIT, old(cpui[..]));
        var c1 := Query(p, CPU_BRAND_BIT, c0);
        vendor == Padded(VendorChars(if intended then c0 else c1)) && nIds == c0[0] as int
        && nExIds == c1[0] as int && cpui[..] == c1
    {
      vendor := Nuls(VENDOR_SIZE);
      CpuidInto(p, CPU_VENDOR_BIT);
      nIds := cpui[0] as int;
      if intended {
        vendor := Padded(VendorChars(cpui[..]));
      }
      CpuidInto(p, CPU_BRAND_BIT);
      nExIds := cpui[0] as int;
      if !intended {
        vendor := Padded(VendorChars(cpui[..]));
      }
    }

    /** The brand loop of GetCPUInfo: every extended leaf from 0x80000000 to nExIds is queried into cpui. */
    method BrandLoop(p: Processor)
      requires cpui.Length == 4 && |brand| == BRAND_SIZE
      modifies this`brand, cpui
      ensures (cpui[..], brand) == BrandWalk(p, CPU_BRAND_BIT, nExIds, old(cpui[..]), old(brand))
    {
      var i := CPU_BRAND_BIT;
      while i <= nExIds
        invariant |brand| == BRAND_SIZE
        invariant BrandWalk(p, i, nExIds, cpui[..], brand) == BrandWalk(p, CPU_BRAND_BIT, nExIds, old(cpui[..]), old(brand))
        decreases nExIds + 1 - i
      {
        CpuidInto(p, i);
        CopyBrandLeaf(i);
        i := i + 1;
      }
    }

    /** One brand leaf's registers copied into its sixteen bytes of brand; other leaves leave brand alone. */
    method CopyBrandLeaf(i: int)
      requires cpui.Length == 4 && |brand| == BRAND_SIZE
      modifies this`brand
      ensures brand == PutBrand(old(brand), i, cpui[..])
    {
      if i == 0x8000_0002 {
        brand := RegsChars(cpui[..]) + brand[16..];
      } else if i == 0x8000_0003 {
        brand := brand[..16] + RegsChars(cpui[..]) + brand[32..];
      } else if i == 0x8000_0004 {
        brand := brand[..32] + RegsChars(cpui[..]) + brand[48..];
      }
    }

    /**
     * Has3DNow: with nExIds at least 0x80000001 it queries that leaf into
     * cpui and tests bit 31 of EDX; otherwise false and cpui untouched.
     */
    method Has3DNow(p: Processor) returns (b: bool)
      requires cpui.Length == 4
      modifies cpui
      ensures nExIds >= EXT_FEATURES_LEAF ==> cpui[..] == Query(p, EXT_FEATURES_LEAF, old(cpui[..])) && b == (cpui[3] & BIT_3DNOW != 0)
      ensures nExIds < EXT_FEATURES_LEAF ==> cpui[..] == old(cpui[..]) && !b
    {
      if nExIds >= EXT_FEATURES_LEAF {
        CpuidInto(p, EXT_FEATURES_LEAF);
        if cpui[3] & BIT_3DNOW != 0 {
          return true;
        }
      }
      return false;
    }

    /**
     * Sys_GetProcessorId, given the SDL probes and the processor: a cached
     * id is returned unchanged; otherwise the id is composed, cached and
     * returned. HasCMOV runs after Has3DNow and so reads the EDX that
     * query left.
     */
    method GetProcessorId(f: SdlFeatures, p: Processor) returns (id: bv32)
      requires cpui.Length == 4
      modifies this, cpui
      ensures old(processorId) != CPUID_NONE ==> id == old(processorId) && cpui[..] == old(cpui[..])
      ensures old(processorId) == CPUID_NONE ==>
        var ext := old(nExIds) >= EXT_FEATURES_LEAF;
        var c := if ext then Query(p, EXT_FEATURES_LEAF, old(cpui[..])) else old(cpui[..]);
        id == ProcessorIdOf(CString(vendor), f, ext && c[3] & BIT_3DNOW != 0, CmovBit(c[3]), DazOn(mxcsr))
      ensures id != CPUID_NONE && processorId == id && cpui == old(cpui)
      ensures vendor == old(vendor) && brand == old(brand) && nIds == old(nIds) && nExIds == old(nExIds) && mxcsr == old(mxcsr)
      ensures x87Rounding == old(x87Rounding) && mxcsrWrites == old(mxcsrWrites)
    {
      if processorId != CPUID_NONE {
        return processorId;
      }
      var has3DNow := Has3DNow(p);
      var hasCmov := HasCMOV();
      var hasDaz := HasDAZ();
      var cpuid := ComposeId(CString(vendor), f, has3DNow, hasCmov, hasDaz);
      ProcessorIdFlags(CString(vendor), f, has3DNow, hasCmov, hasDaz);
      processorId := cpuid;
      id := cpuid;
    }

    /**
     * The composition of Sys_GetProcessorId once its tests are known: the
     * vendor check, then each flag OR-ed in when its test holds. (Has3DNow,
     * HasCMOV and HasDAZ run before it; only HasCMOV depends on another
     * test, through the cpui that Has3DNow overwrites.)
     */
    static method ComposeId(text: seq<char>, f: SdlFeatures, has3DNow: bool, hasCmov: bool, hasDaz: bool) returns (cpuid: bv32)
      ensures cpuid == ProcessorIdOf(text, f, has3DNow, hasCmov, hasDaz)
    {
      if text == "AuthenticAMD" {
        cpuid := CPUID_AMD;
      } else if text == "GenuineIntel" {
        cpuid := CPUID_INTEL;
      } else {
        cpuid := CPUID_GENERIC;
      }
      if f.mmx {
        cpuid := cpuid | CPUID_MMX;
      }
      if has3DNow {
        cpuid := cpuid | CPUID_3DNOW;
      }
      if f.sse {
        cpuid := cpuid | (CPUID_SSE | CPUID_FTZ);
      }
      if f.sse2 {
        cpuid := cpuid | CPUID_SSE2;
      }
      if f.sse3 {
        cpuid := cpuid | CPUID_SSE3;
      }
      if hasCmov {
        cpuid := cpuid | CPUID_CMOV;
      }
      if hasDaz {
        cpuid := cpuid | CPUID_DAZ;
      }
    }

    /**
     * Sys_GetProcessorId with GetCPUInfo run before its first composition,
     * as the file evidently means: the id of IdAfterInfo, which
     * ExtendedIdFlags and IntelVendorLost characterise.
     */
    method GetProcessorIdAfterInfo(p: Processor, f: SdlFeatures, intended: bool) returns (id: bv32)
      requires cpui.Length == 4
      modifies this, cpui
      ensures old(processorId) == CPUID_NONE ==> id == IdAfterInfo(p, f, intended, old(cpui[..]), old(mxcsr))
      ensures old(processorId) != CPUID_NONE ==> id == old(processorId)
      ensures id != CPUID_NONE && processorId == id
    {
      if processorId == CPUID_NONE {
        GetCPUInfo(p, intended);
      }
      id := GetProcessorId(f, p);
    }

    /**
     * Sys_FPU_SetRounding, with the argument's two's-complement bits: the
     * x87 mode from roundingModes[rounding & 3], and MXCSR rewritten with
     * rounding & 3 in bits 13 and 14 and every other bit kept.
     */
    method SetRounding(rounding: bv32)
      modifies this
      ensures RoundingField(mxcsr) == rounding & 3 && mxcsr & !ROUNDING_MASK == old(mxcsr) & !ROUNDING_MASK
      ensures x87Rounding == ROUNDING_MODES[(rounding & 3) as int] && mxcsrWrites == old(mxcsrWrites) + 1
      ensures vendor == old(vendor) && brand == old(brand) && nIds == old(nIds) && nExIds == old(nExIds) && cpui == old(cpui) && processorId == old(processorId)
    {
      var mode := ROUNDING_MODES[(rounding & 3) as int];
      x87Rounding := mode;
      var csr := mxcsr;
      csr := csr & !((3 as bv32) << 13);
      csr := csr | ((rounding & 3) << 13);
      mxcsr := csr;
      mxcsrWrites := mxcsrWrites + 1;
    }

    /**
     * Sys_FPU_SetDAZ: the denormals-zero mode set as asked, MXCSR written
     * only when the mode differs (ModeRequested states what that leaves).
     */
    method SetDAZ(enable: bool)
      modifies this
      ensures mxcsr == ModeRequested(old(mxcsr), DENORMALS_ZERO_ON, enable)
      ensures mxcsrWrites == old(mxcsrWrites) + (if DazOn(old(mxcsr)) != enable then 1 else 0)
      ensures x87Rounding == old(x87Rounding) && vendor == old(vendor) && brand == old(brand) && nIds == old(nIds) && nExIds == old(nExIds)
      ensures cpui == old(cpui) && processorId == old(processorId)
    {
      var mode := mxcsr & DENORMALS_ZERO_ON;
      if enable && mode != DENORMALS_ZERO_ON {
        SetDenormalsZeroMode(DENORMALS_ZERO_ON);
      } else if !enable && mode == DENORMALS_ZERO_ON {
        SetDenormalsZeroMode(0);
      }
    }

    /** _MM_SET_DENORMALS_ZERO_MODE: bit 6 of MXCSR replaced by the mode given. */
    method SetDenormalsZeroMode(mode: bv32)
      requires mode == 0 || mode == DENORMALS_ZERO_ON
      modifies this
      ensures mxcsr == WithMode(old(mxcsr), DENORMALS_ZERO_ON, mode == DENORMALS_ZERO_ON)
      ensures mxcsrWrites == old(mxcsrWrites) + 1
      ensures x87Rounding == old(x87Rounding) && vendor == old(vendor) && brand == old(brand) && nIds == old(nIds) && nExIds == old(nExIds)
      ensures cpui == old(cpui) && processorId == old(processorId)
    {
      mxcsr := (mxcsr & !DENORMALS_ZERO_ON) | mode;
      mxcsrWrites := mxcsrWrites + 1;
    }

    /**
     * Sys_FPU_SetFTZ: the flush-to-zero mode set as asked, MXCSR written
     * only when the mode differs.
     */
    method SetFTZ(enable: bool)
      modifies this
      ensures mxcsr == ModeRequested(old(mxcsr), FLUSH_ZERO_ON, enable)
      ensures mxcsrWrites == old(mxcsrWrites) + (if FtzOn(old(mxcsr)) != enable then 1 else 0)
      ensures x87Rounding == old(x87Rounding) && vendor == old(vendor) && brand == old(brand) && nIds == old(nIds) && nExIds == old(nExIds)
      ensures cpui == old(cpui) && processorId == old(processorId)
    {
      var mode := mxcsr & FLUSH_ZERO_ON;
      if enable && mode != FLUSH_ZERO_ON {
        SetFlushZeroMode(FLUSH_ZERO_ON);
      } else if !enable && mode == FLUSH_ZERO_ON {
        SetFlushZeroMode(0);
      }
    }

    /** _MM_SET_FLUSH_ZERO_MODE: bit 15 of MXCSR replaced by the mode given. */
    method SetFlushZeroMode(mode: bv32)
      requires mode == 0 || mode == FLUSH_ZERO_ON
      modifies this
      ensures mxcsr == WithMode(old(mxcsr), FLUSH_ZERO_ON, mode == FLUSH_ZERO_ON)
      ensures mxcsrWrites == old(mxcsrWrites) + 1
      ensures x87Rounding == old(x87Rounding) && vendor == old(vendor) && brand == old(brand) && nIds == old(nIds) && nExIds == old(nExIds)
      ensures cpui == old(cpui) && processorId == old(processorId)
    {
      mxcsr := (mxcsr & !FLUSH_ZERO_ON) | mode;
      mxcsrWrites := mxcsrWrites + 1;
    }
  }

  /** MXCSR with a one-bit mode turned on or off and every other bit as it was. */
  function WithMode(mxcsr: bv32, bit: bv32, on: bool): bv32 {
    (mxcsr & !bit) | (if on then bit else 0)
  }

  /** What SetDAZ and SetFTZ leave: MXCSR unchanged when the mode already matches, else the mode bit rewritten. */
  function ModeRequested(mxcsr: bv32, bit: bv32, enable: bool): bv32 {
    if (mxcsr & bit == bit) == enable then mxcsr else WithMode(mxcsr, bit, enable)
  }

  /** SetDAZ leaves the flush-to-zero mode as it was. */
  lemma DazKeepsFtz(mxcsr: bv32, enable: bool)
    ensures FtzOn(ModeRequested(mxcsr, DENORMALS_ZERO_ON, enable)) == FtzOn(mxcsr)
  {
    RequestedKeepsRest(mxcsr, DENORMALS_ZERO_ON, enable);
    KeptBitsKeepFtz(mxcsr, ModeRequested(mxcsr, DENORMALS_ZERO_ON, enable));
  }

  /** SetFTZ leaves the denormals-zero mode as it was. */
  lemma FtzKeepsDaz(mxcsr: bv32, enable: bool)
    ensures DazOn(ModeRequested(mxcsr, FLUSH_ZERO_ON, enable)) == DazOn(mxcsr)
  {
    RequestedKeepsRest(mxcsr, FLUSH_ZERO_ON, enable);
    KeptBitsKeepDaz(mxcsr, ModeRequested(mxcsr, FLUSH_ZERO_ON, enable));
  }

  /** Neither SetDAZ nor SetFTZ changes the rounding mode. */
  lemma RequestedKeepsRounding(mxcsr: bv32, bit: bv32, enable: bool)
    requires bit == DENORMALS_ZERO_ON || bit == FLUSH_ZERO_ON
    ensures RoundingField(ModeRequested(mxcsr, bit, enable)) == RoundingField(mxcsr)
  {
    RequestedKeepsRest(mxcsr, bit, enable);
    KeptBitsKeepRounding(mxcsr, ModeRequested(mxcsr, bit, enable), bit);
  }

  /** SetDAZ and SetFTZ leave their mode bit on exactly when enabled. */
  lemma RequestedBit(mxcsr: bv32, bit: bv32, enable: bool)
    requires bit == DENORMALS_ZERO_ON || bit == FLUSH_ZERO_ON
    ensures ModeRequested(mxcsr, bit, enable) & bit == bit <==> enable
  {
  }

  /** SetDAZ and SetFTZ leave every other bit of MXCSR as it was. */
  lemma RequestedKeepsRest(mxcsr: bv32, bit: bv32, enable: bool)
    ensures ModeRequested(mxcsr, bit, enable) & !bit == mxcsr & !bit
  {
  }

  /** Values that agree outside the denormals-zero bit agree on flush-to-zero. */
  lemma KeptBitsKeepFtz(a: bv32, b: bv32)
    requires a & !DENORMALS_ZERO_ON == b & !DENORMALS_ZERO_ON
    ensures FtzOn(a) == FtzOn(b)
  {
    assert a & FLUSH_ZERO_ON == (a & !DENORMALS_ZERO_ON) & FLUSH_ZERO_ON;
    assert b & FLUSH_ZERO_ON == (b & !DENORMALS_ZERO_ON) & FLUSH_ZERO_ON;
  }

  /** Values that agree outside the flush-to-zero bit agree on denormals-zero. */
  lemma KeptBitsKeepDaz(a: bv32, b: bv32)
    requires a & !FLUSH_ZERO_ON == b & !FLUSH_ZERO_ON
    ensures DazOn(a) == DazOn(b)
  {
    assert a & DENORMALS_ZERO_ON == (a & !FLUSH_ZERO_ON) & DENORMALS_ZERO_ON;
    assert b & DENORMALS_ZERO_ON == (b & !FLUSH_ZERO_ON) & DENORMALS_ZERO_ON;
  }

  /** Values that agree outside one mode bit have the same rounding field. */
  lemma KeptBitsKeepRounding(a: bv32, b: bv32, bit: bv32)
    requires bit == DENORMALS_ZERO_ON || bit == FLUSH_ZERO_ON
    requires a & !bit == b & !bit
    ensures RoundingField(a) == RoundingField(b)
  {
    assert a & ROUNDING_MASK == (a & !bit) & ROUNDING_MASK;
    assert b & ROUNDING_MASK == (b & !bit) & ROUNDING_MASK;
  }

  /** A padded vendor of twelve non-NUL chars reads back as those chars. */
  lemma PaddedReadsBack(s: seq<char>)
    requires |s| == 12 && '\0' !in s
    ensures CString(Padded(s)) == s
  {
    var buf := Padded(s);
    assert buf[..12] == s;
    CStringOfTerminated(buf, 12);
  }

  /**
   * After SetRounding the SSE unit and the x87 unit round the same way,
   * and the mode depends only on rounding & 3.
   */
  lemma RoundingUnitsAgree(rounding: bv32, mxcsr: bv32)
    ensures var m := (mxcsr & !ROUNDING_MASK) | ((rounding & 3) << 13);
      RoundingField(m) == rounding & 3 && SseRounding(RoundingField(m)) == ROUNDING_MODES[(rounding & 3) as int]
  {
    var r := rounding & 3;
    assert r == 0 || r == 1 || r == 2 || r == 3;
  }
}
