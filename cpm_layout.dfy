/** The CP/M memory layout: where the CCP+BDOS load, where the BIOS jump
    table and its disk tables sit, the BIOS entry point offsets and the
    geometry of the 8" single-sided single-density disk. */
module CpmLayout {
  import opened Bytes

  const CPM_LOAD_ADDR: Word := 0xE000  // CCP+BDOS load address
  const BIOS_BASE: Word := 0xF600      // first BIOS entry point

  const XLTTAB_ADDR: Word := 0xF633
  const DPB0_ADDR: Word := 0xF64D
  const DPH0_ADDR: Word := 0xF65C
  const DPH1_ADDR: Word := 0xF66C
  const DPH2_ADDR: Word := 0xF67C
  const DPH3_ADDR: Word := 0xF68C
  const DIRBUF_ADDR: Word := 0xF69C
  const CSV0_ADDR: Word := 0xF71C
  const ALV0_ADDR: Word := 0xF75C

  // Sizes of the regions, as the layout comment of the header gives them.
  const JUMP_ENTRIES := 17
  const JUMP_ENTRY_SIZE := 3
  const XLT_SIZE := 26
  const DPB_SIZE := 15
  const DPH_SIZE := 16
  const DRIVES := 4
  const DIRBUF_SIZE := 128
  const CSV_SIZE := 16
  const ALV_SIZE := 31

  /** One past the last byte of the BIOS area (the end of ALV3). */
  const BIOS_END := ALV0_ADDR + DRIVES * ALV_SIZE

  // 8" SSSD, the standard CP/M distribution format
  const CPM_TRACKS := 77
  const CPM_SECTORS := 26
  const CPM_SECTOR_SIZE := 128
  const CPM_TRACK_SIZE := CPM_SECTORS * CPM_SECTOR_SIZE
  const CPM_DISK_SIZE := CPM_TRACKS * CPM_TRACK_SIZE

  /** The Disk Parameter Header of a drive, the `dph_addrs` table. */
  function DphAddr(drive: nat): Word
    requires drive < DRIVES
  {
    [DPH0_ADDR, DPH1_ADDR, DPH2_ADDR, DPH3_ADDR][drive]
  }

  /** The regions of the BIOS area, in address order. */
  datatype Region =
    | JumpTable     // 17 three-byte entries
    | SkewTable     // XLTTAB
    | ParamBlock    // DPB0
    | Headers       // DPH0..DPH3
    | DirBuffer     // DIRBUF
    | CheckVectors  // CSV0..CSV3
    | AllocVectors  // ALV0..ALV3

  function Start(r: Region): Word {
    match r
    case JumpTable => BIOS_BASE
    case SkewTable => XLTTAB_ADDR
    case ParamBlock => DPB0_ADDR
    case Headers => DPH0_ADDR
    case DirBuffer => DIRBUF_ADDR
    case CheckVectors => CSV0_ADDR
    case AllocVectors => ALV0_ADDR
  }

  function Size(r: Region): nat {
    match r
    case JumpTable => JUMP_ENTRIES * JUMP_ENTRY_SIZE
    case SkewTable => XLT_SIZE
    case ParamBlock => DPB_SIZE
    case Headers => DRIVES * DPH_SIZE
    case DirBuffer => DIRBUF_SIZE
    case CheckVectors => DRIVES * CSV_SIZE
    case AllocVectors => DRIVES * ALV_SIZE
  }

  predicate InRegion(r: Region, a: int) {
    Start(r) <= a < Start(r) + Size(r)
  }

  /** Each region begins where the previous one ends: the area from
      BIOS_BASE to BIOS_END is tiled without gaps. */
  lemma RegionsContiguous()
    ensures Start(JumpTable) == BIOS_BASE
    ensures Start(JumpTable) + Size(JumpTable) == Start(SkewTable)
    ensures Start(SkewTable) + Size(SkewTable) == Start(ParamBlock)
    ensures Start(ParamBlock) + Size(ParamBlock) == Start(Headers)
    ensures Start(Headers) + Size(Headers) == Start(DirBuffer)
    ensures Start(DirBuffer) + Size(DirBuffer) == Start(CheckVectors)
    ensures Start(CheckVectors) + Size(CheckVectors) == Start(AllocVectors)
    ensures Start(AllocVectors) + Size(AllocVectors) == BIOS_END
  {
  }

  /** The four DPHs are 16 bytes apart and DIRBUF follows the last one. */
  lemma HeadersContiguous()
    ensures forall d :: 0 <= d < DRIVES ==> DphAddr(d) == DPH0_ADDR + DPH_SIZE * d
    ensures DphAddr(DRIVES - 1) + DPH_SIZE == DIRBUF_ADDR
  {
  }

  /** The BIOS area lies above the CCP+BDOS load address and ends inside
      the 64 KiB address space. */
  lemma AreaFitsInMemory()
    ensures CPM_LOAD_ADDR < BIOS_BASE < BIOS_END <= 0x1_0000
    ensures BIOS_END == 0xF7D8
  {
  }

  /** The region an address of the BIOS area belongs to. */
  function RegionOf(a: int): (r: Region)
    requires BIOS_BASE <= a < BIOS_END
    ensures InRegion(r, a)
  {
    if a < XLTTAB_ADDR then JumpTable
    else if a < DPB0_ADDR then SkewTable
    else if a < DPH0_ADDR then ParamBlock
    else if a < DIRBUF_ADDR then Headers
    else if a < CSV0_ADDR then DirBuffer
    else if a < ALV0_ADDR then CheckVectors
    else AllocVectors
  }

  /** No address belongs to two regions, and no region reaches outside
      the BIOS area. */
  lemma RegionsDisjoint(r1: Region, r2: Region, a: int)
    requires InRegion(r1, a) && InRegion(r2, a)
    ensures r1 == r2
    ensures BIOS_BASE <= a < BIOS_END && RegionOf(a) == r1
  {
  }

  /** The 8" SSSD track and disk sizes in bytes. */
  lemma DiskGeometry()
    ensures CPM_TRACK_SIZE == 3328
    ensures CPM_DISK_SIZE == 77 * 3328 == 256256
  {
  }

  /** The BIOS entry points, in jump-table order (`enum BiosEntry`). */
  datatype BiosEntry =
    | Boot | WBoot | Const | ConIn | ConOut | List | Punch | Reader | Home
    | SelDsk | SetTrk | SetSec | SetDma | Read | Write | PrStat | SecTran

  /** The entry points in jump-table order. */
  const Entries: seq<BiosEntry> :=
    [Boot, WBoot, Const, ConIn, ConOut, List, Punch, Reader, Home,
     SelDsk, SetTrk, SetSec, SetDma, Read, Write, PrStat, SecTran]

  /** An entry point's offset from BIOS_BASE, as the enum assigns it. */
  function Offset(e: BiosEntry): Byte {
    match e
    case Boot => 0x00
    case WBoot => 0x03
    case Const => 0x06
    case ConIn => 0x09
    case ConOut => 0x0C
    case List => 0x0F
    case Punch => 0x12
    case Reader => 0x15
    case Home => 0x18
    case SelDsk => 0x1B
    case SetTrk => 0x1E
    case SetSec => 0x21
    case SetDma => 0x24
    case Read => 0x27
    case Write => 0x2A
    case PrStat => 0x2D
    case SecTran => 0x30
  }

  /** The entry point whose jump-table slot starts at offset `off`, if any. */
  function EntryAt(off: int): (r: Option<BiosEntry>)
    ensures r.Some? <==> 0 <= off < JUMP_ENTRIES * JUMP_ENTRY_SIZE && off % JUMP_ENTRY_SIZE == 0
    ensures r.Some? ==> Offset(r.value) == off
  {
    if 0 <= off < JUMP_ENTRIES * JUMP_ENTRY_SIZE && off % JUMP_ENTRY_SIZE == 0
    then Some(Entries[off / JUMP_ENTRY_SIZE])
    else None
  }

  /** The k-th entry sits at offset 3k, for k = 0..16, and SECTRN is the
      last one, at 0x30. */
  lemma OffsetsAreThreeApart()
    ensures |Entries| == JUMP_ENTRIES
    ensures forall k :: 0 <= k < |Entries| ==> Offset(Entries[k]) == JUMP_ENTRY_SIZE * k
    ensures Offset(SecTran) == 0x30
  {
  }

  /** Decoding an entry's offset gives the entry back, so the 17 entries
      have 17 distinct offsets. */
  lemma OffsetsDistinct(e: BiosEntry)
    ensures EntryAt(Offset(e)) == Some(e)
  {
  }
}
