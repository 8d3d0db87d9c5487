/** The CP/M BIOS tables that the emulator writes into guest memory before
    CP/M starts: the BIOS jump table, the sector skew table, the Disk
    Parameter Block of an 8" SSSD drive and the Disk Parameter Headers of
    drives A to D (CP/M 2.2 Alteration Guide, sections 6 and 10), and the
    directory buffer, checksum and allocation vectors they point to. */
module CpmBios {
  import opened Bytes
  import opened CpmLayout
  import opened CpmTables

  /** The 8080/Z80 `JMP nnnn` opcode. */
  const JMP_OPCODE: Byte := 0xC3

  /** The byte at offset `off` of the jump table: entry `off / 3` is a JMP
      to its own address. */
  function JumpTableByte(off: nat): Byte
    requires off < JUMP_ENTRIES * JUMP_ENTRY_SIZE
  {
    var entry := BIOS_BASE + off / JUMP_ENTRY_SIZE * JUMP_ENTRY_SIZE;
    [JMP_OPCODE, Lo(entry), Hi(entry)][off % JUMP_ENTRY_SIZE]
  }

  /** The byte the BIOS tables hold at address `a` of the BIOS area. */
  function BiosImage(a: int): Byte
    requires BIOS_BASE <= a < BIOS_END
  {
    match RegionOf(a)
    case JumpTable => JumpTableByte(a - BIOS_BASE)
    case SkewTable => Xlttab[a - XLTTAB_ADDR]
    case ParamBlock => EncodeDpb(Dpb0)[a - DPB0_ADDR]
    case Headers => EncodeDph(DriveDph((a - DPH0_ADDR) / DPH_SIZE))[(a - DPH0_ADDR) % DPH_SIZE]
    case DirBuffer => 0
    case CheckVectors => 0
    case AllocVectors => 0
  }

  /** Every jump-table entry is `JMP` to its own address. */
  lemma JumpEntryIsSelfJump(i: nat)
    requires i < JUMP_ENTRIES
    ensures var a := BIOS_BASE + JUMP_ENTRY_SIZE * i;
      && BiosImage(a) == JMP_OPCODE
      && BiosImage(a + 1) == Lo(a)
      && BiosImage(a + 2) == Hi(a)
      && LeWord(BiosImage(a + 1), BiosImage(a + 2)) == a
  {
    var a := BIOS_BASE + JUMP_ENTRY_SIZE * i;
    SlotOffset(i, 0);
    SlotOffset(i, 1);
    SlotOffset(i, 2);
    WordRoundTrip(a);
  }

  /** Byte `k` of entry `i` lies at offset 3i + k: entry i, position k. */
  lemma SlotOffset(i: nat, k: nat)
    requires k < JUMP_ENTRY_SIZE
    ensures (JUMP_ENTRY_SIZE * i + k) / JUMP_ENTRY_SIZE == i
    ensures (JUMP_ENTRY_SIZE * i + k) % JUMP_ENTRY_SIZE == k
  {
  }

  /** The 26 bytes at XLTTAB are `xlttab`. */
  lemma SkewTableInImage()
    ensures forall i :: 0 <= i < XLT_SIZE ==> BiosImage(XLTTAB_ADDR + i) == Xlttab[i]
  {
  }

  /** The bytes of the BIOS tables from `from` on, `n` of them. */
  function ImageBytes(from: int, n: nat): (s: seq<Byte>)
    requires BIOS_BASE <= from && from + n <= BIOS_END
    ensures |s| == n && forall i :: 0 <= i < n ==> s[i] == BiosImage(from + i)
  {
    seq<Byte>(n, i requires 0 <= i < n => BiosImage(from + i))
  }

  /** The byte at offset i of DPB0. */
  lemma ParamByte(i: nat)
    requires i < DPB_SIZE
    ensures BiosImage(DPB0_ADDR + i) == DPB0_BYTES[i]
  {
    Dpb0Bytes();
    assert RegionOf(DPB0_ADDR + i) == ParamBlock;
  }

  /** The 15 bytes at DPB0 are 26,0,3,7,0,242,0,63,0,0xC0,0,16,0,2,0. */
  lemma ParamBlockInImage()
    ensures ImageBytes(DPB0_ADDR, DPB_SIZE) == DPB0_BYTES
  {
    var img := ImageBytes(DPB0_ADDR, DPB_SIZE);
    forall i | 0 <= i < DPB_SIZE
      ensures img[i] == DPB0_BYTES[i]
    {
      ParamByte(i);
    }
  }

  /** The byte at offset k of drive d's DPH is byte k of DriveDph(d). */
  lemma HeaderByte(d: nat, k: nat)
    requires d < DRIVES && k < DPH_SIZE
    ensures BiosImage(DphAddr(d) + k) == EncodeDph(DriveDph(d))[k]
  {
    HeadersContiguous();
    assert (DphAddr(d) + k - DPH0_ADDR) / DPH_SIZE == d;
    assert (DphAddr(d) + k - DPH0_ADDR) % DPH_SIZE == k;
  }

  /** The 16 bytes at drive d's DPH are the encoding of DriveDph(d). */
  lemma HeaderImageIsEncoding(d: nat)
    requires d < DRIVES
    ensures ImageBytes(DphAddr(d), DPH_SIZE) == EncodeDph(DriveDph(d))
  {
    var h := ImageBytes(DphAddr(d), DPH_SIZE);
    forall k | 0 <= k < DPH_SIZE
      ensures h[k] == EncodeDph(DriveDph(d))[k]
    {
      HeaderByte(d, k);
    }
  }

  /** DIRBUF, the CSVs and the ALVs are zero. */
  lemma WorkAreasZero(a: int)
    requires InRegion(DirBuffer, a) || InRegion(CheckVectors, a) || InRegion(AllocVectors, a)
    ensures BIOS_BASE <= a < BIOS_END && BiosImage(a) == 0
  {
  }

  /** `mem` holds the BIOS tables below `limit` and the bytes of `orig`
      everywhere else. */
  ghost predicate Filled(mem: array<Byte>, orig: seq<Byte>, limit: int)
    reads mem
  {
    && BIOS_BASE <= limit <= BIOS_END
    && |orig| == mem.Length
    && forall a :: 0 <= a < mem.Length ==>
         mem[a] == if BIOS_BASE <= a < limit then BiosImage(a) else orig[a]
  }

  /** `cpm_init_bios`: writes the BIOS tables into the 64 KiB memory in
      place and changes no byte outside BIOS_BASE..BIOS_END. The sections
      of the routine are the methods below, in address order. */
  method InitBios(mem: array<Byte>)
    requires mem.Length >= BIOS_END
    modifies mem
    ensures forall a :: 0 <= a < mem.Length ==>
      mem[a] == if BIOS_BASE <= a < BIOS_END then BiosImage(a) else old(mem[a])
  {
    ghost var orig := mem[..];
    WriteJumpTable(mem, orig);
    CopySkewTable(mem, orig);
    WriteParamBlock(mem, orig);
    WriteHeaders(mem, orig);
    ClearWorkAreas(mem, orig);
  }

  /** One store of the table-writing code: the byte written at the first
      address not yet filled is the one the tables hold there. */
  method Store(mem: array<Byte>, ghost orig: seq<Byte>, addr: Word, v: Byte)
    requires mem.Length >= BIOS_END && Filled(mem, orig, addr)
    requires addr < BIOS_END && v == BiosImage(addr)
    modifies mem
    ensures Filled(mem, orig, addr + 1)
  {
    mem[addr] := v;
  }

  /** The jump table: 17 entries, each a JMP to itself. */
  method WriteJumpTable(mem: array<Byte>, ghost orig: seq<Byte>)
    requires mem.Length >= BIOS_END && Filled(mem, orig, BIOS_BASE)
    modifies mem
    ensures Filled(mem, orig, XLTTAB_ADDR)
  {
    for i := 0 to JUMP_ENTRIES
      invariant Filled(mem, orig, BIOS_BASE + JUMP_ENTRY_SIZE * i)
    {
      var addr: Word := BIOS_BASE + i * 3;
      JumpEntryIsSelfJump(i);
      Store(mem, orig, addr, JMP_OPCODE);
      Store(mem, orig, addr + 1, Lo(addr));  // addr & 0xFF
      Store(mem, orig, addr + 2, Hi(addr));  // addr >> 8
    }
  }

  /** The `memcpy` of `xlttab` to XLTTAB. */
  method CopySkewTable(mem: array<Byte>, ghost orig: seq<Byte>)
    requires mem.Length >= BIOS_END && Filled(mem, orig, XLTTAB_ADDR)
    modifies mem
    ensures Filled(mem, orig, DPB0_ADDR)
  {
    forall a | XLTTAB_ADDR <= a < XLTTAB_ADDR + XLT_SIZE {
      mem[a] := Xlttab[a - XLTTAB_ADDR];
    }
  }

  /** One store of the DPB code: the next byte of DPB0_BYTES. */
  method StoreParam(mem: array<Byte>, ghost orig: seq<Byte>, addr: Word, v: Byte)
    requires mem.Length >= BIOS_END && Filled(mem, orig, addr)
    requires DPB0_ADDR <= addr < DPB0_ADDR + DPB_SIZE && v == DPB0_BYTES[addr - DPB0_ADDR]
    modifies mem
    ensures Filled(mem, orig, addr + 1)
  {
    ParamByte(addr - DPB0_ADDR);
    Store(mem, orig, addr, v);
  }

  /** DPB0, written through a post-incremented byte cursor that starts at
      DPB0: its k-th store goes to DPB0 + k. */
  method WriteParamBlock(mem: array<Byte>, ghost orig: seq<Byte>)
    requires mem.Length >= BIOS_END && Filled(mem, orig, DPB0_ADDR)
    modifies mem
    ensures Filled(mem, orig, DPH0_ADDR)
  {
    StoreParam(mem, orig, DPB0_ADDR + 0, 26);   // SPT low
    StoreParam(mem, orig, DPB0_ADDR + 1, 0);    // SPT high
    StoreParam(mem, orig, DPB0_ADDR + 2, 3);    // BSH
    StoreParam(mem, orig, DPB0_ADDR + 3, 7);    // BLM
    StoreParam(mem, orig, DPB0_ADDR + 4, 0);    // EXM
    StoreParam(mem, orig, DPB0_ADDR + 5, 242);  // DSM low
    StoreParam(mem, orig, DPB0_ADDR + 6, 0);    // DSM high
    StoreParam(mem, orig, DPB0_ADDR + 7, 63);   // DRM low
    StoreParam(mem, orig, DPB0_ADDR + 8, 0);    // DRM high
    StoreParam(mem, orig, DPB0_ADDR + 9, 0xC0); // AL0
    StoreParam(mem, orig, DPB0_ADDR + 10, 0);   // AL1
    StoreParam(mem, orig, DPB0_ADDR + 11, 16);  // CKS low
    StoreParam(mem, orig, DPB0_ADDR + 12, 0);   // CKS high
    StoreParam(mem, orig, DPB0_ADDR + 13, 2);   // OFF low
    StoreParam(mem, orig, DPB0_ADDR + 14, 0);   // OFF high
  }

  /** One store of the DPH code: byte `k` of drive `drive`'s DPH. */
  method StoreHeader(mem: array<Byte>, ghost orig: seq<Byte>, drive: nat, dph: Word, k: nat, v: Byte)
    requires drive < DRIVES && dph == DphAddr(drive) && k < DPH_SIZE
    requires mem.Length >= BIOS_END && Filled(mem, orig, dph + k)
    requires v == EncodeDph(DriveDph(drive))[k]
    modifies mem
    ensures Filled(mem, orig, dph + k + 1)
  {
    HeaderByte(drive, k);
    Store(mem, orig, dph + k, v);
  }

  /** One DPH per drive A..D. */
  method WriteHeaders(mem: array<Byte>, ghost orig: seq<Byte>)
    requires mem.Length >= BIOS_END && Filled(mem, orig, DPH0_ADDR)
    modifies mem
    ensures Filled(mem, orig, DIRBUF_ADDR)
  {
    var dphAddrs := [DPH0_ADDR, DPH1_ADDR, DPH2_ADDR, DPH3_ADDR];
    var csvBase := CSV0_ADDR;
    var alvBase := ALV0_ADDR;
    HeadersContiguous();
    for drive := 0 to DRIVES
      invariant Filled(mem, orig, DPH0_ADDR + DPH_SIZE * drive)
    {
      var dph: Word := dphAddrs[drive];
      var csv: Word := csvBase + drive * 16;
      var alv: Word := alvBase + drive * 31;
      WriteHeader(mem, orig, drive, dph, csv, alv);
    }
  }

  /** The body of the drive loop: the 16 bytes of one DPH. */
  method WriteHeader(mem: array<Byte>, ghost orig: seq<Byte>, drive: nat, dph: Word, csv: Word, alv: Word)
    requires drive < DRIVES && dph == DphAddr(drive)
    requires csv == CSV0_ADDR + CSV_SIZE * drive && alv == ALV0_ADDR + ALV_SIZE * drive
    requires mem.Length >= BIOS_END && Filled(mem, orig, dph)
    modifies mem
    ensures Filled(mem, orig, dph + DPH_SIZE)
  {
    DphBytes(drive);
    StoreHeader(mem, orig, drive, dph, 0, 0);             // XLT: no translation
    StoreHeader(mem, orig, drive, dph, 1, 0);
    StoreHeader(mem, orig, drive, dph, 2, 0);             // BDOS scratch words
    StoreHeader(mem, orig, drive, dph, 3, 0);
    StoreHeader(mem, orig, drive, dph, 4, 0);
    StoreHeader(mem, orig, drive, dph, 5, 0);
    StoreHeader(mem, orig, drive, dph, 6, 0);
    StoreHeader(mem, orig, drive, dph, 7, 0);
    StoreHeader(mem, orig, drive, dph, 8, Lo(DIRBUF_ADDR)); // DIRBUF
    StoreHeader(mem, orig, drive, dph, 9, Hi(DIRBUF_ADDR));
    StoreHeader(mem, orig, drive, dph, 10, Lo(DPB0_ADDR)); // DPB
    StoreHeader(mem, orig, drive, dph, 11, Hi(DPB0_ADDR));
    StoreHeader(mem, orig, drive, dph, 12, Lo(csv));      // CSV
    StoreHeader(mem, orig, drive, dph, 13, Hi(csv));
    StoreHeader(mem, orig, drive, dph, 14, Lo(alv));      // ALV
    StoreHeader(mem, orig, drive, dph, 15, Hi(alv));
  }

  /** The `memset`s of DIRBUF, the CSVs and the ALVs. */
  method ClearWorkAreas(mem: array<Byte>, ghost orig: seq<Byte>)
    requires mem.Length >= BIOS_END && Filled(mem, orig, DIRBUF_ADDR)
    modifies mem
    ensures Filled(mem, orig, BIOS_END)
  {
    forall a | DIRBUF_ADDR <= a < DIRBUF_ADDR + DIRBUF_SIZE {
      mem[a] := 0;
    }
    forall a | CSV0_ADDR <= a < CSV0_ADDR + DRIVES * CSV_SIZE {
      mem[a] := 0;
    }
    forall a | ALV0_ADDR <= a < ALV0_ADDR + DRIVES * ALV_SIZE {
      mem[a] := 0;
    }
  }

  /** `cpm_is_bios_trap`: the program counter is inside the jump table. */
  function IsBiosTrap(pc: Word): (r: bool)
    ensures r <==> InRegion(JumpTable, pc)
    ensures r ==> EntryAt((pc - BIOS_BASE) / JUMP_ENTRY_SIZE * JUMP_ENTRY_SIZE).Some?
  {
    pc >= BIOS_BASE && pc < BIOS_BASE + 0x33
  }

  /** Every BIOS entry point is a trap address; XLTTAB, the first byte
      after the table, is not. */
  lemma EntryPointsAreTraps(e: BiosEntry)
    ensures IsBiosTrap(BIOS_BASE + Offset(e))
    ensures !IsBiosTrap(XLTTAB_ADDR)
  {
  }
}
