/** The tables of a CP/M 2.2 BIOS as values: the sector skew table, the
    Disk Parameter Block and the Disk Parameter Header (CP/M 2.2
    Alteration Guide, section 10), their byte encodings, and the values
    the emulator's BIOS installs for its four 8" SSSD drives. */
module CpmTables {
  import opened Bytes
  import opened CpmLayout

  /** The IBM 8" SSSD sector skew table `xlttab`. */
  const Xlttab: seq<Byte> :=
    [1, 7, 13, 19, 25, 5, 11, 17, 23, 3, 9, 15, 21,
     2, 8, 14, 20, 26, 6, 12, 18, 24, 4, 10, 16, 22]

  /** The table holds each of the 26 sector numbers 1..26 exactly once. */
  lemma XlttabIsPermutation()
    ensures |Xlttab| == CPM_SECTORS
    ensures forall i, j :: 0 <= i < j < |Xlttab| ==> Xlttab[i] != Xlttab[j]
    ensures forall s :: 1 <= s <= CPM_SECTORS <==> s in Xlttab
  {
  }

  /** The table is the standard CP/M skew of 6: logical sector i goes to
      physical sector 6i mod 26, plus one, plus one more on the second lap. */
  lemma XlttabIsSkewSix()
    ensures forall i :: 0 <= i < |Xlttab| ==> Xlttab[i] == (6 * i) % CPM_SECTORS + 1 + i / 13
  {
    forall i | 0 <= i < |Xlttab|
      ensures Xlttab[i] == (6 * i) % CPM_SECTORS + 1 + i / 13
    {
      SkewAt(i);
    }
  }

  /** The skew formula at one index, checked index by index. */
  lemma SkewAt(i: nat)
    requires i < |Xlttab|
    ensures Xlttab[i] == (6 * i) % CPM_SECTORS + 1 + i / 13
  {
    if i < 13 {
      assert i / 13 == 0;
      assert i == 0 || i == 1 || i == 2 || i == 3 || i == 4 || i == 5 || i == 6
        || i == 7 || i == 8 || i == 9 || i == 10 || i == 11 || i == 12;
    } else {
      assert i / 13 == 1;
      assert i == 13 || i == 14 || i == 15 || i == 16 || i == 17 || i == 18 || i == 19
        || i == 20 || i == 21 || i == 22 || i == 23 || i == 24 || i == 25;
    }
  }

  /** A CP/M 2.2 Disk Parameter Block. */
  datatype Dpb = Dpb(
    spt: Word,  // sectors per track
    bsh: Byte,  // block shift
    blm: Byte,  // block mask
    exm: Byte,  // extent mask
    dsm: Word,  // highest block number
    drm: Word,  // highest directory entry number
    al0: Byte,  // directory allocation bitmap, high byte
    al1: Byte,  // directory allocation bitmap, low byte
    cks: Word,  // checksum vector size
    off: Word)  // reserved tracks

  /** The DPB the BIOS installs at DPB0 for the 8" SSSD drives. */
  const Dpb0 := Dpb(26, 3, 7, 0, 242, 63, 0xC0, 0, 16, 2)

  /** The 15 bytes of a DPB in memory order, words little-endian. */
  function DecodeDpb(b: seq<Byte>): Dpb
    requires |b| == DPB_SIZE
  {
    Dpb(LeWord(b[0], b[1]), b[2], b[3], b[4], LeWord(b[5], b[6]), LeWord(b[7], b[8]),
        b[9], b[10], LeWord(b[11], b[12]), LeWord(b[13], b[14]))
  }

  function EncodeDpb(d: Dpb): (b: seq<Byte>)
    ensures |b| == DPB_SIZE
  {
    [Lo(d.spt), Hi(d.spt), d.bsh, d.blm, d.exm, Lo(d.dsm), Hi(d.dsm), Lo(d.drm), Hi(d.drm),
     d.al0, d.al1, Lo(d.cks), Hi(d.cks), Lo(d.off), Hi(d.off)]
  }

  /** Reading back the bytes of an encoded DPB gives the same DPB. */
  lemma DpbRoundTrip(d: Dpb)
    ensures DecodeDpb(EncodeDpb(d)) == d
  {
    WordRoundTrip(d.spt);
    WordRoundTrip(d.dsm);
    WordRoundTrip(d.drm);
    WordRoundTrip(d.cks);
    WordRoundTrip(d.off);
  }

  function Pow2(n: nat): (p: nat)
    ensures p >= 1
  {
    if n == 0 then 1 else 2 * Pow2(n - 1)
  }

  /** The rules of CP/M 2.2 that tie the DPB fields of a drive with the
      given geometry and vector sizes together. */
  ghost predicate ConsistentDpb(d: Dpb, tracks: nat, sectors: nat, alvBytes: nat, csvBytes: nat) {
    var blockSize := CPM_SECTOR_SIZE * Pow2(d.bsh);
    var dirBlocks := (d.drm + 1) * 32 / blockSize;
    && d.blm == Pow2(d.bsh) - 1
    && d.spt == sectors
    && d.off <= tracks
    && d.dsm + 1 == (tracks - d.off) * sectors * CPM_SECTOR_SIZE / blockSize
    && 8 * alvBytes >= d.dsm + 1
    && d.cks == (d.drm + 1) / 4
    && d.cks <= csvBytes
    && dirBlocks <= 16
    && d.al0 * 0x100 + d.al1 == 0x1_0000 - Pow2(16 - dirBlocks)
  }

  /** DPB0 describes 1K blocks (BSH 3, BLM 7), 26 sectors per track, 243
      blocks after the two reserved tracks, 64 directory entries in two
      blocks, and fits the 31-byte ALV and 16-byte CSV of each drive. */
  lemma Dpb0IsConsistent()
    ensures CPM_SECTOR_SIZE * Pow2(Dpb0.bsh) == 1024
    ensures Dpb0.dsm + 1 == 243
    ensures ConsistentDpb(Dpb0, CPM_TRACKS, CPM_SECTORS, ALV_SIZE, CSV_SIZE)
  {
    assert Pow2(3) == 8;
    assert Pow2(14) == 0x4000;
  }

  /** A CP/M 2.2 Disk Parameter Header. */
  datatype Dph = Dph(
    xlt: Word,       // sector translation table, 0 for none
    scratch1: Word,  // three words the BDOS uses
    scratch2: Word,
    scratch3: Word,
    dirbuf: Word,    // directory buffer
    dpb: Word,       // disk parameter block
    csv: Word,       // checksum vector
    alv: Word)       // allocation vector

  /** The 16 bytes of a DPH in memory order, words little-endian. */
  function DecodeDph(b: seq<Byte>): Dph
    requires |b| == DPH_SIZE
  {
    Dph(LeWord(b[0], b[1]), LeWord(b[2], b[3]), LeWord(b[4], b[5]), LeWord(b[6], b[7]),
        LeWord(b[8], b[9]), LeWord(b[10], b[11]), LeWord(b[12], b[13]), LeWord(b[14], b[15]))
  }

  function EncodeDph(h: Dph): (b: seq<Byte>)
    ensures |b| == DPH_SIZE
  {
    [Lo(h.xlt), Hi(h.xlt), Lo(h.scratch1), Hi(h.scratch1), Lo(h.scratch2), Hi(h.scratch2),
     Lo(h.scratch3), Hi(h.scratch3), Lo(h.dirbuf), Hi(h.dirbuf), Lo(h.dpb), Hi(h.dpb),
     Lo(h.csv), Hi(h.csv), Lo(h.alv), Hi(h.alv)]
  }

  /** Reading back the bytes of an encoded DPH gives the same DPH. */
  lemma DphRoundTrip(h: Dph)
    ensures DecodeDph(EncodeDph(h)) == h
  {
    WordRoundTrip(h.xlt);
    WordRoundTrip(h.scratch1);
    WordRoundTrip(h.scratch2);
    WordRoundTrip(h.scratch3);
    WordRoundTrip(h.dirbuf);
    WordRoundTrip(h.dpb);
    WordRoundTrip(h.csv);
    WordRoundTrip(h.alv);
  }

  /** The DPH of a drive: no translation (disk images are not skewed),
      zero scratch words, the shared DIRBUF and DPB0, and the drive's own
      16-byte CSV and 31-byte ALV. */
  function DriveDph(drive: nat): Dph
    requires drive < DRIVES
  {
    Dph(0, 0, 0, 0, DIRBUF_ADDR, DPB0_ADDR, CSV0_ADDR + CSV_SIZE * drive, ALV0_ADDR + ALV_SIZE * drive)
  }

  /** Each drive's CSV and ALV lie inside the check and allocation vector
      regions, and those of two different drives do not overlap. */
  lemma DriveVectorsDisjoint(d1: nat, d2: nat)
    requires d1 < DRIVES && d2 < DRIVES
    ensures InRegion(CheckVectors, DriveDph(d1).csv) && DriveDph(d1).csv + CSV_SIZE <= CSV0_ADDR + DRIVES * CSV_SIZE
    ensures InRegion(AllocVectors, DriveDph(d1).alv) && DriveDph(d1).alv + ALV_SIZE <= BIOS_END
    ensures d1 != d2 ==> DriveDph(d1).csv + CSV_SIZE <= DriveDph(d2).csv || DriveDph(d2).csv + CSV_SIZE <= DriveDph(d1).csv
    ensures d1 != d2 ==> DriveDph(d1).alv + ALV_SIZE <= DriveDph(d2).alv || DriveDph(d2).alv + ALV_SIZE <= DriveDph(d1).alv
  {
  }

  /** DPB0 as the 15 bytes the BIOS stores. */
  const DPB0_BYTES: seq<Byte> := [26, 0, 3, 7, 0, 242, 0, 63, 0, 0xC0, 0, 16, 0, 2, 0]

  /** Those bytes are the encoding of DPB0. */
  lemma Dpb0Bytes()
    ensures EncodeDpb(Dpb0) == DPB0_BYTES
  {
  }

  /** Read as little-endian words they give SPT 26, DSM 242, DRM 63,
      CKS 16 and OFF 2. */
  lemma Dpb0Decodes()
    ensures var d := DecodeDpb(DPB0_BYTES);
      d == Dpb0 && d.spt == 26 && d.dsm == 242 && d.drm == 63 && d.cks == 16 && d.off == 2
  {
  }

  /** Drive d's DPH reads back as DriveDph(d), with little-endian
      pointers to DIRBUF, DPB0, CSV0 + 16d and ALV0 + 31d in bytes 8..15. */
  lemma DphPointers(d: nat)
    requires d < DRIVES
    ensures var h := EncodeDph(DriveDph(d));
      && DecodeDph(h) == DriveDph(d)
      && LeWord(h[8], h[9]) == DIRBUF_ADDR
      && LeWord(h[10], h[11]) == DPB0_ADDR
      && LeWord(h[12], h[13]) == CSV0_ADDR + CSV_SIZE * d
      && LeWord(h[14], h[15]) == ALV0_ADDR + ALV_SIZE * d
  {
    DphRoundTrip(DriveDph(d));
  }

  /** The first eight bytes of every drive's DPH are zero: no translation
      table and zero scratch words. */
  lemma DphScratchZero(d: nat)
    requires d < DRIVES
    ensures EncodeDph(DriveDph(d))[..8] == [0, 0, 0, 0, 0, 0, 0, 0]
  {
  }

  /** Byte by byte, drive d's DPH is eight zero bytes and then the low and
      high bytes of DIRBUF, DPB0, CSVd and ALVd. */
  lemma DphBytes(d: nat)
    requires d < DRIVES
    ensures var h := EncodeDph(DriveDph(d));
      && h[0] == 0 && h[1] == 0 && h[2] == 0 && h[3] == 0
      && h[4] == 0 && h[5] == 0 && h[6] == 0 && h[7] == 0
      && h[8] == Lo(DIRBUF_ADDR) && h[9] == Hi(DIRBUF_ADDR)
      && h[10] == Lo(DPB0_ADDR) && h[11] == Hi(DPB0_ADDR)
      && h[12] == Lo(CSV0_ADDR + CSV_SIZE * d) && h[13] == Hi(CSV0_ADDR + CSV_SIZE * d)
      && h[14] == Lo(ALV0_ADDR + ALV_SIZE * d) && h[15] == Hi(ALV0_ADDR + ALV_SIZE * d)
  {
    var h := EncodeDph(DriveDph(d));
    DphScratchZero(d);
    assert forall k :: 0 <= k < 8 ==> h[k] == h[..8][k];
    DphPointers(d);
    PairRoundTrip(h[8], h[9]);
    PairRoundTrip(h[10], h[11]);
    PairRoundTrip(h[12], h[13]);
    PairRoundTrip(h[14], h[15]);
  }
}
