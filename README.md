# CP/M BIOS tables and HBIOS emulator control, in Dafny

This project models two pieces of the iOS CP/M emulator and proves properties of them.

**The CP/M BIOS table builder.** `cpm_init_bios` writes the BIOS area of the 64 KiB guest memory in place. It writes these regions, in this order:

- the 17-entry jump table, where each entry is a `JMP` to itself;
- the 26-byte IBM 8" single-sided single-density (SSSD) sector skew table;
- one Disk Parameter Block (DPB);
- four Disk Parameter Headers (DPH), one per drive A–D;
- the directory buffer (DIRBUF), the checksum vectors (CSV) and the allocation vectors (ALV), all set to zero.

These are the tables of sections 6 and 10 of the CP/M 2.2 Alteration Guide. `cpm_is_bios_trap` tests whether the program counter lies inside the jump table.

How the model is built:

- The memory is an `array<Byte>`, and the routine is the method `InitBios`.
- The source's sections (loop, `memcpy`, cursor stores, drive loop, `memset`s) become one method each, in address order.
- Each section extends the invariant `Filled`: the area below some address holds the tables, and everything else is untouched.
- The bytes the tables should hold are given by the specification function `BiosImage`. It is built from the table values in `CpmTables`: the skew table, the DPB and DPH records, and their little-endian encodings.

**The HBIOS emulator control state machine.** `HBIOSEmulator` is a class whose fields the methods update in place:

- `running`, `waitingForInput`, `instructionCount`;
- `bootString`, `bootStringPos`, `controlifyMode`, `initializedRamBanks`;
- the registers and the selected bank.

Four more fields stand for collaborators whose code is not part of this model:

- `consoleInput`, the emu_console input queue;
- `pendingOutput`, the dispatcher's output buffer;
- `display`, the console output;
- `memoryCalls`, the calls made into banked memory.

Collaborators are handled as follows:

- The Z80 core and the HBIOS dispatcher are an oracle. `steps(j)` says what the j-th instruction of a batch did: the delegate callback, the dispatcher state afterwards, the registers and bank afterwards, the console characters consumed and the output produced.
- The dispatcher state before a batch is a parameter.
- The ROM loader's verdict is a parameter.
- `runBatch` is proved against the specification function `Batch` and its loop `RunFrom`. The lemmas relate them to `Executed`, the number of instructions a batch runs, which is defined independently.

Two facts about the source are kept as they are:

- Nothing ever advances `boot_string_pos`. `Valid()` records that it stays 0, and `HasInput` is true whenever a boot string is set.
- `hbios_core.h` does not declare `controlify_mode`, which `hbios_core.cc` uses. The model follows the `.cc` file.

Files: `bytes.dfy` (bytes, words, little-endian pairs), `cpm_layout.dfy` (`CPMBios.h`), `cpm_tables.dfy` and `cpm_bios.dfy` (`CPMBios.cc`), `hbios_core.dfy` (`hbios_core.cc`).

## Model

| member | source | states |
|---|---|---|
| Bytes.WordRoundTrip | iOSCPM/Core/CPMBios.cc:21-24 | the low byte `w & 0xFF` and the high byte `w >> 8` read back little-endian give `w` |
| Bytes.PairRoundTrip | iOSCPM/Core/CPMBios.cc:70-81 | a little-endian byte pair read as a word splits back into the same two bytes |
| CpmLayout.RegionsContiguous | iOSCPM/Core/CPMBios.h:17-34 | jump table, XLTTAB, DPB0, DPH0-3, DIRBUF, CSV0-3 and ALV0-3 each start where the previous ends, from BIOS_BASE to BIOS_END |
| CpmLayout.HeadersContiguous | iOSCPM/Core/CPMBios.h:28-32 | DPHk is DPH0 + 16k, and DIRBUF follows DPH3 |
| CpmLayout.AreaFitsInMemory | iOSCPM/Core/CPMBios.h:14-34 | CPM_LOAD_ADDR < BIOS_BASE < BIOS_END <= 0x10000, with BIOS_END = 0xF7D8 |
| CpmLayout.RegionOf | iOSCPM/Core/CPMBios.h:17-34 | every address of the BIOS area belongs to the region it returns |
| CpmLayout.RegionsDisjoint | iOSCPM/Core/CPMBios.h:17-34 | no address lies in two regions, and each region lies inside the BIOS area |
| CpmLayout.DiskGeometry | iOSCPM/Core/CPMBios.h:46-51 | a track is 3328 bytes, and a disk is 77 * 3328 = 256256 bytes |
| CpmLayout.EntryAt | iOSCPM/Core/CPMBios.h:36-44 | an offset names a BIOS entry exactly when it is a multiple of 3 below 51, and that entry's offset is the given one |
| CpmLayout.OffsetsAreThreeApart | iOSCPM/Core/CPMBios.h:37-44 | the k-th of the 17 entries has offset 3k, and SECTRN is 0x30 |
| CpmLayout.OffsetsDistinct | iOSCPM/Core/CPMBios.h:37-44 | decoding an entry's offset gives the entry back, so the 17 offsets are distinct |
| CpmTables.XlttabIsPermutation | iOSCPM/Core/CPMBios.cc:8-12 | the skew table has 26 distinct entries and holds exactly the sectors 1..26 |
| CpmTables.XlttabIsSkewSix | iOSCPM/Core/CPMBios.cc:8-12 | entry i is (6i mod 26) + 1, plus 1 on the second lap: a skew of 6 |
| CpmTables.DpbRoundTrip | iOSCPM/Core/CPMBios.cc:32-47 | decoding the 15-byte little-endian encoding of a DPB gives the same DPB |
| CpmTables.Dpb0IsConsistent | iOSCPM/Core/CPMBios.cc:33-47 | DPB0 satisfies the CP/M 2.2 rules: BLM = 2^BSH - 1 (1K blocks); SPT = 26 sectors; DSM + 1 = 243 = (77 - OFF) * 26 * 128 / 1024; the 31-byte ALV holds DSM + 1 bits; CKS = (DRM + 1) / 4 fits the 16-byte CSV; AL0/AL1 reserve the two directory blocks |
| CpmTables.DphRoundTrip | iOSCPM/Core/CPMBios.cc:60-81 | decoding the 16-byte little-endian encoding of a DPH gives the same DPH |
| CpmTables.DriveVectorsDisjoint | iOSCPM/Core/CPMBios.cc:52-58 | each drive's CSV (16 bytes) and ALV (31 bytes) lie inside their areas, and those of different drives do not overlap |
| CpmTables.Dpb0Bytes | iOSCPM/Core/CPMBios.cc:32-47 | the encoding of DPB0 is exactly 26,0,3,7,0,242,0,63,0,0xC0,0,16,0,2,0 |
| CpmTables.Dpb0Decodes | iOSCPM/Core/CPMBios.cc:33-47 | those bytes read as words give SPT 26, DSM 242, DRM 63, CKS 16 and OFF 2 |
| CpmTables.DphPointers | iOSCPM/Core/CPMBios.cc:70-81 | drive d's DPH decodes to its record, with little-endian pointers to DIRBUF, DPB0, CSV0 + 16d and ALV0 + 31d |
| CpmTables.DphScratchZero | iOSCPM/Core/CPMBios.cc:60-69 | the first 8 bytes of every DPH (XLT and the BDOS scratch words) are zero |
| CpmTables.DphBytes | iOSCPM/Core/CPMBios.cc:60-81 | byte by byte, a DPH is eight zeros, then the low and high bytes of DIRBUF, DPB0, the drive's CSV and the drive's ALV |
| CpmBios.JumpEntryIsSelfJump | iOSCPM/Core/CPMBios.cc:17-25 | entry i at a = 0xF600 + 3i holds 0xC3, a & 0xFF, a >> 8: a JMP to a itself |
| CpmBios.SkewTableInImage | iOSCPM/Core/CPMBios.cc:27-28 | the 26 bytes at XLTTAB are `xlttab` |
| CpmBios.ParamByte | iOSCPM/Core/CPMBios.cc:30-47 | the byte at DPB0 + i is the i-th byte the DPB code stores |
| CpmBios.ParamBlockInImage | iOSCPM/Core/CPMBios.cc:30-47 | the 15 bytes at DPB0 are the 15 stored bytes |
| CpmBios.HeaderByte | iOSCPM/Core/CPMBios.cc:55-81 | the byte at DPHd + k is byte k of drive d's DPH encoding |
| CpmBios.HeaderImageIsEncoding | iOSCPM/Core/CPMBios.cc:55-82 | the 16 bytes at DPHd are the encoding of drive d's DPH |
| CpmBios.WorkAreasZero | iOSCPM/Core/CPMBios.cc:84-87 | DIRBUF, the CSVs and the ALVs are zero |
| CpmBios.InitBios | iOSCPM/Core/CPMBios.cc:14-88 | afterwards every byte in [0xF600, 0xF7D8) is the table byte there, and every other byte is unchanged |
| CpmBios.WriteJumpTable | iOSCPM/Core/CPMBios.cc:20-25 | the loop over 17 entries extends the filled prefix to XLTTAB and touches nothing else |
| CpmBios.CopySkewTable | iOSCPM/Core/CPMBios.cc:28 | the `memcpy` extends the filled prefix to DPB0 |
| CpmBios.WriteParamBlock | iOSCPM/Core/CPMBios.cc:32-47 | the 15 cursor stores extend the filled prefix to DPH0 |
| CpmBios.WriteHeaders | iOSCPM/Core/CPMBios.cc:51-82 | the loop over 4 drives extends the filled prefix to DIRBUF |
| CpmBios.WriteHeader | iOSCPM/Core/CPMBios.cc:56-81 | one loop pass writes the 16 bytes of drive d's DPH at `dph_addrs[d]` |
| CpmBios.ClearWorkAreas | iOSCPM/Core/CPMBios.cc:84-87 | the three `memset`s complete the area up to BIOS_END without overwriting any earlier region |
| CpmBios.IsBiosTrap | iOSCPM/Core/CPMBios.cc:90-92 | true exactly for 0xF600 <= pc < 0xF633, and then pc lies in the slot of a BIOS entry |
| CpmBios.EntryPointsAreTraps | iOSCPM/Core/CPMBios.cc:90-92 | BIOS_BASE + offset of every entry is a trap; XLTTAB is not |
| HbiosCore.Controlify | iOSCPM/Core/hbios_core.cc:169-174 | letters of either case become 1..26, the characters '@'..'_' become 0..31, and everything else is unchanged |
| HbiosCore.ControlifyIgnoresCase | iOSCPM/Core/hbios_core.cc:171-173 | a lower-case letter gives the same code as its upper case, `ch - '@'` |
| HbiosCore.ControlifyIdempotent | iOSCPM/Core/hbios_core.cc:171-174 | converting a converted key changes nothing |
| HbiosCore.QueuedValue | iOSCPM/Core/hbios_core.cc:166-174 | LF becomes CR in every mode, OFF converts nothing else, and ONE_CHAR and STICKY apply the conversion |
| HbiosCore.ModeAfter | iOSCPM/Core/hbios_core.cc:175-178 | ONE_CHAR becomes OFF, whether or not the key converted; STICKY and OFF stay |
| HbiosCore.OffConvertsNothing | iOSCPM/Core/hbios_core.cc:165-182 | a run of keys queued with controlify off arrives as typed, except LF, which arrives as CR |
| HbiosCore.StickyConvertsAll | iOSCPM/Core/hbios_core.cc:165-182 | in sticky mode every key of a run is converted |
| HbiosCore.OneCharConvertsFirstOnly | iOSCPM/Core/hbios_core.cc:165-182 | in one-char mode only the first key of a run is converted |
| HbiosCore.CharValue | iOSCPM/Core/hbios_core.cc:245-246 | a boot-string `char` reaches the queue as an int that is congruent to its byte mod 256, equal to it for ASCII, negative from 0x80 up |
| HbiosCore.Keys | iOSCPM/Core/hbios_core.cc:245-247 | the queued values of a boot string, one per character, in order |
| HbiosCore.BootFeed | iOSCPM/Core/hbios_core.cc:243-249 | nothing for an empty boot string; otherwise its characters and then exactly one CR |
| HbiosCore.AsciiBootFeed | iOSCPM/Core/hbios_core.cc:243-249 | an ASCII boot string is queued unmodified, followed by CR |
| HbiosCore.Executed | iOSCPM/Core/hbios_core.cc:277-291 | a batch runs at most `count` instructions; none before the last ends it; if it stops short, the last one ended it |
| HbiosCore.StopsAtFirstEnd | iOSCPM/Core/hbios_core.cc:277-291 | the batch stops right after the first step that halts, makes a delegate callback, or leaves the dispatcher needing input or halted |
| HbiosCore.RunsToLimit | iOSCPM/Core/hbios_core.cc:277-291 | with no such step, exactly `count` instructions run |
| HbiosCore.LoopFlags | iOSCPM/Core/hbios_core.cc:277-291 | after the loop: waiting exactly if the last step needs input; running unless it halted or made a callback; count up by the steps run; registers and bank from the last step |
| HbiosCore.LoopInput | iOSCPM/Core/hbios_core.cc:277-291 | the console queue loses exactly the characters the executed steps consumed |
| HbiosCore.LoopOutput | iOSCPM/Core/hbios_core.cc:277-291 | the output buffer gains exactly what the executed steps produced, in order |
| HbiosCore.BatchEffect | iOSCPM/Core/hbios_core.cc:267-300 | not running: nothing changes. Dispatcher already needs input: only the waiting flag is set. Otherwise: `Executed` instructions run, with the flags, registers, queue and output above, and all buffered output goes to the display |
| HbiosCore.HbiosEmulator.constructor | iOSCPM/Core/hbios_core.cc:34-50 | a new emulator is in the reset state with an empty boot string |
| HbiosCore.HbiosEmulator.Reset | iOSCPM/Core/hbios_core.cc:60-84 | not running, not waiting, count 0, position 0, controlify OFF, no RAM banks marked, queue and buffer empty, registers 0, bank 0 |
| HbiosCore.HbiosEmulator.SetControlify | iOSCPM/Core/hbios_core.cc:161-163 | sets the mode |
| HbiosCore.HbiosEmulator.QueueInput | iOSCPM/Core/hbios_core.cc:165-188 | appends exactly one value, `QueuedValue(ch, mode)`, to the queue; the mode becomes `ModeAfter(mode)`; not waiting afterwards |
| HbiosCore.HbiosEmulator.HasInput | iOSCPM/Core/hbios_core.cc:190-192 | since the boot-string position stays 0, true exactly when the queue is non-empty or a boot string is set |
| HbiosCore.HbiosEmulator.SetBootString | iOSCPM/Core/hbios_core.cc:194-197 | stores the string and puts the position back to 0 |
| HbiosCore.HbiosEmulator.Start | iOSCPM/Core/hbios_core.cc:203-250 | running, not waiting, count 0, registers 0 (PC 0), bank 0, output buffer empty; the queue gains `BootFeed(bootString)` |
| HbiosCore.HbiosEmulator.Stop | iOSCPM/Core/hbios_core.cc:252-254 | not running |
| HbiosCore.HbiosEmulator.OnHalt | iOSCPM/Core/hbios_core.cc:17-19 | not running, nothing else changed |
| HbiosCore.HbiosEmulator.OnUnimplementedOpcode | iOSCPM/Core/hbios_core.cc:21-24 | not running, nothing else changed |
| HbiosCore.HbiosEmulator.ResetCallback | iOSCPM/Core/hbios_core.cc:219-226 | the SYSRESET callback selects bank 0 and sets PC to 0 |
| HbiosCore.HbiosEmulator.LoadRom | iOSCPM/Core/hbios_core.cc:99-111 | null data or size 0: returns false and makes no memory call. Otherwise: clears RAM, hands the first `size` bytes to the loader, and returns its verdict |
| HbiosCore.HbiosEmulator.RunBatch | iOSCPM/Core/hbios_core.cc:267-300 | the new state is `Batch` of the old one |
| HbiosCore.HbiosEmulator.Execute | iOSCPM/Core/hbios_core.cc:277-279 | one instruction: any delegate callback stops the machine; registers, bank, queue and buffer as the step says; count up by one |
| HbiosCore.HbiosEmulator.RunInstructions | iOSCPM/Core/hbios_core.cc:277-291 | the instruction loop ends in the state `RunFrom` gives |
| HbiosCore.HbiosEmulator.DrainOutput | iOSCPM/Core/hbios_core.cc:293-299 | the display gains the buffered characters in order, and the buffer becomes empty |

## Left out

- The Z80 core (`cpu.execute`, `set_cpu_mode`, the port handlers) and the HBIOS dispatcher (`hbios.getState`, `hbios.reset`, buffered I/O). Their code is not part of this model. Each instruction's effect comes from the `steps` oracle, and `hbios.reset` is modelled only as emptying the output buffer.
- Banked memory (`enable_banking`, `select_bank`, `clear_ram`), `emu_load_rom_from_buffer`, `emu_init_ram_bank` and `emu_complete_init`. These are code not part of this model. `select_bank` becomes the `bank` field, `clear_ram` and the loader are recorded in `memoryCalls`, and `emu_complete_init` is omitted.
- `initializeRamBankIfNeeded` and later updates of `initializedRamBanks`. The bank bitmap is only reset.
- Disk management (`loadDisk`, `getDiskData`, `setDiskSliceCount` and the rest) and file loading (`loadROMFromFile`, `loadDiskFromFile`): these are I/O and dispatcher calls.
- Logging and debugging (`emu_error`, `emu_log`, `logDebug`, `setDebug`).
- The destructor, which only calls `stop`.
- Threading: the model is sequential.
- HbiosCore.HbiosEmulator.RunBatch: the dispatcher is taken to report only RUNNING, NEEDS_INPUT or HALTED. `instruction_count` (a `long long`) is unbounded here, so its overflow is not modelled.
- HbiosCore.HbiosEmulator.Start: the reset callback's registration is not modelled as state. Its effect is the separate method `ResetCallback`.
- HbiosCore.HbiosEmulator.LoadRom: `data` and `size` describe a buffer the caller owns, so the method requires `size <= |data|`.
- CpmBios.InitBios: the memory is an array of at least 0xF7D8 bytes. The source takes a bare pointer and relies on the caller for a full 64 KiB.
