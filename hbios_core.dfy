/** The control state machine of the RomWBW HBIOS emulator: console input
    with LF-to-CR and "controlify" conversion, reset and start (with the
    boot string fed into the console queue), batches of instructions that
    stop on the instruction limit, on a dispatcher waiting for input or on a
    halt, the ROM-loading guard and the CPU delegate callbacks.

    The Z80 core and the HBIOS dispatcher are not part of this model. One
    executed instruction is described by a `Step` that an oracle supplies:
    the delegate callback the CPU made, the dispatcher state afterwards,
    the registers and bank afterwards, the console characters the
    dispatcher took and the output characters it buffered. */
module HbiosCore {
  import opened Bytes

  const LF := 0x0A
  const CR := 0x0D

  /** `ControlifyMode`: off, convert the next key only, convert every key. */
  datatype ControlifyMode = CtrlOff | CtrlOneChar | CtrlSticky

  /** `HBIOSState`, as `hbios.getState()` reports it. */
  datatype DispatchState = HbiosRunning | HbiosNeedsInput | HbiosHalted

  /** The delegate callback the CPU made while executing one instruction. */
  datatype CpuEvent =
    | NoEvent
    | HaltInstruction                             // onHalt
    | UnimplementedOpcode(opcode: Byte, pc: Word) // onUnimplementedOpcode

  /** The Z80 register pairs the emulator resets. */
  datatype Registers = Registers(af: Word, bc: Word, de: Word, hl: Word, pc: Word, sp: Word)

  const ZeroRegisters := Registers(0, 0, 0, 0, 0, 0)

  /** What one `cpu.execute()` did, as far as the emulator can observe it. */
  datatype Step = Step(
    event: CpuEvent,        // delegate callback made during the instruction
    state: DispatchState,   // `hbios.getState()` after the instruction
    regs: Registers,        // registers after the instruction
    bank: Byte,             // selected memory bank after the instruction
    keysRead: nat,          // console characters the dispatcher consumed
    output: seq<Byte>)      // characters the dispatcher buffered for display

  /** A call the emulator makes into the banked memory. */
  datatype MemoryCall = ClearRam | LoadRomBuffer(image: seq<Byte>)

  //===========================================================================
  // Console input conversion
  //===========================================================================

  /** The control-code conversion of one key: letters of either case become
      1..26, the other characters of '@'..'_' become 0 and 27..31, and every
      other value passes through. */
  function Controlify(ch: int): (r: int)
    ensures 'a' as int <= ch <= 'z' as int ==> r == ch - 'a' as int + 1
    ensures 'A' as int <= ch <= 'Z' as int ==> r == ch - 'A' as int + 1
    ensures '@' as int <= ch <= '_' as int ==> r == ch - '@' as int
    ensures '@' as int <= ch <= '_' as int || 'a' as int <= ch <= 'z' as int ==> 0 <= r < 32
    ensures !('@' as int <= ch <= '_' as int) && !('a' as int <= ch <= 'z' as int) ==> r == ch
  {
    var upper := if 'a' as int <= ch <= 'z' as int then ch - 32 else ch;
    if '@' as int <= upper <= '_' as int then upper - '@' as int else ch
  }

  /** Upper and lower case give the same control code. */
  lemma ControlifyIgnoresCase(ch: int)
    requires 'A' as int <= ch <= 'Z' as int
    ensures Controlify(ch + 32) == Controlify(ch) == ch - '@' as int
  {
  }

  /** A control code is left alone: converting twice is converting once. */
  lemma ControlifyIdempotent(ch: int)
    ensures Controlify(Controlify(ch)) == Controlify(ch)
  {
  }

  /** The value `queueInput` hands to the console queue for key `ch` in
      mode `mode`: LF becomes CR in every mode, OFF converts nothing else,
      and the other two modes apply the control-code conversion. */
  function QueuedValue(ch: int, mode: ControlifyMode): (r: int)
    ensures ch == LF ==> r == CR
    ensures mode == CtrlOff ==> r == (if ch == LF then CR else ch)
    ensures mode != CtrlOff && ch != LF ==> r == Controlify(ch)
  {
    var c := if ch == LF then CR else ch;
    if mode != CtrlOff then Controlify(c) else c
  }

  /** The mode after one `queueInput`: one-char mode is used up by any
      key, converted or not; the others stay. */
  function ModeAfter(mode: ControlifyMode): (m: ControlifyMode)
    ensures mode == CtrlSticky <==> m == CtrlSticky
    ensures m != CtrlOneChar
  {
    if mode == CtrlOneChar then CtrlOff else mode
  }

  /** The values a run of `queueInput` calls appends, starting in `mode`. */
  function QueueAll(keys: seq<int>, mode: ControlifyMode): (r: seq<int>)
    ensures |r| == |keys|
  {
    if keys == [] then [] else [QueuedValue(keys[0], mode)] + QueueAll(keys[1..], ModeAfter(mode))
  }

  /** With controlify off, keys are queued as typed except LF, which
      becomes CR. */
  lemma {:induction false} OffConvertsNothing(keys: seq<int>)
    ensures forall j :: 0 <= j < |keys| ==>
      QueueAll(keys, CtrlOff)[j] == if keys[j] == LF then CR else keys[j]
  {
    if keys != [] {
      OffConvertsNothing(keys[1..]);
      assert forall j :: 1 <= j < |keys| ==> keys[1..][j - 1] == keys[j];
    }
  }

  /** In sticky mode every key is converted. */
  lemma {:induction false} StickyConvertsAll(keys: seq<int>)
    ensures forall j :: 0 <= j < |keys| ==>
      QueueAll(keys, CtrlSticky)[j] == QueuedValue(keys[j], CtrlSticky)
  {
    if keys != [] {
      StickyConvertsAll(keys[1..]);
      assert forall j :: 1 <= j < |keys| ==> keys[1..][j - 1] == keys[j];
    }
  }

  /** In one-char mode only the first key is converted; the rest are
      queued as with controlify off. */
  lemma OneCharConvertsFirstOnly(keys: seq<int>)
    requires keys != []
    ensures QueueAll(keys, CtrlOneChar)[0] == QueuedValue(keys[0], CtrlOneChar)
    ensures forall j :: 1 <= j < |keys| ==>
      QueueAll(keys, CtrlOneChar)[j] == if keys[j] == LF then CR else keys[j]
  {
    var rest := QueueAll(keys[1..], CtrlOff);
    assert QueueAll(keys, CtrlOneChar) == [QueuedValue(keys[0], CtrlOneChar)] + rest;
    OffConvertsNothing(keys[1..]);
    forall j | 1 <= j < |keys|
      ensures QueueAll(keys, CtrlOneChar)[j] == if keys[j] == LF then CR else keys[j]
    {
      assert QueueAll(keys, CtrlOneChar)[j] == rest[j - 1];
      assert keys[1..][j - 1] == keys[j];
    }
  }

  //===========================================================================
  // Boot string
  //===========================================================================

  /** A `char` of the boot string as the `int` the console queue receives;
      `char` is signed on the iOS ABI, so bytes from 0x80 up come out
      negative. */
  function CharValue(b: Byte): (v: int)
    ensures -0x80 <= v < 0x80
    ensures v % 0x100 == b
    ensures b < 0x80 ==> v == b
  {
    if b < 0x80 then b else b - 0x100
  }

  /** The values of the boot string's characters, in order. */
  function Keys(s: seq<Byte>): (r: seq<int>)
    ensures |r| == |s|
    ensures forall j :: 0 <= j < |s| ==> r[j] == CharValue(s[j])
  {
    seq(|s|, j requires 0 <= j < |s| => CharValue(s[j]))
  }

  /** What `start` queues for boot string `s`: nothing when it is empty,
      otherwise its characters followed by one CR. */
  function BootFeed(s: seq<Byte>): (r: seq<int>)
    ensures s == [] <==> r == []
    ensures s != [] ==> |r| == |s| + 1 && r[|s|] == CR && r[..|s|] == Keys(s)
  {
    if s == [] then [] else Keys(s) + [CR]
  }

  /** An ASCII boot string reaches the queue unmodified, then one CR. */
  lemma AsciiBootFeed(s: seq<Byte>)
    requires s != [] && forall j :: 0 <= j < |s| ==> s[j] < 0x80
    ensures BootFeed(s) == s + [CR]
  {
    assert Keys(s) == s;
  }

  //===========================================================================
  // Batches of instructions
  //===========================================================================

  /** A step after which `runBatch` executes no further instruction: the CPU
      reported a halt or an unimplemented opcode, or the dispatcher waits for
      input or has halted. */
  predicate EndsBatch(s: Step) {
    s.event != NoEvent || s.state != HbiosRunning
  }

  /** The number of instructions a batch of `count` has executed when it
      stops, counting from step `i` on: it runs until `count`, or up to and
      including the first step that ends the batch. */
  function Executed(steps: nat -> Step, i: nat, count: int): (n: nat)
    ensures i <= n
    ensures i < count ==> i < n <= count
    ensures count <= i ==> n == i
    ensures forall j: nat :: i <= j < n - 1 ==> !EndsBatch(steps(j))
    ensures i < n < count ==> EndsBatch(steps(n - 1))
    decreases count - i
  {
    if count <= i then i
    else if EndsBatch(steps(i)) then i + 1
    else Executed(steps, i + 1, count)
  }

  /** The batch stops right after the first step that ends it. */
  lemma {:induction false} StopsAtFirstEnd(steps: nat -> Step, i: nat, count: int, k: nat)
    requires i <= k < count && EndsBatch(steps(k))
    requires forall j: nat :: i <= j < k ==> !EndsBatch(steps(j))
    ensures Executed(steps, i, count) == k + 1
    decreases k - i
  {
    if i < k {
      StopsAtFirstEnd(steps, i + 1, count, k);
    }
  }

  /** Without a step that ends it, the batch runs all `count` instructions. */
  lemma {:induction false} RunsToLimit(steps: nat -> Step, i: nat, count: int)
    requires i <= count
    requires forall j: nat :: i <= j < count ==> !EndsBatch(steps(j))
    ensures Executed(steps, i, count) == count
    decreases count - i
  {
    if i < count {
      RunsToLimit(steps, i + 1, count);
    }
  }

  /** The characters steps `i` .. `n - 1` buffered for display, in order. */
  function Emitted(steps: nat -> Step, i: nat, n: nat): (out: seq<Byte>)
    ensures i < n ==> steps(i).output <= out
    decreases n - i
  {
    if n <= i then [] else steps(i).output + Emitted(steps, i + 1, n)
  }

  /** The console characters steps `i` .. `n - 1` consumed. */
  function KeysRead(steps: nat -> Step, i: nat, n: nat): (k: nat)
    ensures i < n ==> k >= steps(i).keysRead
    decreases n - i
  {
    if n <= i then 0 else steps(i).keysRead + KeysRead(steps, i + 1, n)
  }

  /** The console queue after `k` characters have been taken from its
      front; taking from an empty queue takes nothing. */
  function Drop(q: seq<int>, k: nat): (r: seq<int>)
    ensures |r| == if k <= |q| then |q| - k else 0
    ensures forall j :: 0 <= j < |r| ==> r[j] == q[k + j]
  {
    if k <= |q| then q[k..] else []
  }

  /** Taking `a` and then `b` characters is taking `a + b`. */
  lemma DropTwice(q: seq<int>, a: nat, b: nat)
    ensures Drop(Drop(q, a), b) == Drop(q, a + b)
  {
    if a + b <= |q| {
      assert Drop(Drop(q, a), b) == q[a + b..];
    }
  }

  /** The part of the emulator's state a batch of instructions touches. */
  datatype Machine = Machine(
    running: bool,
    waitingForInput: bool,
    instructionCount: nat,
    regs: Registers,
    bank: Byte,
    consoleInput: seq<int>,
    pendingOutput: seq<Byte>,
    display: seq<Byte>)

  /** One pass of the instruction loop: `cpu.execute()` with its delegate
      callback and its effect on registers, bank, console queue and output
      buffer, `instruction_count++`, then the dispatcher-state checks. */
  function Advance(m: Machine, s: Step): Machine {
    m.(running := m.running && s.event == NoEvent && s.state != HbiosHalted,
       waitingForInput := m.waitingForInput || s.state == HbiosNeedsInput,
       instructionCount := m.instructionCount + 1,
       regs := s.regs,
       bank := s.bank,
       consoleInput := Drop(m.consoleInput, s.keysRead),
       pendingOutput := m.pendingOutput + s.output)
  }

  /** The instruction loop from its `i`-th pass on: it goes round while
      `i < count` and the machine runs, and breaks after a step that leaves
      the dispatcher waiting for input or halted. */
  function RunFrom(m: Machine, steps: nat -> Step, i: nat, count: int): Machine
    decreases count - i
  {
    if i < count && m.running then
      var m' := Advance(m, steps(i));
      if steps(i).state != HbiosRunning then m' else RunFrom(m', steps, i + 1, count)
    else m
  }

  /** The output poll at the end of `runBatch`. */
  function Drain(m: Machine): Machine {
    m.(display := m.display + m.pendingOutput, pendingOutput := [])
  }

  /** `runBatch(count)` on machine `m`, the dispatcher being in state
      `current` beforehand. */
  function Batch(m: Machine, count: int, current: DispatchState, steps: nat -> Step): Machine {
    if !m.running then m
    else if current == HbiosNeedsInput then m.(waitingForInput := true)
    else Drain(RunFrom(m.(waitingForInput := false), steps, 0, count))
  }

  /** The instruction loop, entered running and not waiting, executes
      `Executed(steps, i, count) - i` instructions; the flags are those the
      last of them left (waiting exactly when it needed input, stopped when
      it halted or made a delegate callback), and registers and bank are
      the last step's. */
  lemma {:induction false} LoopFlags(m: Machine, steps: nat -> Step, i: nat, count: int)
    requires m.running && !m.waitingForInput
    ensures var n := Executed(steps, i, count);
      var r := RunFrom(m, steps, i, count);
      && r.running == !(i < n && (steps(n - 1).event != NoEvent || steps(n - 1).state == HbiosHalted))
      && r.waitingForInput == (i < n && steps(n - 1).state == HbiosNeedsInput)
      && r.instructionCount == m.instructionCount + (n - i)
      && r.regs == (if n == i then m.regs else steps(n - 1).regs)
      && r.bank == (if n == i then m.bank else steps(n - 1).bank)
      && r.display == m.display
    decreases count - i
  {
    if i < count {
      if EndsBatch(steps(i)) {
        LastPass(m, steps, i, count);
      } else {
        LoopFlags(Advance(m, steps(i)), steps, i + 1, count);
      }
    }
  }

  /** The console queue loses exactly the characters the executed steps
      consumed. */
  lemma {:induction false} LoopInput(m: Machine, steps: nat -> Step, i: nat, count: int)
    requires m.running && !m.waitingForInput
    ensures RunFrom(m, steps, i, count).consoleInput
      == Drop(m.consoleInput, KeysRead(steps, i, Executed(steps, i, count)))
    decreases count - i
  {
    if i < count {
      if EndsBatch(steps(i)) {
        LastPass(m, steps, i, count);
      } else {
        var s := steps(i);
        var n := Executed(steps, i, count);
        LoopInput(Advance(m, s), steps, i + 1, count);
        assert KeysRead(steps, i, n) == s.keysRead + KeysRead(steps, i + 1, n);
        DropTwice(m.consoleInput, s.keysRead, KeysRead(steps, i + 1, n));
      }
    }
  }

  /** The output buffer gains exactly what the executed steps produced. */
  lemma {:induction false} LoopOutput(m: Machine, steps: nat -> Step, i: nat, count: int)
    requires m.running && !m.waitingForInput
    ensures RunFrom(m, steps, i, count).pendingOutput
      == m.pendingOutput + Emitted(steps, i, Executed(steps, i, count))
    decreases count - i
  {
    if i < count {
      if EndsBatch(steps(i)) {
        LastPass(m, steps, i, count);
      } else {
        var s := steps(i);
        var n := Executed(steps, i, count);
        LoopOutput(Advance(m, s), steps, i + 1, count);
        assert Emitted(steps, i, n) == s.output + Emitted(steps, i + 1, n);
        assert m.pendingOutput + Emitted(steps, i, n) == (m.pendingOutput + s.output) + Emitted(steps, i + 1, n);
      }
    }
  }

  /** A pass whose step ends the batch is the last one. */
  lemma LastPass(m: Machine, steps: nat -> Step, i: nat, count: int)
    requires m.running && !m.waitingForInput
    requires i < count && EndsBatch(steps(i))
    ensures Executed(steps, i, count) == i + 1
    ensures RunFrom(m, steps, i, count) == Advance(m, steps(i))
    ensures Emitted(steps, i, i + 1) == steps(i).output && KeysRead(steps, i, i + 1) == steps(i).keysRead
  {
    var m' := Advance(m, steps(i));
    if steps(i).state == HbiosRunning {
      assert !m'.running;
      assert RunFrom(m', steps, i + 1, count) == m';
    }
    assert Emitted(steps, i + 1, i + 1) == [];
  }

  /** `runBatch` on a stopped machine changes nothing; with the dispatcher
      already waiting it only sets the waiting flag; otherwise it executes
      `Executed(steps, 0, count)` instructions and moves all output buffered
      before and during the batch to the display. */
  lemma BatchEffect(m: Machine, count: int, current: DispatchState, steps: nat -> Step)
    ensures !m.running ==> Batch(m, count, current, steps) == m
    ensures m.running && current == HbiosNeedsInput ==>
      Batch(m, count, current, steps) == m.(waitingForInput := true)
    ensures m.running && current != HbiosNeedsInput ==>
      var n := Executed(steps, 0, count);
      var r := Batch(m, count, current, steps);
      && n <= (if count < 0 then 0 else count)
      && r.instructionCount == m.instructionCount + n
      && r.waitingForInput == (0 < n && steps(n - 1).state == HbiosNeedsInput)
      && r.running == !(0 < n && (steps(n - 1).event != NoEvent || steps(n - 1).state == HbiosHalted))
      && r.regs == (if n == 0 then m.regs else steps(n - 1).regs)
      && r.bank == (if n == 0 then m.bank else steps(n - 1).bank)
      && r.consoleInput == Drop(m.consoleInput, KeysRead(steps, 0, n))
      && r.pendingOutput == []
      && r.display == m.display + m.pendingOutput + Emitted(steps, 0, n)
  {
    if m.running && current != HbiosNeedsInput {
      LoopFlags(m.(waitingForInput := false), steps, 0, count);
      LoopInput(m.(waitingForInput := false), steps, 0, count);
      LoopOutput(m.(waitingForInput := false), steps, 0, count);
    }
  }

  //===========================================================================
  // The emulator
  //===========================================================================

  /** `HBIOSEmulator`. Besides the object's own fields, `consoleInput`
      stands for the emu_console input queue, `pendingOutput` for the
      dispatcher's output buffer, `display` for what was written to the
      console, and `memoryCalls` for the calls made into banked memory. */
  class HbiosEmulator {
    var running: bool
    var waitingForInput: bool
    var instructionCount: nat
    var bootString: seq<Byte>
    var bootStringPos: nat
    var controlifyMode: ControlifyMode
    var initializedRamBanks: Word  // bitmap of RAM banks 0x80..0x8F
    var regs: Registers
    var bank: Byte
    var consoleInput: seq<int>
    var pendingOutput: seq<Byte>
    var display: seq<Byte>
    var memoryCalls: seq<MemoryCall>

    /** No member ever advances `boot_string_pos`: it is 0 in every state
        the emulator can reach. */
    ghost predicate Valid()
      reads this
    {
      bootStringPos == 0
    }

    /** The state `reset` leaves behind. */
    ghost predicate IsReset()
      reads this
    {
      && !running && !waitingForInput
      && instructionCount == 0 && bootStringPos == 0
      && controlifyMode == CtrlOff && initializedRamBanks == 0
      && consoleInput == [] && pendingOutput == []
      && regs == ZeroRegisters && bank == 0
    }

    /** The constructor: an empty boot string, then `reset`. */
    constructor ()
      ensures IsReset() && Valid()
      ensures bootString == [] && display == [] && memoryCalls == []
    {
      bootString := [];
      display := [];
      memoryCalls := [];
      new;
      Reset();
    }

    /** `reset`: stops the machine, clears the flags, counters, controlify
        mode, console queue and dispatcher buffers, zeroes the registers and
        selects ROM bank 0. The boot string is kept. */
    method Reset()
      modifies this`running, this`waitingForInput, this`instructionCount, this`bootStringPos,
        this`controlifyMode, this`initializedRamBanks, this`consoleInput, this`pendingOutput,
        this`regs, this`bank
      ensures IsReset() && Valid()
    {
      running := false;
      waitingForInput := false;
      instructionCount := 0;
      bootStringPos := 0;
      controlifyMode := CtrlOff;
      initializedRamBanks := 0;
      consoleInput := [];      // emu_console_clear_queue
      pendingOutput := [];     // hbios.reset
      regs := ZeroRegisters;
      bank := 0;
    }

    method SetControlify(mode: ControlifyMode)
      modifies this`controlifyMode
      ensures controlifyMode == mode
    {
      controlifyMode := mode;
    }

    /** `queueInput`: appends exactly one value, the converted key, to the
        console queue, uses up one-char mode and clears the waiting flag. */
    method QueueInput(ch: int)
      modifies this`controlifyMode, this`consoleInput, this`waitingForInput
      ensures consoleInput == old(consoleInput) + [QueuedValue(ch, old(controlifyMode))]
      ensures controlifyMode == ModeAfter(old(controlifyMode))
      ensures !waitingForInput
    {
      var c := ch;
      if c == LF {
        c := CR;
      }
      if controlifyMode != CtrlOff {
        var upper := if 'a' as int <= c <= 'z' as int then c - 32 else c;
        if '@' as int <= upper <= '_' as int {
          c := upper - '@' as int;
        }
        if controlifyMode == CtrlOneChar {
          controlifyMode := CtrlOff;
        }
      }
      consoleInput := consoleInput + [c];
      if waitingForInput {
        waitingForInput := false;
      }
    }

    /** `hasInput`: the console queue is non-empty or the boot string has
        characters past `boot_string_pos`; since that position stays 0,
        any non-empty boot string keeps it true. */
    function HasInput(): (r: bool)
      reads this
      ensures Valid() ==> (r <==> consoleInput != [] || bootString != [])
      ensures !r ==> consoleInput == []
    {
      |consoleInput| > 0 || bootStringPos < |bootString|
    }

    method SetBootString(s: seq<Byte>)
      modifies this`bootString, this`bootStringPos
      ensures bootString == s && Valid()
    {
      bootString := s;
      bootStringPos := 0;
    }

    /** `start`: clears the dispatcher buffers, zeroes the registers, selects
        ROM bank 0, sets the machine running with a zero instruction count,
        and feeds the boot string and a CR to the console queue. */
    method Start()
      modifies this`pendingOutput, this`regs, this`bank, this`running,
        this`waitingForInput, this`instructionCount, this`consoleInput
      ensures running && !waitingForInput && instructionCount == 0
      ensures regs == ZeroRegisters && regs.pc == 0 && bank == 0
      ensures pendingOutput == []
      ensures consoleInput == old(consoleInput) + BootFeed(bootString)
    {
      pendingOutput := [];     // hbios.reset
      regs := ZeroRegisters;
      bank := 0;
      running := true;
      waitingForInput := false;
      instructionCount := 0;
      if bootString != [] {
        for i := 0 to |bootString|
          invariant running && !waitingForInput && instructionCount == 0
          invariant regs == ZeroRegisters && bank == 0 && pendingOutput == []
          invariant consoleInput == old(consoleInput) + Keys(bootString[..i])
        {
          assert Keys(bootString[..i + 1]) == Keys(bootString[..i]) + [CharValue(bootString[i])];
          consoleInput := consoleInput + [CharValue(bootString[i])];
        }
        assert bootString[..|bootString|] == bootString;
        consoleInput := consoleInput + [CR];
      }
    }

    method Stop()
      modifies this`running
      ensures !running
    {
      running := false;
    }

    /** `onHalt`, the CPU's HALT callback. */
    method OnHalt()
      modifies this`running
      ensures !running
    {
      running := false;
    }

    /** `onUnimplementedOpcode`: the CPU met an opcode it cannot execute. */
    method OnUnimplementedOpcode(opcode: Byte, pc: Word)
      modifies this`running
      ensures !running
    {
      running := false;
    }

    /** The SYSRESET callback `start` registers: ROM bank 0, PC 0. */
    method ResetCallback(resetType: Byte)
      modifies this`bank, this`regs
      ensures bank == 0 && regs == old(regs).(pc := 0)
    {
      bank := 0;
      regs := regs.(pc := 0);
    }

    /** `loadROM`: a missing or empty image is refused before RAM is
        touched; otherwise RAM is cleared and the image handed to the ROM
        loader, whose verdict is `loaderOk`. */
    method LoadRom(data: Option<seq<Byte>>, size: nat, loaderOk: bool) returns (ok: bool)
      requires data.Some? ==> size <= |data.value|
      modifies this`memoryCalls
      ensures data.None? || size == 0 ==> !ok && memoryCalls == old(memoryCalls)
      ensures data.Some? && size > 0 ==>
        ok == loaderOk && memoryCalls == old(memoryCalls) + [ClearRam, LoadRomBuffer(data.value[..size])]
    {
      if data.None? || size == 0 {
        return false;
      }
      memoryCalls := memoryCalls + [ClearRam];
      memoryCalls := memoryCalls + [LoadRomBuffer(data.value[..size])];
      ok := loaderOk;
    }

    /** The fields a batch of instructions touches. */
    function Snapshot(): Machine
      reads this
    {
      Machine(running, waitingForInput, instructionCount, regs, bank,
              consoleInput, pendingOutput, display)
    }

    /** `runBatch(count)`, the dispatcher being in state `current`
        beforehand and `steps(j)` the effect of the j-th instruction of the
        batch: the new state is `Batch` of the old one, and `BatchEffect`
        says what that is. */
    method RunBatch(count: int, current: DispatchState, steps: nat -> Step)
      modifies this`running, this`waitingForInput, this`instructionCount, this`regs,
        this`bank, this`consoleInput, this`pendingOutput, this`display
      ensures Snapshot() == Batch(old(Snapshot()), count, current, steps)
    {
      if !running {
        return;
      }
      if current == HbiosNeedsInput {
        waitingForInput := true;
        return;
      }
      waitingForInput := false;
      RunInstructions(count, steps);
      DrainOutput();
    }

    /** `cpu.execute()` followed by `instruction_count++`: the effect of one
        instruction, with the delegate callback it made. */
    method Execute(s: Step)
      modifies this`running, this`instructionCount, this`regs, this`bank,
        this`consoleInput, this`pendingOutput
      ensures running == (old(running) && s.event == NoEvent)
      ensures instructionCount == old(instructionCount) + 1
      ensures regs == s.regs && bank == s.bank
      ensures consoleInput == Drop(old(consoleInput), s.keysRead)
      ensures pendingOutput == old(pendingOutput) + s.output
    {
      match s.event {
        case NoEvent =>
        case HaltInstruction => OnHalt();
        case UnimplementedOpcode(opcode, pc) => OnUnimplementedOpcode(opcode, pc);
      }
      regs := s.regs;
      bank := s.bank;
      consoleInput := Drop(consoleInput, s.keysRead);
      pendingOutput := pendingOutput + s.output;
      instructionCount := instructionCount + 1;
    }

    /** The instruction loop of `runBatch`. */
    method RunInstructions(count: int, steps: nat -> Step)
      modifies this`running, this`waitingForInput, this`instructionCount, this`regs,
        this`bank, this`consoleInput, this`pendingOutput
      ensures Snapshot() == RunFrom(old(Snapshot()), steps, 0, count)
    {
      ghost var final := RunFrom(Snapshot(), steps, 0, count);
      var i := 0;
      while i < count && running
        invariant 0 <= i
        invariant RunFrom(Snapshot(), steps, i, count) == final
        decreases count - i
      {
        ghost var before := Snapshot();
        var s := steps(i);
        Execute(s);
        i := i + 1;
        if s.state == HbiosNeedsInput {
          waitingForInput := true;
          assert Snapshot() == Advance(before, s);
          break;
        }
        if s.state == HbiosHalted {
          running := false;
          assert Snapshot() == Advance(before, s);
          break;
        }
        assert Snapshot() == Advance(before, s);
      }
    }

    /** The output poll at the end of `runBatch`: every buffered character
        goes to the display, in order, and the buffer is emptied. */
    method DrainOutput()
      modifies this`pendingOutput, this`display
      ensures display == old(display) + old(pendingOutput)
      ensures pendingOutput == []
    {
      if pendingOutput != [] {
        var chars := pendingOutput;
        pendingOutput := [];
        for k := 0 to |chars|
          invariant pendingOutput == []
          invariant display == old(display) + chars[..k]
        {
          display := display + [chars[k]];
        }
        assert chars[..|chars|] == chars;
      }
    }
  }
}
