/**
 * The chip and the simulator on the same program: where their flags agree, and that they leave the
 * same stacks in every run that only branches on such flags.
 */
module HardwareAgrees {
  import opened Wrappers
  import opened Isa
  import opened StackMachine
  import opened WordMemory
  import opened RegisterCache
  import opened RegisterCacheProofs
  import opened RegisterFetch
  import Simulator
  import Conditions
  import InstructionBytes
  import opened AssembledCode

  // ----- flags -----

  /** On the same flags the chip and the simulator decide alike. */
  lemma ConditionsAgree(f: Flags, k: Byte)
    requires k < 16
    ensures ConditionHolds(f, k) <==> Simulator.Matches(f, CONDITIONS[k])
  {
  }

  lemma SignIsABit(a: Word)
    ensures InstructionBytes.Bit(a, 15) <==> TopBit(a)
  {
    assert Power2(15) == 0x8000 by {
      SixteenBits();
      assert Power2(16) == 2 * Power2(15);
    }
  }

  lemma SignsOfLogic(a: Word, b: Word)
    ensures TopBit(And(a, b)) <==> TopBit(a) && TopBit(b)
    ensures TopBit(Or(a, b)) <==> TopBit(a) || TopBit(b)
    ensures TopBit(Xor(a, b)) <==> TopBit(a) != TopBit(b)
    ensures TopBit(Not(a)) <==> !TopBit(a)
  {
    InstructionBytes.LogicIsBitwise(a, b, 15);
    SignIsABit(a);
    SignIsABit(b);
    SignIsABit(And(a, b));
    SignIsABit(Or(a, b));
    SignIsABit(Xor(a, b));
    SignIsABit(Not(a));
  }

  /** Where the chip's flags are the simulator's: a sum keeps zero and sign, and some signs look like an overflow. */
  predicate Agree(f: Flags, op: Op, a: Word, b: Word) {
    match op
    case Add => (f.zero <==> Conditions.Sums(0, a, b)) && (f.sign <==> Conditions.Sums(2, a, b))
    case Sub => (f.zero <==> Conditions.Relates(0, a, b)) && (f.sign <==> Conditions.Relates(2, a, b))
    case LogicalXor => !(TopBit(a) && TopBit(b))
    case LogicalNot => TopBit(a) != TopBit(b)
    case _ => true
  }

  lemma FlagsAgreeExactly(f: Flags, op: Op, a: Word, b: Word)
    requires !IsShift(op)
    ensures FlagsEdge(f, OpCode(op), a, b) == Simulator.AluFlags(op, a, b) <==> Agree(f, op, a, b)
  {
    SignsOfLogic(a, b);
    SignsOfLogic(b, a);
    match op
    case Add => SumFlags(f, a, b);
    case Sub => DifferenceFlags(f, a, b);
    case Compare => DifferenceFlags(f, a, b);
    case _ =>
  }

  /** The chip has no shifter: by the bytes 4 to 7 it leaves zero, which is right exactly when the shift leaves nothing. */
  lemma ShiftsAreLost(i: Inputs, x: Outputs, op: Op)
    requires i.instruction in [4, 5, 6, 7] && Decode(i.instruction) == Some(ArithmeticOrLogic(op))
    ensures Execute(i, x).t1 == 0 && Execute(i, x).t2 == i.t3
    ensures Alu(op, i.t2, i.t1) == Some(Execute(i, x).t1) <==> Alu(op, i.t2, i.t1) == Some(0)
  {
  }

  lemma SumFlags(f: Flags, a: Word, b: Word)
    ensures var g, s := FlagsEdge(f, 0, a, b), Simulator.AluFlags(Add, a, b);
            && g.carry == s.carry && g.overflow == s.overflow && g.zero == f.zero && g.sign == f.sign
            && (s.zero <==> Conditions.Sums(0, a, b)) && (s.sign <==> Conditions.Sums(2, a, b))
  {
  }

  /** Of a sum or a difference carry and overflow are always right. */
  lemma DifferenceFlags(f: Flags, a: Word, b: Word)
    ensures var g, s := FlagsEdge(f, 1, a, b), Simulator.AluFlags(Sub, a, b);
            && g.carry == s.carry && g.overflow == s.overflow && g.zero == f.zero && g.sign == f.sign
            && (s.zero <==> Conditions.Relates(0, a, b)) && (s.sign <==> Conditions.Relates(2, a, b))
            && FlagsEdge(f, 15, a, b) == s == Simulator.AluFlags(Compare, a, b)
  {
  }

  // ----- one step -----

  /** The same bytes, in the simulator's memory and in the chip's. */
  predicate SameCode(code: Memory, rom: Rom) {
    |code| == 512 && forall a | 0 <= a < 512 :: code[a] == ByteAt(rom, a)
  }

  /** It is so when each word of the chip's memory is two bytes of the simulator's, the first one high. */
  lemma BytesInWords(code: Memory, rom: Rom)
    requires |code| == 512
    ensures SameCode(code, rom) <==> forall i | 0 <= i < 256 :: Some(rom[i]) == ReadWord(code, 2 * i)
  {
    if SameCode(code, rom) {
      forall i | 0 <= i < 256 ensures Some(rom[i]) == ReadWord(code, 2 * i) {
        assert code[2 * i] == ByteAt(rom, 2 * i) && code[2 * i + 1] == ByteAt(rom, 2 * i + 1);
        JoinSplit(rom[i]);
      }
    }
    if forall i | 0 <= i < 256 :: Some(rom[i]) == ReadWord(code, 2 * i) {
      forall a | 0 <= a < 512 ensures code[a] == ByteAt(rom, a) {
        var i := a / 2;
        assert Some(rom[i]) == ReadWord(code, 2 * i);
        JoinHalves(code[2 * i], code[2 * i + 1]);
      }
    }
  }

  /** The instruction at the counter, if the counter is inside. */
  function Here(code: Memory, m: Machine): Option<Instruction> {
    if m.pc + 1 < |code| then Decode(code[m.pc]) else None
  }

  /** Compares, tests, and two of the logical operations set all flags alike. */
  predicate SetsAlike(i: Instruction) {
    i.ArithmeticOrLogic? && (i.op == Compare || i.op == Test || i.op == LogicalAnd || i.op == LogicalOr)
  }

  predicate LooksAtFlags(i: Instruction) {
    i.Jump? && i.condition != Always && i.condition != Never
  }

  lemma SameFetch(code: Memory, rom: Rom, pc: Word)
    requires SameCode(code, rom) && pc + 1 < 512
    ensures Simulator.Fetch(code, pc).Some? <==> InstructionAt(rom, pc).Some?
    ensures InstructionAt(rom, pc) == Decode(code[pc])
    ensures Simulator.Fetch(code, pc).Some? ==>
              Simulator.Fetch(code, pc).value == (InstructionAt(rom, pc).value, ByteAt(rom, Successor(pc % 512)))
  {
    ReadByteIsIndexing(code, pc);
    ReadByteIsIndexing(code, pc + 1);
  }

  lemma SameCondition(f: Flags, g: Flags, i: Instruction)
    requires !LooksAtFlags(i) || f == g
    ensures (i.Jump? && ConditionHolds(f, ConditionCode(i.condition))) == (i.Jump? && Simulator.Matches(g, i.condition))
  {
    if i.Jump? {
      ConditionsAgree(f, ConditionCode(i.condition));
      ConditionsAgree(g, ConditionCode(i.condition));
    }
  }

  /** A tick of the simulator that asks for nothing is a step of the plain machine that the chip refines. */
  lemma SameStep(code: Memory, rom: Rom, a: CoreState, b: CoreState, p: Plain, i: Instruction)
    requires SameCode(code, rom) && Follows(code, a, b) && Here(code, a.machine) == Some(i) && InHardware(i) && Fits(b.machine)
    requires p.machine == a.machine && (LooksAtFlags(i) ==> p.flags == a.registers.flags)
    ensures GoesOn(rom, p, i, b.machine)
  {
    SameFetch(code, rom, a.machine.pc);
    SameCondition(p.flags, a.registers.flags, i);
  }

  lemma SameFlags(code: Memory, rom: Rom, a: CoreState, b: CoreState, p: Plain, i: Instruction)
    requires SameCode(code, rom) && Follows(code, a, b) && Here(code, a.machine) == Some(i) && InHardware(i)
    requires p.machine == a.machine
    ensures SetsAlike(i) || (!i.ArithmeticOrLogic? && p.flags == a.registers.flags) ==> PlainFlags(p, i) == b.registers.flags
  {
    SameFetch(code, rom, a.machine.pc);
    var s := a.machine.stack;
    if SetsAlike(i) {
      assert |s| >= 2;
      FlagsAgreeExactly(p.flags, i.op, s[1], s[0]);
    }
  }

  // ----- whole runs -----

  /** After `k` ticks the last operation was one that sets all flags alike, or nothing has changed since an equal start. */
  predicate Trusted(code: Memory, ss: seq<CoreState>, k: nat, equal: bool)
    requires k < |ss|
  {
    if k == 0 then equal
    else
      var i := Here(code, ss[k - 1].machine);
      if i.Some? && i.value.ArithmeticOrLogic? then SetsAlike(i.value) else Trusted(code, ss, k - 1, equal)
  }

  /** The run has the hardware's instructions, fits, and branches only on flags that are trusted. */
  ghost predicate Suits(code: Memory, ss: seq<CoreState>, equal: bool) {
    && Ticks(code, ss)
    && forall k | 0 <= k < |ss| ::
         && Fits(ss[k].machine)
         && var i := Here(code, ss[k].machine);
         i.Some? && InHardware(i.value) && (LooksAtFlags(i.value) ==> Trusted(code, ss, k, equal))
  }

  /** The chip stands for the simulator's machine, and if the flags are trusted they are equal. */
  ghost predicate StandsForCore(h: Chip, rom: Rom, c: CoreState, trusted: bool) {
    && Ready(h.cpu) && Holds(CacheOf(h.cpu), c.machine.stack, c.machine.calls) && Ahead(h.fetch, rom, c.machine.pc)
    && (trusted ==> h.flags == c.registers.flags)
  }

  lemma OneTickRuns(h: Chip, code: Memory, rom: Rom, wires: Wires, ss: seq<CoreState>, k: nat, equal: bool) returns (r: Chip)
    requires SameCode(code, rom) && Suits(code, ss, equal) && k + 1 < |ss|
    requires StandsForCore(h, rom, ss[k], Trusted(code, ss, k, equal))
    ensures Gets(rom, wires, h, r) && StandsForCore(r, rom, ss[k + 1], Trusted(code, ss, k + 1, equal))
  {
    var i := Here(code, ss[k].machine).value;
    var p := Plain(ss[k].machine, h.flags, h.cpu.ram[0]);
    assert Follows(code, ss[k + 1 - 1], ss[k + 1]) && Fits(ss[k + 1].machine);
    SameStep(code, rom, ss[k], ss[k + 1], p, i);
    SameFlags(code, rom, ss[k], ss[k + 1], p, i);
    r := InstructionRuns(h, rom, wires, p, i, ss[k + 1].machine);
  }

  /**
   * Whatever the program: from a chip and a simulator with the same stacks at the same place, as long
   * as no conditional jump looks at flags of an operation on which they differ, the chip gets to every
   * machine that the simulator gets to.
   */
  lemma {:induction false} ChipFollowsSimulator(
    h: Chip, code: Memory, rom: Rom, wires: Wires, ss: seq<CoreState>, equal: bool, k: nat) returns (r: Chip)
    requires SameCode(code, rom) && Suits(code, ss, equal) && k < |ss| && StandsForCore(h, rom, ss[0], equal)
    ensures Gets(rom, wires, h, r) && StandsForCore(r, rom, ss[k], Trusted(code, ss, k, equal))
  {
    if k == 0 {
      r := h;
      StaysThere(rom, wires, h);
    } else {
      var d := ChipFollowsSimulator(h, code, rom, wires, ss, equal, k - 1);
      r := OneTickRuns(d, code, rom, wires, ss, k - 1, equal);
      GetsThere(rom, wires, h, d, r);
    }
  }
}
