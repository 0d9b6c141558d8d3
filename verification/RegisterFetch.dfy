/**
 * The core with its fetch unit, its arithmetic unit's flags and a program memory: a circuit that runs
 * on its own. The unit fetches one byte ahead, so the core must know when that byte is the wrong one.
 */
module RegisterFetch {
  import opened Wrappers
  import opened Isa
  import opened StackMachine
  import opened RegisterCache
  import opened RegisterCacheProofs
  import Simulator

  type Flags = Simulator.Flags

  // ----- the fetch unit -----

  /** 256 words of two instruction bytes. */
  type Rom = m: seq<Word> | |m| == 256 witness seq(256, _ => 0)

  function ByteOf(word: Word, pc: Counter): Byte {
    if pc % 2 == 1 then word % 256 else word / 256
  }

  function ByteAt(rom: Rom, pc: Counter): Byte {
    ByteOf(rom[pc / 2], pc)
  }

  /** `own` says that the unit follows its own counter and not the core's. */
  datatype Fetcher = Fetcher(instruction: Byte, next: Counter, done: bool, own: bool, dataOut: Word)

  function Successor(pc: Counter): Counter {
    (pc + 1) % 512
  }

  /** One edge of the unit, which reads its memory on one and takes the byte on the next. */
  function FetcherEdge(f: Fetcher, enabled: bool, pc: Counter, own: bool, rom: Rom): Fetcher {
    var actual := if f.own then f.next else pc;
    Fetcher(if f.done then ByteOf(f.dataOut, actual) else f.instruction,
            if f.done then Successor(f.next) else if f.own then f.next else pc,
            enabled && !f.done, own, rom[actual / 2])
  }

  // ----- the flags -----

  predicate TopBit(a: Word) {
    a >= 0x8000
  }

  /** The flags after an operation: a sum or a difference leaves zero and sign as they were. */
  function FlagsEdge(f: Flags, func: Byte, a: Word, b: Word): Flags {
    var out := AluOut(func, a, b);
    Simulator.Flags(
      if func == 0 || func == 1 then f.zero else out == 0,
      if func == 1 || func == 15 then TopBit(a) != TopBit(b) && TopBit(b) == TopBit(out)
      else TopBit(a) == TopBit(b) && TopBit(a) != TopBit(out),
      if func == 0 || func == 1 then f.sign else TopBit(out),
      if func == 0 then a + b >= 0x1_0000 else (func == 1 || func == 15) && a < b)
  }

  /** The upper bits choose a condition; the last one negates it. */
  function ConditionHolds(f: Flags, condition: Byte): bool
    requires condition < 16
  {
    var upper := condition / 2;
    var c := if upper == 0 then f.zero
             else if upper == 1 then f.sign
             else if upper == 2 then !f.carry && !f.zero
             else if upper == 3 then !f.carry
             else if upper == 4 then f.sign == f.overflow && !f.zero
             else if upper == 5 then f.sign == f.overflow
             else if upper == 6 then f.overflow
             else false;
    c != (condition % 2 == 1)
  }

  // ----- the circuit -----

  datatype Circuit = Circuit(cpu: Cpu, fetch: Fetcher, flags: Flags)

  /** After resuming an empty process: about to fill the stack registers. */
  const BLANK := Circuit(Cpu(seq(256, _ => 0), 0, FetchStack, false, 0, 0, 2, 0, 0, 0, 0, PC, false, 0, false, 0, 0, 0),
                      Fetcher(0, 0, false, false, 0), Simulator.Flags(false, false, false, false))

  type Chip = h: Circuit | Sane(h.cpu) witness BLANK

  /** What the wires that the block leaves open carry, by the instruction and the registers. */
  type Wires = Inputs -> Outputs

  function EdgeOf(h: Chip, wires: Wires): Edge {
    var x := wires(Inputs(h.fetch.instruction, h.fetch.next, h.cpu.sp, h.cpu.csp, h.cpu.t1, h.cpu.t2, h.cpu.t3, false));
    Edge(h.fetch.instruction, h.fetch.next, h.fetch.done, ConditionHolds(h.flags, h.fetch.instruction % 16), x)
  }

  function FetchEnabled(p: Phase): bool {
    p == FetchInstruction || p == Executing || p == PushLower || p == PushUpper
  }

  /** Whose counter the unit follows after the edge. */
  function OwnAfter(h: Chip, o: Outputs): bool {
    match h.cpu.phase
    case FetchStack => h.cpu.fetchState != 3 && h.fetch.own
    case FetchInstruction => h.fetch.done || h.fetch.own
    case Executing =>
      if h.cpu.cycle then o.pc == h.fetch.next && h.fetch.instruction / 16 != 7 else h.fetch.own
    case Io => !h.cpu.cycle && h.fetch.own
    case _ => h.fetch.own
  }

  /** Only operations set the flags. */
  function FlagsAfter(h: Chip): Flags {
    if h.fetch.instruction / 16 == 0 then FlagsEdge(h.flags, h.fetch.instruction % 16, h.cpu.t2, h.cpu.t1) else h.flags
  }

  function ChipClock(h: Chip, rom: Rom, wires: Wires): Chip {
    var e := EdgeOf(h, wires);
    var own := OwnAfter(h, Execute(InputsOf(h.cpu, e), e.x));
    Circuit(Clock(h.cpu, e), FetcherEdge(h.fetch, FetchEnabled(h.cpu.phase), h.cpu.pc, own, rom),
         if h.cpu.phase == Executing then FlagsAfter(h) else h.flags)
  }

  function Edges(rom: Rom, wires: Wires): Chip -> Chip {
    (h: Chip) => ChipClock(h, rom, wires)
  }

  function Iterate<T>(f: T -> T, x: T, n: nat): T
    decreases n
  {
    if n == 0 then x else Iterate(f, f(x), n - 1)
  }

  lemma {:induction false} IterateAdds<T>(f: T -> T, x: T, a: nat, b: nat)
    ensures Iterate(f, x, a + b) == Iterate(f, Iterate(f, x, a), b)
    decreases a
  {
    if a > 0 { IterateAdds(f, f(x), a - 1, b); }
  }

  /** The circuit gets from one state to the other in some number of edges. */
  ghost predicate Gets(rom: Rom, wires: Wires, h: Chip, r: Chip) {
    exists n: nat :: Iterate(Edges(rom, wires), h, n) == r
  }

  lemma GetsThere(rom: Rom, wires: Wires, h: Chip, m: Chip, r: Chip)
    requires Gets(rom, wires, h, m) && Gets(rom, wires, m, r)
    ensures Gets(rom, wires, h, r)
  {
    var a: nat :| Iterate(Edges(rom, wires), h, a) == m;
    var b: nat :| Iterate(Edges(rom, wires), m, b) == r;
    IterateAdds(Edges(rom, wires), h, a, b);
  }

  lemma TwoClocks(rom: Rom, wires: Wires, h: Chip, m: Chip, r: Chip)
    requires m == ChipClock(h, rom, wires) && r == ChipClock(m, rom, wires)
    ensures Gets(rom, wires, h, r)
  {
    var f := Edges(rom, wires);
    assert f(h) == m && f(m) == r;
    assert Iterate(f, h, 2) == Iterate(f, m, 1) == Iterate(f, r, 0);
  }

  // ----- what it refines: the plain machine on the program's bytes, with flags -----

  /** `below` is the word under an empty stack, which the overflow flag of a negation can see. */
  datatype Plain = Plain(machine: Machine, flags: Flags, below: Word)

  function InstructionAt(rom: Rom, pc: Word): Option<Instruction> {
    Decode(ByteAt(rom, pc % 512))
  }

  /** The plain machine's next step on the hardware's instructions. */
  function PlainStep(rom: Rom, p: Plain): Outcome
    requires InstructionAt(rom, p.machine.pc).Some?
  {
    var i := InstructionAt(rom, p.machine.pc).value;
    Step(p.machine, i, ByteAt(rom, Successor(p.machine.pc % 512)), i.Jump? && ConditionHolds(p.flags, ConditionCode(i.condition)))
  }

  function PlainFlags(p: Plain, i: Instruction): Flags {
    var s := p.machine.stack;
    if i.ArithmeticOrLogic? && s != [] then FlagsEdge(p.flags, OpCode(i.op), if |s| >= 2 then s[1] else p.below, s[0]) else p.flags
  }

  /** The unit has the instruction at `pc`, and is one byte ahead. */
  predicate Ahead(f: Fetcher, rom: Rom, pc: Word) {
    !f.done && f.own && f.instruction == ByteAt(rom, pc % 512) && f.next == Successor(pc % 512)
  }

  /** The chip is about to execute the plain machine's next instruction on the plain machine's stacks. */
  ghost predicate StandsFor(h: Chip, rom: Rom, p: Plain) {
    && Ready(h.cpu) && Holds(CacheOf(h.cpu), p.machine.stack, p.machine.calls)
    && Ahead(h.fetch, rom, p.machine.pc) && h.flags == p.flags && h.cpu.ram[0] == p.below
  }

  // ----- two edges of each state -----

  /** Only a jump looks at the condition. */
  lemma OnlyJumpsLook(i: Inputs, b: bool, x: Outputs)
    requires i.instruction / 16 != 5
    ensures Execute(i.(holds := b), x) == Execute(i, x)
  {
    OnlyJumpsDispatch(i, b, Defaults(i, x), i.instruction / 16, i.instruction % 16);
  }

  lemma OnlyJumpsDispatch(i: Inputs, b: bool, o: Outputs, opcode: Byte, operand: Byte)
    requires operand < 16 && opcode != 5
    ensures Dispatch(i.(holds := b), o, opcode, operand) == Dispatch(i, o, opcode, operand)
  {
    var j := i.(holds := b);
    if opcode < 5 {
      OperationsDoNotLook(i, b, o, opcode, operand);
    } else {
      assert FunctionOperation(o, j, operand) == FunctionOperation(o, i, operand);
      assert StackOperation(o, j, operand) == StackOperation(o, i, operand);
      assert ReadLocalOperation(o, j) == ReadLocalOperation(o, i);
      assert ReadLocalOffsetOperation(o, j, operand) == ReadLocalOffsetOperation(o, i, operand);
    }
  }

  lemma OperationsDoNotLook(i: Inputs, b: bool, o: Outputs, opcode: Byte, operand: Byte)
    requires operand < 16 && opcode < 5
    ensures Dispatch(i.(holds := b), o, opcode, operand) == Dispatch(i, o, opcode, operand)
  {
  }

  /** And only calls and returns put what they read into the counter. */
  lemma ReadsNoCounter(i: Inputs, x: Outputs)
    requires i.instruction / 16 != 7
    ensures var o := Execute(i, x); o.useRam ==> o.ramTo != PC
  {
  }

  /** The first of the two keeps the block's inputs, but for the flags that an operation sets. */
  lemma FirstEdge(h: Chip, rom: Rom, wires: Wires)
    requires Ready(h.cpu) && !h.fetch.done && h.fetch.own
    ensures var d, e := ChipClock(h, rom, wires), EdgeOf(h, wires);
            var f := EdgeOf(d, wires);
            && d.cpu == Clock(h.cpu, e) && d.cpu.phase == Executing && d.cpu.cycle
            && d.fetch == Fetcher(h.fetch.instruction, h.fetch.next, true, true, rom[h.fetch.next / 2])
            && f == e.(fetched := true, holds := f.holds) && (e.instruction / 16 == 5 ==> f.holds == e.holds)
            && d.cpu.t1 == h.cpu.t1 && d.cpu.t2 == h.cpu.t2
            && InputsOf(d.cpu, f) == InputsOf(h.cpu, e).(holds := f.holds)
  {
  }

  lemma SameBlock(h: Chip, rom: Rom, wires: Wires, d: Chip)
    requires Ready(h.cpu) && !h.fetch.done && h.fetch.own && d == ChipClock(h, rom, wires)
    ensures var e, f := EdgeOf(h, wires), EdgeOf(d, wires);
            Execute(InputsOf(d.cpu, f), f.x) == Execute(InputsOf(h.cpu, e), e.x)
  {
    FirstEdge(h, rom, wires);
    var e, f := EdgeOf(h, wires), EdgeOf(d, wires);
    if e.instruction / 16 != 5 { OnlyJumpsLook(InputsOf(h.cpu, e), f.holds, e.x); }
  }

  /** The block latches what it put out, the unit has the next byte, and the operations set their flags. */
  lemma ExecuteEdges(h: Chip, rom: Rom, wires: Wires, d: Chip, r: Chip)
    requires Ready(h.cpu) && !h.fetch.done && h.fetch.own && d == ChipClock(h, rom, wires) && r == ChipClock(d, rom, wires)
    ensures var e := EdgeOf(h, wires);
            var o := Execute(InputsOf(h.cpu, e), e.x);
            && r.cpu == Clock(Clock(h.cpu, e), e) && ExecutedAs(h.cpu, e, o, r.cpu)
            && r.flags == FlagsAfter(h)
            && r.fetch.instruction == ByteAt(rom, h.fetch.next) && r.fetch.next == Successor(h.fetch.next) && !r.fetch.done
            && r.fetch.own == (o.pc == h.fetch.next && h.fetch.instruction / 16 != 7)
  {
    FirstEdge(h, rom, wires);
    SameBlock(h, rom, wires, d);
    TwoEdges(h.cpu, EdgeOf(h, wires));
  }

  lemma FetchEdges(h: Chip, rom: Rom, wires: Wires, d: Chip, r: Chip, pc: Word)
    requires h.cpu.phase == FetchInstruction && !h.cpu.cycle && !h.fetch.done && !h.fetch.own && h.cpu.pc == pc % 512
    requires d == ChipClock(h, rom, wires) && r == ChipClock(d, rom, wires)
    ensures Ready(r.cpu) && CacheOf(r.cpu) == CacheOf(h.cpu) && Ahead(r.fetch, rom, pc) && r.flags == h.flags
  {
  }

  lemma RefillEdges(h: Chip, rom: Rom, wires: Wires, d: Chip, r: Chip)
    requires h.cpu.phase == Io && !h.cpu.cycle && !h.fetch.done
    requires d == ChipClock(h, rom, wires) && r == ChipClock(d, rom, wires)
    ensures r.cpu == Clock(Clock(h.cpu, EdgeOf(h, wires)), EdgeOf(d, wires)) && r.flags == h.flags
    ensures !r.fetch.done && !r.fetch.own
  {
  }

  lemma FollowingEdges(h: Chip, rom: Rom, wires: Wires, d: Chip, r: Chip)
    requires (h.cpu.phase == PushLower || h.cpu.phase == PushUpper) && !h.cpu.cycle && !h.cpu.pushed && !h.fetch.done && h.fetch.own
    requires d == ChipClock(h, rom, wires) && r == ChipClock(d, rom, wires)
    ensures r.cpu == Clock(Clock(h.cpu, EdgeOf(h, wires)), EdgeOf(d, wires)) && r.flags == h.flags
    ensures EdgeOf(d, wires).instruction == h.fetch.instruction
    ensures !r.fetch.done && r.fetch.own && r.fetch.instruction == ByteAt(rom, h.fetch.next) && r.fetch.next == Successor(h.fetch.next)
  {
  }

  // ----- one instruction -----

  lemma OnlyJumpsBranch(m: Machine, i: Instruction, next: Byte, a: bool, b: bool)
    requires !i.Jump?
    ensures Step(m, i, next, a) == Step(m, i, next, b)
  {
  }

  lemma NextCounter(pc: Word, k: nat)
    ensures Wrap(pc + k) % 512 == (pc + k) % 512
    ensures Successor(pc % 512) == (pc + 1) % 512 && Successor(Successor(pc % 512)) == (pc + 2) % 512
  {
  }

  /** What the chip presents to its block is the plain machine's instruction. */
  lemma Presents(h: Chip, rom: Rom, wires: Wires, p: Plain, i: Instruction, f: Edge, g: Edge)
    requires StandsFor(h, rom, p) && InstructionAt(rom, p.machine.pc) == Some(i)
    requires Length(i) == 2 ==> g.instruction == ByteAt(rom, Successor(p.machine.pc % 512))
    ensures var e, next := EdgeOf(h, wires), ByteAt(rom, Successor(p.machine.pc % 512));
            && Drives([e, e, f, g], p.machine, i, next, e.holds) && (i == Jump(Never) ==> !e.holds)
            && PlainStep(rom, p) == Step(p.machine, i, next, e.holds)
            && e.instruction / 16 == Opcode(i)
  {
    var e, next := EdgeOf(h, wires), ByteAt(rom, Successor(p.machine.pc % 512));
    DecodedHalves(e.instruction, i);
    NextCounter(p.machine.pc, 1);
    if !i.Jump? { OnlyJumpsBranch(p.machine, i, next, e.holds, false); }
  }

  /** The flags after the two edges are the plain machine's. */
  lemma FlagsFollow(h: Chip, rom: Rom, p: Plain, i: Instruction)
    requires StandsFor(h, rom, p) && InstructionAt(rom, p.machine.pc) == Some(i) && PlainStep(rom, p).Next?
    ensures PlainFlags(p, i) == FlagsAfter(h)
  {
    DecodedHalves(h.fetch.instruction, i);
    FirstCells(CacheOf(h.cpu), p.machine.stack, p.machine.calls);
  }

  /** Nothing the block writes changes the lowest word: not even the spill that lands on it. */
  lemma LowestStays(c: Cpu, e: Edge, o: Outputs, d: Cpu, s: seq<Word>, calls: seq<Word>)
    requires Ready(c) && Sane(d) && Holds(CacheOf(c), s, calls) && ExecutedAs(c, e, o, d)
    requires o.write ==> (o.addr == Plus(c.sp, 2) && o.dataIn == c.t3) || (o.addr == c.csp && |calls| < 254)
    ensures d.ram[0] == c.ram[0]
  {
  }

  lemma WritesLittle(i: Inputs, x: Outputs)
    ensures var o := Execute(i, x); o.write ==> if i.instruction / 16 == 7 then o.addr == i.csp else o.addr == Plus(i.sp, 2) && o.dataIn == i.t3
  {
  }

  /** The bytes after a prefix follow: the counter is the expected one. */
  lemma PrefixesGoOn(i: Inputs, x: Outputs)
    ensures var o := Execute(i, x); o.pushLower || o.pushUpper ==> o.pc == i.expectedPc && i.instruction / 16 != 7
  {
  }

  /** With nothing to wait for, the core goes on without a fetch exactly when the next byte is the expected one. */
  lemma GoesOnExactly(c: Cpu, e: Edge, i: Instruction, r: Cpu)
    requires Ready(c) && Decode(e.instruction) == Some(i) && r == Clock(Clock(c, e), e)
    requires r.phase == Executing || r.phase == FetchInstruction
    ensures r.phase == Executing <==> !i.Function? && r.pc == e.expectedPc
  {
    TwoEdges(c, e);
    assert i.Function? <==> e.instruction / 16 == 7;
    if e.instruction / 16 != 7 { ReadsNoCounter(InputsOf(c, e), e.x); }
  }

  /** After the two edges the core executes on exactly when the unit's byte is the right one. */
  lemma Latches(h: Chip, rom: Rom, wires: Wires, d: Chip, r: Chip)
    requires Ready(h.cpu) && !h.fetch.done && h.fetch.own && d == ChipClock(h, rom, wires) && r == ChipClock(d, rom, wires)
    ensures r.cpu.phase == Executing ==> r.fetch.own && r.cpu.pc == h.fetch.next
    ensures r.cpu.phase == FetchInstruction ==> !r.fetch.own
    ensures r.cpu.phase == PushLower || r.cpu.phase == PushUpper ==> r.fetch.own && !r.cpu.pushed
    ensures !r.cpu.cycle && !r.fetch.done
  {
    var e := EdgeOf(h, wires);
    ExecuteEdges(h, rom, wires, d, r);
    if e.instruction / 16 != 7 { ReadsNoCounter(InputsOf(h.cpu, e), e.x); }
    PrefixesGoOn(InputsOf(h.cpu, e), e.x);
  }

  /** The core at an instruction boundary, with the plain machine's stacks, the unit ahead or about to fetch. */
  ghost predicate Boundary(h: Chip, rom: Rom, p: Plain) {
    && AtBoundary(h.cpu) && Holds(CacheOf(h.cpu), p.machine.stack, p.machine.calls)
    && h.flags == p.flags && h.cpu.ram[0] == p.below && !h.fetch.done
    && if h.cpu.phase == Executing then Ahead(h.fetch, rom, p.machine.pc) else !h.fetch.own && h.cpu.pc == p.machine.pc % 512
  }

  lemma BoundaryStands(h: Chip, rom: Rom, wires: Wires, p: Plain) returns (r: Chip)
    requires Boundary(h, rom, p)
    ensures Gets(rom, wires, h, r) && StandsFor(r, rom, p)
  {
    if h.cpu.phase == Executing {
      r := h;
      assert Iterate(Edges(rom, wires), h, 0) == r;
    } else {
      var d := ChipClock(h, rom, wires);
      r := ChipClock(d, rom, wires);
      FetchEdges(h, rom, wires, d, r, p.machine.pc);
      TwoClocks(rom, wires, h, d, r);
    }
  }

  /** Whatever edges come, if they carry the following byte, the core then has the machine's stacks at a boundary. */
  ghost predicate Completes(d: Cpu, i: Instruction, next: Byte, n: Machine) {
    Sane(d) && forall f: Edge, g: Edge | Length(i) == 2 ==> g.instruction == next :: Refined(Completed(d, f, g), i, n)
  }

  function Pending(d: Cpu): bool {
    d.phase == Io || d.phase == PushLower || d.phase == PushUpper
  }

  function Completed(d: Cpu, f: Edge, g: Edge): Cpu
    requires Sane(d)
  {
    if Pending(d) then Clock(Clock(d, f), g) else d
  }

  ghost predicate Refined(c: Cpu, i: Instruction, n: Machine) {
    AtBoundary(c) && Holds(CacheOf(c), n.stack, n.calls) && (Length(i) == 1 ==> c.pc == n.pc % 512)
  }

  /** Where the unit is, what the core waits for, and what has been latched, after the two edges of the block. */
  ghost predicate Latched(r: Chip, rom: Rom, p: Plain, i: Instruction, n: Machine) {
    && r.flags == PlainFlags(p, i) && r.cpu.ram[0] == p.below && !r.fetch.done && !r.cpu.cycle
    && r.fetch.instruction == ByteAt(rom, Successor(p.machine.pc % 512)) && r.fetch.next == Successor(Successor(p.machine.pc % 512))
    && (r.cpu.phase == Executing ==> r.fetch.own && r.cpu.pc == Successor(p.machine.pc % 512))
    && (r.cpu.phase == FetchInstruction ==> !r.fetch.own)
    && (r.cpu.phase == PushLower || r.cpu.phase == PushUpper ==> r.fetch.own && !r.cpu.pushed)
    && (Length(i) == 2 <==> r.cpu.phase == PushLower || r.cpu.phase == PushUpper)
    && (Length(i) == 2 ==> n.pc % 512 == Successor(Successor(p.machine.pc % 512)))
  }

  /** The machine goes on by an instruction the hardware has, and the stacks fit. */
  ghost predicate GoesOn(rom: Rom, p: Plain, i: Instruction, n: Machine) {
    InstructionAt(rom, p.machine.pc) == Some(i) && InHardware(i) && PlainStep(rom, p) == Next(n) && Fits(n)
  }

  /** With any edges to come that carry the following byte, the core does the plain machine's step. */
  lemma BlockRefines(h: Chip, rom: Rom, wires: Wires, p: Plain, i: Instruction, n: Machine)
    requires StandsFor(h, rom, p) && GoesOn(rom, p, i, n)
    ensures var e := EdgeOf(h, wires);
            Completes(Clock(Clock(h.cpu, e), e), i, ByteAt(rom, Successor(p.machine.pc % 512)), n)
  {
    var e, next := EdgeOf(h, wires), ByteAt(rom, Successor(p.machine.pc % 512));
    var d := Clock(Clock(h.cpu, e), e);
    forall f: Edge, g: Edge | Length(i) == 2 ==> g.instruction == next ensures Refined(Completed(d, f, g), i, n) {
      Presents(h, rom, wires, p, i, f, g);
      InstructionRefines(h.cpu, p.machine, [e, e, f, g], i, next, e.holds);
      Instructed(h.cpu, e, f, g);
    }
  }

  lemma Instructed(c: Cpu, e: Edge, f: Edge, g: Edge)
    requires Sane(c)
    ensures Instruct(c, [e, e, f, g]) == Completed(Clock(Clock(c, e), e), f, g)
  {
  }

  lemma CallFits(rom: Rom, p: Plain, i: Instruction, n: Machine)
    requires GoesOn(rom, p, i, n)
    ensures i == Function(Call) ==> |p.machine.calls| < 254
    ensures Length(i) == 2 ==> n.pc % 512 == Successor(Successor(p.machine.pc % 512))
  {
    NextCounter(p.machine.pc, 2);
  }

  /** The lowest word stays, whatever instruction it is. */
  lemma BelowStays(h: Chip, rom: Rom, wires: Wires, p: Plain, i: Instruction, n: Machine, r: Cpu)
    requires StandsFor(h, rom, p) && GoesOn(rom, p, i, n) && Sane(r)
    requires var e := EdgeOf(h, wires); ExecutedAs(h.cpu, e, Execute(InputsOf(h.cpu, e), e.x), r)
    ensures r.ram[0] == p.below
  {
    var e := EdgeOf(h, wires);
    DecodedHalves(e.instruction, i);
    WritesLittle(InputsOf(h.cpu, e), e.x);
    CallFits(rom, p, i, n);
    SevenIsFunction(i);
    if i == Function(Return) { BlockDoes(h.cpu, e, i); }
    LowestStays(h.cpu, e, Execute(InputsOf(h.cpu, e), e.x), r, p.machine.stack, p.machine.calls);
  }

  lemma SevenIsFunction(i: Instruction)
    requires !i.Raw?
    ensures Opcode(i) == 7 <==> i == Function(Call) || i == Function(Return)
  {
    assert i.Function? ==> i == Function(i.function_) && (i.function_ == Call || i.function_ == Return);
  }

  /** An instruction of two bytes waits for the second, and no other does. */
  lemma TwoBytesPend(h: Chip, wires: Wires, i: Instruction, r: Cpu)
    requires Ready(h.cpu) && Sane(r) && Decode(h.fetch.instruction) == Some(i) && InHardware(i)
    requires var e := EdgeOf(h, wires); ExecutedAs(h.cpu, e, Execute(InputsOf(h.cpu, e), e.x), r)
    ensures Length(i) == 2 <==> r.phase == PushLower || r.phase == PushUpper
  {
    var e := EdgeOf(h, wires);
    DecodedHalves(e.instruction, i);
    OnlyPrefixesWait(InputsOf(h.cpu, e), e.x);
    BlockDoes(h.cpu, e, i);
  }

  lemma OnlyPrefixesWait(i: Inputs, x: Outputs)
    ensures var o := Execute(i, x); o.pushLower || o.pushUpper <==> i.instruction / 16 == 3 || i.instruction / 16 == 4
  {
  }

  /** The two edges of the block. */
  lemma BlockEdges(h: Chip, rom: Rom, wires: Wires) returns (r: Chip)
    requires Ready(h.cpu) && !h.fetch.done && h.fetch.own
    ensures var e := EdgeOf(h, wires);
            && Gets(rom, wires, h, r) && r.cpu == Clock(Clock(h.cpu, e), e)
            && ExecutedAs(h.cpu, e, Execute(InputsOf(h.cpu, e), e.x), r.cpu)
            && r.flags == FlagsAfter(h)
    ensures r.fetch.instruction == ByteAt(rom, h.fetch.next) && r.fetch.next == Successor(h.fetch.next)
    ensures r.cpu.phase == Executing ==> r.fetch.own && r.cpu.pc == h.fetch.next
    ensures r.cpu.phase == FetchInstruction ==> !r.fetch.own
    ensures r.cpu.phase == PushLower || r.cpu.phase == PushUpper ==> r.fetch.own && !r.cpu.pushed
    ensures !r.cpu.cycle && !r.fetch.done
  {
    var d := ChipClock(h, rom, wires);
    r := ChipClock(d, rom, wires);
    TwoClocks(rom, wires, h, d, r);
    ExecuteEdges(h, rom, wires, d, r);
    Latches(h, rom, wires, d, r);
  }

  lemma ExecutesWell(h: Chip, rom: Rom, wires: Wires, p: Plain, i: Instruction, n: Machine) returns (r: Chip)
    requires StandsFor(h, rom, p) && GoesOn(rom, p, i, n)
    ensures Gets(rom, wires, h, r) && Latched(r, rom, p, i, n)
    ensures Completes(r.cpu, i, ByteAt(rom, Successor(p.machine.pc % 512)), n)
  {
    r := BlockEdges(h, rom, wires);
    FlagsFollow(h, rom, p, i);
    BelowStays(h, rom, wires, p, i, n, r.cpu);
    TwoBytesPend(h, wires, i, r.cpu);
    BlockRefines(h, rom, wires, p, i, n);
    CallFits(rom, p, i, n);
  }

  // ----- what comes behind it -----

  /** Nothing to wait for: the boundary is reached. */
  lemma ShortInstruction(r: Chip, rom: Rom, p: Plain, i: Instruction, n: Machine, next: Byte)
    requires Latched(r, rom, p, i, n) && Completes(r.cpu, i, next, n) && !Pending(r.cpu)
    ensures Boundary(r, rom, Plain(n, PlainFlags(p, i), p.below))
  {
    var f: Edge :| true;
    assert Refined(Completed(r.cpu, f, f), i, n);
  }

  /** A refill: two edges, and the unit must fetch anew. */
  lemma RefilledInstruction(r: Chip, rom: Rom, wires: Wires, p: Plain, i: Instruction, n: Machine, next: Byte) returns (s: Chip)
    requires Latched(r, rom, p, i, n) && Completes(r.cpu, i, next, n) && r.cpu.phase == Io
    ensures Gets(rom, wires, r, s) && Boundary(s, rom, Plain(n, PlainFlags(p, i), p.below))
  {
    var d := ChipClock(r, rom, wires);
    s := ChipClock(d, rom, wires);
    TwoClocks(rom, wires, r, d, s);
    RefillEdges(r, rom, wires, d, s);
    assert Refined(Completed(r.cpu, EdgeOf(r, wires), EdgeOf(d, wires)), i, n);
  }

  /** A following byte: two edges, and the unit is one byte further. */
  lemma LongInstruction(r: Chip, rom: Rom, wires: Wires, p: Plain, i: Instruction, n: Machine) returns (s: Chip)
    requires Latched(r, rom, p, i, n) && Completes(r.cpu, i, r.fetch.instruction, n) && (r.cpu.phase == PushLower || r.cpu.phase == PushUpper)
    ensures Gets(rom, wires, r, s) && Boundary(s, rom, Plain(n, PlainFlags(p, i), p.below))
  {
    var d := ChipClock(r, rom, wires);
    s := ChipClock(d, rom, wires);
    TwoClocks(rom, wires, r, d, s);
    FollowingEdges(r, rom, wires, d, s);
    assert Refined(Completed(r.cpu, EdgeOf(r, wires), EdgeOf(d, wires)), i, n);
  }

  /** One instruction: fetched, executed, refilled, on the chip alone. */
  lemma InstructionRuns(h: Chip, rom: Rom, wires: Wires, p: Plain, i: Instruction, n: Machine) returns (r: Chip)
    requires StandsFor(h, rom, p) && GoesOn(rom, p, i, n)
    ensures Gets(rom, wires, h, r) && StandsFor(r, rom, Plain(n, PlainFlags(p, i), p.below))
  {
    var q, next := Plain(n, PlainFlags(p, i), p.below), ByteAt(rom, Successor(p.machine.pc % 512));
    var d := ExecutesWell(h, rom, wires, p, i, n);
    var b: Chip;
    if d.cpu.phase == Io {
      b := RefilledInstruction(d, rom, wires, p, i, n, next);
      GetsThere(rom, wires, h, d, b);
    } else if d.cpu.phase == PushLower || d.cpu.phase == PushUpper {
      b := LongInstruction(d, rom, wires, p, i, n);
      GetsThere(rom, wires, h, d, b);
    } else {
      ShortInstruction(d, rom, p, i, n, next);
      b := d;
    }
    r := BoundaryStands(b, rom, wires, q);
    GetsThere(rom, wires, h, b, r);
  }

  // ----- whole programs -----

  /** One step of the plain machine with its flags. */
  ghost predicate PlainGoes(rom: Rom, p: Plain, q: Plain) {
    exists i, n :: GoesOn(rom, p, i, n) && q == Plain(n, PlainFlags(p, i), p.below)
  }

  ghost predicate PlainRun(rom: Rom, ps: seq<Plain>) {
    ps != [] && forall k | 0 < k < |ps| :: PlainGoes(rom, ps[k - 1], ps[k])
  }

  lemma StepRuns(h: Chip, rom: Rom, wires: Wires, p: Plain, q: Plain) returns (r: Chip)
    requires StandsFor(h, rom, p) && PlainGoes(rom, p, q)
    ensures Gets(rom, wires, h, r) && StandsFor(r, rom, q)
  {
    var i, n :| GoesOn(rom, p, i, n) && q == Plain(n, PlainFlags(p, i), p.below);
    r := InstructionRuns(h, rom, wires, p, i, n);
  }

  lemma StaysThere(rom: Rom, wires: Wires, h: Chip)
    ensures Gets(rom, wires, h, h)
  {
    assert Iterate(Edges(rom, wires), h, 0) == h;
  }

  /** Whatever program is in the memory: the chip, left alone, runs it as the plain machine does. */
  lemma {:induction false} ProgramRuns(h: Chip, rom: Rom, wires: Wires, ps: seq<Plain>, n: nat) returns (r: Chip)
    requires PlainRun(rom, ps) && StandsFor(h, rom, ps[0]) && n < |ps|
    ensures Gets(rom, wires, h, r) && StandsFor(r, rom, ps[n])
    decreases n
  {
    if n == 0 {
      r := h;
      StaysThere(rom, wires, h);
    } else {
      var d := ProgramRuns(h, rom, wires, ps, n - 1);
      assert PlainGoes(rom, ps[n - 1], ps[n]);
      r := StepRuns(d, rom, wires, ps[n - 1], ps[n]);
      GetsThere(rom, wires, h, d, r);
    }
  }

  /** A return with no call left stops it, with the stacks as they are. */
  lemma ProgramHalts(h: Chip, rom: Rom, wires: Wires, p: Plain) returns (r: Chip)
    requires StandsFor(h, rom, p) && InstructionAt(rom, p.machine.pc) == Some(Function(Return)) && p.machine.calls == []
    ensures Gets(rom, wires, h, r) && r.cpu.phase == Saving && CacheOf(r.cpu) == CacheOf(h.cpu)
  {
    var e := EdgeOf(h, wires);
    r := BlockEdges(h, rom, wires);
    BlockDoes(h.cpu, e, Function(Return));
  }

  /** And so does a byte that is no instruction of the hardware. */
  predicate Undefined(b: Byte) {
    (b / 16 == 7 && b % 16 >= 2) || (b / 16 == 8 && b % 16 >= 5) || 9 <= b / 16 <= 11 || b / 16 == 13 || b / 16 == 15
  }

  lemma UndefinedIsError(i: Inputs, x: Outputs)
    ensures Undefined(i.instruction) ==> Execute(i, x).error
  {
  }

  lemma UndefinedStops(h: Chip, rom: Rom, wires: Wires) returns (r: Chip)
    requires Ready(h.cpu) && !h.fetch.done && h.fetch.own && Undefined(h.fetch.instruction)
    ensures Gets(rom, wires, h, r) && r.cpu.phase == Saving
  {
    var e := EdgeOf(h, wires);
    UndefinedIsError(InputsOf(h.cpu, e), e.x);
    r := BlockEdges(h, rom, wires);
  }

  // ----- the start -----

  lemma FillEdges(h: Chip, rom: Rom, wires: Wires, k: nat) returns (r: Chip)
    requires Filling(h.cpu, k) && k < 3 && !h.fetch.done
    ensures Gets(rom, wires, h, r) && Filling(r.cpu, k + 1) && !r.fetch.done && r.flags == h.flags
    ensures r.cpu.ram == h.cpu.ram && r.cpu.sp == h.cpu.sp && r.cpu.csp == h.cpu.csp && r.cpu.cycle == h.cpu.cycle && r.cpu.pc == h.cpu.pc
  {
    var d := ChipClock(h, rom, wires);
    r := ChipClock(d, rom, wires);
    TwoClocks(rom, wires, h, d, r);
    FillOne(h.cpu, k, EdgeOf(h, wires), EdgeOf(d, wires));
  }

  lemma OneClock(rom: Rom, wires: Wires, h: Chip)
    ensures Gets(rom, wires, h, ChipClock(h, rom, wires))
  {
    var f := Edges(rom, wires);
    assert Iterate(f, h, 1) == Iterate(f, f(h), 0);
  }

  lemma LastFill(h: Chip, rom: Rom, wires: Wires, p: Plain)
    requires Filling(h.cpu, 3) && !h.cpu.cycle && !h.fetch.done && h.flags == p.flags && h.cpu.pc == p.machine.pc % 512
    requires Saved(h.cpu.ram, h.cpu.sp, h.cpu.csp, p.machine.stack, p.machine.calls) && h.cpu.ram[0] == p.below
    ensures Boundary(ChipClock(h, rom, wires), rom, p)
  {
    FillLast(h.cpu, p.machine.stack, p.machine.calls, EdgeOf(h, wires));
  }

  /** From a saved process: the registers are filled, the first byte is fetched, and the chip is at the program. */
  lemma ProgramStarts(h: Chip, rom: Rom, wires: Wires, p: Plain) returns (r: Chip)
    requires Filling(h.cpu, 0) && !h.cpu.cycle && !h.fetch.done && h.flags == p.flags && h.cpu.pc == p.machine.pc % 512
    requires Saved(h.cpu.ram, h.cpu.sp, h.cpu.csp, p.machine.stack, p.machine.calls) && h.cpu.ram[0] == p.below
    ensures Gets(rom, wires, h, r) && StandsFor(r, rom, p)
  {
    var a := FillEdges(h, rom, wires, 0);
    var b := FillEdges(a, rom, wires, 1);
    var c := FillEdges(b, rom, wires, 2);
    LastFill(c, rom, wires, p);
    OneClock(rom, wires, c);
    var d := ChipClock(c, rom, wires);
    r := BoundaryStands(d, rom, wires, p);
    GetsThere(rom, wires, h, a, b);
    GetsThere(rom, wires, h, b, c);
    GetsThere(rom, wires, h, c, d);
    GetsThere(rom, wires, h, d, r);
  }
}
