/**
 * The register cache refines the plain stack machine, over every run of its instructions.
 */
module RegisterCacheProofs {
  import opened Wrappers
  import opened Isa
  import opened StackMachine
  import opened RegisterCache

  /** The part of the core that holds the two stacks. */
  datatype Cache = Cache(ram: seq<Word>, sp: Address, csp: Address, t1: Word, t2: Word, t3: Word)

  function CacheOf(c: Cpu): Cache {
    Cache(c.ram, c.sp, c.csp, c.t1, c.t2, c.t3)
  }

  /** What is seen `i` words above the stack pointer: the registers hide three words of RAM. */
  function Cell(k: Cache, i: nat): Word
    requires |k.ram| == 256 && i < 256
  {
    if i == 0 then k.t1 else if i == 1 then k.t2 else if i == 2 then k.t3 else k.ram[Plus(k.sp, i)]
  }

  /**
   * The cache holds the value stack `s` and the call stack `calls`. A register above the stack's
   * base is a copy of the word at the start of RAM that it hides: so the word a push writes back
   * from it, which on an empty stack lands on the first return address, is the word already there.
   */
  ghost predicate Holds(k: Cache, s: seq<Word>, calls: seq<Word>) {
    && |k.ram| == 256 && |s| + |calls| <= 254
    && k.sp == (if s == [] then 0 else 256 - |s|)
    && k.csp == (if |calls| == 254 then 0 else 2 + |calls|)
    && (forall i | 0 <= i < |s| :: Cell(k, i) == s[i])
    && (forall j | 0 <= j < |calls| :: k.ram[2 + j] == calls[j] % 512)
    && (|s| <= 0 ==> k.t1 == k.ram[0 - |s|])
    && (|s| <= 1 ==> k.t2 == k.ram[1 - |s|])
    && (|s| <= 2 ==> k.t3 == k.ram[2 - |s|])
  }

  function PushOn(k: Cache, v: Word): Cache
    requires |k.ram| == 256
  {
    Cache(k.ram[Plus(k.sp, 2) := k.t3], Minus1(k.sp), k.csp, v, k.t1, k.t2)
  }

  lemma PushHolds(k: Cache, s: seq<Word>, calls: seq<Word>, v: Word)
    requires Holds(k, s, calls) && |s| + |calls| < 254
    ensures Holds(PushOn(k, v), [v] + s, calls)
  {
    var p := PushOn(k, v);
    forall i | 0 <= i < |s| + 1
      ensures Cell(p, i) == ([v] + s)[i]
    {
      if i >= 3 {
        assert Plus(p.sp, i) == Plus(k.sp, i - 1);
        assert Cell(k, i - 1) == s[i - 1];
      }
    }
  }

  function DropOn(k: Cache, v: Word): Cache
    requires |k.ram| == 256
  {
    Cache(k.ram, Plus(k.sp, 1), k.csp, v, k.t3, k.ram[Plus(k.sp, 3)])
  }

  lemma DropHolds(k: Cache, s: seq<Word>, calls: seq<Word>, v: Word)
    requires Holds(k, s, calls) && |s| >= 1
    requires |s| == 1 ==> v == k.t2
    ensures Holds(DropOn(k, v), if |s| == 1 then [] else [v] + s[2..], calls)
  {
    var p := DropOn(k, v);
    var t := if |s| == 1 then [] else [v] + s[2..];
    forall i | 0 <= i < |t|
      ensures Cell(p, i) == t[i]
    {
      assert Plus(p.sp, i) == Plus(k.sp, i + 1);
      assert Cell(k, i + 1) == s[i + 1];
    }
  }

  function DropTwo(k: Cache): Cache
    requires |k.ram| == 256
  {
    Cache(k.ram, Plus(k.sp, 2), k.csp, k.t3, k.ram[Plus(k.sp, 3)], k.ram[Plus(k.sp, 4)])
  }

  lemma DropTwoHolds(k: Cache, s: seq<Word>, calls: seq<Word>)
    requires Holds(k, s, calls) && |s| >= 2
    ensures Holds(DropTwo(k), s[2..], calls)
  {
    var p := DropTwo(k);
    forall i | 0 <= i < |s| - 2
      ensures Cell(p, i) == s[2..][i]
    {
      assert Plus(p.sp, i) == Plus(k.sp, i + 2);
      assert Cell(k, i + 2) == s[i + 2];
    }
  }

  lemma TopHolds(k: Cache, s: seq<Word>, calls: seq<Word>, v: Word)
    requires Holds(k, s, calls) && |s| >= 1
    ensures Holds(k.(t1 := v), [v] + s[1..], calls)
  {
    forall i | 0 <= i < |s|
      ensures Cell(k.(t1 := v), i) == ([v] + s[1..])[i]
    {
      assert Cell(k, i) == s[i];
    }
  }

  lemma TopTwoHold(k: Cache, s: seq<Word>, calls: seq<Word>, v: Word, w: Word)
    requires Holds(k, s, calls) && |s| >= 2
    ensures Holds(k.(t1 := v, t2 := w), [v, w] + s[2..], calls)
  {
    forall i | 0 <= i < |s|
      ensures Cell(k.(t1 := v, t2 := w), i) == ([v, w] + s[2..])[i]
    {
      assert Cell(k, i) == s[i];
    }
  }

  lemma TopThreeHold(k: Cache, s: seq<Word>, calls: seq<Word>, v: Word, w: Word, x: Word)
    requires Holds(k, s, calls) && |s| >= 3
    ensures Holds(k.(t1 := v, t2 := w, t3 := x), [v, w, x] + s[3..], calls)
  {
    forall i | 0 <= i < |s|
      ensures Cell(k.(t1 := v, t2 := w, t3 := x), i) == ([v, w, x] + s[3..])[i]
    {
      assert Cell(k, i) == s[i];
    }
  }

  function CallOn(k: Cache, pc: Counter): Cache
    requires |k.ram| == 256
  {
    var ram := k.ram[k.csp := pc];
    Cache(ram, Plus(k.sp, 1), Plus(k.csp, 1), k.t2, k.t3, ram[Plus(k.sp, 3)])
  }

  /** The refill after a call reads the RAM the call has just written. */
  lemma CallHolds(k: Cache, s: seq<Word>, calls: seq<Word>, pc: Word)
    requires Holds(k, s, calls) && |s| >= 1
    ensures Holds(CallOn(k, pc % 512), s[1..], calls + [pc])
  {
    var p := CallOn(k, pc % 512);
    forall i | 0 <= i < |s| - 1
      ensures Cell(p, i) == s[1..][i]
    {
      assert Plus(p.sp, i) == Plus(k.sp, i + 1);
      assert Cell(k, i + 1) == s[i + 1];
    }
  }

  lemma ReturnHolds(k: Cache, s: seq<Word>, calls: seq<Word>)
    requires Holds(k, s, calls) && calls != []
    ensures Holds(k.(csp := Minus1(k.csp)), s, calls[..|calls| - 1])
    ensures k.ram[Minus1(k.csp)] == calls[|calls| - 1] % 512
  {
    forall i | 0 <= i < |s|
      ensures Cell(k.(csp := Minus1(k.csp)), i) == s[i]
    {
      assert Cell(k, i) == s[i];
    }
  }

  // ----- edges -----

  /** What two edges of an execute state do, given what the block put out. */
  ghost predicate ExecutedAs(c: Cpu, e: Edge, o: Outputs, r: Cpu)
    requires Sane(c) && Sane(r)
  {
    var v := c.ram[o.addr];
    && r.ram == (if o.write then c.ram[o.addr := o.dataIn] else c.ram)
    && r.sp == (if o.useRam && o.ramTo == SP then v % 256 else o.sp)
    && r.csp == (if o.useRam && o.ramTo == CSP then v % 256 else o.csp)
    && r.pc == (if o.useRam && o.ramTo == PC then v % 512 else o.pc)
    && r.t1 == (if o.useRam && o.ramTo == S1 then v else o.t1)
    && r.t2 == (if o.useRam && o.ramTo == S2 then v else o.t2)
    && r.t3 == (if o.useRam && o.ramTo == S3 then v else o.t3)
    && r.ioAddr == o.ioAddr && r.ioTo == o.ioTo
    && r.phase == AfterExecute(o, e) && !r.cycle && !r.pushed
  }

  predicate Ready(c: Cpu) {
    Sane(c) && c.phase == Executing && !c.cycle
  }

  /** Registers by name: what one holds, what the block puts out for it, and how many values it has. */
  function Held(c: Cpu, q: Register): nat {
    match q
    case PC => c.pc
    case SP => c.sp
    case CSP => c.csp
    case S1 => c.t1
    case S2 => c.t2
    case S3 => c.t3
  }

  function Put(o: Outputs, q: Register): nat {
    match q
    case PC => o.pc
    case SP => o.sp
    case CSP => o.csp
    case S1 => o.t1
    case S2 => o.t2
    case S3 => o.t3
  }

  function Range(q: Register): nat {
    match q
    case PC => 512
    case SP | CSP => 256
    case _ => 0x1_0000
  }

  /** A word read from RAM goes to the register it is meant for, cut to its width, and to no other. */
  lemma ReadsGoWhereMeant(c: Cpu, o: Outputs, word: Word, q: Register)
    ensures Held(Latch(c, o, word), q) == if o.useRam && o.ramTo == q then word % Range(q) else Put(o, q)
    ensures Held(IoLatch(c, word), q) == if c.ioTo == q then word % Range(q) else Held(c, q)
  {
  }

  /** The inputs are held for both cycles, so the combinational outputs are the same. */
  lemma TwoEdges(c: Cpu, e: Edge)
    requires Ready(c)
    ensures ExecutedAs(c, e, Execute(InputsOf(c, e), e.x), Clock(Clock(c, e), e))
  {
    var o := Execute(InputsOf(c, e), e.x);
    var d := Clock(c, e);
    assert d == ExecuteEdge(c, e, o);
    assert InputsOf(d, e) == InputsOf(c, e);
    assert Clock(d, e) == ExecuteEdge(d, e, o);
    if o.write {
      assert c.ram[o.addr := o.dataIn][o.addr := o.dataIn] == c.ram[o.addr := o.dataIn];
    }
  }

  /** What the stacks are once a pending refill or following byte has arrived. */
  function Settled(d: Cpu, next: Byte): Cache
    requires Sane(d)
  {
    var k := CacheOf(d);
    if d.phase == Io then if d.ioTo == S1 then k.(t1 := d.ram[d.ioAddr]) else k.(t3 := d.ram[d.ioAddr])
    else if d.phase == PushLower then k.(t1 := d.t1 / 256 * 256 + next)
    else if d.phase == PushUpper then k.(t1 := d.t1 / 0x1000 * 0x1000 + 16 * next)
    else k
  }

  lemma IoEdges(d: Cpu, e: Edge, f: Edge)
    requires Sane(d) && d.phase == Io && !d.cycle && (d.ioTo == S1 || d.ioTo == S3)
    ensures var r := Clock(Clock(d, e), f);
            && CacheOf(r) == Settled(d, f.instruction)
            && r.phase == FetchInstruction && !r.cycle && r.pc == d.pc
  {
    assert d.ram == Clock(d, e).ram;
  }

  lemma PushEdges(d: Cpu, e: Edge, f: Edge)
    requires Sane(d) && (d.phase == PushLower || d.phase == PushUpper) && !d.pushed && !d.cycle
    ensures var r := Clock(Clock(d, e), f);
            && CacheOf(r) == Settled(d, f.instruction)
            && r.phase == Executing && !r.cycle && r.pc == d.pc
  {
    assert (d.t1 / 256 * 256 + e.instruction) / 256 == d.t1 / 256;
    assert (d.t1 / 0x1000 * 0x1000 + 16 * e.instruction) / 0x1000 == d.t1 / 0x1000;
  }

  // ----- the instructions, each up to its pending refill -----

  /** After the execute state. */
  ghost predicate Reaches(c: Cpu, d: Cpu, next: Byte, i: Instruction, after: Outcome) {
    match after
    case Next(n) =>
      && Sane(d) && !d.cycle && !d.pushed && d.phase != Saving && d.phase != FetchStack
      && (d.phase == Io ==> d.ioTo == S1 || d.ioTo == S3)
      && (d.phase == PushLower || d.phase == PushUpper <==> Length(i) == 2)
      && (|n.stack| + |n.calls| <= 254 ==> Holds(Settled(d, next), n.stack, n.calls))
      && (Length(i) == 1 ==> d.pc == n.pc % 512)
    case Halted => Sane(d) && d.phase == Saving && CacheOf(d) == CacheOf(c)
    case Stuck => true
  }

  /** Nothing pending, nothing wrong. */
  predicate Quiet(o: Outputs) {
    !o.io && !o.pushLower && !o.pushUpper && !o.halt && !o.error
  }

  predicate Keeps(o: Outputs, c: Cpu, a: Word, b: Word, d: Word) {
    && Quiet(o) && !o.write && !o.useRam && o.sp == c.sp && o.csp == c.csp
    && o.t1 == a && o.t2 == b && o.t3 == d
  }

  predicate Pops(o: Outputs, c: Cpu, v: Word) {
    && Quiet(o) && !o.write && o.useRam && o.ramTo == S3 && o.addr == Plus(c.sp, 3)
    && o.sp == Plus(c.sp, 1) && o.csp == c.csp && o.t1 == v && o.t2 == c.t3
  }

  predicate PopsTwo(o: Outputs, c: Cpu) {
    && !o.halt && !o.error && o.io && o.ioTo == S3 && o.ioAddr == Plus(c.sp, 4)
    && !o.write && o.useRam && o.ramTo == S2 && o.addr == Plus(c.sp, 3)
    && o.sp == Plus(c.sp, 2) && o.csp == c.csp && o.t1 == c.t3
  }

  predicate Pushes(o: Outputs, c: Cpu, v: Word) {
    && !o.halt && !o.error && o.write && o.addr == Plus(c.sp, 2) && o.dataIn == c.t3 && !o.useRam
    && o.sp == Minus1(c.sp) && o.csp == c.csp && o.t1 == v && o.t2 == c.t1 && o.t3 == c.t2
  }

  lemma PopsEffect(c: Cpu, e: Edge, o: Outputs, d: Cpu, s: seq<Word>, calls: seq<Word>, v: Word, next: Byte)
    requires Ready(c) && Holds(CacheOf(c), s, calls) && |s| >= 1 && (|s| == 1 ==> v == c.t2)
    requires Sane(d) && ExecutedAs(c, e, o, d) && Pops(o, c, v)
    ensures Holds(Settled(d, next), if |s| == 1 then [] else [v] + s[2..], calls)
  {
    DropHolds(CacheOf(c), s, calls, v);
    assert Settled(d, next) == DropOn(CacheOf(c), v);
  }

  lemma PopsTwoEffect(c: Cpu, e: Edge, o: Outputs, d: Cpu, s: seq<Word>, calls: seq<Word>, next: Byte)
    requires Ready(c) && Holds(CacheOf(c), s, calls) && |s| >= 2
    requires Sane(d) && ExecutedAs(c, e, o, d) && PopsTwo(o, c)
    ensures Holds(Settled(d, next), s[2..], calls)
  {
    DropTwoHolds(CacheOf(c), s, calls);
    assert Settled(d, next) == DropTwo(CacheOf(c));
  }

  lemma PushesEffect(c: Cpu, e: Edge, o: Outputs, d: Cpu, s: seq<Word>, calls: seq<Word>, v: Word)
    requires Ready(c) && Holds(CacheOf(c), s, calls) && |s| + |calls| < 254
    requires Sane(d) && ExecutedAs(c, e, o, d) && Pushes(o, c, v)
    ensures Holds(CacheOf(d), [v] + s, calls)
  {
    PushHolds(CacheOf(c), s, calls, v);
    assert CacheOf(d) == PushOn(CacheOf(c), v);
  }

  lemma FirstCells(k: Cache, s: seq<Word>, calls: seq<Word>)
    requires Holds(k, s, calls)
    ensures |s| >= 1 ==> k.t1 == s[0]
    ensures |s| >= 2 ==> k.t2 == s[1]
    ensures |s| >= 3 ==> k.t3 == s[2]
  {
    assert |s| >= 1 ==> Cell(k, 0) == s[0];
    assert |s| >= 2 ==> Cell(k, 1) == s[1];
    assert |s| >= 3 ==> Cell(k, 2) == s[2];
  }

  /** What the block puts out for each instruction. */
  predicate Does(o: Outputs, c: Cpu, e: Edge, i: Instruction) {
    match i
    case ArithmeticOrLogic(op) =>
      && o.pc == e.expectedPc
      && (if op == LogicalNot then Keeps(o, c, Not(c.t1), c.t2, c.t3)
          else if op == Test || op == Compare then PopsTwo(o, c) && !o.pushLower && !o.pushUpper
          else !IsShift(op) && Alu(op, c.t2, c.t1).Some? ==> Pops(o, c, Alu(op, c.t2, c.t1).value))
    case PushSmall(n) => o.pc == e.expectedPc && Pushes(o, c, n) && Quiet(o)
    case AddSmall(n) => o.pc == e.expectedPc && Keeps(o, c, Wrap(c.t1 + n), c.t2, c.t3)
    case PushNextLower(n) => Pushes(o, c, Wrap(256 * n)) && !o.io && o.pushLower && !o.pushUpper
    case PushNextUpper(n) => Pushes(o, c, Wrap(0x1000 * n)) && !o.io && !o.pushLower && o.pushUpper
    case Jump(j) =>
      && o.pc == (if e.holds then c.t1 % 512 else e.expectedPc)
      && (if j == Never then Keeps(o, c, c.t1, c.t2, c.t3) else Pops(o, c, c.t2))
    case Stack(Drop) => o.pc == e.expectedPc && Pops(o, c, c.t2)
    case Stack(Dup) => o.pc == e.expectedPc && Pushes(o, c, c.t1) && Quiet(o)
    case Stack(Swap) => o.pc == e.expectedPc && Keeps(o, c, c.t2, c.t1, c.t3)
    case Stack(Tuck) => o.pc == e.expectedPc && Keeps(o, c, c.t3, c.t1, c.t2)
    case Stack(Rot) => o.pc == e.expectedPc && Keeps(o, c, c.t2, c.t3, c.t1)
    case Function(Call) =>
      && o.pc == c.t1 % 512 && o.write && o.addr == c.csp && o.dataIn == e.expectedPc
      && o.csp == Plus(c.csp, 1) && o.sp == Plus(c.sp, 1) && o.t1 == c.t2 && o.t2 == c.t3
      && o.io && o.ioTo == S3 && o.ioAddr == Plus(c.sp, 3) && !o.useRam && !o.halt && !o.error
    case Function(Return) =>
      if c.csp == 2 then o.halt && !o.io && !o.pushLower && !o.pushUpper && !o.error && !o.write && !o.useRam
                         && o.sp == c.sp && o.csp == c.csp && o.t1 == c.t1 && o.t2 == c.t2 && o.t3 == c.t3
      else Quiet(o) && !o.write && o.useRam && o.ramTo == PC && o.addr == Minus1(c.csp)
           && o.csp == Minus1(c.csp) && o.sp == c.sp && o.t1 == c.t1 && o.t2 == c.t2 && o.t3 == c.t3
    case ReadLocal =>
      && o.pc == e.expectedPc && Quiet(o) && !o.write && o.sp == c.sp && o.csp == c.csp && o.t2 == c.t2 && o.t3 == c.t3
      && (if c.t1 == 0 then !o.useRam && o.t1 == c.t2
          else if c.t1 == 1 then !o.useRam && o.t1 == c.t3
          else o.useRam && o.ramTo == S1 && o.addr == Plus(c.sp, 1 + c.t1 % 256))
    case ReadLocalOffset(n) =>
      && o.pc == e.expectedPc && Pushes(o, c, o.t1) && !o.pushLower && !o.pushUpper
      && (if n == 0 then !o.io && o.t1 == c.t1
          else if n == 1 then !o.io && o.t1 == c.t2
          else if n == 2 then !o.io && o.t1 == c.t3
          else o.io && o.ioTo == S1 && n < 256 && o.ioAddr == Plus(c.sp, n))
    case _ => true
  }

  lemma BlockDoes(c: Cpu, e: Edge, i: Instruction)
    requires Decode(e.instruction) == Some(i)
    ensures Does(Execute(InputsOf(c, e), e.x), c, e, i)
  {
    DecodedHalves(e.instruction, i);
    var w := InputsOf(c, e);
    DispatchDoes(w, Defaults(w, e.x), c, e, i);
    if i.ReadLocal? {
      assert Execute(w, e.x) == ReadLocalOperation(Defaults(w, e.x), w);
    }
  }

  /** The halves of a byte, up to the operand that `ReadLocal` and `WriteLocal` ignore. */
  lemma DecodedHalves(raw: Byte, i: Instruction)
    requires Decode(raw) == Some(i)
    ensures !i.Raw? && Encode(i).Some? && raw / 16 == Opcode(i) && Operand(i) < 16
    ensures i.ReadLocal? || i.WriteLocal? || raw % 16 == Operand(i)
  {
    OpcodeDecode(raw / 16, raw % 16);
    Halves(i, Encode(i).value);
  }

  lemma DispatchAlu(w: Inputs, o: Outputs, c: Cpu, e: Edge, i: Instruction)
    requires w == InputsOf(c, e) && o == Defaults(w, e.x) && Operand(i) < 16
    requires i.ArithmeticOrLogic?
    ensures Does(Dispatch(w, o, Opcode(i), Operand(i)), c, e, i)
  {
    AluOutIsAlu(i.op, c.t2, c.t1);
  }

  /** The hardware's unit agrees with the machine's on the operations it has. */
  lemma AluOutIsAlu(op: Op, a: Word, b: Word)
    ensures op == LogicalNot ==> AluOut(OpCode(op), a, b) == Not(b)
    ensures !IsShift(op) && Alu(op, a, b).Some? ==> AluOut(OpCode(op), a, b) == Alu(op, a, b).value
  {
    match op
    case Add => assert OpCode(op) == 0;
    case Sub => assert OpCode(op) == 1;
    case LogicalAnd => assert OpCode(op) == 9;
    case LogicalOr => assert OpCode(op) == 10;
    case LogicalXor => assert OpCode(op) == 11;
    case _ =>
  }

  lemma DispatchPush(w: Inputs, o: Outputs, c: Cpu, e: Edge, i: Instruction)
    requires w == InputsOf(c, e) && o == Defaults(w, e.x) && Operand(i) < 16
    requires i.PushSmall? || i.AddSmall? || i.PushNextLower? || i.PushNextUpper?
    ensures Does(Dispatch(w, o, Opcode(i), Operand(i)), c, e, i)
  {
  }

  lemma DispatchStack(w: Inputs, o: Outputs, c: Cpu, e: Edge, i: Instruction)
    requires w == InputsOf(c, e) && o == Defaults(w, e.x) && Operand(i) < 16
    requires i.Stack?
    ensures Does(Dispatch(w, o, Opcode(i), Operand(i)), c, e, i)
  {
  }

  lemma DispatchControl(w: Inputs, o: Outputs, c: Cpu, e: Edge, i: Instruction)
    requires w == InputsOf(c, e) && o == Defaults(w, e.x) && Operand(i) < 16
    requires i.Jump? || i.Process? || i.Function?
    ensures Does(Dispatch(w, o, Opcode(i), Operand(i)), c, e, i)
  {
  }

  lemma DispatchLocal(w: Inputs, o: Outputs, c: Cpu, e: Edge, i: Instruction)
    requires w == InputsOf(c, e) && o == Defaults(w, e.x) && Operand(i) < 16
    requires i.ReadLocal? || i.WriteLocal? || i.ReadLocalOffset? || i.WriteLocalOffset?
    ensures Does(Dispatch(w, o, Opcode(i), Operand(i)), c, e, i)
  {
  }

  lemma DispatchDoes(w: Inputs, o: Outputs, c: Cpu, e: Edge, i: Instruction)
    requires w == InputsOf(c, e) && o == Defaults(w, e.x) && !i.Raw? && Operand(i) < 16
    ensures Does(Dispatch(w, o, Opcode(i), Operand(i)), c, e, i)
  {
    if i.ArithmeticOrLogic? {
      DispatchAlu(w, o, c, e, i);
    } else if i.Stack? {
      DispatchStack(w, o, c, e, i);
    } else if i.Jump? || i.Process? || i.Function? {
      DispatchControl(w, o, c, e, i);
    } else if i.ReadLocal? || i.WriteLocal? || i.ReadLocalOffset? || i.WriteLocalOffset? {
      DispatchLocal(w, o, c, e, i);
    } else {
      DispatchPush(w, o, c, e, i);
    }
  }

  /** What one instruction needs, whatever put out `o`. */
  ghost predicate Executed(c: Cpu, m: Machine, e: Edge, o: Outputs, d: Cpu, i: Instruction, holds: bool) {
    && Ready(c) && Sane(d) && Holds(CacheOf(c), m.stack, m.calls)
    && e.expectedPc == Wrap(m.pc + 1) % 512 && e.holds == holds
    && ExecutedAs(c, e, o, d) && Does(o, c, e, i)
  }

  lemma AluInstruction(c: Cpu, m: Machine, e: Edge, o: Outputs, d: Cpu, op: Op, next: Byte, holds: bool)
    requires Executed(c, m, e, o, d, ArithmeticOrLogic(op), holds) && !IsShift(op)
    ensures Reaches(c, d, next, ArithmeticOrLogic(op), Step(m, ArithmeticOrLogic(op), next, holds))
  {
    var s, k := m.stack, CacheOf(c);
    FirstCells(k, s, m.calls);
    if Step(m, ArithmeticOrLogic(op), next, holds).Next? {
      if op == LogicalNot {
        TopHolds(k, s, m.calls, Not(s[0]));
        assert Settled(d, next) == k.(t1 := Not(s[0]));
      } else if op == Test || op == Compare {
        PopsTwoEffect(c, e, o, d, s, m.calls, next);
      } else {
        PopsEffect(c, e, o, d, s, m.calls, Alu(op, s[1], s[0]).value, next);
      }
    }
  }

  lemma PushInstruction(c: Cpu, m: Machine, e: Edge, o: Outputs, d: Cpu, n: Byte, next: Byte, holds: bool)
    requires Executed(c, m, e, o, d, PushSmall(n), holds)
    ensures Reaches(c, d, next, PushSmall(n), Step(m, PushSmall(n), next, holds))
  {
    if |m.stack| + |m.calls| < 254 {
      PushesEffect(c, e, o, d, m.stack, m.calls, n);
    }
  }

  lemma AddInstruction(c: Cpu, m: Machine, e: Edge, o: Outputs, d: Cpu, n: Byte, next: Byte, holds: bool)
    requires Executed(c, m, e, o, d, AddSmall(n), holds)
    ensures Reaches(c, d, next, AddSmall(n), Step(m, AddSmall(n), next, holds))
  {
    var s, k := m.stack, CacheOf(c);
    FirstCells(k, s, m.calls);
    if s != [] {
      TopHolds(k, s, m.calls, Wrap(s[0] + n));
      assert Settled(d, next) == k.(t1 := Wrap(s[0] + n));
    }
  }

  lemma PushNextInstruction(c: Cpu, m: Machine, e: Edge, o: Outputs, d: Cpu, i: Instruction, next: Byte, holds: bool)
    requires (i.PushNextLower? || i.PushNextUpper?) && i.n < 16
    requires Executed(c, m, e, o, d, i, holds)
    ensures Reaches(c, d, next, i, Step(m, i, next, holds))
  {
    var s := m.stack;
    var v: Word := if i.PushNextLower? then 256 * i.n else 0x1000 * i.n;
    var w: Word := v + (if i.PushNextLower? then next else 16 * next);
    LongPushStep(m, i, next, holds, w);
    if |s| + |m.calls| < 254 {
      LongPushEffect(c, e, o, d, s, m.calls, v, w);
      assert Settled(d, next) == CacheOf(d).(t1 := w) by {
        Multiples(i.n, d.t1);
      }
    }
  }

  lemma LongPushStep(m: Machine, i: Instruction, next: Byte, holds: bool, w: Word)
    requires (i.PushNextLower? || i.PushNextUpper?) && i.n < 16
    requires w == if i.PushNextLower? then 256 * i.n + next else 0x1000 * i.n + 16 * next
    ensures Step(m, i, next, holds).Next? && Step(m, i, next, holds).machine.stack == [w] + m.stack
  {
  }

  lemma LongPushEffect(c: Cpu, e: Edge, o: Outputs, d: Cpu, s: seq<Word>, calls: seq<Word>, v: Word, w: Word)
    requires Ready(c) && Holds(CacheOf(c), s, calls) && |s| + |calls| < 254
    requires Sane(d) && ExecutedAs(c, e, o, d) && Pushes(o, c, v)
    ensures Holds(CacheOf(d).(t1 := w), [w] + s, calls)
  {
    PushesEffect(c, e, o, d, s, calls, v);
    TopHolds(CacheOf(d), [v] + s, calls, w);
    assert ([v] + s)[1..] == s;
  }

  lemma Multiples(n: nat, v: nat)
    ensures v == 256 * n ==> v / 256 * 256 == v
    ensures v == 0x1000 * n ==> v / 0x1000 * 0x1000 == v
  {
  }

  lemma JumpInstruction(c: Cpu, m: Machine, e: Edge, o: Outputs, d: Cpu, j: Condition, next: Byte, holds: bool)
    requires Executed(c, m, e, o, d, Jump(j), holds) && (j == Never ==> !holds)
    ensures Reaches(c, d, next, Jump(j), Step(m, Jump(j), next, holds))
  {
    FirstCells(CacheOf(c), m.stack, m.calls);
    if j == Never {
      assert Settled(d, next) == CacheOf(c);
    } else if m.stack != [] {
      DropEffect(c, e, o, d, m.stack, m.calls, next);
    }
  }

  lemma DropEffect(c: Cpu, e: Edge, o: Outputs, d: Cpu, s: seq<Word>, calls: seq<Word>, next: Byte)
    requires Ready(c) && Holds(CacheOf(c), s, calls) && s != []
    requires Sane(d) && ExecutedAs(c, e, o, d) && Pops(o, c, c.t2)
    ensures Holds(Settled(d, next), s[1..], calls)
  {
    FirstCells(CacheOf(c), s, calls);
    PopsEffect(c, e, o, d, s, calls, c.t2, next);
    assert |s| >= 2 ==> [s[1]] + s[2..] == s[1..];
  }

  lemma StackInstruction(c: Cpu, m: Machine, e: Edge, o: Outputs, d: Cpu, t: StackOp, next: Byte, holds: bool)
    requires Executed(c, m, e, o, d, Stack(t), holds)
    ensures Reaches(c, d, next, Stack(t), Step(m, Stack(t), next, holds))
  {
    var s, k := m.stack, CacheOf(c);
    FirstCells(k, s, m.calls);
    if Step(m, Stack(t), next, holds).Next? {
      if t == Drop {
        DropEffect(c, e, o, d, s, m.calls, next);
      } else if t == Dup {
        if |s| + |m.calls| < 254 {
          PushesEffect(c, e, o, d, s, m.calls, s[0]);
        }
      } else {
        Permuted(c, e, o, d, t, s, m.calls);
      }
    }
  }

  lemma Permuted(c: Cpu, e: Edge, o: Outputs, d: Cpu, t: StackOp, s: seq<Word>, calls: seq<Word>)
    requires (t == Swap && |s| >= 2) || ((t == Tuck || t == Rot) && |s| >= 3)
    requires Ready(c) && Sane(d) && Holds(CacheOf(c), s, calls) && ExecutedAs(c, e, o, d) && Does(o, c, e, Stack(t))
    ensures Holds(CacheOf(d), Values(s, Stack(t), 0).value, calls)
  {
    var k := CacheOf(c);
    FirstCells(k, s, calls);
    if t == Swap {
      TopTwoHold(k, s, calls, s[1], s[0]);
      assert CacheOf(d) == k.(t1 := s[1], t2 := s[0]);
    } else if t == Tuck {
      TopThreeHold(k, s, calls, s[2], s[0], s[1]);
      assert CacheOf(d) == k.(t1 := s[2], t2 := s[0], t3 := s[1]);
    } else {
      TopThreeHold(k, s, calls, s[1], s[2], s[0]);
      assert CacheOf(d) == k.(t1 := s[1], t2 := s[2], t3 := s[0]);
    }
  }

  lemma CallInstruction(c: Cpu, m: Machine, e: Edge, o: Outputs, d: Cpu, next: Byte, holds: bool)
    requires Executed(c, m, e, o, d, Function(Call), holds)
    ensures Reaches(c, d, next, Function(Call), Step(m, Function(Call), next, holds))
  {
    var s, k, pc := m.stack, CacheOf(c), Wrap(m.pc + 1);
    FirstCells(k, s, m.calls);
    if s != [] {
      CallHolds(k, s, m.calls, pc);
      assert Settled(d, next) == CallOn(k, pc % 512);
    }
  }

  lemma ReturnInstruction(c: Cpu, m: Machine, e: Edge, o: Outputs, d: Cpu, next: Byte, holds: bool)
    requires Executed(c, m, e, o, d, Function(Return), holds)
    ensures Reaches(c, d, next, Function(Return), Step(m, Function(Return), next, holds))
  {
    if m.calls != [] {
      ReturnHolds(CacheOf(c), m.stack, m.calls);
      assert Settled(d, next) == CacheOf(c).(csp := Minus1(c.csp));
    }
  }

  lemma ReadLocalInstruction(c: Cpu, m: Machine, e: Edge, o: Outputs, d: Cpu, next: Byte, holds: bool)
    requires Executed(c, m, e, o, d, ReadLocal, holds)
    ensures Reaches(c, d, next, ReadLocal, Step(m, ReadLocal, next, holds))
  {
    if |m.stack| >= 1 && m.stack[0] < |m.stack| - 1 {
      LocalRead(c, e, o, d, m.stack, m.calls);
    }
  }

  lemma LocalRead(c: Cpu, e: Edge, o: Outputs, d: Cpu, s: seq<Word>, calls: seq<Word>)
    requires |s| >= 1 && s[0] < |s| - 1
    requires Ready(c) && Sane(d) && Holds(CacheOf(c), s, calls) && ExecutedAs(c, e, o, d) && Does(o, c, e, ReadLocal)
    ensures Holds(CacheOf(d), [s[1 + s[0]]] + s[1..], calls)
  {
    var k, v := CacheOf(c), s[1 + s[0]];
    FirstCells(k, s, calls);
    assert Cell(k, 1 + s[0]) == v;
    assert c.t1 % 256 == s[0];
    TopHolds(k, s, calls, v);
    assert CacheOf(d) == k.(t1 := v);
  }

  lemma ReadLocalOffsetInstruction(c: Cpu, m: Machine, e: Edge, o: Outputs, d: Cpu, n: Byte, next: Byte, holds: bool)
    requires Executed(c, m, e, o, d, ReadLocalOffset(n), holds)
    ensures Reaches(c, d, next, ReadLocalOffset(n), Step(m, ReadLocalOffset(n), next, holds))
  {
    var s, k := m.stack, CacheOf(c);
    FirstCells(k, s, m.calls);
    if n < |s| {
      assert Cell(k, n) == s[n];
      if |s| + |m.calls| < 254 {
        PushesEffect(c, e, o, d, s, m.calls, o.t1);
        if n >= 3 {
          TopHolds(CacheOf(d), [o.t1] + s, m.calls, s[n]);
          assert ([o.t1] + s)[1..] == s;
          assert d.ram[Plus(c.sp, n)] == s[n];
          assert Settled(d, next) == CacheOf(d).(t1 := s[n]);
        }
      }
    }
  }

  // ----- one whole instruction, edge by edge -----

  /** Two edges, and two more when a refill or a following byte is pending. */
  function Instruct(c: Cpu, es: seq<Edge>): (r: Cpu)
    requires Sane(c) && |es| == 4
    ensures Sane(r)
  {
    var d := Clock(Clock(c, es[0]), es[1]);
    if d.phase == Io || d.phase == PushLower || d.phase == PushUpper then Clock(Clock(d, es[2]), es[3]) else d
  }

  /** The inputs are held over the execute state; the following byte is there when it is needed. */
  predicate Drives(es: seq<Edge>, m: Machine, i: Instruction, next: Byte, holds: bool) {
    && |es| == 4 && es[1] == es[0] && Decode(es[0].instruction) == Some(i)
    && es[0].expectedPc == Wrap(m.pc + 1) % 512 && es[0].holds == holds
    && (Length(i) == 2 ==> es[3].instruction == next)
  }

  lemma ExecuteReaches(c: Cpu, m: Machine, e: Edge, o: Outputs, d: Cpu, i: Instruction, next: Byte, holds: bool)
    requires InHardware(i) && Encode(i).Some? && (i == Jump(Never) ==> !holds)
    requires Executed(c, m, e, o, d, i, holds)
    ensures Reaches(c, d, next, i, Step(m, i, next, holds))
  {
    if i.ArithmeticOrLogic? {
      AluInstruction(c, m, e, o, d, i.op, next, holds);
    } else if i.PushSmall? {
      PushInstruction(c, m, e, o, d, i.n, next, holds);
    } else if i.AddSmall? {
      AddInstruction(c, m, e, o, d, i.n, next, holds);
    } else if i.PushNextLower? || i.PushNextUpper? {
      PushNextInstruction(c, m, e, o, d, i, next, holds);
    } else if i.Jump? {
      JumpInstruction(c, m, e, o, d, i.condition, next, holds);
    } else if i == Function(Call) {
      CallInstruction(c, m, e, o, d, next, holds);
    } else if i == Function(Return) {
      ReturnInstruction(c, m, e, o, d, next, holds);
    } else if i.Stack? {
      StackInstruction(c, m, e, o, d, i.stack, next, holds);
    } else if i.ReadLocal? {
      ReadLocalInstruction(c, m, e, o, d, next, holds);
    } else {
      ReadLocalOffsetInstruction(c, m, e, o, d, i.n, next, holds);
    }
  }

  /** At an instruction boundary. */
  predicate AtBoundary(c: Cpu) {
    Sane(c) && !c.cycle && (c.phase == Executing || c.phase == FetchInstruction)
  }

  /** The machine's instructions the hardware has: no shifts, and writes to locals are compiled out. */
  predicate InHardware(i: Instruction) {
    !i.Raw? && !i.Process? && !i.WriteLocal? && !i.WriteLocalOffset? && !(i.ArithmeticOrLogic? && IsShift(i.op))
  }

  predicate Fits(m: Machine) {
    |m.stack| + |m.calls| <= 254
  }

  /** One instruction of the core is one step of the plain stack machine. */
  lemma InstructionRefines(c: Cpu, m: Machine, es: seq<Edge>, i: Instruction, next: Byte, holds: bool)
    requires Ready(c) && Holds(CacheOf(c), m.stack, m.calls)
    requires InHardware(i) && Drives(es, m, i, next, holds) && (i == Jump(Never) ==> !holds)
    ensures var r := Instruct(c, es);
            match Step(m, i, next, holds)
            case Next(n) =>
              Fits(n) ==> AtBoundary(r) && Holds(CacheOf(r), n.stack, n.calls) && (Length(i) == 1 ==> r.pc == n.pc % 512)
            case Halted => r.phase == Saving && CacheOf(r) == CacheOf(c)
            case Stuck => true
  {
    var e := es[0];
    var d := Clock(Clock(c, e), e);
    var o := Execute(InputsOf(c, e), e.x);
    TwoEdges(c, e);
    BlockDoes(c, e, i);
    DecodedHalves(e.instruction, i);
    ExecuteReaches(c, m, e, o, d, i, next, holds);
    FinishReaches(c, d, es[2], es[3], i, next, Step(m, i, next, holds));
  }

  lemma FinishReaches(c: Cpu, d: Cpu, e: Edge, f: Edge, i: Instruction, next: Byte, after: Outcome)
    requires Sane(d) && Reaches(c, d, next, i, after) && (Length(i) == 2 ==> f.instruction == next)
    ensures var pending := d.phase == Io || d.phase == PushLower || d.phase == PushUpper;
            var r := if pending then Clock(Clock(d, e), f) else d;
            match after
            case Next(n) =>
              Fits(n) ==> AtBoundary(r) && Holds(CacheOf(r), n.stack, n.calls) && (Length(i) == 1 ==> r.pc == n.pc % 512)
            case Halted => r.phase == Saving && CacheOf(r) == CacheOf(c)
            case Stuck => true
  {
    if after.Next? {
      if d.phase == Io {
        IoEdges(d, e, f);
      } else if d.phase == PushLower || d.phase == PushUpper {
        PushEdges(d, e, f);
      }
    }
  }

  // ----- whole runs -----

  /** One instruction with its edges, and the edges spent waiting for the next one. */
  datatype Slot = Slot(i: Instruction, next: Byte, holds: bool, edges: seq<Edge>, wait: seq<Edge>)

  function Wait(c: Cpu, es: seq<Edge>): (r: Cpu)
    requires Sane(c)
    ensures Sane(r)
    decreases |es|
  {
    if es == [] || c.phase != FetchInstruction then c else Wait(Clock(c, es[0]), es[1..])
  }

  function Run(c: Cpu, slots: seq<Slot>): (r: Cpu)
    requires Sane(c) && forall s | s in slots :: |s.edges| == 4
    ensures Sane(r)
    decreases |slots|
  {
    if slots == [] then c else Run(Wait(Instruct(c, slots[0].edges), slots[0].wait), slots[1..])
  }

  function MachineRun(m: Machine, slots: seq<Slot>): Outcome
    decreases |slots|
  {
    if slots == [] then Next(m)
    else
      var after := Step(m, slots[0].i, slots[0].next, slots[0].holds);
      if after.Next? then MachineRun(after.machine, slots[1..]) else after
  }

  /** The slots present the machine's own instructions, and the stacks always fit. */
  predicate Driven(m: Machine, slots: seq<Slot>)
    decreases |slots|
  {
    slots == [] ||
    var s := slots[0];
    && InHardware(s.i) && Drives(s.edges, m, s.i, s.next, s.holds) && (s.i == Jump(Never) ==> !s.holds)
    && (exists k :: 0 <= k < |s.wait| && s.wait[k].fetched)
    && (var after := Step(m, s.i, s.next, s.holds);
        after.Next? ==> Fits(after.machine) && Driven(after.machine, slots[1..]))
  }

  lemma {:induction false} WaitKeeps(c: Cpu, es: seq<Edge>)
    requires AtBoundary(c) && exists k :: 0 <= k < |es| && es[k].fetched
    ensures Ready(Wait(c, es)) && CacheOf(Wait(c, es)) == CacheOf(c) && Wait(c, es).pc == c.pc
    decreases |es|
  {
    if c.phase == FetchInstruction {
      var k :| 0 <= k < |es| && es[k].fetched;
      if es[0].fetched {
        assert Wait(c, es) == Wait(Clock(c, es[0]), es[1..]) == Clock(c, es[0]);
      } else {
        assert es[1..][k - 1].fetched;
        WaitKeeps(Clock(c, es[0]), es[1..]);
      }
    }
  }

  /** The core stands for the machine: its registers and RAM hold the stacks, and its counter the machine's if `counts`. */
  ghost predicate Stands(c: Cpu, m: Machine, counts: bool) {
    Ready(c) && Holds(CacheOf(c), m.stack, m.calls) && (counts ==> c.pc == m.pc % 512)
  }

  /** One instruction, with the wait for the next. */
  lemma SlotRefines(c: Cpu, m: Machine, s: Slot)
    requires Ready(c) && Holds(CacheOf(c), m.stack, m.calls) && |s.edges| == 4
    requires InHardware(s.i) && Drives(s.edges, m, s.i, s.next, s.holds) && (s.i == Jump(Never) ==> !s.holds)
    requires exists k :: 0 <= k < |s.wait| && s.wait[k].fetched
    ensures var after := Step(m, s.i, s.next, s.holds);
            after.Next? && Fits(after.machine) ==> Stands(Wait(Instruct(c, s.edges), s.wait), after.machine, Length(s.i) == 1)
  {
    InstructionRefines(c, m, s.edges, s.i, s.next, s.holds);
    var after, d := Step(m, s.i, s.next, s.holds), Instruct(c, s.edges);
    if after.Next? && Fits(after.machine) { WaitKeeps(d, s.wait); }
  }

  /** The last instruction is one byte, if there is one; after two bytes the fetch unit's counter is ahead. */
  predicate EndsShort(slots: seq<Slot>, counts: bool) {
    if slots == [] then counts else Length(slots[|slots| - 1].i) == 1
  }

  /** Over every run that does not get stuck, the core stands for the plain machine. */
  lemma {:induction false} RunRefines(c: Cpu, m: Machine, slots: seq<Slot>, counts: bool)
    requires Stands(c, m, counts) && Driven(m, slots)
    requires forall s | s in slots :: |s.edges| == 4
    requires MachineRun(m, slots).Next?
    ensures Stands(Run(c, slots), MachineRun(m, slots).machine, EndsShort(slots, counts))
    decreases |slots|
  {
    if slots != [] {
      var s := slots[0];
      SlotRefines(c, m, s);
      RunRefines(Wait(Instruct(c, s.edges), s.wait), Step(m, s.i, s.next, s.holds).machine, slots[1..], Length(s.i) == 1);
      assert slots[1..] != [] ==> slots[1..][|slots[1..]| - 1] == slots[|slots| - 1];
    }
  }

  // ----- the initial fill -----

  /** RAM alone holds both stacks, as a saved process leaves them. */
  ghost predicate Saved(ram: seq<Word>, sp: Address, csp: Address, s: seq<Word>, calls: seq<Word>) {
    && |ram| == 256 && |s| + |calls| <= 254
    && sp == (if s == [] then 0 else 256 - |s|)
    && csp == (if |calls| == 254 then 0 else 2 + |calls|)
    && (forall i | 0 <= i < |s| :: ram[256 - |s| + i] == s[i])
    && (forall j | 0 <= j < |calls| :: ram[2 + j] == calls[j] % 512)
  }

  predicate Filling(c: Cpu, k: nat) {
    && Sane(c) && c.phase == FetchStack && c.fetchState == k && !c.memoryCycle && k <= 3
    && (k >= 1 ==> c.top1 == c.ram[Plus(c.sp, 0)])
    && (k >= 2 ==> c.top2 == c.ram[Plus(c.sp, 1)])
    && (k >= 3 ==> c.top3 == c.ram[Plus(c.sp, 2)])
  }

  lemma FillOne(c: Cpu, k: nat, e: Edge, f: Edge)
    requires Filling(c, k) && k < 3
    ensures var r := Clock(Clock(c, e), f);
            Filling(r, k + 1) && r.ram == c.ram && r.sp == c.sp && r.csp == c.csp && r.cycle == c.cycle
  {
  }

  /** Seven edges fill the three registers, so that the cache holds what was saved. */
  lemma FetchFills(c: Cpu, s: seq<Word>, calls: seq<Word>, es: seq<Edge>)
    requires Filling(c, 0) && !c.cycle && Saved(c.ram, c.sp, c.csp, s, calls) && |es| == 7
    ensures var r := Clock(Clock(Clock(Clock(Clock(Clock(Clock(c, es[0]), es[1]), es[2]), es[3]), es[4]), es[5]), es[6]);
            AtBoundary(r) && Holds(CacheOf(r), s, calls)
  {
    FillOne(c, 0, es[0], es[1]);
    var d := Clock(Clock(c, es[0]), es[1]);
    FillOne(d, 1, es[2], es[3]);
    var f := Clock(Clock(d, es[2]), es[3]);
    FillOne(f, 2, es[4], es[5]);
    var g := Clock(Clock(f, es[4]), es[5]);
    FillLast(g, s, calls, es[6]);
  }

  lemma FillLast(g: Cpu, s: seq<Word>, calls: seq<Word>, e: Edge)
    requires Filling(g, 3) && !g.cycle && Saved(g.ram, g.sp, g.csp, s, calls)
    ensures AtBoundary(Clock(g, e)) && Holds(CacheOf(Clock(g, e)), s, calls)
  {
    var k := CacheOf(Clock(g, e));
    forall i | 0 <= i < |s|
      ensures Cell(k, i) == s[i]
    {
      assert g.ram[256 - |s| + i] == s[i];
    }
  }
}
