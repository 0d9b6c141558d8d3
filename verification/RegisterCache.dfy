/**
 * The hardware core: the top three entries of the value stack live in registers, the rest in a
 * synchronous RAM with eight address bits, beneath which the call stack grows the other way.
 * `Execute` is the combinational block; `Clock` is one rising edge of the clock.
 */
module RegisterCache {
  import opened Wrappers
  import opened Isa
  import opened StackMachine

  type Address = x: int | 0 <= x < 256
  type Counter = x: int | 0 <= x < 512

  datatype Register = PC | SP | CSP | S1 | S2 | S3

  /** The wires into the block; `holds` is the condition evaluated on the ALU flags. */
  datatype Inputs = Inputs(instruction: Byte, expectedPc: Counter, sp: Address, csp: Address,
                           t1: Word, t2: Word, t3: Word, holds: bool)

  datatype Outputs = Outputs(
    pc: Counter, sp: Address, csp: Address, t1: Word, t2: Word, t3: Word,
    addr: Address, write: bool, dataIn: Word, useRam: bool, ramTo: Register,
    pushLower: bool, pushUpper: bool, io: bool, ioAddr: Address, ioTo: Register,
    halt: bool, error: bool)

  /** Addresses have eight bits: sums wrap around. */
  function Plus(a: Address, k: nat): Address
    requires k <= 256
  {
    if a + k < 256 then a + k else a + k - 256
  }

  function Minus1(a: Address): Address {
    if a == 0 then 255 else a - 1
  }

  function AluOut(func: Byte, a: Word, b: Word): Word {
    if func == 0 then Wrap(a + b)
    else if func == 1 || func == 15 then Wrap(a - b)
    else if func == 8 then Not(b)
    else if func == 9 || func == 14 then And(a, b)
    else if func == 10 then Or(a, b)
    else if func == 11 then Xor(a, b)
    else 0
  }

  /** The defaults; wires the block leaves undefined take whatever `x` has. */
  function Defaults(i: Inputs, x: Outputs): Outputs {
    x.(pc := i.expectedPc, sp := i.sp, csp := i.csp, t1 := i.t1, t2 := i.t2, t3 := i.t3,
       write := false, useRam := false, pushLower := false, pushUpper := false, io := false,
       halt := false, error := false)
  }

  function Pop1(o: Outputs, i: Inputs): Outputs {
    o.(t2 := i.t3, sp := Plus(i.sp, 1), addr := Plus(i.sp, 3), useRam := true, ramTo := S3)
  }

  function Pop2(o: Outputs, i: Inputs): Outputs {
    o.(t1 := i.t3, sp := Plus(i.sp, 2), addr := Plus(i.sp, 3), useRam := true, ramTo := S2,
       io := true, ioAddr := Plus(i.sp, 4), ioTo := S3)
  }

  function Write3(o: Outputs, i: Inputs): Outputs {
    o.(write := true, addr := Plus(i.sp, 2), dataIn := i.t3)
  }

  function PushWord(o: Outputs, i: Inputs, value: Word): Outputs {
    Write3(o.(t1 := value, t2 := i.t1, t3 := i.t2, sp := Minus1(i.sp)), i)
  }

  function StackOperation(o: Outputs, i: Inputs, operand: Byte): Outputs {
    if operand == 0 then Pop1(o.(t1 := i.t2), i)
    else if operand == 1 then PushWord(o, i, i.t1)
    else if operand == 2 then o.(t1 := i.t2, t2 := i.t1)
    else if operand == 3 then o.(t1 := i.t3, t2 := i.t1, t3 := i.t2)
    else if operand == 4 then o.(t1 := i.t2, t2 := i.t3, t3 := i.t1)
    else o.(error := true)
  }

  function FunctionOperation(o: Outputs, i: Inputs, operand: Byte): Outputs {
    if operand == 0 then
      o.(pc := i.t1 % 512, dataIn := i.expectedPc, write := true, addr := i.csp, csp := Plus(i.csp, 1),
         sp := Plus(i.sp, 1), t1 := i.t2, t2 := i.t3, io := true, ioAddr := Plus(i.sp, 3), ioTo := S3)
    else if operand == 1 then
      if i.csp == 2 then o.(halt := true)
      else o.(csp := Minus1(i.csp), addr := Minus1(i.csp), useRam := true, ramTo := PC)
    else o.(error := true)
  }

  function ReadLocalOperation(o: Outputs, i: Inputs): Outputs {
    if i.t1 == 0 then o.(t1 := i.t2)
    else if i.t1 == 1 then o.(t1 := i.t3)
    else o.(addr := Plus(i.sp, 1 + i.t1 % 256), useRam := true, ramTo := S1)
  }

  function ReadLocalOffsetOperation(o: Outputs, i: Inputs, operand: Byte): Outputs {
    var p := Write3(o.(t2 := i.t1, t3 := i.t2, sp := Minus1(i.sp)), i);
    if operand == 0 then p.(t1 := i.t1)
    else if operand == 1 then p.(t1 := i.t2)
    else if operand == 2 then p.(t1 := i.t3)
    else p.(io := true, ioAddr := Plus(i.sp, operand), ioTo := S1)
  }

  function Execute(i: Inputs, x: Outputs): Outputs {
    Dispatch(i, Defaults(i, x), i.instruction / 16, i.instruction % 16)
  }

  function Dispatch(i: Inputs, o: Outputs, opcode: Byte, operand: Byte): Outputs
    requires operand < 16
  {
    if opcode == 0 then
      if operand == 8 then o.(t1 := AluOut(operand, i.t2, i.t1))
      else if operand == 14 || operand == 15 then Pop2(o, i)
      else Pop1(o.(t1 := AluOut(operand, i.t2, i.t1)), i)
    else if opcode == 1 then PushWord(o, i, operand)
    else if opcode == 2 then o.(t1 := AluOut(0, i.t1, operand))
    else if opcode == 3 then PushWord(o, i, 256 * operand).(pushLower := true)
    else if opcode == 4 then PushWord(o, i, 0x1000 * operand).(pushUpper := true)
    else if opcode == 5 then
      var p := o.(pc := if i.holds then i.t1 % 512 else i.expectedPc);
      if operand == 14 then p else Pop1(p.(t1 := i.t2), i)
    else if opcode == 7 then FunctionOperation(o, i, operand)
    else if opcode == 8 then StackOperation(o, i, operand)
    else if opcode == 12 then ReadLocalOperation(o, i)
    else if opcode == 14 then ReadLocalOffsetOperation(o, i, operand)
    else o.(error := true)
  }

  /** The same block as it is written: defaults, then overrides, then the shared pops and writes. */
  method ExecuteBlock(i: Inputs, x: Outputs) returns (o: Outputs)
    ensures o == Execute(i, x)
  {
    o := Defaults(i, x);
    var wPop1, wPop2, wWrite3 := false, false, false;
    var opcode: Byte, operand: Byte := i.instruction / 16, i.instruction % 16;
    if opcode == 0 {
      o := o.(t1 := AluOut(operand, i.t2, i.t1));
      var pops2 := operand == 14 || operand == 15;
      var popsNone := operand == 8;
      if !(popsNone || pops2) {
        o := o.(sp := Plus(i.sp, 1));
        wPop1 := true;
      } else if pops2 {
        wPop2 := true;
      }
    } else if opcode == 1 {
      o := o.(t1 := operand, t2 := i.t1, t3 := i.t2, sp := Minus1(i.sp));
      wWrite3 := true;
    } else if opcode == 3 {
      o := o.(t1 := 256 * operand, t2 := i.t1, t3 := i.t2, sp := Minus1(i.sp), pushLower := true);
      wWrite3 := true;
    } else if opcode == 4 {
      o := o.(t1 := 0x1000 * operand, t2 := i.t1, t3 := i.t2, sp := Minus1(i.sp), pushUpper := true);
      wWrite3 := true;
    } else if opcode == 2 {
      o := o.(t1 := AluOut(0, i.t1, operand));
    } else if opcode == 5 {
      o := o.(pc := if i.holds then i.t1 % 512 else i.expectedPc);
      if operand != 14 {
        o := o.(t1 := i.t2);
        wPop1 := true;
      }
    } else if opcode == 8 {
      if operand == 0 {
        wPop1 := true;
        o := o.(t1 := i.t2);
      } else if operand == 1 {
        o := o.(sp := Minus1(i.sp), t1 := i.t1, t2 := i.t1, t3 := i.t2);
        wWrite3 := true;
      } else if operand == 4 {
        o := o.(t1 := i.t2, t2 := i.t3, t3 := i.t1);
      } else if operand == 2 {
        o := o.(t1 := i.t2, t2 := i.t1);
      } else if operand == 3 {
        o := o.(t1 := i.t3, t2 := i.t1, t3 := i.t2);
      } else {
        o := o.(error := true);
      }
    } else if opcode == 7 {
      if operand == 0 {
        o := o.(pc := i.t1 % 512);
        o := o.(dataIn := i.expectedPc, write := true, addr := i.csp, csp := Plus(i.csp, 1));
        o := o.(sp := Plus(i.sp, 1), t1 := i.t2, t2 := i.t3);
        o := o.(io := true, ioAddr := Plus(i.sp, 3), ioTo := S3);
      } else if operand == 1 {
        if i.csp == 2 {
          o := o.(halt := true);
        } else {
          o := o.(csp := Minus1(i.csp));
          o := o.(addr := Minus1(i.csp), useRam := true, ramTo := PC);
        }
      } else {
        o := o.(error := true);
      }
    } else if opcode == 12 {
      if i.t1 == 0 {
        o := o.(t1 := i.t2);
      } else if i.t1 == 1 {
        o := o.(t1 := i.t3);
      } else {
        o := o.(addr := Plus(i.sp, 1 + i.t1 % 256), useRam := true, ramTo := S1);
      }
    } else if opcode == 14 {
      o := o.(t2 := i.t1, t3 := i.t2, sp := Minus1(i.sp));
      o := o.(addr := Plus(i.sp, 2), write := true, dataIn := i.t3);
      if operand == 0 {
        o := o.(t1 := i.t1);
      } else if operand == 1 {
        o := o.(t1 := i.t2);
      } else if operand == 2 {
        o := o.(t1 := i.t3);
      } else {
        o := o.(io := true, ioAddr := Plus(i.sp, operand), ioTo := S1);
      }
    } else {
      o := o.(error := true);
    }
    if wPop1 {
      o := o.(t2 := i.t3, sp := Plus(i.sp, 1), addr := Plus(i.sp, 3), useRam := true, ramTo := S3);
    } else if wPop2 {
      o := o.(t1 := i.t3, sp := Plus(i.sp, 2), addr := Plus(i.sp, 3), useRam := true, ramTo := S2);
      o := o.(io := true, ioAddr := Plus(i.sp, 4), ioTo := S3);
    } else if wWrite3 {
      o := o.(write := true, addr := Plus(i.sp, 2), dataIn := i.t3);
    }
  }

  // ----- one clock edge -----

  datatype Phase = FetchStack | FetchInstruction | Executing | Io | PushLower | PushUpper | Saving

  /** Registers and RAM. `cycle` is the second cycle of an execute or I/O state. */
  datatype Cpu = Cpu(
    ram: seq<Word>, ramOut: Word, phase: Phase, cycle: bool,
    pc: Counter, sp: Address, csp: Address, t1: Word, t2: Word, t3: Word,
    ioAddr: Address, ioTo: Register, pushed: bool,
    fetchState: nat, memoryCycle: bool, top1: Word, top2: Word, top3: Word)

  predicate Sane(c: Cpu) {
    |c.ram| == 256 && c.fetchState < 4
  }

  /** What comes in on one edge: the fetch unit's outputs, and arbitrary undefined wires. */
  datatype Edge = Edge(instruction: Byte, expectedPc: Counter, fetched: bool, holds: bool, x: Outputs)

  function InputsOf(c: Cpu, e: Edge): Inputs {
    Inputs(e.instruction, e.expectedPc, c.sp, c.csp, c.t1, c.t2, c.t3, e.holds)
  }

  /** The RAM: it writes if told to, and its output register takes what was stored before. */
  function RamEdge(c: Cpu, addr: Address, write: bool, data: Word): (r: Cpu)
    requires Sane(c)
    ensures Sane(r)
  {
    c.(ram := if write then c.ram[addr := data] else c.ram, ramOut := c.ram[addr])
  }

  /** Registers after an execute state; a read register takes the RAM's output. */
  function Latch(c: Cpu, o: Outputs, ramOut: Word): Cpu {
    c.(pc := if o.useRam && o.ramTo == PC then ramOut % 512 else o.pc,
       sp := if o.useRam && o.ramTo == SP then ramOut % 256 else o.sp,
       csp := if o.useRam && o.ramTo == CSP then ramOut % 256 else o.csp,
       t1 := if o.useRam && o.ramTo == S1 then ramOut else o.t1,
       t2 := if o.useRam && o.ramTo == S2 then ramOut else o.t2,
       t3 := if o.useRam && o.ramTo == S3 then ramOut else o.t3,
       ioAddr := o.ioAddr, ioTo := o.ioTo)
  }

  function AfterExecute(o: Outputs, e: Edge): Phase {
    if o.error then Saving
    else if o.io then Io
    else if o.pushLower then PushLower
    else if o.pushUpper then PushUpper
    else if o.halt then Saving
    else if o.pc == e.expectedPc && e.instruction / 16 != 7 then Executing
    else FetchInstruction
  }

  function IoLatch(c: Cpu, ramOut: Word): Cpu {
    match c.ioTo
    case PC => c.(pc := ramOut % 512)
    case SP => c.(sp := ramOut % 256)
    case CSP => c.(csp := ramOut % 256)
    case S1 => c.(t1 := ramOut)
    case S2 => c.(t2 := ramOut)
    case S3 => c.(t3 := ramOut)
  }

  /** The unit that fills the three registers, one every two edges. */
  function FetchEdge(c: Cpu): Cpu
    requires Sane(c)
  {
    var f := c.(memoryCycle := !c.memoryCycle,
                fetchState := if c.memoryCycle then (c.fetchState + 1) % 4 else c.fetchState);
    if !c.memoryCycle then f
    else if c.fetchState == 0 then f.(top1 := c.ramOut)
    else if c.fetchState == 1 then f.(top2 := c.ramOut)
    else if c.fetchState == 2 then f.(top3 := c.ramOut)
    else f
  }

  function ExecuteEdge(c: Cpu, e: Edge, o: Outputs): (r: Cpu)
    requires Sane(c)
    ensures Sane(r)
  {
    var r := RamEdge(c, o.addr, o.write, o.dataIn).(pushed := false);
    if c.cycle then Latch(r, o, c.ramOut).(phase := AfterExecute(o, e), cycle := false)
    else r.(cycle := true)
  }

  function Clock(c: Cpu, e: Edge): (r: Cpu)
    requires Sane(c)
    ensures Sane(r)
  {
    match c.phase
    case FetchStack =>
      var r := RamEdge(c, Plus(c.sp, if c.fetchState == 3 then 0 else c.fetchState), false, 0);
      if c.fetchState == 3 then
        r.(t1 := c.top1, t2 := c.top2, t3 := c.top3, phase := FetchInstruction,
           fetchState := 0, memoryCycle := false, pushed := false)
      else FetchEdge(c).(ramOut := r.ramOut, pushed := false)
    case FetchInstruction =>
      RamEdge(c, c.sp, false, 0).(phase := if e.fetched then Executing else FetchInstruction, pushed := false)
    case Executing => ExecuteEdge(c, e, Execute(InputsOf(c, e), e.x))
    case Io =>
      var r := RamEdge(c, c.ioAddr, false, 0).(pushed := false);
      if c.cycle then IoLatch(r, c.ramOut).(phase := FetchInstruction, cycle := false)
      else r.(cycle := true)
    case PushLower =>
      RamEdge(c, e.x.addr, false, 0).(
        t1 := c.t1 / 256 * 256 + e.instruction, phase := if c.pushed then Executing else PushLower,
        pushed := true)
    case PushUpper =>
      RamEdge(c, e.x.addr, false, 0).(
        t1 := c.t1 / 0x1000 * 0x1000 + 16 * e.instruction, phase := if c.pushed then Executing else PushUpper,
        pushed := true)
    case Saving => c
  }
}
