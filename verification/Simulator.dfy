/**
 * The simulator's core: one tick decodes an instruction, runs it on a process's memory cell and tells
 * the processor what else must happen.
 */
module Simulator {
  import opened Wrappers
  import opened Isa
  import opened StackMachine
  import opened WordMemory
  import MemoryCells
  import opened CellObject

  datatype Flags = Flags(zero: bool, overflow: bool, sign: bool, carry: bool)

  /** What a core keeps of its own: these do not follow a process from core to core. */
  datatype Registers = Registers(flags: Flags, hasAlternationValue: bool)

  datatype Message =
    | Nothing
    | StartProcess(pc: Word, words: Word)
    | Yielded
    | Halt
    | NewChannel
    | DeleteChannel(channel: Word)
    | SendOn(channel: Word, value: Word)
    | ReceiveOn(channel: Word)
    | StartAlternation
    | WaitAlternation
    | EndAlternation
    | Enable(channel: Word)
    | Disable(channel: Word, destination: Word, hasValue: bool)

  datatype Ticked = Did(registers: Registers, machine: Machine, message: Message) | Failed

  function Matches(f: Flags, c: Condition): bool {
    match c
    case ZeroEqual => f.zero
    case NotZeroNotEqual => !f.zero
    case Negative => f.sign
    case NonNegative => !f.sign
    case UnsignedGreater => !f.carry && !f.zero
    case UnsignedLessOrEqual => f.carry || f.zero
    case UnsignedGreaterOrEqual => !f.carry
    case UnsignedLess => f.carry
    case SignedGreater => !(f.sign != f.overflow) && !f.zero
    case SignedLessOrEqual => f.sign != f.overflow || f.zero
    case SignedGreaterOrEqual => !(f.sign != f.overflow)
    case SignedLess => f.sign != f.overflow
    case Overflow => f.overflow
    case NoOverflow => !f.overflow
    case Never => false
    case Always => true
  }

  function ResultFlags(r: Word): Flags {
    Flags(r == 0, false, r >= 0x8000, false)
  }

  function InSignedRange(x: int): bool {
    -0x8000 <= x < 0x8000
  }

  /** Every arithmetic or logic operation clears the flags first. */
  function AluFlags(op: Op, a: Word, b: Word): Flags {
    match op
    case Add => Flags(Wrap(a + b) == 0, !InSignedRange(Signed(a) + Signed(b)), Wrap(a + b) >= 0x8000, a + b >= 0x1_0000)
    case LogicalNot => ResultFlags(Not(b))
    case Test => ResultFlags(And(a, b))
    case _ =>
      if op == Sub || op == Compare then
        Flags(a == b, !InSignedRange(Signed(a) - Signed(b)), Wrap(a - b) >= 0x8000, a < b)
      else if Alu(op, a, b).Some? then ResultFlags(Alu(op, a, b).value)
      else Flags(false, false, false, false)
  }

  function NewFlags(f: Flags, s: seq<Word>, i: Instruction): Flags {
    if i.ArithmeticOrLogic? && |s| >= 1 then AluFlags(i.op, if |s| >= 2 then s[1] else 0, s[0]) else f
  }

  /** The operations that involve the processor; the counter has already moved. */
  function ProcessStep(r: Registers, m: Machine, p: ProcessOp): Ticked {
    var s := m.stack;
    match p
    case Start => if |s| >= 2 then Did(r, m.(stack := s[2..]), StartProcess(s[1], s[0])) else Failed
    case End => Did(r, m, Halt)
    case Send => if |s| >= 2 then Did(r, m.(stack := s[1..]), SendOn(s[1], s[0])) else Failed
    case Receive => if |s| >= 1 then Did(r, m, ReceiveOn(s[0])) else Failed
    case AlternationStart => Did(r.(hasAlternationValue := false), m, StartAlternation)
    case AlternationWait => Did(r, m, WaitAlternation)
    case AlternationEnd => Did(r, m, EndAlternation)
    case EnableChannel => if |s| >= 1 then Did(r, m.(stack := s[1..]), Enable(s[0])) else Failed
    case DisableChannel =>
      if |s| >= 2 then Did(r, m.(stack := s[2..]), Disable(s[1], s[0], r.hasAlternationValue)) else Failed
    case CreateChannel => Did(r, m, NewChannel)
    case DestroyChannel => if |s| >= 1 then Did(r, m.(stack := s[1..]), DeleteChannel(s[0])) else Failed
    case Yield => Did(r, m, Yielded)
  }

  /** A step of the plain machine, with what it does to the core. */
  function FromOutcome(r: Registers, m: Machine, i: Instruction, o: Outcome): Ticked {
    match o
    case Next(n) => Did(r.(flags := NewFlags(r.flags, m.stack, i)), n, Nothing)
    case Halted => Did(r, m.(pc := Wrap(m.pc + 1)), Halt)
    case Stuck => Failed
  }

  function Execute(r: Registers, m: Machine, i: Instruction, next: Byte): Ticked {
    if i.Process? then ProcessStep(r, m.(pc := Wrap(m.pc + 1)), i.process)
    else FromOutcome(r, m, i, Step(m, i, next, i.Jump? && Matches(r.flags, i.condition)))
  }

  /** The instruction at an address and the byte after it, which only some instructions look at. */
  function Fetch(code: Memory, pc: Word): Option<(Instruction, Byte)> {
    var raw := ReadByte(code, pc);
    if raw.None? || Decode(raw.value).None? then None
    else
      var i := Decode(raw.value).value;
      var next := ReadByte(code, pc + 1);
      if Length(i) == 2 && next.None? then None
      else Some((i, if next.Some? then next.value else 0))
  }

  /** One tick. Instructions live in a byte memory of their own. */
  function Tick(code: Memory, r: Registers, m: Machine): Ticked {
    match Fetch(code, m.pc)
    case None => Failed
    case Some((i, next)) => Execute(r, m, i, next)
  }

  /** A tick's outcome, as the core reports it. */
  predicate Reports(t: Ticked, r: Option<Message>, own: Registers, m: Machine) {
    match t
    case Did(o, n, message) => r == Some(message) && m == n && own == o
    case Failed => r == None
  }

  lemma ExecuteStraightLine(r: Registers, m: Machine, i: Instruction, next: Byte)
    requires StraightLine(i) && m.pc < 0xFFF0
    ensures var v := Values(m.stack, i, next);
            Execute(r, m, i, next) ==
            if v.Some? then Did(r.(flags := NewFlags(r.flags, m.stack, i)), m.(pc := m.pc + Length(i), stack := v.value), Nothing)
            else Failed
  {
  }

  lemma ExecuteControl(r: Registers, m: Machine, i: Instruction, next: Byte)
    requires (i.Jump? || i.Function?) && m.pc < 0xFFF0
    ensures Execute(r, m, i, next) ==
            if i.Jump? then
              if i.condition == Never then Did(r, m.(pc := m.pc + 1), Nothing)
              else if m.stack == [] then Failed
              else Did(r, m.(pc := if Matches(r.flags, i.condition) then m.stack[0] else m.pc + 1, stack := m.stack[1..]), Nothing)
            else if i.function_.Return? then
              if m.calls == [] then Did(r, m.(pc := m.pc + 1), Halt)
              else Did(r, Machine(m.calls[|m.calls| - 1], m.stack, m.calls[..|m.calls| - 1]), Nothing)
            else if m.stack == [] then Failed
            else Did(r, Machine(m.stack[0], m.stack[1..], m.calls + [m.pc + 1]), Nothing)
  {
    assert i.Function? ==> i == Function(i.function_) && (i.function_.Call? || i.function_.Return?);
  }

  lemma NoWrap(x: nat)
    requires x < 0x1_0000
    ensures Wrap(x) == x
  {
  }

  lemma PushedConstant(s: seq<Word>, i: Instruction, next: Byte, word: Word)
    requires i.PushSmall? || i.PushNextLower? || i.PushNextUpper?
    requires word == if i.PushSmall? then i.n else if i.PushNextLower? then Wrap(256 * i.n + next) else Wrap(0x1000 * i.n + 16 * next)
    ensures Values(s, i, next) == Some([word] + s)
  {
  }

  /** Room for `n` more words on either stack. */
  predicate Room(m: Machine, n: nat) {
    MemoryCells.HEADER + 2 * |m.calls| + 2 * |m.stack| + 2 * n <= MemoryCells.CELL_SIZE
  }

  class Core {
    var flags: Flags
    var hasAlternationValue: bool

    function Own(): Registers
      reads this
    {
      Registers(flags, hasAlternationValue)
    }

    constructor ()
      ensures Own() == Registers(Flags(false, false, false, false), false)
    {
      flags := Flags(false, false, false, false);
      hasAlternationValue := false;
    }

    /** Pops two operands and sets the flags. */
    method Operands(cell: MemoryCell) returns (ab: Option<(Word, Word)>)
      requires cell.Valid()
      modifies cell.memory
      ensures cell.Valid() && cell.FlagsByte() == old(cell.FlagsByte())
      ensures var s := old(cell.Abs()).stack;
              if |s| >= 2 then ab == Some((s[1], s[0])) && cell.Abs() == old(cell.Abs()).(stack := s[2..])
              else ab == None
    {
      var b := cell.Pop();
      if b.None? {
        return None;
      }
      var a := cell.Pop();
      if a.None? {
        return None;
      }
      ab := Some((a.value, b.value));
    }

    method AluOperation(op: Op, cell: MemoryCell) returns (ok: bool)
      requires cell.Valid()
      modifies this`flags, cell.memory
      ensures cell.Valid() && cell.FlagsByte() == old(cell.FlagsByte())
      ensures var m := old(cell.Abs());
              var v := Values(m.stack, ArithmeticOrLogic(op), 0);
              ok == v.Some? &&
              (ok ==> cell.Abs() == m.(stack := v.value) && flags == NewFlags(old(flags), m.stack, ArithmeticOrLogic(op)))
    {
      ghost var m := cell.Abs();
      MemoryCells.MachineFits(cell.memory[..]);
      if op == LogicalNot {
        var a := cell.Pop();
        if a.None? {
          return false;
        }
        flags := AluFlags(op, 0, a.value);
        cell.Push(Not(a.value));
        return true;
      }
      var ab := Operands(cell);
      if ab.None? {
        return false;
      }
      var (a, b) := ab.value;
      flags := AluFlags(op, a, b);
      if op == Test || op == Compare {
        return true;
      }
      var r := Alu(op, a, b);
      if r.None? {
        return false;
      }
      cell.Push(r.value);
      ok := true;
    }

    /** Pushes `x`, then `y`. */
    method PushTwo(x: Word, y: Word, cell: MemoryCell)
      requires cell.Valid() && Room(cell.Abs(), 2)
      modifies cell.memory
      ensures cell.Valid() && cell.FlagsByte() == old(cell.FlagsByte())
      ensures cell.Abs() == old(cell.Abs()).(stack := [y, x] + old(cell.Abs()).stack)
    {
      cell.Push(x);
      cell.Push(y);
      assert [y] + ([x] + old(cell.Abs()).stack) == [y, x] + old(cell.Abs()).stack;
    }

    /** The third entry with the top two, in the order they are found. */
    method PopThree(cell: MemoryCell) returns (abc: Option<(Word, Word, Word)>)
      requires cell.Valid()
      modifies cell.memory
      ensures cell.Valid() && cell.FlagsByte() == old(cell.FlagsByte())
      ensures var s := old(cell.Abs()).stack;
              if |s| >= 3 then abc == Some((s[0], s[1], s[2])) && cell.Abs() == old(cell.Abs()).(stack := s[3..])
              else abc == None
    {
      var ab := Operands(cell);
      if ab.None? {
        return None;
      }
      var c := cell.Pop();
      if c.None? {
        return None;
      }
      abc := Some((ab.value.1, ab.value.0, c.value));
    }

    method TuckTop(cell: MemoryCell) returns (ok: bool)
      requires cell.Valid()
      modifies cell.memory
      ensures cell.Valid() && cell.FlagsByte() == old(cell.FlagsByte())
      ensures var m := old(cell.Abs());
              ok == (|m.stack| >= 3) &&
              (ok ==> cell.Abs() == m.(stack := [m.stack[2], m.stack[0], m.stack[1]] + m.stack[3..]))
    {
      MemoryCells.MachineFits(cell.memory[..]);
      ghost var s := cell.Abs().stack;
      var abc := PopThree(cell);
      if abc.None? {
        return false;
      }
      var (a, b, c) := abc.value;
      PushTwo(b, a, cell);
      cell.Push(c);
      assert [c] + ([a, b] + s[3..]) == [c, a, b] + s[3..];
      ok := true;
    }

    method RotTop(cell: MemoryCell) returns (ok: bool)
      requires cell.Valid()
      modifies cell.memory
      ensures cell.Valid() && cell.FlagsByte() == old(cell.FlagsByte())
      ensures var m := old(cell.Abs());
              ok == (|m.stack| >= 3) &&
              (ok ==> cell.Abs() == m.(stack := [m.stack[1], m.stack[2], m.stack[0]] + m.stack[3..]))
    {
      MemoryCells.MachineFits(cell.memory[..]);
      ghost var s := cell.Abs().stack;
      var abc := PopThree(cell);
      if abc.None? {
        return false;
      }
      var (a, b, c) := abc.value;
      PushTwo(a, c, cell);
      cell.Push(b);
      assert [b] + ([c, a] + s[3..]) == [b, c, a] + s[3..];
      ok := true;
    }

    method SwapTop(cell: MemoryCell) returns (ok: bool)
      requires cell.Valid()
      modifies cell.memory
      ensures cell.Valid() && cell.FlagsByte() == old(cell.FlagsByte())
      ensures var m := old(cell.Abs());
              var v := Values(m.stack, Stack(Swap), 0);
              ok == v.Some? && (ok ==> cell.Abs() == m.(stack := v.value))
    {
      MemoryCells.MachineFits(cell.memory[..]);
      var ba := Operands(cell);
      if ba.None? {
        return false;
      }
      PushTwo(ba.value.1, ba.value.0, cell);
      ok := true;
    }

    method StackOperation(op: StackOp, cell: MemoryCell) returns (ok: bool)
      requires cell.Valid() && (op == Dup && cell.Abs().stack != [] ==> Room(cell.Abs(), 1))
      modifies cell.memory
      ensures cell.Valid() && cell.FlagsByte() == old(cell.FlagsByte())
      ensures var m := old(cell.Abs());
              var v := Values(m.stack, Stack(op), 0);
              ok == v.Some? && (ok ==> cell.Abs() == m.(stack := v.value))
    {
      MemoryCells.MachineFits(cell.memory[..]);
      match op {
        case Drop =>
          var a := cell.Pop();
          ok := a.Some?;
        case Dup =>
          var a := cell.Pop();
          if a.None? {
            return false;
          }
          PushTwo(a.value, a.value, cell);
          ok := true;
        case Swap =>
          ok := SwapTop(cell);
        case Tuck =>
          ok := TuckTop(cell);
        case Rot =>
          ok := RotTop(cell);
      }
    }

    method AddConstant(n: Byte, cell: MemoryCell) returns (ok: bool)
      requires cell.Valid()
      modifies cell.memory
      ensures cell.Valid() && cell.FlagsByte() == old(cell.FlagsByte())
      ensures var m := old(cell.Abs());
              ok == (m.stack != []) && (ok ==> cell.Abs() == m.(stack := [Wrap(m.stack[0] + n)] + m.stack[1..]))
    {
      MemoryCells.MachineFits(cell.memory[..]);
      var a := cell.Pop();
      if a.None? {
        return false;
      }
      cell.Push(Wrap(a.value + n));
      ok := true;
    }

    /** The instructions that push what is in them and the byte after them, or add it. */
    method ConstantOperation(i: Instruction, next: Byte, cell: MemoryCell) returns (ok: bool)
      requires i.PushSmall? || i.AddSmall? || i.PushNextLower? || i.PushNextUpper?
      requires cell.Valid() && (i.AddSmall? || Room(cell.Abs(), 1))
      modifies cell.memory
      ensures cell.Valid() && cell.FlagsByte() == old(cell.FlagsByte())
      ensures var m := old(cell.Abs());
              var v := Values(m.stack, i, next);
              ok == v.Some? && (ok ==> cell.Abs() == m.(stack := v.value))
    {
      ok := true;
      if i.AddSmall? {
        ok := AddConstant(i.n, cell);
      } else {
        var word := if i.PushSmall? then i.n else if i.PushNextLower? then Wrap(256 * i.n + next) else Wrap(0x1000 * i.n + 16 * next);
        PushedConstant(cell.Abs().stack, i, next, word);
        cell.Push(word);
      }
    }

    method LocalOperation(i: Instruction, cell: MemoryCell) returns (ok: bool)
      requires i.ReadLocal? || i.WriteLocal? || i.ReadLocalOffset? || i.WriteLocalOffset?
      requires cell.Valid() && (i.ReadLocalOffset? && i.n < |cell.Abs().stack| ==> Room(cell.Abs(), 1))
      modifies cell.memory
      ensures cell.Valid() && cell.FlagsByte() == old(cell.FlagsByte())
      ensures var m := old(cell.Abs());
              var v := Values(m.stack, i, 0);
              ok == v.Some? && (ok ==> cell.Abs() == m.(stack := v.value))
    {
      MemoryCells.MachineFits(cell.memory[..]);
      if i.ReadLocalOffset? {
        ok := ReadLocalAt(i.n, cell);
      } else if i.WriteLocalOffset? {
        ok := WriteLocalAt(i.n, cell);
      } else {
        var offset := cell.Pop();
        if offset.None? {
          return false;
        }
        if i.ReadLocal? {
          ok := ReadLocalAt(offset.value, cell);
        } else {
          ok := WriteLocalAt(offset.value, cell);
        }
      }
    }

    method StraightLineOperation(i: Instruction, next: Byte, cell: MemoryCell) returns (ok: bool)
      requires cell.Valid() && StraightLine(i)
      requires var v := Values(cell.Abs().stack, i, next);
               v.Some? ==> MemoryCells.Fits(cell.Abs().(stack := v.value))
      modifies this`flags, cell.memory
      ensures cell.Valid() && cell.FlagsByte() == old(cell.FlagsByte())
      ensures var m := old(cell.Abs());
              var v := Values(m.stack, i, next);
              ok == v.Some? && (ok ==> cell.Abs() == m.(stack := v.value) && flags == NewFlags(old(flags), m.stack, i))
    {
      if i.ArithmeticOrLogic? {
        ok := AluOperation(i.op, cell);
      } else if i.Stack? {
        ok := StackOperation(i.stack, cell);
      } else if i.PushSmall? || i.AddSmall? || i.PushNextLower? || i.PushNextUpper? {
        ok := ConstantOperation(i, next, cell);
      } else {
        ok := LocalOperation(i, cell);
      }
    }

    method ReadLocalAt(offset: Word, cell: MemoryCell) returns (ok: bool)
      requires cell.Valid() && (offset < |cell.Abs().stack| ==> Room(cell.Abs(), 1))
      modifies cell.memory
      ensures cell.Valid() && cell.FlagsByte() == old(cell.FlagsByte())
      ensures var m := old(cell.Abs());
              ok == (offset < |m.stack|) && (ok ==> cell.Abs() == m.(stack := [m.stack[offset]] + m.stack))
    {
      var value := cell.Peek(offset);
      if value.None? {
        return false;
      }
      cell.Push(value.value);
      ok := true;
    }

    /** The simulator does not check the write against the stack's size; out of range it fails here. */
    method WriteLocalAt(offset: Word, cell: MemoryCell) returns (ok: bool)
      requires cell.Valid()
      modifies cell.memory
      ensures cell.Valid() && cell.FlagsByte() == old(cell.FlagsByte())
      ensures var s := old(cell.Abs()).stack;
              ok == (|s| >= 1 && offset < |s| - 1) &&
              (ok ==> cell.Abs() == old(cell.Abs()).(stack := s[1..][offset := s[0]]))
    {
      var word := cell.Pop();
      if word.None? {
        return false;
      }
      var there := cell.Peek(offset);
      if there.None? {
        return false;
      }
      cell.Poke(offset, word.value);
      ok := true;
    }

    method ProcessOperation(op: ProcessOp, cell: MemoryCell) returns (r: Option<Message>)
      requires cell.Valid()
      modifies this`hasAlternationValue, cell.memory
      ensures cell.Valid() && cell.FlagsByte() == old(cell.FlagsByte())
      ensures Reports(ProcessStep(old(Own()), old(cell.Abs()), op), r, Own(), cell.Abs())
    {
      if op == Start || op == DisableChannel {
        var ab := Operands(cell);
        if ab.None? {
          return None;
        }
        var (a, b) := ab.value;
        r := Some(if op == Start then StartProcess(a, b) else Disable(a, b, hasAlternationValue));
      } else if op == Send {
        var value := cell.Pop();
        if value.None? {
          return None;
        }
        var channel := cell.Peek(0);
        if channel.None? {
          return None;
        }
        r := Some(SendOn(channel.value, value.value));
      } else if op == Receive {
        var channel := cell.Peek(0);
        if channel.None? {
          return None;
        }
        r := Some(ReceiveOn(channel.value));
      } else if op == EnableChannel || op == DestroyChannel {
        var channel := cell.Pop();
        if channel.None? {
          return None;
        }
        r := Some(if op == EnableChannel then Enable(channel.value) else DeleteChannel(channel.value));
      } else {
        r := SimpleOperation(op);
      }
    }

    method SimpleOperation(op: ProcessOp) returns (r: Option<Message>)
      requires op in {End, AlternationStart, AlternationWait, AlternationEnd, CreateChannel, Yield}
      modifies this`hasAlternationValue
      ensures hasAlternationValue == (op != AlternationStart && old(hasAlternationValue))
      ensures r == match op
                   case End => Some(Halt)
                   case AlternationStart => Some(StartAlternation)
                   case AlternationWait => Some(WaitAlternation)
                   case AlternationEnd => Some(EndAlternation)
                   case CreateChannel => Some(NewChannel)
                   case Yield => Some(Yielded)
    {
      match op {
        case End => r := Some(Halt);
        case AlternationStart =>
          hasAlternationValue := false;
          r := Some(StartAlternation);
        case AlternationWait => r := Some(WaitAlternation);
        case AlternationEnd => r := Some(EndAlternation);
        case CreateChannel => r := Some(NewChannel);
        case Yield => r := Some(Yielded);
      }
    }

    method JumpOn(condition: Condition, cell: MemoryCell) returns (r: Option<Message>)
      requires cell.Valid() && cell.Abs().pc < 0xFFF0
      modifies cell.memory
      ensures cell.Valid() && cell.FlagsByte() == old(cell.FlagsByte())
      ensures var m := old(cell.Abs());
              if condition == Never then r == Some(Nothing) && cell.Abs() == m.(pc := m.pc + 1)
              else if m.stack == [] then r == None
              else r == Some(Nothing) &&
                   cell.Abs() == m.(pc := if Matches(flags, condition) then m.stack[0] else m.pc + 1, stack := m.stack[1..])
    {
      var pc := cell.ProgramCounter();
      cell.SetProgramCounter(pc + 1);
      var target := 0;
      if condition != Never {
        var t := cell.Pop();
        if t.None? {
          return None;
        }
        target := t.value;
      }
      if Matches(flags, condition) {
        cell.SetProgramCounter(target);
      }
      r := Some(Nothing);
    }

    method CallOn(cell: MemoryCell) returns (r: Option<Message>)
      requires cell.Valid() && cell.Abs().pc < 0xFFF0
      modifies cell.memory
      ensures cell.Valid() && cell.FlagsByte() == old(cell.FlagsByte())
      ensures var m := old(cell.Abs());
              if m.stack == [] then r == None
              else r == Some(Nothing) && cell.Abs() == Machine(m.stack[0], m.stack[1..], m.calls + [m.pc + 1])
    {
      var pc := cell.ProgramCounter();
      cell.SetProgramCounter(pc + 1);
      MemoryCells.MachineFits(cell.memory[..]);
      var address := cell.Pop();
      if address.None? {
        return None;
      }
      cell.PushCall(pc + 1);
      cell.SetProgramCounter(address.value);
      r := Some(Nothing);
    }

    method ReturnOn(cell: MemoryCell) returns (r: Option<Message>)
      requires cell.Valid() && cell.Abs().pc < 0xFFF0
      modifies cell.memory
      ensures cell.Valid() && cell.FlagsByte() == old(cell.FlagsByte())
      ensures var m := old(cell.Abs());
              if m.calls == [] then r == Some(Halt) && cell.Abs() == m.(pc := m.pc + 1)
              else r == Some(Nothing) && cell.Abs() == Machine(m.calls[|m.calls| - 1], m.stack, m.calls[..|m.calls| - 1])
    {
      var pc := cell.ProgramCounter();
      cell.SetProgramCounter(pc + 1);
      MemoryCells.MachineFits(cell.memory[..]);
      var csp := cell.ReadWord(2);
      if csp.value == 8 {
        return Some(Halt);
      }
      var address := cell.PopCall();
      cell.SetProgramCounter(address);
      r := Some(Nothing);
    }

    method ProcessOn(op: ProcessOp, cell: MemoryCell) returns (r: Option<Message>)
      requires cell.Valid() && cell.Abs().pc < 0xFFF0
      modifies this`hasAlternationValue, cell.memory
      ensures cell.Valid() && cell.FlagsByte() == old(cell.FlagsByte())
      ensures Reports(ProcessStep(old(Own()), old(cell.Abs()).(pc := Wrap(old(cell.Abs()).pc + 1)), op), r, Own(), cell.Abs())
    {
      var pc := cell.ProgramCounter();
      NoWrap(pc + 1);
      cell.SetProgramCounter(pc + 1);
      r := ProcessOperation(op, cell);
    }

    method StraightLineOn(i: Instruction, next: Byte, cell: MemoryCell) returns (r: Option<Message>)
      requires cell.Valid() && cell.Abs().pc < 0xFFF0 && StraightLine(i)
      requires var v := Values(cell.Abs().stack, i, next);
               v.Some? ==> MemoryCells.Fits(cell.Abs().(stack := v.value))
      modifies this`flags, cell.memory
      ensures cell.Valid() && cell.FlagsByte() == old(cell.FlagsByte())
      ensures var m := old(cell.Abs());
              var v := Values(m.stack, i, next);
              if v.Some? then
                r == Some(Nothing) && cell.Abs() == m.(pc := m.pc + Length(i), stack := v.value) &&
                flags == NewFlags(old(flags), m.stack, i)
              else r == None
    {
      var pc := cell.ProgramCounter();
      cell.SetProgramCounter(pc + Length(i));
      var ok := StraightLineOperation(i, next, cell);
      r := if ok then Some(Nothing) else None;
    }

    /** A straight-line instruction, reported as a tick. */
    method ExecuteStraight(i: Instruction, next: Byte, cell: MemoryCell) returns (r: Option<Message>)
      requires cell.Valid() && cell.Abs().pc < 0xFFF0 && StraightLine(i)
      requires var d := Execute(Own(), cell.Abs(), i, next);
               d.Did? ==> MemoryCells.Fits(d.machine)
      modifies this, cell.memory
      ensures cell.Valid() && cell.FlagsByte() == old(cell.FlagsByte())
      ensures Reports(Execute(old(Own()), old(cell.Abs()), i, next), r, Own(), cell.Abs())
    {
      ExecuteStraightLine(Own(), cell.Abs(), i, next);
      r := StraightLineOn(i, next, cell);
    }

    /** A jump, a call or a return, reported as a tick. */
    method ExecuteJump(i: Instruction, next: Byte, cell: MemoryCell) returns (r: Option<Message>)
      requires cell.Valid() && cell.Abs().pc < 0xFFF0 && (i.Jump? || i.Function?)
      modifies this, cell.memory
      ensures cell.Valid() && cell.FlagsByte() == old(cell.FlagsByte())
      ensures Reports(Execute(old(Own()), old(cell.Abs()), i, next), r, Own(), cell.Abs())
    {
      ExecuteControl(Own(), cell.Abs(), i, next);
      if i.Jump? {
        r := JumpOn(i.condition, cell);
      } else if i.function_.Call? {
        r := CallOn(cell);
      } else {
        r := ReturnOn(cell);
      }
    }

    /** Runs a decoded instruction. */
    method ExecuteOn(i: Instruction, next: Byte, cell: MemoryCell) returns (r: Option<Message>)
      requires cell.Valid() && cell.Abs().pc < 0xFFF0
      requires var d := Execute(Own(), cell.Abs(), i, next);
               d.Did? ==> MemoryCells.Fits(d.machine)
      modifies this, cell.memory
      ensures cell.Valid() && cell.FlagsByte() == old(cell.FlagsByte())
      ensures Reports(Execute(old(Own()), old(cell.Abs()), i, next), r, Own(), cell.Abs())
    {
      if StraightLine(i) {
        r := ExecuteStraight(i, next, cell);
      } else if i.Raw? {
        r := None;
      } else if i.Process? {
        r := ProcessOn(i.process, cell);
      } else {
        r := ExecuteJump(i, next, cell);
      }
    }

    method FetchFrom(instructions: MemoryCell, pc: Word) returns (r: Option<(Instruction, Byte)>)
      requires instructions.memory.Length == MemoryCells.CELL_SIZE
      ensures r == Fetch(instructions.memory[..], pc)
      ensures r.Some? ==> pc < MemoryCells.CELL_SIZE
    {
      ReadByteIsIndexing(instructions.memory[..], pc);
      var raw := instructions.ReadByte(pc);
      if raw.None? || Decode(raw.value).None? {
        return None;
      }
      var i := Decode(raw.value).value;
      var next := instructions.ReadByte(pc + 1);
      if Length(i) == 2 && next.None? {
        return None;
      }
      r := Some((i, if next.Some? then next.value else 0));
    }

    method TickOn(instructions: MemoryCell, cell: MemoryCell) returns (r: Option<Message>)
      requires cell.Valid() && instructions.memory != cell.memory && instructions.memory.Length == MemoryCells.CELL_SIZE
      requires var d := Tick(instructions.memory[..], Own(), cell.Abs());
               d.Did? ==> MemoryCells.Fits(d.machine)
      modifies this, cell.memory
      ensures cell.Valid() && cell.FlagsByte() == old(cell.FlagsByte())
      ensures Reports(Tick(instructions.memory[..], old(Own()), old(cell.Abs())), r, Own(), cell.Abs())
    {
      var pc := cell.ProgramCounter();
      var fetched := FetchFrom(instructions, pc);
      if fetched.None? {
        return None;
      }
      r := ExecuteOn(fetched.value.0, fetched.value.1, cell);
    }
  }
}
