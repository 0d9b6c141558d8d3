/**
 * The instruction set: instructions, their one-byte encoding, and the instructions that push a word.
 */
module Isa {
  import opened Wrappers

  type Word = x: int | 0 <= x < 0x1_0000
  type Byte = x: int | 0 <= x < 0x100

  datatype Op =
    | Add | Sub | ArithmeticShiftLeft | ArithmeticShiftRight | LogicalShiftLeft | LogicalShiftRight
    | LogicalNot | LogicalAnd | LogicalOr | LogicalXor | Test | Compare

  datatype Condition =
    | ZeroEqual | NotZeroNotEqual | Negative | NonNegative | UnsignedGreater | UnsignedLessOrEqual
    | UnsignedGreaterOrEqual | UnsignedLess | SignedGreater | SignedLessOrEqual | SignedGreaterOrEqual
    | SignedLess | Overflow | NoOverflow | Never | Always

  datatype ProcessOp =
    | Start | End | Send | Receive | AlternationStart | AlternationWait | AlternationEnd | EnableChannel
    | DisableChannel | CreateChannel | DestroyChannel | Yield

  datatype FunctionOp = Call | Return

  datatype StackOp = Drop | Dup | Swap | Tuck | Rot

  datatype Instruction =
    | ArithmeticOrLogic(op: Op)
    | PushSmall(n: Byte)
    | AddSmall(n: Byte)
    | PushNextLower(n: Byte)
    | PushNextUpper(n: Byte)
    | Jump(condition: Condition)
    | Process(process: ProcessOp)
    | Function(function_: FunctionOp)
    | Stack(stack: StackOp)
    | ReadLocal
    | WriteLocal
    | ReadLocalOffset(n: Byte)
    | WriteLocalOffset(n: Byte)
    | Raw(n: Byte)

  function OpCode(op: Op): Byte {
    match op
    case Add => 0
    case Sub => 1
    case ArithmeticShiftLeft => 4
    case ArithmeticShiftRight => 5
    case LogicalShiftLeft => 6
    case LogicalShiftRight => 7
    case LogicalNot => 8
    case LogicalAnd => 9
    case LogicalOr => 10
    case LogicalXor => 11
    case Test => 14
    case Compare => 15
  }

  /** The values 2, 3, 12 and 13 name no operation. */
  function DecodeOp(raw: Byte): Option<Op> {
    if raw == 0 then Some(Add) else if raw == 1 then Some(Sub)
    else if raw == 4 then Some(ArithmeticShiftLeft) else if raw == 5 then Some(ArithmeticShiftRight)
    else if raw == 6 then Some(LogicalShiftLeft) else if raw == 7 then Some(LogicalShiftRight)
    else if raw == 8 then Some(LogicalNot) else if raw == 9 then Some(LogicalAnd)
    else if raw == 10 then Some(LogicalOr) else if raw == 11 then Some(LogicalXor)
    else if raw == 14 then Some(Test) else if raw == 15 then Some(Compare)
    else None
  }

  const CONDITIONS := [
    ZeroEqual, NotZeroNotEqual, Negative, NonNegative, UnsignedGreater, UnsignedLessOrEqual,
    UnsignedGreaterOrEqual, UnsignedLess, SignedGreater, SignedLessOrEqual, SignedGreaterOrEqual,
    SignedLess, Overflow, NoOverflow, Never, Always]

  const PROCESS_OPS := [
    Start, End, Send, Receive, AlternationStart, AlternationWait, AlternationEnd, EnableChannel,
    DisableChannel, CreateChannel, DestroyChannel, Yield]

  const STACK_OPS := [Drop, Dup, Swap, Tuck, Rot]

  function ConditionCode(c: Condition): (r: Byte)
    ensures r < 16 && CONDITIONS[r] == c
  {
    match c
    case ZeroEqual => 0
    case NotZeroNotEqual => 1
    case Negative => 2
    case NonNegative => 3
    case UnsignedGreater => 4
    case UnsignedLessOrEqual => 5
    case UnsignedGreaterOrEqual => 6
    case UnsignedLess => 7
    case SignedGreater => 8
    case SignedLessOrEqual => 9
    case SignedGreaterOrEqual => 10
    case SignedLess => 11
    case Overflow => 12
    case NoOverflow => 13
    case Never => 14
    case Always => 15
  }

  function ProcessCode(p: ProcessOp): (r: Byte)
    ensures r < 12 && PROCESS_OPS[r] == p
  {
    match p
    case Start => 0
    case End => 1
    case Send => 2
    case Receive => 3
    case AlternationStart => 4
    case AlternationWait => 5
    case AlternationEnd => 6
    case EnableChannel => 7
    case DisableChannel => 8
    case CreateChannel => 9
    case DestroyChannel => 10
    case Yield => 11
  }

  function StackCode(s: StackOp): (r: Byte)
    ensures r < 5 && STACK_OPS[r] == s
  {
    match s
    case Drop => 0
    case Dup => 1
    case Swap => 2
    case Tuck => 3
    case Rot => 4
  }

  function Nibbles(high: Byte, low: Byte): Option<Byte>
    requires high < 16
  {
    if low < 16 then Some(16 * high + low) else None
  }

  function Encode(i: Instruction): Option<Byte> {
    match i
    case ArithmeticOrLogic(op) => Some(OpCode(op))
    case PushSmall(n) => Nibbles(1, n)
    case AddSmall(n) => Nibbles(2, n)
    case PushNextLower(n) => Nibbles(3, n)
    case PushNextUpper(n) => Nibbles(4, n)
    case Jump(c) => Nibbles(5, ConditionCode(c))
    case Process(p) => Nibbles(6, ProcessCode(p))
    case Function(f) => Nibbles(7, if f == Call then 0 else 1)
    case Stack(s) => Nibbles(8, StackCode(s))
    case ReadLocal => Some(16 * 12)
    case WriteLocal => Some(16 * 13)
    case ReadLocalOffset(n) => Nibbles(14, n)
    case WriteLocalOffset(n) => Nibbles(15, n)
    case Raw(n) => Some(n)
  }

  function Decode(raw: Byte): Option<Instruction> {
    DecodeHalves(raw / 16, raw % 16)
  }

  function DecodeHalves(operation: Byte, operand: Byte): Option<Instruction>
    requires operand < 16
  {
    if operation == 0 then
      var op := DecodeOp(operand);
      if op.Some? then Some(ArithmeticOrLogic(op.value)) else None
    else if operation == 1 then Some(PushSmall(operand))
    else if operation == 2 then Some(AddSmall(operand))
    else if operation == 3 then Some(PushNextLower(operand))
    else if operation == 4 then Some(PushNextUpper(operand))
    else if operation == 5 then Some(Jump(CONDITIONS[operand]))
    else if operation == 6 then if operand < 12 then Some(Process(PROCESS_OPS[operand])) else None
    else if operation == 7 then
      if operand == 0 then Some(Function(Call)) else if operand == 1 then Some(Function(Return)) else None
    else if operation == 8 then if operand < 5 then Some(Stack(STACK_OPS[operand])) else None
    else if operation == 12 then Some(ReadLocal)
    else if operation == 13 then Some(WriteLocal)
    else if operation == 14 then Some(ReadLocalOffset(operand))
    else if operation == 15 then Some(WriteLocalOffset(operand))
    else None
  }

  function Opcode(i: Instruction): Byte
    requires !i.Raw?
  {
    match i
    case ArithmeticOrLogic(_) => 0
    case PushSmall(_) => 1
    case AddSmall(_) => 2
    case PushNextLower(_) => 3
    case PushNextUpper(_) => 4
    case Jump(_) => 5
    case Process(_) => 6
    case Function(_) => 7
    case Stack(_) => 8
    case ReadLocal => 12
    case WriteLocal => 13
    case ReadLocalOffset(_) => 14
    case WriteLocalOffset(_) => 15
  }

  function Operand(i: Instruction): Byte {
    match i
    case ArithmeticOrLogic(op) => OpCode(op)
    case PushSmall(n) => n
    case AddSmall(n) => n
    case PushNextLower(n) => n
    case PushNextUpper(n) => n
    case Jump(j) => ConditionCode(j)
    case Process(p) => ProcessCode(p)
    case Function(f) => if f == Call then 0 else 1
    case Stack(t) => StackCode(t)
    case ReadLocal => 0
    case WriteLocal => 0
    case ReadLocalOffset(n) => n
    case WriteLocalOffset(n) => n
    case Raw(n) => n
  }

  lemma Halves(i: Instruction, raw: Byte)
    requires Encode(i) == Some(raw) && !i.Raw?
    ensures raw / 16 == Opcode(i) && raw % 16 == Operand(i)
  {
    assert 0 <= Operand(i) < 16 && raw == 16 * Opcode(i) + Operand(i);
  }

  /** Every byte an instruction encodes to decodes to that instruction; raw bytes stand for themselves. */
  lemma DecodeEncode(i: Instruction)
    requires Encode(i).Some? && !i.Raw?
    ensures Decode(Encode(i).value) == Some(i)
  {
    Halves(i, Encode(i).value);
    DecodeOpcode(i);
  }

  lemma DecodeOpcode(i: Instruction)
    requires !i.Raw? && Operand(i) < 16
    ensures DecodeHalves(Opcode(i), Operand(i)) == Some(i)
  {
    match i
    case Jump(c) => assert CONDITIONS[ConditionCode(c)] == c;
    case Process(p) => assert PROCESS_OPS[ProcessCode(p)] == p;
    case Stack(s) => assert STACK_OPS[StackCode(s)] == s;
    case _ =>
  }

  /** Conversely, up to the operand that `ReadLocal` and `WriteLocal` ignore. */
  lemma EncodeDecode(raw: Byte)
    requires Decode(raw).Some?
    ensures Encode(Decode(raw).value) == Some(raw) <==> (raw / 16 == 12 || raw / 16 == 13 ==> raw % 16 == 0)
  {
    OpcodeDecode(raw / 16, raw % 16);
    assert raw == 16 * (raw / 16) + raw % 16;
  }

  lemma OpcodeDecode(operation: Byte, operand: Byte)
    requires operand < 16 && operation < 16 && DecodeHalves(operation, operand).Some?
    ensures var i := DecodeHalves(operation, operand).value;
            !i.Raw? && Encode(i) == Some(16 * operation + (if i.ReadLocal? || i.WriteLocal? then 0 else operand))
    ensures var i := DecodeHalves(operation, operand).value;
            i.ReadLocal? || i.WriteLocal? <==> operation == 12 || operation == 13
  {
    if operation == 5 { ConditionIndex(operand); }
    if operation == 6 { ProcessIndex(operand); }
    if operation == 8 { StackIndex(operand); }
  }

  lemma ConditionIndex(r: Byte)
    requires r < 16
    ensures ConditionCode(CONDITIONS[r]) == r
  {
  }

  lemma ProcessIndex(r: Byte)
    requires r < 12
    ensures ProcessCode(PROCESS_OPS[r]) == r
  {
  }

  lemma StackIndex(r: Byte)
    requires r < 5
    ensures StackCode(STACK_OPS[r]) == r
  {
  }

  /** The shortest instructions that push a word. */
  function EncodePush(value: Word): (r: seq<Instruction>)
    ensures |r| == if value < 16 then 1 else if value < 0x1000 then 2 else 3
    ensures forall i | i in r :: Encode(i).Some?
  {
    if value < 16 then [PushSmall(value)]
    else if value < 0x1000 then [PushNextLower(value / 256), Raw(value % 256)]
    else [PushNextUpper(value / 0x1000), Raw(value % 0x1000 / 16), AddSmall(value % 16)]
  }
}
