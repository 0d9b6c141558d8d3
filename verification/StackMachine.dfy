/**
 * The abstract stack machine: a value stack, top first, and a call stack, oldest first. Both the
 * simulator's memory cell and the hardware's register cache are shown to refine it.
 */
module StackMachine {
  import opened Wrappers
  import opened Isa

  datatype Machine = Machine(pc: Word, stack: seq<Word>, calls: seq<Word>)

  datatype Outcome = Next(machine: Machine) | Halted | Stuck

  function Wrap(x: int): Word {
    x % 0x1_0000
  }

  datatype Gate = Conjunction | Disjunction | Exclusive

  function Through(g: Gate, x: bool, y: bool): bool {
    match g
    case Conjunction => x && y
    case Disjunction => x || y
    case Exclusive => x != y
  }

  /** The bits of both numbers, each pair through the gate. */
  function Bitwise(g: Gate, a: nat, b: nat): nat
    decreases a + b
  {
    if a == 0 && b == 0 then 0
    else 2 * Bitwise(g, a / 2, b / 2) + if Through(g, a % 2 == 1, b % 2 == 1) then 1 else 0
  }

  lemma {:induction false} BitwiseStays(g: Gate, a: nat, b: nat, n: nat)
    requires a < Power2(n) && b < Power2(n)
    ensures Bitwise(g, a, b) < Power2(n)
    decreases n
  {
    if n > 0 && (a > 0 || b > 0) { BitwiseStays(g, a / 2, b / 2, n - 1); }
  }

  function GateWords(g: Gate, a: Word, b: Word): Word {
    SixteenBits();
    BitwiseStays(g, a, b, 16);
    Bitwise(g, a, b)
  }

  function And(a: Word, b: Word): Word { GateWords(Conjunction, a, b) }

  function Or(a: Word, b: Word): Word { GateWords(Disjunction, a, b) }

  function Xor(a: Word, b: Word): Word { GateWords(Exclusive, a, b) }

  function Not(a: Word): Word { 0xFFFF - a }

  function Power2(n: nat): nat {
    if n == 0 then 1 else 2 * Power2(n - 1)
  }

  lemma SixteenBits()
    ensures Power2(16) == 0x1_0000
  {
    assert Power2(4) == 16 && Power2(8) == 256 && Power2(12) == 4096;
  }

  lemma {:induction false} Power2Positive(n: nat)
    ensures Power2(n) > 0
  {
    if n > 0 { Power2Positive(n - 1); }
  }

  /** The word read as a two's complement number. */
  function Signed(a: Word): int {
    if a < 0x8000 then a else a - 0x1_0000
  }

  predicate IsShift(op: Op) {
    op == ArithmeticShiftLeft || op == ArithmeticShiftRight || op == LogicalShiftLeft || op == LogicalShiftRight
  }

  /** `a` is below `b` on the stack. A shift by sixteen or more is an error. */
  function Alu(op: Op, a: Word, b: Word): Option<Word> {
    Power2Positive(b);
    match op
    case Add => Some(Wrap(a + b))
    case Sub => Some(Wrap(a - b))
    case LogicalAnd => Some(And(a, b))
    case LogicalOr => Some(Or(a, b))
    case LogicalXor => Some(Xor(a, b))
    case ArithmeticShiftLeft => if b < 16 then Some(Wrap(a * Power2(b))) else None
    case LogicalShiftLeft => if b < 16 then Some(Wrap(a * Power2(b))) else None
    case ArithmeticShiftRight => if b < 16 then Some(Wrap(Signed(a) / Power2(b))) else None
    case LogicalShiftRight => if b < 16 then Some(Wrap(a / Power2(b))) else None
    case _ => None
  }

  /** The value stack after a straight-line instruction; `next` is the byte that follows it. */
  function Values(s: seq<Word>, i: Instruction, next: Byte): Option<seq<Word>> {
    match i
    case ArithmeticOrLogic(op) =>
      if op == LogicalNot then if |s| >= 1 then Some([Not(s[0])] + s[1..]) else None
      else if op == Test || op == Compare then if |s| >= 2 then Some(s[2..]) else None
      else if |s| >= 2 && Alu(op, s[1], s[0]).Some? then Some([Alu(op, s[1], s[0]).value] + s[2..])
      else None
    case PushSmall(n) => Some([n] + s)
    case AddSmall(n) => if |s| >= 1 then Some([Wrap(s[0] + n)] + s[1..]) else None
    case PushNextLower(n) => Some([Wrap(256 * n + next)] + s)
    case PushNextUpper(n) => Some([Wrap(0x1000 * n + 16 * next)] + s)
    case Stack(Drop) => if |s| >= 1 then Some(s[1..]) else None
    case Stack(Dup) => if |s| >= 1 then Some([s[0]] + s) else None
    case Stack(Swap) => if |s| >= 2 then Some([s[1], s[0]] + s[2..]) else None
    case Stack(Tuck) => if |s| >= 3 then Some([s[2], s[0], s[1]] + s[3..]) else None
    case Stack(Rot) => if |s| >= 3 then Some([s[1], s[2], s[0]] + s[3..]) else None
    case ReadLocal => if |s| >= 1 && s[0] < |s| - 1 then Some([s[1 + s[0]]] + s[1..]) else None
    case WriteLocal => if |s| >= 2 && s[0] < |s| - 2 then Some(s[2..][s[0] := s[1]]) else None
    case ReadLocalOffset(n) => if n < |s| then Some([s[n]] + s) else None
    case WriteLocalOffset(n) => if |s| >= 1 && n < |s| - 1 then Some(s[1..][n := s[0]]) else None
    case _ => None
  }

  predicate StraightLine(i: Instruction) {
    !i.Jump? && !i.Process? && !i.Function? && !i.Raw?
  }

  /** One or two bytes, by the instruction. */
  function Length(i: Instruction): Word {
    if i.PushNextLower? || i.PushNextUpper? then 2 else 1
  }

  /** One instruction; `holds` says whether the flags meet its condition. */
  function Step(m: Machine, i: Instruction, next: Byte, holds: bool): Outcome {
    var pc := Wrap(m.pc + Length(i));
    if StraightLine(i) then
      var s := Values(m.stack, i, next);
      if s.Some? then Next(m.(pc := pc, stack := s.value)) else Stuck
    else if i == Jump(Never) then Next(m.(pc := pc))
    else if i.Jump? && |m.stack| >= 1 then
      Next(m.(pc := if holds then m.stack[0] else pc, stack := m.stack[1..]))
    else if i == Function(Call) && |m.stack| >= 1 then
      Next(Machine(m.stack[0], m.stack[1..], m.calls + [pc]))
    else if i == Function(Return) then
      if m.calls == [] then Halted
      else Next(m.(pc := m.calls[|m.calls| - 1], calls := m.calls[..|m.calls| - 1]))
    else Stuck
  }
}
