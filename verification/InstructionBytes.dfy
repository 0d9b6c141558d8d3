/**
 * What each instruction byte does, said of the byte and of the words on the stack: bits and relations
 * instead of operations.
 */
module InstructionBytes {
  import opened Wrappers
  import opened Isa
  import opened StackMachine
  import opened WordMemory
  import opened Simulator
  import opened Conditions

  // ----- bits -----

  predicate Bit(a: nat, k: nat) {
    Power2Positive(k);
    a / Power2(k) % 2 == 1
  }

  lemma Divides(x: int, p: nat)
    requires p > 0
    ensures x / p * p <= x < x / p * p + p
  {
    assert x == x / p * p + x % p;
  }

  lemma Scale(a: int, b: int, k: nat)
    requires a <= b
    ensures a * k <= b * k
  {
    var d: nat := b - a;
    assert b * k == a * k + d * k;
  }

  lemma Quotient(a: int, d: nat, q: int)
    requires d > 0 && q * d <= a < q * d + d
    ensures a / d == q
  {
    Divides(a, d);
    if a / d > q { Scale(q + 1, a / d, d); }
    if a / d < q { Scale(a / d + 1, q, d); }
  }

  lemma HalfFirst(a: nat, k: nat)
    ensures Power2(k) > 0 && a / Power2(k + 1) == a / 2 / Power2(k)
  {
    Power2Positive(k);
    var p := Power2(k);
    var q := a / 2 / p;
    Divides(a / 2, p);
    assert Power2(k + 1) == 2 * p && q * (2 * p) == 2 * (q * p);
    Quotient(a, Power2(k + 1), q);
  }

  lemma ZeroHasNoBits(k: nat)
    ensures !Bit(0, k)
  {
    Power2Positive(k);
    Quotient(0, Power2(k), 0);
  }

  /** A bit of the result is the gate's answer to the bits in its place. */
  lemma {:induction false} GateAt(g: Gate, a: nat, b: nat, k: nat)
    ensures Bit(Bitwise(g, a, b), k) <==> Through(g, Bit(a, k), Bit(b, k))
    decreases a + b
  {
    var w := Bitwise(g, a, b);
    if a == 0 && b == 0 {
      ZeroHasNoBits(k);
    } else if k == 0 {
      assert Power2(0) == 1;
    } else {
      assert w / 2 == Bitwise(g, a / 2, b / 2);
      GateAt(g, a / 2, b / 2, k - 1);
      HalfFirst(w, k - 1);
      HalfFirst(a, k - 1);
      HalfFirst(b, k - 1);
    }
  }

  lemma {:induction false} ComplementAt(a: nat, n: nat, k: nat)
    requires k < n && a < Power2(n)
    ensures Bit(Power2(n) - 1 - a, k) <==> !Bit(a, k)
    decreases n
  {
    var w: nat := Power2(n) - 1 - a;
    assert w / 2 == Power2(n - 1) - 1 - a / 2;
    if k == 0 {
      assert Power2(0) == 1;
    } else {
      ComplementAt(a / 2, n - 1, k - 1);
      HalfFirst(w, k - 1);
      HalfFirst(a, k - 1);
    }
  }

  /** The logical operations, bit by bit. */
  lemma LogicIsBitwise(a: Word, b: Word, k: nat)
    requires k < 16
    ensures Bit(And(a, b), k) <==> Bit(a, k) && Bit(b, k)
    ensures Bit(Or(a, b), k) <==> Bit(a, k) || Bit(b, k)
    ensures Bit(Xor(a, b), k) <==> Bit(a, k) != Bit(b, k)
    ensures Bit(Not(a), k) <==> !Bit(a, k)
  {
    GateAt(Conjunction, a, b, k);
    GateAt(Disjunction, a, b, k);
    GateAt(Exclusive, a, b, k);
    SixteenBits();
    ComplementAt(a, 16, k);
  }

  /** Sixteen bits are a word: nothing else about a result is open. */
  lemma {:induction false} BitsDecide(a: nat, b: nat, n: nat)
    requires a < Power2(n) && b < Power2(n) && forall k | 0 <= k < n :: Bit(a, k) <==> Bit(b, k)
    ensures a == b
    decreases n
  {
    if n > 0 {
      assert Power2(0) == 1 && (Bit(a, 0) <==> Bit(b, 0));
      forall k | 0 <= k < n - 1 ensures Bit(a / 2, k) <==> Bit(b / 2, k) {
        HalfFirst(a, k);
        HalfFirst(b, k);
        assert Bit(a, k + 1) <==> Bit(b, k + 1);
      }
      BitsDecide(a / 2, b / 2, n - 1);
    }
  }

  // ----- arithmetic and logic, by byte -----

  /** What the operation of the byte leaves for `a` and the word `b` above it. */
  ghost predicate Computes(byte: Byte, a: Word, b: Word, x: Word) {
    if byte == 0 then x == a + b || x == a + b - 0x1_0000
    else if byte == 1 then x == a - b || x == a - b + 0x1_0000
    else if byte == 4 || byte == 6 then exists q: int :: a * Power2(b) == x + q * 0x1_0000
    else if byte == 5 then Signed(x) * Power2(b) <= Signed(a) < Signed(x) * Power2(b) + Power2(b)
    else if byte == 7 then x * Power2(b) <= a < x * Power2(b) + Power2(b)
    else if byte == 9 then forall k | 0 <= k < 16 :: Bit(x, k) <==> Bit(a, k) && Bit(b, k)
    else if byte == 10 then forall k | 0 <= k < 16 :: Bit(x, k) <==> Bit(a, k) || Bit(b, k)
    else forall k | 0 <= k < 16 :: Bit(x, k) <==> Bit(a, k) != Bit(b, k)
  }

  predicate Shifts(byte: Byte) {
    4 <= byte <= 7
  }

  predicate Binary(byte: Byte) {
    byte <= 1 || Shifts(byte) || 9 <= byte <= 11
  }

  /** A quotient lies between zero and the dividend, on the dividend's side. */
  lemma QuotientShrinks(x: int, p: nat)
    requires p > 0
    ensures if x >= 0 then 0 <= x / p <= x else x <= x / p < 0
  {
    var q := x / p;
    Divides(x, p);
    if q < 0 {
      Scale(q, -1, p);
    } else {
      Scale(0, q, p);
    }
    if x >= 0 {
      Scale(1, p, x + 1);
      if q > x { Scale(x + 1, q, p); }
    } else {
      Scale(1, p, -x);
      assert (x - 1) * p == x * p - p;
      if q < x { Scale(q, x - 1, p); }
    }
  }

  lemma LeftComputes(a: Word, p: nat)
    ensures exists q: int :: a * p == Wrap(a * p) + q * 0x1_0000
  {
    Divides(a * p, 0x1_0000);
    assert a * p == Wrap(a * p) + a * p / 0x1_0000 * 0x1_0000;
  }

  lemma RightComputes(a: int, p: nat)
    requires p > 0 && -0x8000 <= a < 0x1_0000
    ensures var x := Wrap(a / p);
            && (a >= 0 ==> x * p <= a < x * p + p)
            && (a < 0x8000 ==> Signed(x) * p <= a < Signed(x) * p + p)
  {
    Divides(a, p);
    QuotientShrinks(a, p);
    assert a >= 0 ==> Wrap(a / p) == a / p;
    assert a < 0x8000 ==> Signed(Wrap(a / p)) == a / p;
  }

  lemma ShiftComputes(byte: Byte, a: Word, b: Word, x: Word)
    requires Shifts(byte) && b < 16
    requires Some(x) == Alu(if byte == 4 then ArithmeticShiftLeft else if byte == 5 then ArithmeticShiftRight
                            else if byte == 6 then LogicalShiftLeft else LogicalShiftRight, a, b)
    ensures Computes(byte, a, b, x)
  {
    Power2Positive(b);
    if byte == 4 || byte == 6 {
      LeftComputes(a, Power2(b));
    } else {
      RightComputes(if byte == 5 then Signed(a) else a, Power2(b));
    }
  }

  lemma LogicComputes(byte: Byte, a: Word, b: Word, x: Word)
    requires x == if byte == 9 then And(a, b) else if byte == 10 then Or(a, b) else Xor(a, b)
    ensures 9 <= byte <= 11 ==> Computes(byte, a, b, x)
  {
    forall k: nat | k < 16
      ensures byte == 9 ==> (Bit(x, k) <==> Bit(a, k) && Bit(b, k))
      ensures byte == 10 ==> (Bit(x, k) <==> Bit(a, k) || Bit(b, k))
      ensures byte == 11 ==> (Bit(x, k) <==> Bit(a, k) != Bit(b, k))
    {
      LogicIsBitwise(a, b, k);
    }
  }

  /** The byte stands where the counter points. */
  predicate At(code: Memory, m: Machine, byte: Byte) {
    m.pc < |code| <= 0x200 && code[m.pc] == byte
  }

  lemma TicksAs(code: Memory, r: Registers, m: Machine, i: Instruction) returns (next: Byte)
    requires m.pc < |code| <= 0x200 && Decode(code[m.pc]) == Some(i) && Length(i) == 1
    ensures Tick(code, r, m) == Execute(r, m, i, next)
  {
    DecodesAs(code, m.pc, i);
    next := Fetch(code, m.pc).value.1;
  }

  /** The counter moves on by one, calls stay, nothing is reported, and this is the stack. */
  predicate Leaves(d: Ticked, m: Machine, stack: seq<Word>) {
    d.Did? && d.message == Nothing && d.machine == Machine(Wrap(m.pc + 1), stack, m.calls)
  }

  function OpOf(byte: Byte): Op
    requires Binary(byte)
  {
    if byte == 0 then Add else if byte == 1 then Sub else if byte == 4 then ArithmeticShiftLeft
    else if byte == 5 then ArithmeticShiftRight else if byte == 6 then LogicalShiftLeft
    else if byte == 7 then LogicalShiftRight else if byte == 9 then LogicalAnd else if byte == 10 then LogicalOr else LogicalXor
  }

  lemma OperationTicks(code: Memory, r: Registers, m: Machine, op: Op)
    requires m.pc < |code| <= 0x200 && Decode(code[m.pc]) == Some(ArithmeticOrLogic(op))
    ensures var d, v := Tick(code, r, m), Values(m.stack, ArithmeticOrLogic(op), 0);
            if v.Some? then Leaves(d, m, v.value) else d.Failed?
  {
    var next := TicksAs(code, r, m, ArithmeticOrLogic(op));
    ExecuteStraightLine(r, m, ArithmeticOrLogic(op), next);
  }

  /** Two words become one that is what the byte says; shifting by sixteen or more is an error. */
  lemma BinaryBytes(code: Memory, r: Registers, m: Machine, byte: Byte)
    requires At(code, m, byte) && Binary(byte)
    ensures var d, s := Tick(code, r, m), m.stack;
            && (d.Did? <==> |s| >= 2 && (Shifts(byte) ==> s[0] < 16))
            && (d.Did? ==> exists x :: Computes(byte, s[1], s[0], x) && Leaves(d, m, [x] + s[2..]))
  {
    var op, s := OpOf(byte), m.stack;
    assert Decode(byte) == Some(ArithmeticOrLogic(op));
    OperationTicks(code, r, m, op);
    if |s| >= 2 && Alu(op, s[1], s[0]).Some? {
      var x := Alu(op, s[1], s[0]).value;
      BinaryComputes(byte, s[1], s[0], x);
      assert Computes(byte, s[1], s[0], x) && Leaves(Tick(code, r, m), m, [x] + s[2..]);
    }
  }

  lemma BinaryComputes(byte: Byte, a: Word, b: Word, x: Word)
    requires Binary(byte) && Alu(OpOf(byte), a, b) == Some(x)
    ensures Computes(byte, a, b, x)
  {
    if Shifts(byte) {
      ShiftComputes(byte, a, b, x);
    } else if byte > 1 {
      LogicComputes(byte, a, b, x);
    }
  }

  /** A negation turns every bit; a test and a comparison only take two words away. */
  lemma OtherOperationBytes(code: Memory, r: Registers, m: Machine, byte: Byte)
    requires At(code, m, byte) && (byte == 8 || byte == 14 || byte == 15)
    ensures var d, s := Tick(code, r, m), m.stack;
            && (d.Did? <==> |s| >= if byte == 8 then 1 else 2)
            && (d.Did? && byte != 8 ==> Leaves(d, m, s[2..]))
            && (d.Did? && byte == 8 ==> exists x ::
                  Leaves(d, m, [x] + s[1..]) && forall k | 0 <= k < 16 :: Bit(x, k) <==> !Bit(s[0], k))
  {
    var op := if byte == 8 then LogicalNot else if byte == 14 then Test else Compare;
    assert Decode(byte) == Some(ArithmeticOrLogic(op));
    OperationTicks(code, r, m, op);
    if byte == 8 && m.stack != [] {
      var x := Not(m.stack[0]);
      forall k: nat | k < 16 ensures Bit(x, k) <==> !Bit(m.stack[0], k) { LogicIsBitwise(m.stack[0], 0, k); }
      assert Leaves(Tick(code, r, m), m, [x] + m.stack[1..]);
    }
  }

  // ----- the stack, by byte -----

  /** `t` is `s` with the `n` entries above the base of the rest rearranged: `order` says which stands where. */
  predicate Rearranged(s: seq<Word>, t: seq<Word>, order: seq<nat>) {
    && |order| <= |s| == |t| && t[|order|..] == s[|order|..]
    && forall k | 0 <= k < |order| :: order[k] < |s| && t[k] == s[order[k]]
  }

  /** Drop and duplicate undo each other; swap, tuck and rotate move the top entries about. */
  lemma StackBytes(code: Memory, r: Registers, m: Machine, byte: Byte)
    requires At(code, m, byte) && 0x80 <= byte <= 0x84
    ensures var d, s := Tick(code, r, m), m.stack;
            && (d.Did? <==> |s| >= if byte <= 0x81 then 1 else if byte == 0x82 then 2 else 3)
            && (d.Did? ==> Leaves(d, m, d.machine.stack))
            && (d.Did? && byte == 0x80 ==> s == [s[0]] + d.machine.stack)
            && (d.Did? && byte == 0x81 ==> d.machine.stack == [s[0]] + s)
            && (d.Did? && byte == 0x82 ==> Rearranged(s, d.machine.stack, [1, 0]))
            && (d.Did? && byte == 0x83 ==> Rearranged(s, d.machine.stack, [2, 0, 1]))
            && (d.Did? && byte == 0x84 ==> Rearranged(s, d.machine.stack, [1, 2, 0]))
  {
    var op := STACK_OPS[byte - 0x80];
    assert byte / 16 == 8 && byte % 16 == byte - 0x80;
    var next := TicksAs(code, r, m, Stack(op));
    ExecuteStraightLine(r, m, Stack(op), next);
  }

  /** Tucking undoes rotating. */
  lemma TuckUndoesRot(s: seq<Word>)
    requires |s| >= 3
    ensures Values(Values(s, Stack(Rot), 0).value, Stack(Tuck), 0) == Some(s)
  {
    var t := Values(s, Stack(Rot), 0).value;
    assert t[3..] == s[3..] && [t[2], t[0], t[1]] + t[3..] == s;
  }

  /** Reading a local copies the entry the operand counts down to from the top. */
  lemma ReadBytes(code: Memory, r: Registers, m: Machine, byte: Byte)
    requires At(code, m, byte) && 0xE0 <= byte
    ensures var d, s, n := Tick(code, r, m), m.stack, byte % 16;
            && (byte < 0xF0 ==> (d.Did? <==> n < |s|) && (d.Did? ==> Leaves(d, m, [s[n]] + s)))
            && (byte >= 0xF0 ==> (d.Did? <==> n + 1 < |s|) && (d.Did? ==> Leaves(d, m, s[1..][n := s[0]])))
  {
    var i := if byte < 0xF0 then ReadLocalOffset(byte % 16) else WriteLocalOffset(byte % 16);
    assert byte / 16 == 14 || byte / 16 == 15;
    var next := TicksAs(code, r, m, i);
    ExecuteStraightLine(r, m, i, next);
  }

  /** With the offset on the stack instead: the operand of the byte does not matter. */
  lemma LocalBytes(code: Memory, r: Registers, m: Machine, byte: Byte)
    requires At(code, m, byte) && 0xC0 <= byte < 0xE0
    ensures var d, s := Tick(code, r, m), m.stack;
            && (byte < 0xD0 ==> (d.Did? <==> |s| >= 1 && s[0] + 1 < |s|) && (d.Did? ==> Leaves(d, m, [s[1..][s[0]]] + s[1..])))
            && (byte >= 0xD0 ==> (d.Did? <==> |s| >= 2 && s[0] + 2 < |s|) && (d.Did? ==> Leaves(d, m, s[2..][s[0] := s[1]])))
  {
    var i := if byte < 0xD0 then ReadLocal else WriteLocal;
    assert byte / 16 == 12 || byte / 16 == 13;
    var next := TicksAs(code, r, m, i);
    ExecuteStraightLine(r, m, i, next);
  }

  /** The jumps: one pops nothing and goes nowhere, the others need a target. */
  lemma JumpsPop(code: Memory, r: Registers, m: Machine, byte: Byte)
    requires At(code, m, byte) && 0x50 <= byte < 0x60
    ensures byte == 0x5E ==> Tick(code, r, m) == Did(r, m.(pc := m.pc + 1), Nothing)
    ensures byte != 0x5E ==> (Tick(code, r, m).Failed? <==> m.stack == [])
    ensures byte == 0x5F && m.stack != [] ==> Tick(code, r, m) == Did(r, Machine(m.stack[0], m.stack[1..], m.calls), Nothing)
  {
    var i := Jump(CONDITIONS[byte % 16]);
    assert byte / 16 == 5;
    var next := TicksAs(code, r, m, i);
    ExecuteControl(r, m, i, next);
  }

  lemma FetchesBoth(code: Memory, pc: nat, i: Instruction)
    requires pc + 1 < |code| <= 0x200 && Decode(code[pc]) == Some(i)
    ensures Fetch(code, pc) == Some((i, code[pc + 1]))
  {
    ReadByteIsIndexing(code, pc);
    ReadByteIsIndexing(code, pc + 1);
  }

  lemma LongPush(byte: Byte) returns (i: Instruction)
    requires 0x30 <= byte < 0x50
    ensures i == if byte < 0x40 then PushNextLower(byte - 0x30) else PushNextUpper(byte - 0x40)
    ensures Decode(byte) == Some(i)
  {
    i := Decode(byte).value;
  }

  /** The long pushes take the byte behind them, below or beside their own four bits. */
  lemma LongPushBytes(code: Memory, r: Registers, m: Machine, byte: Byte, behind: nat, w: nat)
    requires At(code, m, byte) && 0x30 <= byte < 0x50 && m.pc + 1 < |code| && behind == code[m.pc + 1]
    requires w == if byte < 0x40 then 256 * (byte - 0x30) + behind else 0x1000 * (byte - 0x40) + 16 * behind
    ensures w < 0x1_0000 && Tick(code, r, m) == Did(r, Machine(m.pc + 2, [w] + m.stack, m.calls), Nothing)
  {
    var i := LongPush(byte);
    FetchesBoth(code, m.pc, i);
    PushedConstant(m.stack, i, behind, w);
    ExecuteStraightLine(r, m, i, behind);
  }

  lemma PushBytes(code: Memory, r: Registers, m: Machine, byte: Byte)
    requires At(code, m, byte) && 0x10 <= byte < 0x20
    ensures Leaves(Tick(code, r, m), m, [byte - 0x10] + m.stack)
  {
    assert byte / 16 == 1 && byte % 16 == byte - 0x10;
    var next := TicksAs(code, r, m, PushSmall(byte - 0x10));
    ExecuteStraightLine(r, m, PushSmall(byte - 0x10), next);
  }

  lemma AddTicks(code: Memory, r: Registers, m: Machine, n: Byte)
    requires m.pc < |code| <= 0x200 && Decode(code[m.pc]) == Some(AddSmall(n))
    ensures var d := Tick(code, r, m);
            if m.stack == [] then d.Failed? else Leaves(d, m, [Wrap(m.stack[0] + n)] + m.stack[1..])
  {
    var next := TicksAs(code, r, m, AddSmall(n));
    ExecuteStraightLine(r, m, AddSmall(n), next);
  }

  /** A small constant is added; the sum is cut to sixteen bits. */
  lemma AddBytes(code: Memory, r: Registers, m: Machine, byte: Byte) returns (x: Word)
    requires At(code, m, byte) && 0x20 <= byte < 0x30
    ensures var d, s := Tick(code, r, m), m.stack;
            && (d.Did? <==> s != [])
            && (d.Did? ==> Leaves(d, m, [x] + s[1..]) && (x == s[0] + (byte - 0x20) || x == s[0] + (byte - 0x20) - 0x1_0000))
  {
    var n := byte - 0x20;
    assert byte / 16 == 2 && byte % 16 == n;
    AddTicks(code, r, m, n);
    x := 0;
    if m.stack != [] {
      x := Wrap(m.stack[0] + n);
      WrapsOnce(m.stack[0] + n);
    }
  }

  lemma WrapsOnce(x: nat)
    requires x < 0x2_0000
    ensures Wrap(x) == x || Wrap(x) == x - 0x1_0000
  {
  }

  // ----- calls, by byte -----

  /** A call goes to the word on top and remembers the byte behind it; the return that comes to it goes there. */
  lemma CallReturns(code: Memory, r: Registers, m: Machine, target: Word, rest: seq<Word>, after: Machine, q: Registers)
    requires At(code, m, 0x70) && m.stack == [target] + rest
    requires At(code, after, 0x71) && after.calls == m.calls + [m.pc + 1]
    ensures Tick(code, r, m) == Did(r, Machine(target, rest, after.calls), Nothing)
    ensures Tick(code, q, after) == Did(q, Machine(m.pc + 1, after.stack, m.calls), Nothing)
  {
    assert 0x70 / 16 == 7 && 0x71 / 16 == 7 && after.calls[..|after.calls| - 1] == m.calls;
    var a := TicksAs(code, r, m, Function(Call));
    var b := TicksAs(code, q, after, Function(Return));
    ExecuteControl(r, m, Function(Call), a);
    ExecuteControl(q, after, Function(Return), b);
    assert m.stack[1..] == rest;
  }

  /** A return with no call left ends the process. */
  lemma LastReturnHalts(code: Memory, r: Registers, m: Machine)
    requires At(code, m, 0x71) && m.calls == []
    ensures Tick(code, r, m) == Did(r, m.(pc := m.pc + 1), Halt)
  {
    assert 0x71 / 16 == 7;
    var next := TicksAs(code, r, m, Function(Return));
    ExecuteControl(r, m, Function(Return), next);
  }

  // ----- the operations of processes, by byte -----

  /** What the process is asked for, with the words it takes off the stack: the last pushed is on top. */
  predicate Asks(byte: Byte, s: seq<Word>, hasValue: bool, message: Message, rest: seq<Word>) {
    if byte == 0x60 then |s| >= 2 && message == StartProcess(s[1], s[0]) && rest == s[2..]
    else if byte == 0x62 then |s| >= 2 && message == SendOn(s[1], s[0]) && rest == s[1..]
    else if byte == 0x63 then |s| >= 1 && message == ReceiveOn(s[0]) && rest == s
    else if byte == 0x67 then |s| >= 1 && message == Enable(s[0]) && rest == s[1..]
    else if byte == 0x68 then |s| >= 2 && message == Disable(s[1], s[0], hasValue) && rest == s[2..]
    else if byte == 0x6A then |s| >= 1 && message == DeleteChannel(s[0]) && rest == s[1..]
    else rest == s &&
         message == if byte == 0x61 then Halt else if byte == 0x64 then StartAlternation
                    else if byte == 0x65 then WaitAlternation else if byte == 0x66 then EndAlternation
                    else if byte == 0x69 then NewChannel else Yielded
  }

  predicate NeedsWords(byte: Byte, s: seq<Word>) {
    |s| >= (if byte == 0x60 || byte == 0x62 || byte == 0x68 then 2
            else if byte == 0x63 || byte == 0x67 || byte == 0x6A then 1 else 0)
  }

  lemma ProcessTicks(code: Memory, r: Registers, m: Machine, byte: Byte)
    requires At(code, m, byte) && 0x60 <= byte <= 0x6B
    ensures Tick(code, r, m) == ProcessStep(r, m.(pc := m.pc + 1), PROCESS_OPS[byte - 0x60])
  {
    assert byte / 16 == 6 && byte % 16 == byte - 0x60;
    var next := TicksAs(code, r, m, Process(PROCESS_OPS[byte - 0x60]));
  }

  /** A channel stays on the stack when it is sent or received on; only the start of an alternation touches the registers. */
  lemma ProcessBytes(code: Memory, r: Registers, m: Machine, byte: Byte)
    requires At(code, m, byte) && 0x60 <= byte <= 0x6B
    ensures var d := Tick(code, r, m);
            && (d.Did? <==> NeedsWords(byte, m.stack))
            && (d.Did? ==>
                  && d.machine.pc == m.pc + 1 && d.machine.calls == m.calls
                  && Asks(byte, m.stack, r.hasAlternationValue, d.message, d.machine.stack)
                  && d.registers == r.(hasAlternationValue := r.hasAlternationValue && byte != 0x64))
  {
    ProcessTicks(code, r, m, byte);
  }
}
