/**
 * What the flags mean: after an arithmetic or logic operation, which of the sixteen conditions hold,
 * said of the operands and of the byte that names the condition.
 */
module Conditions {
  import opened Wrappers
  import opened Isa
  import opened StackMachine
  import opened WordMemory
  import opened Simulator
  import opened Peephole
  import opened AssembledCode

  /** The two's complement reading is the number in the signed range that is the word, but for a multiple of 65536. */
  lemma SignedExactly(a: Word, x: int)
    ensures Signed(a) == x <==> -0x8000 <= x < 0x8000 && (x == a || x == a - 0x1_0000)
  {
  }

  /** Conditions come in pairs: the last bit negates. */
  lemma LastBitNegates(f: Flags, k: nat)
    requires k < 8
    ensures Matches(f, CONDITIONS[2 * k]) <==> !Matches(f, CONDITIONS[2 * k + 1])
  {
    assert 2 * k + 1 < |CONDITIONS| == 16;
  }

  /** A number of the signed range. */
  predicate InRange(x: int) {
    -0x8000 <= x < 0x8000
  }

  /** What the `k`-th condition says after `a` was compared with `b`, or `b` subtracted from `a`. */
  predicate Relates(k: nat, a: Word, b: Word) {
    if k == 0 then a == b
    else if k == 1 then a != b
    else if k == 2 then (a >= b && a - b >= 0x8000) || (a < b && b - a <= 0x8000)
    else if k == 3 then (a >= b && a - b < 0x8000) || (a < b && b - a > 0x8000)
    else if k == 4 then a > b
    else if k == 5 then a <= b
    else if k == 6 then a >= b
    else if k == 7 then a < b
    else if k == 8 then Signed(a) > Signed(b)
    else if k == 9 then Signed(a) <= Signed(b)
    else if k == 10 then Signed(a) >= Signed(b)
    else if k == 11 then Signed(a) < Signed(b)
    else if k == 12 then !InRange(Signed(a) - Signed(b))
    else if k == 13 then InRange(Signed(a) - Signed(b))
    else k == 15
  }

  /** And after `a` and `b` were added. */
  predicate Sums(k: nat, a: Word, b: Word) {
    if k == 0 then a + b == 0 || a + b == 0x1_0000
    else if k == 1 then a + b != 0 && a + b != 0x1_0000
    else if k == 2 then 0x8000 <= a + b < 0x1_0000 || a + b >= 0x1_8000
    else if k == 3 then a + b < 0x8000 || 0x1_0000 <= a + b < 0x1_8000
    else if k == 4 then 0 < a + b < 0x1_0000
    else if k == 5 then a + b == 0 || a + b >= 0x1_0000
    else if k == 6 then a + b < 0x1_0000
    else if k == 7 then a + b >= 0x1_0000
    else if k == 8 then Signed(a) + Signed(b) > 0
    else if k == 9 then Signed(a) + Signed(b) <= 0
    else if k == 10 then Signed(a) + Signed(b) >= 0
    else if k == 11 then Signed(a) + Signed(b) < 0
    else if k == 12 then !InRange(Signed(a) + Signed(b))
    else if k == 13 then InRange(Signed(a) + Signed(b))
    else k == 15
  }

  /** And after an operation that only looks at its result: there is no carry and no overflow. */
  predicate Looks(k: nat, w: Word) {
    if k == 0 || k == 5 then w == 0
    else if k == 1 || k == 4 then w != 0
    else if k == 2 || k == 11 then Signed(w) < 0
    else if k == 3 || k == 10 then Signed(w) >= 0
    else if k == 8 then Signed(w) > 0
    else if k == 9 then Signed(w) <= 0
    else k == 6 || k == 13 || k == 15
  }

  /** `k` names a condition by its byte, and it holds after the step. */
  predicate HoldsAfter(d: Ticked, k: nat)
    requires k < 16
  {
    d.Did? && Matches(d.registers.flags, CONDITIONS[k])
  }

  /** Whatever the flags were: after a comparison or a subtraction, each condition is its relation between the operands. */
  lemma DifferenceDecides(r: Registers, m: Machine, op: Op, next: Byte, k: nat)
    requires (op == Compare || op == Sub) && |m.stack| >= 2 && k < 16
    ensures HoldsAfter(Execute(r, m, ArithmeticOrLogic(op), next), k) <==> Relates(k, m.stack[1], m.stack[0])
  {
  }

  lemma SumDecides(r: Registers, m: Machine, next: Byte, k: nat)
    requires |m.stack| >= 2 && k < 16
    ensures HoldsAfter(Execute(r, m, ArithmeticOrLogic(Add), next), k) <==> Sums(k, m.stack[1], m.stack[0])
  {
  }

  /** The other operations set the flags by the word they leave; a test leaves none, and looks at the conjunction. */
  lemma ResultDecides(r: Registers, m: Machine, op: Op, next: Byte, k: nat)
    requires op != Compare && op != Sub && op != Add && k < 16
    ensures var d := Execute(r, m, ArithmeticOrLogic(op), next);
            d.Did? && (op == Test || d.machine.stack != []) ==>
              |m.stack| >= (if op == Test then 2 else 1) &&
              (HoldsAfter(d, k) <==> Looks(k, if op == Test then And(m.stack[1], m.stack[0]) else d.machine.stack[0]))
  {
    if op == Test {
      TestFlags(r, m, next);
    }
  }

  lemma TestFlags(r: Registers, m: Machine, next: Byte)
    ensures var d := Execute(r, m, ArithmeticOrLogic(Test), next);
            d.Did? <==> |m.stack| >= 2
  {
  }

  // ----- a comparison and its jump -----

  /** A comparison, the push of the target, and a jump: by their bytes. */
  predicate Branch(m: Memory, pc: nat, target: Word, k: nat) {
    var n := |EncodePush(target)|;
    && pc + n + 1 < |m| <= 0x200 && k < 16
    && m[pc] == 0x0F && StandsAt(m, pc + 1, EncodePush(target)) && m[pc + 1 + n] == 0x50 + k
  }

  lemma DecodesAs(m: Memory, pc: nat, i: Instruction)
    requires pc < |m| <= 0x200 && Decode(m[pc]) == Some(i) && Length(i) == 1
    ensures Fetch(m, pc).Some? && Fetch(m, pc).value.0 == i
  {
    ReadByteIsIndexing(m, pc);
  }

  /** The word goes on the stack, and the registers stay. */
  lemma TargetPushed(m: Memory, r: Registers, k: Machine, target: Word) returns (path: seq<CoreState>)
    requires StandsAt(m, k.pc, EncodePush(target)) && k.pc + |EncodePush(target)| < 0x1_0000
    ensures Ticks(m, path) && path[0] == CoreState(r, k)
    ensures path[|path| - 1] == CoreState(r, Machine(k.pc + |EncodePush(target)|, [target] + k.stack, k.calls))
  {
    PushRuns(target, k.stack);
    PushIsStraight(target);
    path := BytesRun(m, EncodePush(target), r, k, [target] + k.stack);
  }

  lemma Joined(m: Memory, path: seq<CoreState>, last: CoreState)
    requires Ticks(m, path) && Follows(m, path[|path| - 1], last)
    ensures Ticks(m, path + [last])
  {
    var all := path + [last];
    forall i | 0 < i < |all| ensures Follows(m, all[i - 1], all[i]) {
      if i < |path| { assert Follows(m, path[i - 1], path[i]); }
    }
  }

  lemma JumpStep(m: Memory, r: Registers, k: Machine, c: Condition) returns (next: CoreState)
    requires k.pc < |m| <= 0x200 && Decode(m[k.pc]) == Some(Jump(c)) && k.stack != []
    ensures Follows(m, CoreState(r, k), next)
    ensures next.machine == if c == Never then Machine(k.pc + 1, k.stack, k.calls)
                            else Machine(if Matches(r.flags, c) then k.stack[0] else k.pc + 1, k.stack[1..], k.calls)
  {
    DecodesAs(m, k.pc, Jump(c));
    var i := Fetch(m, k.pc).value;
    ExecuteControl(r, k, i.0, i.1);
    next := CoreState(r, Execute(r, k, i.0, i.1).machine);
  }

  lemma CompareStep(m: Memory, r: Registers, k: Machine) returns (next: CoreState)
    requires k.pc < |m| <= 0x200 && m[k.pc] == 0x0F && |k.stack| >= 2
    ensures Follows(m, CoreState(r, k), next) && next.machine == Machine(k.pc + 1, k.stack[2..], k.calls)
    ensures forall c: nat | c < 16 :: Matches(next.registers.flags, CONDITIONS[c]) <==> Relates(c, k.stack[1], k.stack[0])
  {
    assert Decode(0x0F) == Some(ArithmeticOrLogic(Compare));
    DecodesAs(m, k.pc, ArithmeticOrLogic(Compare));
    var i := Fetch(m, k.pc).value;
    ExecuteStraightLine(r, k, i.0, i.1);
    var d := Execute(r, k, i.0, i.1);
    next := CoreState(d.registers, d.machine);
    forall c: nat | c < 16 ensures HoldsAfter(d, c) <==> Relates(c, k.stack[1], k.stack[0]) {
      DifferenceDecides(r, k, Compare, i.1, c);
    }
  }

  /**
   * `a b compare`, a label, and a jump: from any flags, the core goes to the label exactly when the
   * relation named by the jump's low four bits holds between `a` and `b`, and takes all three words off
   * the stack. Only the jump that is never taken leaves the label on it.
   */
  lemma BranchDecides(m: Memory, r: Registers, pc: Word, a: Word, b: Word, rest: seq<Word>, calls: seq<Word>, target: Word, k: nat)
      returns (path: seq<CoreState>)
    requires Branch(m, pc, target, k)
    ensures Ticks(m, path) && path[0] == CoreState(r, Machine(pc, [b, a] + rest, calls))
    ensures var behind := pc + |EncodePush(target)| + 2;
            path[|path| - 1].machine ==
            Machine(if Relates(k, a, b) then target else behind, if k == 14 then [target] + rest else rest, calls)
  {
    var start, n := Machine(pc, [b, a] + rest, calls), |EncodePush(target)|;
    var compared := CompareStep(m, r, start);
    assert start.stack[2..] == rest;
    var pushed := TargetPushed(m, compared.registers, compared.machine, target);
    var here := pushed[|pushed| - 1];
    JumpByte(k);
    var jumped := JumpStep(m, here.registers, here.machine, CONDITIONS[k]);
    assert ([target] + rest)[1..] == rest;
    var before := OneMoreTick(m, CoreState(r, start), pushed);
    Joined(m, before, jumped);
    path := before + [jumped];
  }

  lemma JumpByte(k: nat)
    requires k < 16
    ensures Decode(0x50 + k) == Some(Jump(CONDITIONS[k])) && (CONDITIONS[k] == Never <==> k == 14)
  {
    assert (0x50 + k) / 16 == 5 && (0x50 + k) % 16 == k;
  }
}
