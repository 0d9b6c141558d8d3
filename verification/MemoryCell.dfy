/**
 * A process's 512 bytes: a header, a call stack growing up from it and a value stack growing down
 * from the end. The bytes refine the abstract machine's two sequences.
 */
module MemoryCells {
  import opened Wrappers
  import opened Isa
  import opened StackMachine
  import opened WordMemory

  const CELL_SIZE := 512
  const HEADER := 8

  /** Header: program counter, call stack pointer, stack pointer, flags. */
  predicate WellFormed(m: Memory) {
    && |m| == CELL_SIZE
    && WordAt(m, 2) % 2 == 0 && WordAt(m, 4) % 2 == 0
    && HEADER <= WordAt(m, 2) <= WordAt(m, 4) <= CELL_SIZE
  }

  function StackOf(m: Memory): seq<Word>
    requires WellFormed(m)
  {
    seq((CELL_SIZE - WordAt(m, 4)) / 2, i requires 0 <= i < (CELL_SIZE - WordAt(m, 4)) / 2 => WordAt(m, WordAt(m, 4) + 2 * i))
  }

  function CallsOf(m: Memory): seq<Word>
    requires WellFormed(m)
  {
    seq((WordAt(m, 2) - HEADER) / 2, j requires 0 <= j < (WordAt(m, 2) - HEADER) / 2 => WordAt(m, HEADER + 2 * j))
  }

  function MachineOf(m: Memory): Machine
    requires WellFormed(m)
  {
    Machine(WordAt(m, 0), StackOf(m), CallsOf(m))
  }

  /** Both stacks fit between the header and the end. */
  predicate Fits(m: Machine) {
    HEADER + 2 * |m.calls| + 2 * |m.stack| <= CELL_SIZE
  }

  lemma MachineFits(m: Memory)
    requires WellFormed(m)
    ensures Fits(MachineOf(m))
    ensures WordAt(m, 2) == HEADER + 2 * |CallsOf(m)| && WordAt(m, 4) == CELL_SIZE - 2 * |StackOf(m)|
  {
  }

  /** Equal words in the right places mean equal machines. */
  lemma SameMachine(m: Memory, k: Machine)
    requires |m| == CELL_SIZE && Fits(k)
    requires WordAt(m, 0) == k.pc
    requires WordAt(m, 2) == HEADER + 2 * |k.calls| && WordAt(m, 4) == CELL_SIZE - 2 * |k.stack|
    requires forall i | 0 <= i < |k.stack| :: WordAt(m, CELL_SIZE - 2 * |k.stack| + 2 * i) == k.stack[i]
    requires forall j | 0 <= j < |k.calls| :: WordAt(m, HEADER + 2 * j) == k.calls[j]
    ensures WellFormed(m) && MachineOf(m) == k
  {
    assert StackOf(m) == k.stack;
    assert CallsOf(m) == k.calls;
  }

  /** Writing a header word leaves the other header words and both stacks' words alone. */
  lemma HeaderFrame(m: Memory, a: nat, v: Word)
    requires WellFormed(m) && (a == 0 || a == 2 || a == 4)
    ensures var r := PutWord(m, a, v);
            && WordAt(r, 0) == (if a == 0 then v else WordAt(m, 0))
            && WordAt(r, 2) == (if a == 2 then v else WordAt(m, 2))
            && WordAt(r, 4) == (if a == 4 then v else WordAt(m, 4))
            && (forall i | 0 <= i < |StackOf(m)| :: WordAt(r, WordAt(m, 4) + 2 * i) == StackOf(m)[i])
            && (forall j | 0 <= j < |CallsOf(m)| :: WordAt(r, HEADER + 2 * j) == CallsOf(m)[j])
  {
    var r := PutWord(m, a, v);
    WordFrame(m, a, v, 0);
    WordFrame(m, a, v, 2);
    WordFrame(m, a, v, 4);
  }

  /** Writing a word above the header changes that word only. */
  lemma BodyFrame(m: Memory, a: nat, v: Word)
    requires |m| == CELL_SIZE && a % 2 == 0 && HEADER <= a < CELL_SIZE
    ensures var r := PutWord(m, a, v);
            && WordAt(r, 0) == WordAt(m, 0) && WordAt(r, 2) == WordAt(m, 2) && WordAt(r, 4) == WordAt(m, 4)
            && forall b: nat | b % 2 == 0 && b < CELL_SIZE :: WordAt(r, b) == if b == a then v else WordAt(m, b)
  {
    forall b: nat | b % 2 == 0 && b < CELL_SIZE
      ensures WordAt(PutWord(m, a, v), b) == if b == a then v else WordAt(m, b)
    {
      WordFrame(m, a, v, b);
    }
    WordFrame(m, a, v, 0);
    WordFrame(m, a, v, 2);
    WordFrame(m, a, v, 4);
  }

  /** Moving the stack pointer down exposes whatever word is there. */
  lemma ExposedStack(m: Memory, r: Memory)
    requires WellFormed(m) && WordAt(m, 2) <= WordAt(m, 4) - 2 && r == PutWord(m, 4, WordAt(m, 4) - 2)
    ensures WellFormed(r) && MachineOf(r) == MachineOf(m).(stack := [WordAt(m, WordAt(m, 4) - 2)] + StackOf(m))
  {
    var sp := WordAt(m, 4);
    var k := MachineOf(m).(stack := [WordAt(m, sp - 2)] + StackOf(m));
    HeaderFrame(m, 4, sp - 2);
    WordFrame(m, 4, sp - 2, sp - 2);
    forall i | 0 <= i < |k.stack|
      ensures WordAt(r, CELL_SIZE - 2 * |k.stack| + 2 * i) == k.stack[i]
    {
      if i > 0 {
        assert k.stack[i] == StackOf(m)[i - 1] == WordAt(r, sp + 2 * (i - 1));
      }
    }
    SameMachine(r, k);
  }

  /** Changing a word of the value stack. */
  lemma WrittenLocal(m: Memory, n: nat, v: Word, r: Memory)
    requires WellFormed(m) && n < |StackOf(m)| && r == PutWord(m, WordAt(m, 4) + 2 * n, v)
    ensures WellFormed(r) && MachineOf(r) == MachineOf(m).(stack := StackOf(m)[n := v])
  {
    BodyFrame(m, WordAt(m, 4) + 2 * n, v);
    SameMachine(r, MachineOf(m).(stack := StackOf(m)[n := v]));
  }

  lemma PushedStack(m: Memory, v: Word, r: Memory)
    requires WellFormed(m) && WordAt(m, 2) <= WordAt(m, 4) - 2
    requires r == PutWord(PutWord(m, 4, WordAt(m, 4) - 2), WordAt(m, 4) - 2, v)
    ensures WellFormed(r) && MachineOf(r) == MachineOf(m).(stack := [v] + StackOf(m))
  {
    var lower := PutWord(m, 4, WordAt(m, 4) - 2);
    ExposedStack(m, lower);
    WrittenLocal(lower, 0, v, r);
    assert MachineOf(lower).stack[0 := v] == [v] + StackOf(m);
  }

  /** Moving the stack pointer up by `n` words drops `n` words. */
  lemma DroppedStack(m: Memory, n: nat, r: Memory)
    requires WellFormed(m) && n <= |StackOf(m)| && r == PutWord(m, 4, WordAt(m, 4) + 2 * n)
    ensures WellFormed(r) && MachineOf(r) == MachineOf(m).(stack := StackOf(m)[n..])
  {
    var k := MachineOf(m).(stack := StackOf(m)[n..]);
    HeaderFrame(m, 4, WordAt(m, 4) + 2 * n);
    forall i | 0 <= i < |k.stack|
      ensures WordAt(r, CELL_SIZE - 2 * |k.stack| + 2 * i) == k.stack[i]
    {
      assert k.stack[i] == StackOf(m)[n + i] == WordAt(r, WordAt(m, 4) + 2 * (n + i));
    }
    SameMachine(r, k);
  }

  lemma MovedCounter(m: Memory, pc: Word, r: Memory)
    requires WellFormed(m) && r == PutWord(m, 0, pc)
    ensures WellFormed(r) && MachineOf(r) == MachineOf(m).(pc := pc)
  {
    HeaderFrame(m, 0, pc);
    SameMachine(r, MachineOf(m).(pc := pc));
  }

  lemma ExposedCall(m: Memory, r: Memory)
    requires WellFormed(m) && WordAt(m, 2) + 2 <= WordAt(m, 4) && r == PutWord(m, 2, WordAt(m, 2) + 2)
    ensures WellFormed(r) && MachineOf(r) == MachineOf(m).(calls := CallsOf(m) + [WordAt(m, WordAt(m, 2))])
  {
    var csp := WordAt(m, 2);
    HeaderFrame(m, 2, csp + 2);
    WordFrame(m, 2, csp + 2, csp);
    SameMachine(r, MachineOf(m).(calls := CallsOf(m) + [WordAt(m, csp)]));
  }

  lemma WrittenCall(m: Memory, j: nat, v: Word, r: Memory)
    requires WellFormed(m) && j < |CallsOf(m)| && r == PutWord(m, HEADER + 2 * j, v)
    ensures WellFormed(r) && MachineOf(r) == MachineOf(m).(calls := CallsOf(m)[j := v])
  {
    BodyFrame(m, HEADER + 2 * j, v);
    SameMachine(r, MachineOf(m).(calls := CallsOf(m)[j := v]));
  }

  lemma PushedCall(m: Memory, v: Word, r: Memory)
    requires WellFormed(m) && WordAt(m, 2) + 2 <= WordAt(m, 4)
    requires r == PutWord(PutWord(m, 2, WordAt(m, 2) + 2), WordAt(m, 2), v)
    ensures WellFormed(r) && MachineOf(r) == MachineOf(m).(calls := CallsOf(m) + [v])
  {
    var higher, n := PutWord(m, 2, WordAt(m, 2) + 2), |CallsOf(m)|;
    ExposedCall(m, higher);
    WrittenCall(higher, n, v, r);
    assert MachineOf(higher).calls[n := v] == CallsOf(m) + [v];
  }

  lemma PoppedCall(m: Memory, r: Memory)
    requires WellFormed(m) && CallsOf(m) != [] && r == PutWord(m, 2, WordAt(m, 2) - 2)
    ensures WellFormed(r) && MachineOf(r) == MachineOf(m).(calls := CallsOf(m)[..|CallsOf(m)| - 1])
    ensures WordAt(m, WordAt(m, 2) - 2) == CallsOf(m)[|CallsOf(m)| - 1]
  {
    HeaderFrame(m, 2, WordAt(m, 2) - 2);
    SameMachine(r, MachineOf(m).(calls := CallsOf(m)[..|CallsOf(m)| - 1]));
  }
}
