/**
 * The memory cell as the simulator changes it, byte by byte. Every operation is tied to what it does
 * to the machine the bytes represent; the flags byte of the header is never disturbed by the others.
 */
module CellObject {
  import opened Wrappers
  import opened Isa
  import opened StackMachine
  import opened WordMemory
  import opened MemoryCells

  class MemoryCell {
    const memory: array<Byte>

    ghost predicate Valid()
      reads memory
    {
      WellFormed(memory[..])
    }

    ghost function Abs(): Machine
      reads memory
      requires Valid()
    {
      MachineOf(memory[..])
    }

    ghost function FlagsByte(): Byte
      reads memory
      requires Valid()
    {
      memory[6]
    }

    constructor ()
      ensures Valid() && fresh(memory) && Abs() == Machine(0, [], [])
    {
      memory := new Byte[CELL_SIZE](_ => 0);
      new;
      InitialiseWithProgramCounter(0);
    }

    /** All bytes zero, as cells are before a process is put in them. */
    constructor Blank()
      ensures fresh(memory) && memory.Length == CELL_SIZE && forall i | 0 <= i < CELL_SIZE :: memory[i] == 0
    {
      memory := new Byte[CELL_SIZE](_ => 0);
    }

    method ReadWord(address: Word) returns (r: Option<Word>)
      ensures r == WordMemory.ReadWord(memory[..], address)
    {
      if address % 2 == 1 {
        r := None;
      } else if address + 1 < memory.Length {
        r := Some(Join(memory[address], memory[address + 1]));
      } else if address < memory.Length {
        r := Some(Join(memory[address], 0));
      } else {
        r := None;
      }
    }

    /** An odd address is an error. The write must lie inside the memory. */
    method WriteWord(address: Word, word: Word) returns (ok: bool)
      requires address + 1 < memory.Length
      modifies memory
      ensures ok <==> address % 2 == 0
      ensures memory[..] == if ok then PutWord(old(memory[..]), address, word) else old(memory[..])
    {
      if address % 2 == 1 {
        return false;
      }
      memory[address] := word / 256;
      memory[address + 1] := word % 256;
      ok := true;
    }

    method ReadByte(address: Word) returns (r: Option<Byte>)
      ensures r == WordMemory.ReadByte(memory[..], address)
    {
      var word := ReadWord(address - address % 2);
      match word
      case None => r := None;
      case Some(w) => r := Some(if address % 2 == 1 then w % 256 else w / 256);
    }

    method WriteByte(address: Word, byte: Byte) returns (ok: bool)
      requires memory.Length % 2 == 0
      modifies memory
      ensures ok <==> address < memory.Length
      ensures memory[..] == if ok then old(memory[..])[address := byte] else old(memory[..])
    {
      EvenBelow(address);
      WriteByteIsUpdate(memory[..], address, byte);
      var io := address - address % 2;
      var word := ReadWord(io);
      match word
      case None => ok := false;
      case Some(w) =>
        ok := WriteWord(io, if address % 2 == 1 then Join(w / 256, byte) else Join(byte, w % 256));
    }

    method InitialiseWithProgramCounter(pc: Word)
      requires memory.Length == CELL_SIZE
      modifies memory
      ensures Valid() && Abs() == Machine(pc, [], []) && FlagsByte() == 0
    {
      var _ := WriteWord(0, pc);
      var _ := WriteWord(2, HEADER);
      var _ := WriteWord(4, CELL_SIZE);
      var _ := WriteByte(6, 0);
      SameMachine(memory[..], Machine(pc, [], []));
    }

    method ProgramCounter() returns (pc: Word)
      requires Valid()
      ensures pc == Abs().pc
    {
      var word := ReadWord(0);
      pc := word.value;
    }

    method SetProgramCounter(pc: Word)
      requires Valid()
      modifies memory
      ensures Valid() && Abs() == old(Abs()).(pc := pc) && FlagsByte() == old(FlagsByte())
    {
      MovedCounter(memory[..], pc, PutWord(memory[..], 0, pc));
      var _ := WriteWord(0, pc);
    }

    method SetFlags(flags: Byte)
      requires Valid()
      modifies memory
      ensures Valid() && Abs() == old(Abs()) && FlagsByte() == flags
    {
      var _ := WriteByte(6, flags);
      SameMachine(memory[..], old(Abs()));
    }

    method Pop() returns (r: Option<Word>)
      requires Valid()
      modifies memory
      ensures Valid() && FlagsByte() == old(FlagsByte())
      ensures old(Abs()).stack == [] ==> r == None && Abs() == old(Abs())
      ensures old(Abs()).stack != [] ==>
                r == Some(old(Abs()).stack[0]) && Abs() == old(Abs()).(stack := old(Abs()).stack[1..])
    {
      var sp := WordAt(memory[..], 4);
      r := ReadWord(sp);
      if r.Some? {
        DroppedStack(memory[..], 1, PutWord(memory[..], 4, sp + 2));
        var _ := WriteWord(4, sp + 2);
      }
    }

    method PopMany(count: nat)
      requires Valid() && count <= |Abs().stack|
      modifies memory
      ensures Valid() && Abs() == old(Abs()).(stack := old(Abs()).stack[count..]) && FlagsByte() == old(FlagsByte())
    {
      var sp := WordAt(memory[..], 4);
      DroppedStack(memory[..], count, PutWord(memory[..], 4, sp + 2 * count));
      var _ := WriteWord(4, sp + 2 * count);
    }

    /** Nothing stops the value stack from running into the call stack: there must be room. */
    method Push(value: Word)
      requires Valid() && MemoryCells.Fits(Abs().(stack := [value] + Abs().stack))
      modifies memory
      ensures Valid() && Abs() == old(Abs()).(stack := [value] + old(Abs()).stack) && FlagsByte() == old(FlagsByte())
    {
      var sp := WordAt(memory[..], 4);
      PushedStack(memory[..], value, PutWord(PutWord(memory[..], 4, sp - 2), sp - 2, value));
      var _ := WriteWord(4, sp - 2);
      var _ := WriteWord(sp - 2, value);
    }

    method Peek(offset: Word) returns (r: Option<Word>)
      requires Valid()
      ensures r == if offset < |Abs().stack| then Some(Abs().stack[offset]) else None
    {
      var sp := WordAt(memory[..], 4);
      if offset < (CELL_SIZE - sp) / 2 {
        r := ReadWord(sp + 2 * offset);
      } else {
        r := None;
      }
    }

    method Poke(offset: Word, value: Word)
      requires Valid() && offset < |Abs().stack|
      modifies memory
      ensures Valid() && Abs() == old(Abs()).(stack := old(Abs()).stack[offset := value])
      ensures FlagsByte() == old(FlagsByte())
    {
      var sp := WordAt(memory[..], 4);
      WrittenLocal(memory[..], offset, value, PutWord(memory[..], sp + 2 * offset, value));
      var _ := WriteWord(sp + 2 * offset, value);
    }

    method StackValues() returns (r: seq<Word>)
      requires Valid()
      ensures r == Abs().stack
    {
      r := [];
      var n := (CELL_SIZE - WordAt(memory[..], 4)) / 2;
      for i := 0 to n
        invariant r == Abs().stack[..i]
      {
        var x := Peek(i);
        r := r + [x.value];
      }
    }

    method PushCall(address: Word)
      requires Valid() && MemoryCells.Fits(Abs().(calls := Abs().calls + [address]))
      modifies memory
      ensures Valid() && Abs() == old(Abs()).(calls := old(Abs()).calls + [address]) && FlagsByte() == old(FlagsByte())
    {
      var csp := WordAt(memory[..], 2);
      PushedCall(memory[..], address, PutWord(PutWord(memory[..], 2, csp + 2), csp, address));
      var _ := WriteWord(2, csp + 2);
      var _ := WriteWord(csp, address);
    }

    /** The caller first makes sure that there is a return address. */
    method PopCall() returns (address: Word)
      requires Valid() && Abs().calls != []
      modifies memory
      ensures Valid() && FlagsByte() == old(FlagsByte())
      ensures var calls := old(Abs()).calls;
              address == calls[|calls| - 1] && Abs() == old(Abs()).(calls := calls[..|calls| - 1])
    {
      var csp := WordAt(memory[..], 2);
      PoppedCall(memory[..], PutWord(memory[..], 2, csp - 2));
      var word := ReadWord(csp - 2);
      address := word.value;
      var _ := WriteWord(2, csp - 2);
    }

    /** The first `count` words of another cell's value stack, copied byte by byte onto this one's. */
    method StackBlockCopy(other: MemoryCell, count: nat)
      requires Valid() && other.Valid() && memory != other.memory && count <= |other.Abs().stack|
      requires 2 * count <= WordAt(memory[..], 4) - WordAt(memory[..], 2)
      modifies memory
      ensures Valid() && other.Valid() && other.Abs() == old(other.Abs()) && FlagsByte() == old(FlagsByte())
      ensures Abs() == old(Abs()).(stack := other.Abs().stack[..count] + old(Abs()).stack)
    {
      var oldSp, srcSp := WordAt(memory[..], 4), WordAt(other.memory[..], 4);
      var newSp := oldSp - 2 * count;
      ghost var before := memory[..];
      CopiedStack(before, other.memory[..], count);
      CopyBytes(other, newSp, srcSp, 2 * count);
      assert PutWord(memory[..], 4, newSp) == AfterCopy(before, other.memory[..], count);
      var _ := WriteWord(4, newSp);
    }

    method CopyBytes(other: MemoryCell, at: nat, from: nat, count: nat)
      requires memory != other.memory && at + count <= memory.Length && from + count <= other.memory.Length
      modifies memory
      ensures memory[..] == Copied(old(memory[..]), at, other.memory[..][from..from + count])
    {
      forall k | 0 <= k < count {
        memory[at + k] := other.memory[from + k];
      }
    }
  }

  ghost function Copied(m: Memory, at: nat, block: seq<Byte>): (r: Memory)
    requires at + |block| <= |m|
    ensures |r| == |m|
  {
    m[..at] + block + m[at + |block|..]
  }

  /** The copied bytes are the other cell's words; the rest keeps its own. */
  lemma CopiedWord(m: Memory, other: Memory, at: nat, from: nat, count: nat, b: nat)
    requires at + 2 * count <= |m| && from + 2 * count <= |other|
    requires at % 2 == 0 && b % 2 == 0 && b + 1 < |m|
    ensures WordAt(Copied(m, at, other[from..from + 2 * count]), b) ==
            if at <= b < at + 2 * count then WordAt(other, from + (b - at)) else WordAt(m, b)
  {
    if b < at {
      EvensApart(b, at);
    }
  }

  /** The cell after the copy, with its stack pointer moved. */
  ghost function AfterCopy(m: Memory, other: Memory, count: nat): (r: Memory)
    requires WellFormed(m) && WellFormed(other) && count <= |StackOf(other)|
    requires 2 * count <= WordAt(m, 4) - WordAt(m, 2)
    ensures |r| == CELL_SIZE
  {
    var sp, newSp := WordAt(other, 4), WordAt(m, 4) - 2 * count;
    PutWord(Copied(m, newSp, other[sp..sp + 2 * count]), 4, newSp)
  }

  lemma WordAfterCopy(m: Memory, other: Memory, count: nat, b: nat)
    requires WellFormed(m) && WellFormed(other) && count <= |StackOf(other)|
    requires 2 * count <= WordAt(m, 4) - WordAt(m, 2) && b % 2 == 0 && b + 1 < CELL_SIZE
    ensures var sp, newSp := WordAt(other, 4), WordAt(m, 4) - 2 * count;
            WordAt(AfterCopy(m, other, count), b) ==
            if b == 4 then newSp else if newSp <= b < newSp + 2 * count then WordAt(other, sp + (b - newSp)) else WordAt(m, b)
  {
    var sp, newSp := WordAt(other, 4), WordAt(m, 4) - 2 * count;
    WordFrame(Copied(m, newSp, other[sp..sp + 2 * count]), 4, newSp, b);
    CopiedWord(m, other, newSp, sp, count, b);
  }

  /** Words that make up a machine with `top` on its value stack. */
  ghost predicate Words(r: Memory, m: Memory, top: seq<Word>)
    requires WellFormed(m)
  {
    && |r| == CELL_SIZE && 2 * |top| <= WordAt(m, 4) - WordAt(m, 2)
    && WordAt(r, 0) == WordAt(m, 0) && WordAt(r, 2) == WordAt(m, 2) && WordAt(r, 4) == WordAt(m, 4) - 2 * |top|
    && (forall i | 0 <= i < |top| :: WordAt(r, WordAt(m, 4) - 2 * |top| + 2 * i) == top[i])
    && (forall i | 0 <= i < |StackOf(m)| :: WordAt(r, WordAt(m, 4) + 2 * i) == StackOf(m)[i])
    && (forall j | 0 <= j < |CallsOf(m)| :: WordAt(r, HEADER + 2 * j) == CallsOf(m)[j])
  }

  lemma WordsMakeMachine(r: Memory, m: Memory, top: seq<Word>)
    requires WellFormed(m) && Words(r, m, top)
    ensures WellFormed(r) && MachineOf(r) == MachineOf(m).(stack := top + StackOf(m))
  {
    var k := MachineOf(m).(stack := top + StackOf(m));
    MachineFits(m);
    var sp, low := WordAt(m, 4), WordAt(m, 4) - 2 * |top|;
    assert low == CELL_SIZE - 2 * |k.stack|;
    forall i | 0 <= i < |k.stack| ensures WordAt(r, low + 2 * i) == k.stack[i] {
      if i < |top| {
        assert k.stack[i] == top[i];
      } else {
        var j := i - |top|;
        assert low + 2 * i == sp + 2 * j && WordAt(r, sp + 2 * j) == StackOf(m)[j] == k.stack[i];
      }
    }
    SameMachine(r, k);
  }

  /** What one word of the copy is. */
  ghost predicate IsCopyAt(r: Memory, m: Memory, other: Memory, count: nat, b: nat)
    requires WellFormed(m) && WellFormed(other) && count <= |StackOf(other)|
    requires |r| == CELL_SIZE && b + 1 < CELL_SIZE
  {
    var sp, newSp := WordAt(other, 4), WordAt(m, 4) - 2 * count;
    WordAt(r, b) == if b == 4 then newSp
                    else if newSp <= b && sp + (b - newSp) + 1 < sp + 2 * count then WordAt(other, sp + (b - newSp))
                    else WordAt(m, b)
  }

  lemma CopiedWords(r: Memory, m: Memory, other: Memory, count: nat)
    requires WellFormed(m) && WellFormed(other) && count <= |StackOf(other)| && |r| == CELL_SIZE
    requires 2 * count <= WordAt(m, 4) - WordAt(m, 2)
    requires forall w | 0 <= w < CELL_SIZE / 2 :: IsCopyAt(r, m, other, count, 2 * w)
    ensures Words(r, m, StackOf(other)[..count])
  {
    var newSp := WordAt(m, 4) - 2 * count;
    var half, base := newSp / 2, WordAt(m, 4) / 2;
    assert newSp == 2 * half && WordAt(m, 4) == 2 * base;
    assert IsCopyAt(r, m, other, count, 2 * 0) && IsCopyAt(r, m, other, count, 2 * 1) && IsCopyAt(r, m, other, count, 2 * 2);
    forall i | 0 <= i < count
      ensures WordAt(r, newSp + 2 * i) == StackOf(other)[i]
    {
      assert IsCopyAt(r, m, other, count, 2 * (half + i));
    }
    forall i | 0 <= i < |StackOf(m)|
      ensures WordAt(r, WordAt(m, 4) + 2 * i) == StackOf(m)[i]
    {
      assert IsCopyAt(r, m, other, count, 2 * (base + i));
    }
    forall j | 0 <= j < |CallsOf(m)|
      ensures WordAt(r, HEADER + 2 * j) == CallsOf(m)[j]
    {
      assert IsCopyAt(r, m, other, count, 2 * (4 + j));
    }
  }

  lemma CopiedStack(m: Memory, other: Memory, count: nat)
    requires WellFormed(m) && WellFormed(other) && count <= |StackOf(other)|
    requires 2 * count <= WordAt(m, 4) - WordAt(m, 2)
    ensures var r := AfterCopy(m, other, count);
            WellFormed(r) && MachineOf(r) == MachineOf(m).(stack := StackOf(other)[..count] + StackOf(m)) && r[6] == m[6]
  {
    var r := AfterCopy(m, other, count);
    forall w | 0 <= w < CELL_SIZE / 2
      ensures IsCopyAt(r, m, other, count, 2 * w)
    {
      WordAfterCopy(m, other, count, 2 * w);
    }
    CopiedWords(r, m, other, count);
    WordsMakeMachine(r, m, StackOf(other)[..count]);
  }

  /** Starting a child moves the top of its parent's stack: what the parent had, the two now share. */
  method StartChild(parent: MemoryCell, child: MemoryCell, pc: Word, count: nat)
    requires parent.Valid() && child.memory.Length == CELL_SIZE && parent.memory != child.memory
    requires count <= |parent.Abs().stack|
    modifies parent.memory, child.memory
    ensures parent.Valid() && child.Valid()
    ensures child.Abs().stack + parent.Abs().stack == old(parent.Abs()).stack
    ensures |child.Abs().stack| == count && child.Abs().pc == pc && child.Abs().calls == []
    ensures parent.Abs() == old(parent.Abs()).(stack := parent.Abs().stack)
  {
    child.InitialiseWithProgramCounter(pc);
    MachineFits(parent.memory[..]);
    MachineFits(child.memory[..]);
    child.StackBlockCopy(parent, count);
    parent.PopMany(count);
  }
}
