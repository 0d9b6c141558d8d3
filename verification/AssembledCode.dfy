/**
 * Assembled bytes in an instruction memory do what their instructions do, and a label's push leaves
 * the offset at which its block stands.
 */
module AssembledCode {
  import opened Wrappers
  import opened Isa
  import opened StackMachine
  import opened WordMemory
  import opened Simulator
  import opened Peephole
  import opened Assembler

  predicate Encodable(code: seq<Instruction>) {
    forall i | i in code :: Encode(i).Some?
  }

  function Bytes(code: seq<Instruction>): (r: Memory)
    requires Encodable(code)
    ensures |r| == |code| && forall i | 0 <= i < |code| :: Some(r[i]) == Encode(code[i])
  {
    if code == [] then [] else [Encode(code[0]).value] + Bytes(code[1..])
  }

  /** The code's bytes stand in the memory at this address. */
  predicate StandsAt(m: Memory, at: nat, code: seq<Instruction>) {
    at + |code| <= |m| && forall i | 0 <= i < |code| :: Encode(code[i]) == Some(m[at + i])
  }

  /** A tick that does not need the processor. */
  predicate OneTick(m: Memory, r: Registers, k: Machine, q: Registers, j: Machine) {
    Tick(m, r, k) == Did(q, j, Nothing)
  }

  datatype CoreState = CoreState(registers: Registers, machine: Machine)

  /** Consecutive ticks, from the first state to the last. */
  ghost predicate Ticks(m: Memory, path: seq<CoreState>) {
    path != [] && forall i | 0 < i < |path| :: Follows(m, path[i - 1], path[i])
  }

  predicate Follows(m: Memory, a: CoreState, b: CoreState) {
    OneTick(m, a.registers, a.machine, b.registers, b.machine)
  }

  function NoOther(i: Instruction, s: seq<Word>, w: ()): Option<(seq<Word>, ())> {
    None
  }

  lemma FetchDoes(m: Memory, code: seq<Instruction>, pc: Word)
    requires WellFormed(code) && code != [] && StandsAt(m, pc, code)
    ensures var f := Fetch(m, pc);
            f.Some? && f.value.0 == code[0] && (Prefix(code[0]) ==> f.value.1 == code[1].n)
  {
    DecodeEncode(code[0]);
    ReadByteIsIndexing(m, pc);
    ReadByteIsIndexing(m, pc + 1);
    assert Encode(code[0]) == Some(m[pc + 0]);
    if Prefix(code[0]) {
      assert Encode(code[1]) == Some(m[pc + 1]);
    }
  }

  /** Only the two-byte instructions look at the byte after them. */
  lemma SameValues(s: seq<Word>, i: Instruction, a: Byte, b: Byte)
    requires Prefix(i) ==> a == b
    ensures Values(s, i, a) == Values(s, i, b)
  {
  }

  lemma TickIs(m: Memory, r: Registers, k: Machine, i: Instruction, next: Byte, s: seq<Word>)
    requires Fetch(m, k.pc) == Some((i, next)) && StraightLine(i) && Values(k.stack, i, next) == Some(s)
    requires k.pc + Length(i) < 0x1_0000
    ensures Tick(m, r, k) == Did(r.(flags := NewFlags(r.flags, k.stack, i)), k.(pc := k.pc + Length(i), stack := s), Nothing)
  {
  }

  /** One instruction fetched from memory and executed. */
  lemma TickDoes(m: Memory, code: seq<Instruction>, r: Registers, k: Machine, j: Machine) returns (q: Registers)
    requires WellFormed(code) && code != [] && StandsAt(m, k.pc, code) && StraightLine(code[0]) && k.pc + |code| < 0x1_0000
    requires Values(k.stack, code[0], if Prefix(code[0]) then code[1].n else 0) == Some(j.stack)
    requires j.pc == k.pc + Length(code[0]) && j.calls == k.calls
    ensures OneTick(m, r, k, q, j) && (!code[0].ArithmeticOrLogic? ==> q == r)
  {
    FetchDoes(m, code, k.pc);
    var f := Fetch(m, k.pc).value;
    SameValues(k.stack, code[0], f.1, if Prefix(code[0]) then code[1].n else 0);
    TickIs(m, r, k, code[0], f.1, j.stack);
    q := r.(flags := NewFlags(r.flags, k.stack, code[0]));
  }

  lemma OneMoreTick(m: Memory, first: CoreState, path: seq<CoreState>) returns (all: seq<CoreState>)
    requires Ticks(m, path) && Follows(m, first, path[0])
    ensures Ticks(m, all) && all[0] == first && all[|all| - 1] == path[|path| - 1]
  {
    all := [first] + path;
    forall i | 0 < i < |all| ensures Follows(m, all[i - 1], all[i]) {
      if i > 1 { assert Follows(m, path[i - 1 - 1], path[i - 1]); }
    }
  }

  predicate Plain(code: seq<Instruction>) {
    forall i | i in code :: !i.ArithmeticOrLogic?
  }

  predicate StraightOrRaw(code: seq<Instruction>) {
    forall i | i in code :: StraightLine(i) || i.Raw?
  }

  lemma LaterCode(code: seq<Instruction>, step: nat)
    requires 0 < step <= |code| && StraightOrRaw(code)
    ensures StraightOrRaw(code[step..]) && (Plain(code) ==> Plain(code[step..]) && !code[0].ArithmeticOrLogic?)
  {
    assert code[0] in code && forall i | i in code[step..] :: i in code;
  }

  /** Bytes in memory do what their instructions do; only arithmetic and logic touch the registers. */
  lemma {:induction false} BytesRun(m: Memory, code: seq<Instruction>, r: Registers, k: Machine, s: seq<Word>)
      returns (path: seq<CoreState>)
    requires WellFormed(code) && StandsAt(m, k.pc, code) && k.pc + |code| < 0x1_0000
    requires StraightOrRaw(code)
    requires Run(code, k.stack, (), NoOther) == Some((s, ()))
    ensures Ticks(m, path) && path[0] == CoreState(r, k)
    ensures path[|path| - 1].machine == Machine(k.pc + |code|, s, k.calls)
    ensures Plain(code) ==> path[|path| - 1].registers == r
    decreases |code|
  {
    if code == [] {
      path := [CoreState(r, k)];
    } else {
      var step := if Prefix(code[0]) then 2 else 1;
      var v := FirstValues(code, k.stack, s, step);
      var j := Machine(k.pc + step, v, k.calls);
      var first := TickDoes(m, code, r, k, j);
      StandsLater(m, k.pc, code, step);
      LaterCode(code, step);
      var later := BytesRun(m, code[step..], first, j, s);
      path := OneMoreTick(m, CoreState(r, k), later);
    }
  }

  lemma StandsLater(m: Memory, at: nat, code: seq<Instruction>, step: nat)
    requires StandsAt(m, at, code) && step <= |code|
    ensures StandsAt(m, at + step, code[step..])
  {
    forall i | 0 <= i < |code[step..]| ensures Encode(code[step..][i]) == Some(m[at + step + i]) {
      assert code[step..][i] == code[step + i] && Encode(code[step + i]) == Some(m[at + (step + i)]);
    }
  }

  lemma FirstValues(code: seq<Instruction>, s: seq<Word>, t: seq<Word>, step: nat) returns (v: seq<Word>)
    requires WellFormed(code) && code != [] && StraightOrRaw(code)
    requires Run(code, s, (), NoOther) == Some((t, ())) && step == if Prefix(code[0]) then 2 else 1
    ensures StraightLine(code[0]) && Length(code[0]) == step <= |code|
    ensures Values(s, code[0], if Prefix(code[0]) then code[1].n else 0) == Some(v)
    ensures WellFormed(code[step..]) && Run(code[step..], v, (), NoOther) == Some((t, ()))
  {
    assert code[0] in code;
    v := Values(s, code[0], if Prefix(code[0]) then code[1].n else 0).value;
  }

  /** The push of a word, run. */
  lemma PushRuns(v: Word, s: seq<Word>)
    ensures WellFormed(EncodePush(v)) && Run(EncodePush(v), s, (), NoOther) == Some(([v] + s, ()))
  {
    var p := EncodePush(v);
    assert p[|p|..] == [];
    if v >= 0x1000 {
      UpperPush(v, s);
      var t := Values(s, PushNextUpper(v / 0x1000), v % 0x1000 / 16).value;
      assert p[2..] == [AddSmall(v % 16)] && [AddSmall(v % 16)][1..] == [];
      assert Run([AddSmall(v % 16)], t, (), NoOther) == Some(([v] + s, ()));
    } else if v >= 16 {
      assert p[2..] == [];
      LowerPush(v, s);
    } else {
      assert p[1..] == [];
    }
  }

  lemma SmallPush(offset: nat)
    requires offset < 0x1_0000
    ensures PushOf(offset) == EncodePush(offset)
  {
  }

  lemma PushIsStraight(v: Word)
    ensures forall i | i in EncodePush(v) :: StraightLine(i) || i.Raw?
  {
  }

  lemma LowerPush(v: Word, s: seq<Word>)
    requires v < 0x1000
    ensures Values(s, PushNextLower(v / 256), v % 256) == Some([v] + s)
  {
  }

  lemma UpperPush(v: Word, s: seq<Word>)
    ensures var t := Values(s, PushNextUpper(v / 0x1000), v % 0x1000 / 16);
            t.Some? && Values(t.value, AddSmall(v % 16), 0) == Some([v] + s)
  {
    assert 0x1000 * (v / 0x1000) + 16 * (v % 0x1000 / 16) + v % 16 == v;
    var x := Wrap(0x1000 * (v / 0x1000) + 16 * (v % 0x1000 / 16));
    assert ([x] + s)[1..] == s;
  }

  /** In a settled layout, a block's code stands where the layout says. */
  lemma BlockStands(blocks: seq<Block>, ranges: seq<nat>, m: Memory, i: nat)
    requires InRange(blocks) && Settled(blocks, ranges) && i < |blocks|
    requires var code := CodeUpTo(blocks, ranges, |blocks|); Encodable(code) && Bytes(code) <= m
    ensures ranges[i] == |CodeUpTo(blocks, ranges, i)|
    ensures |CodeUpTo(blocks, ranges, i + 1)| == ranges[i] + |CodeOfBlock(blocks[i], ranges)|
    ensures StandsAt(m, ranges[i], CodeOfBlock(blocks[i], ranges))
  {
    CodeStarts(blocks, ranges, i);
    assert ranges[i] == Again(blocks, ranges)[i];
    CodeGrows(blocks, ranges, i + 1, |blocks|);
    PartStands(CodeUpTo(blocks, ranges, i), CodeOfBlock(blocks[i], ranges), CodeUpTo(blocks, ranges, |blocks|), m);
  }

  lemma PartStands(before: seq<Instruction>, part: seq<Instruction>, code: seq<Instruction>, m: Memory)
    requires before + part <= code && Encodable(code) && Bytes(code) <= m
    ensures StandsAt(m, |before|, part)
  {
    forall j | 0 <= j < |part| ensures Encode(part[j]) == Some(m[|before| + j]) {
      assert (before + part)[|before| + j] == part[j];
      assert Bytes(code)[|before| + j] == m[|before| + j] && code[|before| + j] in code;
    }
  }

  /** Whatever the offset of a block, its push leaves the low 16 bits of it. */
  lemma OffsetIsCut(offset: nat, w: Word, k: nat, s: seq<Word>)
    requires offset == w + 0x1_0000 * k
    ensures Run(PushOf(offset), s, (), NoOther) == Some(([w] + s, ()))
  {
    assert offset % 0x1_0000 == w;
    PushRuns(w, s);
  }

  /**
   * In the assembled bytes, running a label's push leaves exactly the byte offset of the block it
   * names, and goes on at the next block.
   */
  lemma LabelPushesItsOffset(blocks: seq<Block>, ranges: seq<nat>, m: Memory, i: nat, r: Registers, k: Machine)
      returns (path: seq<CoreState>)
    requires InRange(blocks) && Settled(blocks, ranges) && Addressed(blocks, ranges)
    requires var code := CodeUpTo(blocks, ranges, |blocks|); Encodable(code) && Bytes(code) <= m
    requires i < |blocks| && blocks[i].PushLabel? && k.pc == ranges[i]
    requires |CodeUpTo(blocks, ranges, i + 1)| < 0x1_0000
    ensures var target, next := |CodeUpTo(blocks, ranges, blocks[i].target)|, |CodeUpTo(blocks, ranges, i + 1)|;
            && target < 0x1_0000 && next < 0x1_0000
            && Ticks(m, path) && path[0] == CoreState(r, k)
            && path[|path| - 1].machine == Machine(next, [target] + k.stack, k.calls)
  {
    var t := blocks[i].target;
    BlockStands(blocks, ranges, m, i);
    BlockStands(blocks, ranges, m, t);
    PushRuns(ranges[t], k.stack);
    PushIsStraight(ranges[t]);
    SmallPush(ranges[t]);
    path := BytesRun(m, CodeOfBlock(blocks[i], ranges), r, k, [ranges[t]] + k.stack);
  }
}
