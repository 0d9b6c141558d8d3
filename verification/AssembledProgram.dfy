/**
 * The assembler as a whole: what stands in the bytes of a program. Each stretch of its straight-line
 * instructions does what the source says, each other instruction stands where the stretch before it
 * ends, and each reference leaves the place of its label.
 */
module AssembledProgram {
  import opened Wrappers
  import opened Isa
  import opened StackMachine
  import opened WordMemory
  import opened Simulator
  import opened Peephole
  import opened Assembler
  import opened AssembledCode
  import opened AssemblerBlocks

  // ----- the optimiser does not look across jumps -----

  /** Jumps, calls, returns and process operations. */
  predicate IsBarrier(i: Instruction) {
    i.Jump? || i.Process? || i.Function?
  }

  lemma RewriteBehind(a: seq<Instruction>, j: Instruction, b: seq<Instruction>)
    requires IsBarrier(j)
    ensures Rewrite(a + [j] + b) == if Rewrite(b).None? then None else Some(a + [j] + Rewrite(b).value)
  {
    var whole, n := a + [j] + b, |b|;
    if n >= 1 {
      assert whole[|whole| - 1] == b[n - 1] && whole[..|whole| - 1] == a + [j] + b[..n - 1];
      if n >= 2 {
        assert whole[|whole| - 2] == b[n - 2] && whole[..|whole| - 2] == a + [j] + b[..n - 2];
        if Rewrite(b).Some? && b[n - 1] != AddSmall(0) {
          var fused := Fuse(b[n - 2].n, b[n - 1]).value;
          assert whole[..|whole| - 2] + fused == a + [j] + (b[..n - 2] + fused);
        }
      } else {
        assert whole[|whole| - 2] == j;
      }
    } else {
      assert whole[|whole| - 1] == j;
    }
  }

  lemma {:induction false} ReduceBehind(a: seq<Instruction>, j: Instruction, b: seq<Instruction>)
    requires IsBarrier(j)
    ensures Reduce(a + [j] + b) == a + [j] + Reduce(b)
    decreases Weight(b)
  {
    RewriteBehind(a, j, b);
    if Rewrite(b).Some? {
      RewriteIsLighter(b);
      ReduceBehind(a, j, Rewrite(b).value);
    }
  }

  lemma OneMoreOptimised(code: seq<Instruction>, x: Instruction)
    ensures Optimised(code + [x]) == Reduce(Optimised(code) + [x])
  {
    assert (code + [x])[..|code|] == code;
  }

  lemma Regroup<T>(a: seq<T>, b: seq<T>, c: seq<T>)
    ensures (a + b) + c == a + (b + c)
  {
  }

  lemma BarrierJoins(a: seq<Instruction>, j: Instruction)
    requires IsBarrier(j)
    ensures Optimised(a + [j]) == Optimised(a) + [j]
  {
    OneMoreOptimised(a, j);
    ReduceBehind(Optimised(a), j, []);
    assert Optimised(a) + [j] + [] == Optimised(a) + [j];
  }

  /** What stands before a jump and what stands behind it are optimised each for itself. */
  lemma {:induction false} Barrier(a: seq<Instruction>, j: Instruction, b: seq<Instruction>)
    requires IsBarrier(j)
    ensures Optimised(a + [j] + b) == Optimised(a) + [j] + Optimised(b)
    decreases |b|
  {
    if b == [] {
      BarrierJoins(a, j);
      assert a + [j] + b == a + [j] && Optimised(a) + [j] + [] == Optimised(a) + [j];
    } else {
      var rest, x := b[..|b| - 1], b[|b| - 1];
      assert b == rest + [x];
      Barrier(a, j, rest);
      Regroup(a + [j], rest, [x]);
      OneMoreOptimised(a + [j] + rest, x);
      OneMoreOptimised(rest, x);
      Regroup(Optimised(a) + [j], Optimised(rest), [x]);
      ReduceBehind(Optimised(a), j, Optimised(rest) + [x]);
    }
  }

  /** A stretch: it starts at the block's start or behind a barrier, and ends at the block's end or before one. */
  predicate Stretch(x: seq<Instruction>, y: seq<Instruction>) {
    (x == [] || IsBarrier(x[|x| - 1])) && (y == [] || IsBarrier(y[0]))
  }

  lemma StretchEnds(seg: seq<Instruction>, y: seq<Instruction>)
    requires y == [] || IsBarrier(y[0])
    ensures Optimised(seg) <= Optimised(seg + y)
  {
    if y == [] {
      assert seg + y == seg;
    } else {
      assert seg + y == seg + [y[0]] + y[1..];
      Barrier(seg, y[0], y[1..]);
    }
  }

  lemma StretchBehind(x: seq<Instruction>, seg: seq<Instruction>)
    requires x == [] || IsBarrier(x[|x| - 1])
    ensures Optimised(x + seg) == Optimised(x) + Optimised(seg)
  {
    if x == [] {
      assert x + seg == seg && Optimised(x) + Optimised(seg) == Optimised(seg);
    } else {
      var a, j := x[..|x| - 1], x[|x| - 1];
      assert x == a + [j];
      BarrierJoins(a, j);
      Barrier(a, j, seg);
    }
  }

  lemma StretchStands(x: seq<Instruction>, seg: seq<Instruction>, y: seq<Instruction>)
    requires Stretch(x, y)
    ensures Optimised(x) + Optimised(seg) <= Optimised(x + seg + y)
    ensures Optimised(x + seg) == Optimised(x) + Optimised(seg)
  {
    StretchEnds(seg, y);
    StretchBehind(x, seg);
    StretchBehind(x, seg + y);
    Regroup(x, seg, y);
  }

  // ----- straight lines stay straight -----

  predicate Straight(code: seq<Instruction>) {
    forall i | i in code :: StraightLine(i) || i.Raw?
  }

  lemma StraightJoins(a: seq<Instruction>, b: seq<Instruction>)
    ensures Straight(a + b) <==> Straight(a) && Straight(b)
  {
    if Straight(a + b) {
      assert forall i | i in a :: i in a + b;
      assert forall i | i in b :: i in a + b;
    }
  }

  lemma FusedIsStraight(i: Byte, last: Instruction)
    ensures Fuse(i, last).Some? ==> Straight(Fuse(i, last).value)
  {
    if last.AddSmall? { PushIsStraight(if i + last.n < 0x1_0000 then i + last.n else 0); }
  }

  lemma RewriteIsStraight(buffer: seq<Instruction>)
    requires Straight(buffer) && Rewrite(buffer).Some?
    ensures Straight(Rewrite(buffer).value)
  {
    var n := |buffer|;
    assert buffer == buffer[..n - 1] + [buffer[n - 1]];
    StraightJoins(buffer[..n - 1], [buffer[n - 1]]);
    if buffer[n - 1] != AddSmall(0) {
      var fused := Fuse(buffer[n - 2].n, buffer[n - 1]).value;
      assert buffer == buffer[..n - 2] + buffer[n - 2..];
      StraightJoins(buffer[..n - 2], buffer[n - 2..]);
      FusedIsStraight(buffer[n - 2].n, buffer[n - 1]);
      StraightJoins(buffer[..n - 2], fused);
    }
  }

  lemma {:induction false} ReduceIsStraight(buffer: seq<Instruction>)
    requires Straight(buffer)
    ensures Straight(Reduce(buffer))
    decreases Weight(buffer)
  {
    if Rewrite(buffer).Some? {
      RewriteIsLighter(buffer);
      RewriteIsStraight(buffer);
      ReduceIsStraight(Rewrite(buffer).value);
    }
  }

  lemma {:induction false} OptimisedIsStraight(code: seq<Instruction>)
    requires Straight(code)
    ensures Straight(Optimised(code))
  {
    if code != [] {
      assert code == code[..|code| - 1] + [code[|code| - 1]];
      StraightJoins(code[..|code| - 1], [code[|code| - 1]]);
      OptimisedIsStraight(code[..|code| - 1]);
      StraightJoins(Optimised(code[..|code| - 1]), [code[|code| - 1]]);
      ReduceIsStraight(Optimised(code[..|code| - 1]) + [code[|code| - 1]]);
    }
  }

  // ----- from names to blocks -----

  /** The block a named block becomes. */
  predicate BecomesBlock(n: NamedBlock, labels: map<string, nat>, b: Block) {
    match n
    case Body(code) => b == Instructions(code)
    case PushName(name) => name in labels && b == PushLabel(labels[name])
  }

  /** Each named block becomes its block; a name that no label has is the only error. */
  lemma {:induction false} ResolvesExactly(blocks: seq<NamedBlock>, labels: map<string, nat>)
    ensures var r := Resolve(blocks, labels);
            && (r.Some? <==> forall i | 0 <= i < |blocks| && blocks[i].PushName? :: blocks[i].name in labels)
            && (r.Some? ==> |r.value| == |blocks| && forall i | 0 <= i < |blocks| :: BecomesBlock(blocks[i], labels, r.value[i]))
  {
    if blocks != [] { ResolvesExactly(blocks[..|blocks| - 1], labels); }
  }

  lemma {:induction false} WellFormedCut(a: seq<Instruction>, j: Instruction, b: seq<Instruction>)
    requires IsBarrier(j) && WellFormed(a + [j] + b)
    ensures WellFormed(a) && WellFormed(b)
    decreases |a|
  {
    var whole := a + [j] + b;
    if a == [] {
      assert whole[0] == j && whole[1..] == b;
    } else {
      assert whole[0] == a[0];
      var k := if Prefix(a[0]) then 2 else 1;
      assert |a| == 1 ==> whole[1] == j;
      assert |a| >= 2 ==> whole[1] == a[1];
      assert whole[k..] == a[k..] + [j] + b;
      WellFormedCut(a[k..], j, b);
    }
  }

  lemma BehindIsWellFormed(x: seq<Instruction>, rest: seq<Instruction>)
    requires (x == [] || IsBarrier(x[|x| - 1])) && WellFormed(x + rest)
    ensures WellFormed(rest)
  {
    if x == [] {
      assert x + rest == rest;
    } else {
      assert x == x[..|x| - 1] + [x[|x| - 1]];
      WellFormedCut(x[..|x| - 1], x[|x| - 1], rest);
    }
  }

  lemma BeforeIsWellFormed(seg: seq<Instruction>, y: seq<Instruction>)
    requires (y == [] || IsBarrier(y[0])) && WellFormed(seg + y)
    ensures WellFormed(seg)
  {
    if y == [] {
      assert seg + y == seg;
    } else {
      assert y == [y[0]] + y[1..];
      Regroup(seg, [y[0]], y[1..]);
      WellFormedCut(seg, y[0], y[1..]);
    }
  }

  /** A stretch of a well-formed block is well formed. */
  lemma StretchIsWellFormed(x: seq<Instruction>, seg: seq<Instruction>, y: seq<Instruction>)
    requires Stretch(x, y) && WellFormed(x + seg + y)
    ensures WellFormed(seg)
  {
    Regroup(x, seg, y);
    BehindIsWellFormed(x, seg + y);
    BeforeIsWellFormed(seg, y);
  }

  // ----- the program in memory -----

  /** The source, cut at its labels and references. */
  function Source(tokens: seq<Token>): seq<NamedBlock> {
    Finished(SplitAll(tokens))
  }

  /** The assembled bytes of the tokens, in the layout the assembler finds, stand at the start of the memory. */
  ghost predicate InMemory(tokens: seq<Token>, m: Memory, ranges: seq<nat>) {
    && Sensible(tokens) && Blocks(tokens).Some? && InRange(Blocks(tokens).value)
    && exists bytes :: Assembled(OptimisedBlocks(Blocks(tokens).value), bytes, ranges) && bytes <= m
  }

  /** Where the bytes of the `i`-th block start. */
  ghost function Place(tokens: seq<Token>, m: Memory, ranges: seq<nat>, i: nat): nat
    requires InMemory(tokens, m, ranges) && i <= |Source(tokens)|
  {
    ResolvesExactly(Source(tokens), SplitAll(tokens).labels);
    |CodeUpTo(OptimisedBlocks(Blocks(tokens).value), ranges, i)|
  }

  /** What the method leaves can be put in memory. */
  lemma AssembledInMemory(tokens: seq<Token>, bytes: seq<Byte>, ranges: seq<nat>)
    requires Sensible(tokens) && Blocks(tokens).Some? && InRange(Blocks(tokens).value)
    requires Assembled(OptimisedBlocks(Blocks(tokens).value), bytes, ranges)
    ensures InMemory(tokens, bytes, ranges)
  {
  }

  /** Each body stands at its place, optimised by itself, and the next block behind it. */
  lemma BodyStands(tokens: seq<Token>, m: Memory, ranges: seq<nat>, i: nat, code: seq<Instruction>)
    requires InMemory(tokens, m, ranges) && i < |Source(tokens)| && Source(tokens)[i] == Body(code)
    ensures StandsAt(m, Place(tokens, m, ranges, i), Optimised(code)) && WellFormed(code)
    ensures Place(tokens, m, ranges, i + 1) == Place(tokens, m, ranges, i) + |Optimised(code)|
  {
    ResolvesExactly(Source(tokens), SplitAll(tokens).labels);
    SplitsWellFormed(tokens);
    BlockStands(OptimisedBlocks(Blocks(tokens).value), ranges, m, i);
  }

  lemma PartOfStanding(m: Memory, at: nat, a: seq<Instruction>, b: seq<Instruction>, whole: seq<Instruction>)
    requires StandsAt(m, at, whole) && a + b <= whole
    ensures StandsAt(m, at + |a|, b)
  {
    forall k | 0 <= k < |b| ensures Encode(b[k]) == Some(m[at + |a| + k]) {
      assert (a + b)[|a| + k] == b[k] && whole[|a| + k] == b[k];
      assert Encode(whole[|a| + k]) == Some(m[at + (|a| + k)]);
    }
  }

  /**
   * Every stretch of straight-line instructions, however the optimiser has rewritten it, does in the
   * bytes what it does in the source: from where it starts to where it ends, with the same stack.
   */
  lemma StretchRuns(tokens: seq<Token>, m: Memory, ranges: seq<nat>, i: nat, x: seq<Instruction>, seg: seq<Instruction>, y: seq<Instruction>,
                    r: Registers, k: Machine, t: seq<Word>) returns (path: seq<CoreState>)
    requires InMemory(tokens, m, ranges) && i < |Source(tokens)| && Source(tokens)[i] == Body(x + seg + y)
    requires Stretch(x, y) && Straight(seg) && Run(seg, k.stack, (), NoOther) == Some((t, ()))
    requires k.pc == Place(tokens, m, ranges, i) + |Optimised(x)| && Place(tokens, m, ranges, i) + |Optimised(x + seg)| < 0x1_0000
    ensures Ticks(m, path) && path[0] == CoreState(r, k)
    ensures path[|path| - 1].machine == Machine(Place(tokens, m, ranges, i) + |Optimised(x + seg)|, t, k.calls)
  {
    BodyStands(tokens, m, ranges, i, x + seg + y);
    path := StretchRunsAt(m, Place(tokens, m, ranges, i), x, seg, y, r, k, t);
  }

  lemma StretchRunsAt(m: Memory, at: nat, x: seq<Instruction>, seg: seq<Instruction>, y: seq<Instruction>, r: Registers, k: Machine, t: seq<Word>)
      returns (path: seq<CoreState>)
    requires StandsAt(m, at, Optimised(x + seg + y)) && WellFormed(x + seg + y)
    requires Stretch(x, y) && Straight(seg) && Run(seg, k.stack, (), NoOther) == Some((t, ()))
    requires k.pc == at + |Optimised(x)| && at + |Optimised(x + seg)| < 0x1_0000
    ensures Ticks(m, path) && path[0] == CoreState(r, k)
    ensures path[|path| - 1].machine == Machine(at + |Optimised(x + seg)|, t, k.calls)
  {
    StretchIsWellFormed(x, seg, y);
    StretchStands(x, seg, y);
    OptimisedIsStraight(seg);
    OptimisedMeansTheSame<()>(seg, k.stack, (), NoOther);
    path := PartRuns(m, at, Optimised(x), Optimised(seg), Optimised(x + seg + y), r, k, t);
  }

  /** A part of what stands, run. */
  lemma PartRuns(m: Memory, at: nat, a: seq<Instruction>, b: seq<Instruction>, whole: seq<Instruction>, r: Registers, k: Machine, t: seq<Word>)
      returns (path: seq<CoreState>)
    requires StandsAt(m, at, whole) && a + b <= whole && WellFormed(b) && Straight(b) && Run(b, k.stack, (), NoOther) == Some((t, ()))
    requires k.pc == at + |a| && at + |a| + |b| < 0x1_0000
    ensures Ticks(m, path) && path[0] == CoreState(r, k)
    ensures path[|path| - 1].machine == Machine(at + |a| + |b|, t, k.calls)
  {
    PartOfStanding(m, at, a, b, whole);
    path := BytesRun(m, b, r, k, t);
  }

  /** And every other instruction stands where the stretch before it ends. */
  lemma BarrierStands(tokens: seq<Token>, m: Memory, ranges: seq<nat>, i: nat, a: seq<Instruction>, j: Instruction, b: seq<Instruction>)
    requires InMemory(tokens, m, ranges) && i < |Source(tokens)| && Source(tokens)[i] == Body(a + [j] + b) && IsBarrier(j)
    requires Place(tokens, m, ranges, i) + |Optimised(a)| < 0x1_0000
    ensures var f := Fetch(m, Place(tokens, m, ranges, i) + |Optimised(a)|); f.Some? && f.value.0 == j
    ensures Place(tokens, m, ranges, i) + |Optimised(a + [j])| == Place(tokens, m, ranges, i) + |Optimised(a)| + 1
  {
    BodyStands(tokens, m, ranges, i, a + [j] + b);
    BarrierJoins(a, j);
    BarrierIsThere(m, Place(tokens, m, ranges, i), a, j, b);
  }

  lemma BarrierIsThere(m: Memory, at: nat, a: seq<Instruction>, j: Instruction, b: seq<Instruction>)
    requires IsBarrier(j) && WellFormed(a + [j] + b) && StandsAt(m, at, Optimised(a + [j] + b)) && at + |Optimised(a)| < 0x1_0000
    ensures var f := Fetch(m, at + |Optimised(a)|); f.Some? && f.value.0 == j
  {
    Barrier(a, j, b);
    OneIsWellFormed(a, j, b);
    PartFetches(m, at, Optimised(a), j, Optimised(a + [j] + b));
  }

  lemma PartFetches(m: Memory, at: nat, a: seq<Instruction>, j: Instruction, whole: seq<Instruction>)
    requires StandsAt(m, at, whole) && a + [j] <= whole && WellFormed([j]) && at + |a| < 0x1_0000
    ensures Fetch(m, at + |a|).Some? && Fetch(m, at + |a|).value.0 == j
  {
    PartOfStanding(m, at, a, [j], whole);
    FetchDoes(m, [j], at + |a|);
  }

  lemma OneIsWellFormed(a: seq<Instruction>, j: Instruction, b: seq<Instruction>)
    requires IsBarrier(j) && WellFormed(a + [j] + b)
    ensures WellFormed([j])
  {
    WellFormedCut(a, j, b);
    WellFormedAppend(a, [j] + b);
    assert a + [j] + b == a + ([j] + b) && ([j] + b)[0] == j && [j][1..] == [];
  }

  /**
   * A reference leaves the place of the code behind its label: of the block before which stands exactly
   * what stands before the label's last definition.
   */
  lemma ReferenceRuns(tokens: seq<Token>, m: Memory, ranges: seq<nat>, i: nat, n: nat, r: Registers, k: Machine)
      returns (target: nat, path: seq<CoreState>)
    requires InMemory(tokens, m, ranges) && i < |Source(tokens)|
    requires n < |tokens| && tokens[n].Label? && (forall j | n < j < |tokens| :: tokens[j] != tokens[n])
    requires Source(tokens)[i] == PushName(tokens[n].name) && k.pc == Place(tokens, m, ranges, i)
    requires Place(tokens, m, ranges, i + 1) < 0x1_0000
    ensures target < |Source(tokens)| && BlockItems(Source(tokens)[..target]) == Items(tokens[..n])
    ensures Ticks(m, path) && path[0] == CoreState(r, k) && Place(tokens, m, ranges, target) < 0x1_0000
    ensures path[|path| - 1].machine ==
            Machine(Place(tokens, m, ranges, i + 1), [Place(tokens, m, ranges, target)] + k.stack, k.calls)
  {
    var blocks := OptimisedBlocks(Blocks(tokens).value);
    ResolvesExactly(Source(tokens), SplitAll(tokens).labels);
    LabelMarksItsPlace(tokens, n);
    target := SplitAll(tokens).labels[tokens[n].name];
    assert Blocks(tokens).value[i] == PushLabel(target) && blocks[i] == PushLabel(target);
    BlockStands(blocks, ranges, m, i);
    path := LabelPushesItsOffset(blocks, ranges, m, i, r, k);
  }
}
