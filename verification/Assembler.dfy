/**
 * Label relaxation. A reference to a label is a push of the byte offset of a block, as short as the
 * offset allows; so offsets depend on lengths and lengths on offsets. The assembler starts from
 * one-byte pushes and lays the blocks out again until nothing moves.
 */
module Assembler {
  import opened Wrappers
  import opened Isa
  import opened StackMachine

  datatype Block = Instructions(code: seq<Instruction>) | PushLabel(target: nat)

  /** Every label is that of a block there is. */
  predicate InRange(blocks: seq<Block>) {
    forall i | 0 <= i < |blocks| && blocks[i].PushLabel? :: blocks[i].target < |blocks|
  }

  /** The offset as the assembler sees it when it encodes the push: cut to 16 bits. */
  function PushOf(offset: nat): seq<Instruction> {
    EncodePush(offset % 0x1_0000)
  }

  /** How long a block is when the blocks start at `ranges`. */
  function Size(b: Block, ranges: seq<nat>): nat
    requires b.PushLabel? ==> b.target < |ranges|
  {
    if b.Instructions? then |b.code| else |PushOf(ranges[b.target])|
  }

  function MinSize(b: Block): nat {
    if b.Instructions? then |b.code| else 1
  }

  function Least(blocks: seq<Block>): nat {
    if blocks == [] then 0 else Least(blocks[..|blocks| - 1]) + MinSize(blocks[|blocks| - 1])
  }

  /** Where the `i`-th block starts, with the pushes as long as `ranges` makes them. */
  function Start(blocks: seq<Block>, ranges: seq<nat>, i: nat): nat
    requires InRange(blocks) && |ranges| == |blocks| && i <= |blocks|
  {
    if i == 0 then 0 else Start(blocks, ranges, i - 1) + Size(blocks[i - 1], ranges)
  }

  /** The blocks laid out again. */
  function Again(blocks: seq<Block>, ranges: seq<nat>): (r: seq<nat>)
    requires InRange(blocks) && |ranges| == |blocks|
    ensures |r| == |blocks|
  {
    seq(|blocks|, i requires 0 <= i < |blocks| => Start(blocks, ranges, i))
  }

  /** A layout in which every push is exactly as long as its target's offset needs. */
  ghost predicate Settled(blocks: seq<Block>, ranges: seq<nat>)
    requires InRange(blocks)
  {
    |ranges| == |blocks| && Again(blocks, ranges) == ranges
  }

  predicate Below(a: seq<nat>, b: seq<nat>) {
    |a| == |b| && forall i | 0 <= i < |a| :: a[i] <= b[i]
  }

  /** Every reference is to an offset of 16 bits. */
  predicate Addressed(blocks: seq<Block>, ranges: seq<nat>)
    requires InRange(blocks) && |ranges| == |blocks|
  {
    forall i | 0 <= i < |blocks| && blocks[i].PushLabel? :: ranges[blocks[i].target] < 0x1_0000
  }

  /** Enough room for every push. */
  ghost predicate Roomy(blocks: seq<Block>, layout: seq<nat>)
    requires InRange(blocks)
  {
    |layout| == |blocks| && Addressed(blocks, layout) && Below(Again(blocks, layout), layout)
  }

  /** There is a way to lay the blocks out with every reference in 16 bits. */
  ghost predicate Fits(blocks: seq<Block>) {
    InRange(blocks) && exists layout :: Roomy(blocks, layout)
  }

  lemma {:induction false} StartBounds(blocks: seq<Block>, ranges: seq<nat>, i: nat)
    requires InRange(blocks) && |ranges| == |blocks| && i <= |blocks|
    ensures Least(blocks[..i]) <= Start(blocks, ranges, i)
  {
    if i > 0 {
      StartBounds(blocks, ranges, i - 1);
      assert blocks[..i][..i - 1] == blocks[..i - 1];
    }
  }

  /** Offsets that move up make no push shorter, so every block starts no lower. */
  lemma {:induction false} StartIsMonotone(blocks: seq<Block>, a: seq<nat>, b: seq<nat>, i: nat)
    requires InRange(blocks) && |a| == |blocks| && Below(a, b) && Addressed(blocks, b) && i <= |blocks|
    ensures Start(blocks, a, i) <= Start(blocks, b, i)
  {
    if i > 0 {
      StartIsMonotone(blocks, a, b, i - 1);
      if blocks[i - 1].PushLabel? {
        assert a[blocks[i - 1].target] <= b[blocks[i - 1].target] < 0x1_0000;
      }
    }
  }

  lemma AgainIsMonotone(blocks: seq<Block>, a: seq<nat>, b: seq<nat>)
    requires InRange(blocks) && |a| == |blocks| && Below(a, b) && Addressed(blocks, b)
    ensures Below(Again(blocks, a), Again(blocks, b))
  {
    forall i | 0 <= i < |blocks| ensures Again(blocks, a)[i] <= Again(blocks, b)[i] {
      StartIsMonotone(blocks, a, b, i);
    }
  }

  // ----- the loop -----

  /** How far the offsets can still move below `room`. */
  function Slack(room: seq<nat>, ranges: seq<nat>, i: nat): int
    requires i <= |ranges| == |room|
  {
    if i == 0 then 0 else Slack(room, ranges, i - 1) + room[i - 1] - ranges[i - 1]
  }

  lemma {:induction false} SlackFalls(room: seq<nat>, a: seq<nat>, b: seq<nat>, i: nat)
    requires Below(a, b) && i <= |a| == |room|
    ensures Slack(room, b, i) <= Slack(room, a, i)
    ensures a[..i] != b[..i] ==> Slack(room, b, i) < Slack(room, a, i)
  {
    if i > 0 {
      SlackFalls(room, a, b, i - 1);
      assert a[..i] == a[..i - 1] + [a[i - 1]] && b[..i] == b[..i - 1] + [b[i - 1]];
    }
  }

  lemma {:induction false} SlackIsPositive(room: seq<nat>, ranges: seq<nat>, i: nat)
    requires Below(ranges, room) && i <= |ranges|
    ensures Slack(room, ranges, i) >= 0
  {
    if i > 0 { SlackIsPositive(room, ranges, i - 1); }
  }

  /** The first layout: one byte for each push. */
  method Initial(blocks: seq<Block>) returns (ranges: seq<nat>)
    ensures |ranges| == |blocks| && forall i | 0 <= i < |blocks| :: ranges[i] == Least(blocks[..i])
  {
    var lowIndex := 0;
    ranges := [];
    for i := 0 to |blocks|
      invariant |ranges| == i && lowIndex == Least(blocks[..i])
      invariant forall j | 0 <= j < i :: ranges[j] == Least(blocks[..j])
    {
      ranges := ranges + [lowIndex];
      lowIndex := lowIndex + if blocks[i].Instructions? then |blocks[i].code| else 1;
      assert blocks[..i + 1][..i] == blocks[..i];
    }
  }

  /** It is how the blocks lie when every reference is to the beginning. */
  lemma {:induction false} FirstIsFromZero(blocks: seq<Block>, zeros: seq<nat>, i: nat)
    requires InRange(blocks) && |zeros| == |blocks| && (forall j | 0 <= j < |zeros| :: zeros[j] == 0) && i <= |blocks|
    ensures Least(blocks[..i]) == Start(blocks, zeros, i)
  {
    if i > 0 {
      FirstIsFromZero(blocks, zeros, i - 1);
      assert blocks[..i][..i - 1] == blocks[..i - 1];
      assert |PushOf(0)| == 1;
    }
  }

  lemma OneMoreSame(next: seq<nat>, ranges: seq<nat>, i: nat, x: nat)
    requires |next| == i < |ranges|
    ensures next + [x] == ranges[..i + 1] <==> next == ranges[..i] && x == ranges[i]
  {
    assert ranges[..i + 1] == ranges[..i] + [ranges[i]];
    if next + [x] == ranges[..i + 1] {
      assert (next + [x])[..i] == ranges[..i + 1][..i];
      assert (next + [x])[i] == ranges[..i + 1][i];
    }
  }

  /** One turn: the offsets with pushes as long as the last turn's offsets need, and whether nothing moved. */
  method LayOut(blocks: seq<Block>, ranges: seq<nat>) returns (next: seq<nat>, done: bool)
    requires InRange(blocks) && |ranges| == |blocks|
    ensures next == Again(blocks, ranges) && (done <==> next == ranges)
  {
    var lowIndex := 0;
    next, done := [], true;
    ghost var all := Again(blocks, ranges);
    for i := 0 to |blocks|
      invariant next == all[..i] && lowIndex == Start(blocks, ranges, i)
      invariant done <==> next == ranges[..i]
    {
      assert all[..i + 1] == all[..i] + [all[i]];
      OneMoreSame(next, ranges, i, lowIndex);
      done := done && ranges[i] == lowIndex;
      next := next + [lowIndex];
      match blocks[i] {
        case Instructions(code) => lowIndex := lowIndex + |code|;
        case PushLabel(target) => lowIndex := lowIndex + |PushOf(ranges[target])|;
      }
    }
    assert ranges[..|blocks|] == ranges && all[..|blocks|] == all;
  }

  /** What holds while the layout is improved: it only grows, and stays below every roomy layout. */
  ghost predicate Growing(blocks: seq<Block>, ranges: seq<nat>)
    requires InRange(blocks)
  {
    && |ranges| == |blocks| && Below(ranges, Again(blocks, ranges))
    && forall layout | Roomy(blocks, layout) :: Below(ranges, layout)
  }

  /** The layout the assembler is after: settled, addressed, and below every layout with room enough. */
  ghost predicate LeastLayout(blocks: seq<Block>, ranges: seq<nat>) {
    && InRange(blocks) && Settled(blocks, ranges) && Addressed(blocks, ranges)
    && forall layout | Roomy(blocks, layout) :: Below(ranges, layout)
  }

  lemma InitialGrows(blocks: seq<Block>, ranges: seq<nat>)
    requires InRange(blocks) && |ranges| == |blocks|
    requires forall i | 0 <= i < |blocks| :: ranges[i] == Least(blocks[..i])
    ensures Growing(blocks, ranges)
  {
    forall i | 0 <= i < |blocks| ensures ranges[i] <= Again(blocks, ranges)[i] {
      StartBounds(blocks, ranges, i);
    }
    forall layout | Roomy(blocks, layout) ensures Below(ranges, layout) {
      forall i | 0 <= i < |blocks| ensures ranges[i] <= layout[i] {
        StartBounds(blocks, layout, i);
        assert Again(blocks, layout)[i] <= layout[i];
      }
    }
  }

  lemma KeepsGrowing(blocks: seq<Block>, ranges: seq<nat>)
    requires Fits(blocks) && Growing(blocks, ranges)
    ensures Growing(blocks, Again(blocks, ranges))
  {
    var next := Again(blocks, ranges);
    forall layout | Roomy(blocks, layout) ensures Below(next, layout) {
      AgainIsMonotone(blocks, ranges, layout);
      forall i | 0 <= i < |blocks| ensures next[i] <= layout[i] {
        assert next[i] <= Again(blocks, layout)[i] <= layout[i];
      }
    }
    var room :| Roomy(blocks, room);
    assert Below(next, room);
    AgainIsMonotone(blocks, ranges, next);
  }

  lemma GrownIsLeast(blocks: seq<Block>, ranges: seq<nat>)
    requires Fits(blocks) && Growing(blocks, ranges) && Settled(blocks, ranges)
    ensures LeastLayout(blocks, ranges)
  {
    var room :| Roomy(blocks, room);
    assert Below(ranges, room);
  }

  /** If the blocks fit at all, the loop ends at the least layout in which they do. */
  method Relax(blocks: seq<Block>) returns (ranges: seq<nat>)
    requires Fits(blocks)
    ensures LeastLayout(blocks, ranges)
  {
    ghost var room :| Roomy(blocks, room);
    ranges := Initial(blocks);
    InitialGrows(blocks, ranges);
    var done := false;
    while !done
      invariant Growing(blocks, ranges) && (done ==> Settled(blocks, ranges))
      decreases !done, Slack(room, ranges, |ranges|)
    {
      var before := ranges;
      KeepsGrowing(blocks, ranges);
      ranges, done := LayOut(blocks, ranges);
      assert Below(ranges, room);
      SlackFalls(room, before, ranges, |before|);
      SlackIsPositive(room, ranges, |ranges|);
      assert before[..|before|] == before && ranges[..|before|] == ranges;
    }
    GrownIsLeast(blocks, ranges);
  }

  // ----- when there is a layout -----

  lemma {:induction false} RelaxationEnds(blocks: seq<Block>, ranges: seq<nat>, room: seq<nat>) returns (least: seq<nat>)
    requires Fits(blocks) && Growing(blocks, ranges) && Roomy(blocks, room)
    ensures LeastLayout(blocks, least)
    decreases Slack(room, ranges, |ranges|)
  {
    var next := Again(blocks, ranges);
    if next == ranges {
      GrownIsLeast(blocks, ranges);
      least := ranges;
    } else {
      KeepsGrowing(blocks, ranges);
      assert Below(ranges, room) && Below(next, room);
      SlackFalls(room, ranges, next, |ranges|);
      SlackIsPositive(room, next, |next|);
      SlackIsPositive(room, ranges, |ranges|);
      assert ranges[..|ranges|] == ranges && next[..|next|] == next;
      least := RelaxationEnds(blocks, next, room);
    }
  }

  /** There is a settled layout with every reference in 16 bits exactly when there is any roomy one. */
  lemma LayoutExists(blocks: seq<Block>)
    requires InRange(blocks)
    ensures Fits(blocks) <==> exists ranges :: LeastLayout(blocks, ranges)
    ensures Fits(blocks) <==> exists ranges :: Settled(blocks, ranges) && Addressed(blocks, ranges)
  {
    if Fits(blocks) {
      var first := seq(|blocks|, i requires 0 <= i < |blocks| => Least(blocks[..i]));
      InitialGrows(blocks, first);
      var room :| Roomy(blocks, room);
      var least := RelaxationEnds(blocks, first, room);
      assert LeastLayout(blocks, least) && Settled(blocks, least) && Addressed(blocks, least);
    }
    forall ranges | Settled(blocks, ranges) && Addressed(blocks, ranges) ensures Fits(blocks) {
      assert Roomy(blocks, ranges);
    }
  }

  /**
   * Blocks that do not fit: a reference to the offset just behind it, near the end of the 16 bits.
   * One byte makes the offset 65535, which takes three; three make it 65537, which is cut to 1.
   * No layout is settled, so the loop does not end.
   */
  lemma NothingSettles(code: seq<Instruction>, rest: seq<Instruction>, ranges: seq<nat>)
    requires |code| == 0xFFFE
    ensures var blocks := [Instructions(code), PushLabel(2), Instructions(rest)];
            InRange(blocks) && !Fits(blocks) && !Settled(blocks, ranges)
  {
    var blocks := [Instructions(code), PushLabel(2), Instructions(rest)];
    forall r: seq<nat> ensures !Settled(blocks, r) {
      if |r| == 3 {
        assert Again(blocks, r)[2] == Start(blocks, r, 2) == 0xFFFE + |PushOf(r[2])| by {
          assert Start(blocks, r, 1) == 0xFFFE;
        }
      }
    }
    LayoutExists(blocks);
  }

  // ----- the code -----

  function CodeOfBlock(b: Block, ranges: seq<nat>): seq<Instruction>
    requires b.PushLabel? ==> b.target < |ranges|
  {
    if b.Instructions? then b.code else PushOf(ranges[b.target])
  }

  function CodeUpTo(blocks: seq<Block>, ranges: seq<nat>, i: nat): seq<Instruction>
    requires InRange(blocks) && |ranges| == |blocks| && i <= |blocks|
  {
    if i == 0 then [] else CodeUpTo(blocks, ranges, i - 1) + CodeOfBlock(blocks[i - 1], ranges)
  }

  /** Each block's code starts where the layout says. */
  lemma {:induction false} CodeStarts(blocks: seq<Block>, ranges: seq<nat>, i: nat)
    requires InRange(blocks) && |ranges| == |blocks| && i <= |blocks|
    ensures |CodeUpTo(blocks, ranges, i)| == Start(blocks, ranges, i)
  {
    if i > 0 { CodeStarts(blocks, ranges, i - 1); }
  }

  lemma {:induction false} CodeGrows(blocks: seq<Block>, ranges: seq<nat>, i: nat, n: nat)
    requires InRange(blocks) && |ranges| == |blocks| && i <= n <= |blocks|
    ensures CodeUpTo(blocks, ranges, i) <= CodeUpTo(blocks, ranges, n)
    decreases n
  {
    if i < n { CodeGrows(blocks, ranges, i, n - 1); }
  }

  /** The blocks in a row, each reference as a push of its block's offset in the least layout. */
  method FlattenBlocks(blocks: seq<Block>) returns (result: seq<Instruction>)
    requires Fits(blocks)
    ensures exists ranges :: LeastLayout(blocks, ranges) && result == CodeUpTo(blocks, ranges, |blocks|)
  {
    var ranges := Relax(blocks);
    result := [];
    for i := 0 to |blocks|
      invariant result == CodeUpTo(blocks, ranges, i)
    {
      match blocks[i] {
        case Instructions(code) => result := result + code;
        case PushLabel(k) => result := result + PushOf(ranges[k]);
      }
    }
  }
}
