/**
 * From tokens to blocks: labels cut the program, references become blocks of their own, and each
 * block is optimised by itself, so that no label is moved into the middle of an instruction.
 */
module AssemblerBlocks {
  import opened Wrappers
  import opened Isa
  import opened Peephole
  import opened Assembler
  import opened AssembledCode

  /** A word of the source: an instruction, anything else that is no number, a label, or a number. */
  datatype Token = Operation(instruction: Instruction) | Reference(name: string) | Label(name: string) | Number(n: Word)

  datatype NamedBlock = Body(code: seq<Instruction>) | PushName(name: string)

  datatype Splitting = Splitting(blocks: seq<NamedBlock>, labels: map<string, nat>, current: seq<Instruction>)

  function Split(s: Splitting, t: Token): Splitting {
    match t
    case Operation(i) => s.(current := s.current + [i])
    case Reference(name) => s.(blocks := s.blocks + [Body(s.current), PushName(name)], current := [])
    case Label(name) =>
      if s.current != [] then
        Splitting(s.blocks + [Body(s.current)], s.labels[name := |s.blocks| + 1], [])
      else s.(labels := s.labels[name := |s.blocks|])
    case Number(n) => s.(current := s.current + EncodePush(n))
  }

  function SplitAll(tokens: seq<Token>): Splitting {
    if tokens == [] then Splitting([], map[], [])
    else Split(SplitAll(tokens[..|tokens| - 1]), tokens[|tokens| - 1])
  }

  function Finished(s: Splitting): seq<NamedBlock> {
    if s.current != [] then s.blocks + [Body(s.current)] else s.blocks
  }

  /** Names become block numbers; a name without a label is an error. */
  function Resolve(blocks: seq<NamedBlock>, labels: map<string, nat>): Option<seq<Block>> {
    if blocks == [] then Some([])
    else
      var rest :- Resolve(blocks[..|blocks| - 1], labels);
      var last := blocks[|blocks| - 1];
      if last.Body? then Some(rest + [Instructions(last.code)])
      else if last.name in labels then Some(rest + [PushLabel(labels[last.name])])
      else None
  }

  function Blocks(tokens: seq<Token>): Option<seq<Block>> {
    Resolve(Finished(SplitAll(tokens)), SplitAll(tokens).labels)
  }

  method CreateBlocks(tokens: seq<Token>) returns (r: Option<seq<Block>>)
    ensures r == Blocks(tokens)
  {
    var blocks: seq<NamedBlock>, labels: map<string, nat>, current: seq<Instruction> := [], map[], [];
    for k := 0 to |tokens|
      invariant Splitting(blocks, labels, current) == SplitAll(tokens[..k])
    {
      assert tokens[..k + 1][..k] == tokens[..k];
      match tokens[k] {
        case Operation(i) => current := current + [i];
        case Reference(name) =>
          blocks := blocks + [Body(current)];
          blocks := blocks + [PushName(name)];
          current := [];
          assert SplitAll(tokens[..k]).blocks + [Body(SplitAll(tokens[..k]).current)] + [PushName(name)] ==
                 SplitAll(tokens[..k]).blocks + [Body(SplitAll(tokens[..k]).current), PushName(name)];
        case Label(name) =>
          if current != [] {
            blocks := blocks + [Body(current)];
            current := [];
          }
          labels := labels[name := |blocks|];
        case Number(n) => current := current + EncodePush(n);
      }
    }
    assert tokens[..|tokens|] == tokens;
    if current != [] {
      blocks := blocks + [Body(current)];
    }
    var resolved: seq<Block> := [];
    for k := 0 to |blocks|
      invariant Resolve(blocks[..k], labels) == Some(resolved)
    {
      assert blocks[..k + 1][..k] == blocks[..k];
      match blocks[k] {
        case Body(code) => resolved := resolved + [Instructions(code)];
        case PushName(name) =>
          if name !in labels {
            ResolutionStops(blocks, labels, k + 1);
            return None;
          }
          resolved := resolved + [PushLabel(labels[name])];
      }
    }
    assert blocks[..|blocks|] == blocks;
    r := Some(resolved);
  }

  lemma {:induction false} ResolutionStops(blocks: seq<NamedBlock>, labels: map<string, nat>, k: nat)
    requires k <= |blocks| && Resolve(blocks[..k], labels).None?
    ensures Resolve(blocks, labels).None?
    decreases |blocks|
  {
    if k == |blocks| {
      assert blocks[..k] == blocks;
    } else {
      assert blocks[..|blocks| - 1][..k] == blocks[..k];
      ResolutionStops(blocks[..|blocks| - 1], labels, k);
    }
  }

  // ----- labels mark their place -----

  /** The program as a row of instructions and references. */
  datatype Item = Plain(instruction: Instruction) | Named(name: string)

  function Plains(code: seq<Instruction>): (r: seq<Item>)
    ensures |r| == |code|
  {
    seq(|code|, i requires 0 <= i < |code| => Plain(code[i]))
  }

  function ItemsOf(t: Token): seq<Item> {
    match t
    case Operation(i) => [Plain(i)]
    case Reference(name) => [Named(name)]
    case Label(_) => []
    case Number(n) => Plains(EncodePush(n))
  }

  function Items(tokens: seq<Token>): seq<Item> {
    if tokens == [] then [] else Items(tokens[..|tokens| - 1]) + ItemsOf(tokens[|tokens| - 1])
  }

  function BlockItems(blocks: seq<NamedBlock>): seq<Item> {
    if blocks == [] then []
    else
      var last := blocks[|blocks| - 1];
      BlockItems(blocks[..|blocks| - 1]) + (if last.Body? then Plains(last.code) else [Named(last.name)])
  }

  lemma OneMoreBlock(blocks: seq<NamedBlock>, b: NamedBlock)
    ensures BlockItems(blocks + [b]) == BlockItems(blocks) + if b.Body? then Plains(b.code) else [Named(b.name)]
  {
    assert (blocks + [b])[..|blocks|] == blocks;
  }

  lemma PlainsAppend(a: seq<Instruction>, b: seq<Instruction>)
    ensures Plains(a + b) == Plains(a) + Plains(b)
  {
  }

  function SplitItems(s: Splitting): seq<Item> {
    BlockItems(s.blocks) + Plains(s.current)
  }

  lemma SplitAdds(s: Splitting, t: Token)
    ensures SplitItems(Split(s, t)) == SplitItems(s) + ItemsOf(t)
  {
    match t
    case Operation(i) => PlainsAppend(s.current, [i]);
    case Number(n) => PlainsAppend(s.current, EncodePush(n));
    case Label(_) => OneMoreBlock(s.blocks, Body(s.current));
    case Reference(name) =>
      OneMoreBlock(s.blocks, Body(s.current));
      OneMoreBlock(s.blocks + [Body(s.current)], PushName(name));
      assert s.blocks + [Body(s.current)] + [PushName(name)] == s.blocks + [Body(s.current), PushName(name)];
  }

  /** Splitting loses nothing, and moves nothing. */
  lemma {:induction false} NothingIsLost(tokens: seq<Token>)
    ensures SplitItems(SplitAll(tokens)) == Items(tokens) == BlockItems(Finished(SplitAll(tokens)))
  {
    if tokens != [] {
      NothingIsLost(tokens[..|tokens| - 1]);
      SplitAdds(SplitAll(tokens[..|tokens| - 1]), tokens[|tokens| - 1]);
    }
    OneMoreBlock(SplitAll(tokens).blocks, Body(SplitAll(tokens).current));
  }

  /** Blocks are only ever added at the end. */
  lemma {:induction false} BlocksOnlyGrow(tokens: seq<Token>, k: nat)
    requires k <= |tokens|
    ensures SplitAll(tokens[..k]).blocks <= SplitAll(tokens).blocks <= Finished(SplitAll(tokens))
    decreases |tokens|
  {
    if k < |tokens| {
      BlocksOnlyGrow(tokens[..|tokens| - 1], k);
      assert tokens[..|tokens| - 1][..k] == tokens[..k];
    } else {
      assert tokens[..k] == tokens;
    }
  }

  /** The last label of a name decides. */
  lemma {:induction false} LastLabelDecides(tokens: seq<Token>, k: nat)
    requires k < |tokens| && tokens[k].Label? && forall j | k < j < |tokens| :: tokens[j] != tokens[k]
    ensures tokens[k].name in SplitAll(tokens).labels
    ensures SplitAll(tokens).labels[tokens[k].name] == |SplitAll(tokens[..k + 1]).blocks|
    decreases |tokens|
  {
    if k < |tokens| - 1 {
      LastLabelDecides(tokens[..|tokens| - 1], k);
      assert tokens[..|tokens| - 1][..k + 1] == tokens[..k + 1];
    } else {
      assert tokens[..k + 1] == tokens;
    }
  }

  /** A label names the block in front of which stands exactly what stands in front of the label. */
  lemma LabelMarksItsPlace(tokens: seq<Token>, k: nat)
    requires k < |tokens| && tokens[k].Label? && forall j | k < j < |tokens| :: tokens[j] != tokens[k]
    ensures var b := SplitAll(tokens).labels; var all := Finished(SplitAll(tokens));
            tokens[k].name in b && b[tokens[k].name] <= |all| && BlockItems(all[..b[tokens[k].name]]) == Items(tokens[..k])
  {
    LastLabelDecides(tokens, k);
    BlocksOnlyGrow(tokens, k + 1);
    NothingIsLost(tokens[..k + 1]);
    assert tokens[..k + 1][..k] == tokens[..k];
    assert SplitAll(tokens[..k + 1]).current == [];
    var n := |SplitAll(tokens[..k + 1]).blocks|;
    assert Finished(SplitAll(tokens))[..n] == SplitAll(tokens[..k + 1]).blocks;
  }

  // ----- the assembler -----

  function OptimisedBlock(b: Block): Block {
    if b.Instructions? then Instructions(Optimised(b.code)) else b
  }

  function OptimisedBlocks(blocks: seq<Block>): (r: seq<Block>)
    ensures |r| == |blocks| && forall i | 0 <= i < |blocks| :: r[i] == OptimisedBlock(blocks[i])
  {
    seq(|blocks|, i requires 0 <= i < |blocks| => OptimisedBlock(blocks[i]))
  }

  /** Instructions that fit a byte, long pushes with their bytes. */
  predicate WellFormedBlocks(blocks: seq<Block>) {
    forall i | 0 <= i < |blocks| && blocks[i].Instructions? :: WellFormed(blocks[i].code)
  }

  lemma {:induction false} WellFormedEncodes(code: seq<Instruction>)
    requires WellFormed(code)
    ensures Encodable(code)
    decreases |code|
  {
    if code != [] {
      var k := if Prefix(code[0]) then 2 else 1;
      WellFormedEncodes(code[k..]);
      assert forall i | i in code :: i == code[0] || (k == 2 && i == code[1]) || i in code[k..];
    }
  }

  lemma BlockIsWellFormed(b: Block, ranges: seq<nat>)
    requires if b.Instructions? then WellFormed(b.code) else b.target < |ranges|
    ensures WellFormed(CodeOfBlock(b, ranges))
  {
    if b.PushLabel? { PushRuns(ranges[b.target] % 0x1_0000, []); }
  }

  lemma {:induction false} CodeIsWellFormed(blocks: seq<Block>, ranges: seq<nat>, i: nat)
    requires InRange(blocks) && WellFormedBlocks(blocks) && |ranges| == |blocks| && i <= |blocks|
    ensures WellFormed(CodeUpTo(blocks, ranges, i))
  {
    if i > 0 {
      CodeIsWellFormed(blocks, ranges, i - 1);
      BlockIsWellFormed(blocks[i - 1], ranges);
      WellFormedAppend(CodeUpTo(blocks, ranges, i - 1), CodeOfBlock(blocks[i - 1], ranges));
    }
  }

  method OptimiseAll(blocks: seq<Block>) returns (optimised: seq<Block>)
    ensures optimised == OptimisedBlocks(blocks)
  {
    optimised := [];
    for i := 0 to |blocks|
      invariant |optimised| == i && forall j | 0 <= j < i :: optimised[j] == OptimisedBlock(blocks[j])
    {
      match blocks[i] {
        case Instructions(code) =>
          var shorter := PeepholeOptimise(code);
          optimised := optimised + [Instructions(shorter)];
        case PushLabel(k) => optimised := optimised + [PushLabel(k)];
      }
    }
  }

  method EncodeAll(code: seq<Instruction>) returns (bytes: seq<Byte>)
    requires Encodable(code)
    ensures bytes == Bytes(code)
  {
    bytes := [];
    for i := 0 to |code|
      invariant |bytes| == i && forall j | 0 <= j < i :: bytes[j] == Bytes(code)[j]
    {
      assert code[i] in code && Some(Bytes(code)[i]) == Encode(code[i]);
      bytes := bytes + [Encode(code[i]).value];
    }
  }

  /** What the source's words stand for: no raw bytes, and nothing that needs one. */
  predicate Sensible(tokens: seq<Token>) {
    forall i | 0 <= i < |tokens| && tokens[i].Operation? :: WellFormed([tokens[i].instruction])
  }

  predicate WellFormedNamed(blocks: seq<NamedBlock>) {
    forall i | 0 <= i < |blocks| && blocks[i].Body? :: WellFormed(blocks[i].code)
  }

  lemma {:induction false} SplitsWellFormed(tokens: seq<Token>)
    requires Sensible(tokens)
    ensures WellFormedNamed(SplitAll(tokens).blocks) && WellFormed(SplitAll(tokens).current)
    ensures WellFormedNamed(Finished(SplitAll(tokens)))
  {
    if tokens != [] {
      var s, t := SplitAll(tokens[..|tokens| - 1]), tokens[|tokens| - 1];
      SplitsWellFormed(tokens[..|tokens| - 1]);
      if t.Operation? {
        WellFormedAppend(s.current, [t.instruction]);
      } else if t.Number? {
        PushRuns(t.n, []);
        WellFormedAppend(s.current, EncodePush(t.n));
      }
    }
  }

  lemma {:induction false} ResolvesWellFormed(blocks: seq<NamedBlock>, labels: map<string, nat>)
    requires WellFormedNamed(blocks) && Resolve(blocks, labels).Some?
    ensures WellFormedBlocks(Resolve(blocks, labels).value) && |Resolve(blocks, labels).value| == |blocks|
  {
    if blocks != [] {
      ResolvesWellFormed(blocks[..|blocks| - 1], labels);
    }
  }

  /** The bytes of optimised blocks in their least layout. */
  ghost predicate Assembled(blocks: seq<Block>, bytes: seq<Byte>, ranges: seq<nat>) {
    LeastLayout(blocks, ranges) &&
    var code := CodeUpTo(blocks, ranges, |blocks|); WellFormed(code) && Encodable(code) && bytes == Bytes(code)
  }

  /** Blocks, each optimised by itself, laid out, and encoded; a panic if a label has no definition or no code after it. */
  method Assemble(tokens: seq<Token>) returns (bytes: Option<seq<Byte>>)
    requires Sensible(tokens)
    requires Blocks(tokens).Some? && InRange(Blocks(tokens).value) ==> Fits(OptimisedBlocks(Blocks(tokens).value))
    ensures bytes.Some? <==> Blocks(tokens).Some? && InRange(Blocks(tokens).value)
    ensures bytes.Some? ==> exists ranges :: Assembled(OptimisedBlocks(Blocks(tokens).value), bytes.value, ranges)
  {
    var created := CreateBlocks(tokens);
    if created.None? || !InRange(created.value) { return None; }
    SplitsWellFormed(tokens);
    ResolvesWellFormed(Finished(SplitAll(tokens)), SplitAll(tokens).labels);
    StillWellFormed(created.value);
    var blocks := OptimiseAll(created.value);
    var code := FlattenBlocks(blocks);
    ghost var ranges :| LeastLayout(blocks, ranges) && code == CodeUpTo(blocks, ranges, |blocks|);
    CodeIsWellFormed(blocks, ranges, |blocks|);
    WellFormedEncodes(code);
    var encoded := EncodeAll(code);
    assert Assembled(blocks, encoded, ranges);
    return Some(encoded);
  }

  lemma StillWellFormed(blocks: seq<Block>)
    requires WellFormedBlocks(blocks) && InRange(blocks)
    ensures WellFormedBlocks(OptimisedBlocks(blocks)) && InRange(OptimisedBlocks(blocks))
  {
    forall i | 0 <= i < |blocks| && blocks[i].Instructions? ensures WellFormed(OptimisedBlocks(blocks)[i].code) {
      OptimisedMeansTheSame<()>(blocks[i].code, [], (), NoOther);
    }
  }
}
