/**
 * The code generator's peephole optimiser over tokens: constants are folded and cancelling pairs
 * dropped as tokens arrive. It keeps the meaning of a program except where it meets a negated constant.
 */
module TokenOptimizer {
  import opened Wrappers
  import opened Isa
  import opened StackMachine

  datatype Token = N(n: Word) | L(name: string) | I(instruction: Instruction)

  predicate CanFold(o: Op) {
    o == Add || o == Sub || o == LogicalAnd || o == LogicalOr || o == LogicalXor
  }

  /** Two constants folded; `None` when the sum or the difference leaves 16 bits, which is a panic. */
  function Fold(o: Op, n1: Word, n2: Word): Option<Word>
    requires CanFold(o)
  {
    if o == Add then if n1 + n2 < 0x1_0000 then Some(n1 + n2) else None
    else if o == Sub then if n1 <= n2 then Some(n2 - n1) else None
    else if o == LogicalAnd then Some(And(n1, n2))
    else if o == LogicalOr then Some(Or(n1, n2))
    else Some(Xor(n1, n2))
  }

  /** An arithmetic or logic token. A lone constant before a negation is left alone; another is negated. */
  function NextAlu(b: seq<Token>, o: Op): Option<seq<Token>> {
    var k := |b|;
    if k == 0 || !b[k - 1].N? then Some(b + [I(ArithmeticOrLogic(o))])
    else if k >= 2 && b[k - 2].N? && CanFold(o) then
      var n :- Fold(o, b[k - 1].n, b[k - 2].n);
      Some(b[..k - 2] + [N(n)])
    else if k >= 2 && o == LogicalNot then
      Some(b[..k - 1] + [N(Not(b[k - 1].n)), I(ArithmeticOrLogic(o))])
    else Some(b + [I(ArithmeticOrLogic(o))])
  }

  function Next(b: seq<Token>, t: Token): Option<seq<Token>> {
    var k := |b|;
    if t == I(Stack(Drop)) && k >= 1 && (b[k - 1].N? || b[k - 1] == I(Stack(Dup))) then Some(b[..k - 1])
    else if t == I(Stack(Swap)) && k >= 1 && b[k - 1] == t then Some(b[..k - 1])
    else if t.I? && t.instruction.ArithmeticOrLogic? then NextAlu(b, t.instruction.op)
    else Some(b + [t])
  }

  function Optimised(tokens: seq<Token>): Option<seq<Token>> {
    if tokens == [] then Some([])
    else
      var b :- Optimised(tokens[..|tokens| - 1]);
      Next(b, tokens[|tokens| - 1])
  }

  /** The arithmetic and logic tokens, with the deque popped and refilled. */
  method FoldConstants(toks: seq<Token>, o: Op) returns (r: Option<seq<Token>>)
    ensures r == NextAlu(toks, o)
  {
    var tok := I(ArithmeticOrLogic(o));
    if toks == [] || !toks[|toks| - 1].N? {
      return Some(toks + [tok]);
    }
    var n1, rest := toks[|toks| - 1].n, toks[..|toks| - 1];
    if rest == [] {
      assert rest + [N(n1)] == toks;
      return Some(rest + [N(n1)] + [tok]);
    }
    var second, base := rest[|rest| - 1], rest[..|rest| - 1];
    assert base == toks[..|toks| - 2] && base + [second] == rest && rest + [N(n1)] == toks;
    if second.N? && CanFold(o) {
      var n2 := second.n;
      if o == Add {
        var sum := n1 as int + n2 as int;
        if sum >= 0x1_0000 {
          return None;
        }
        return Some(base + [N(sum)]);
      } else if o == Sub {
        if n2 < n1 {
          return None;
        }
        return Some(base + [N(n2 - n1)]);
      } else if o == LogicalAnd {
        return Some(base + [N(And(n1, n2))]);
      } else if o == LogicalOr {
        return Some(base + [N(Or(n1, n2))]);
      }
      return Some(base + [N(Xor(n1, n2))]);
    }
    if o == LogicalNot {
      assert base + [second] + [N(Not(n1))] + [tok] == rest + [N(Not(n1)), tok];
      return Some(base + [second] + [N(Not(n1))] + [tok]);
    }
    r := Some(base + [second] + [N(n1)] + [tok]);
  }

  method Peephole(tokens: seq<Token>) returns (r: Option<seq<Token>>)
    ensures r == Optimised(tokens)
  {
    var newToks: seq<Token> := [];
    for k := 0 to |tokens|
      invariant Optimised(tokens[..k]) == Some(newToks)
    {
      assert tokens[..k + 1][..k] == tokens[..k];
      var tok, didOpt := tokens[k], false;
      if tok == I(Stack(Drop)) {
        if newToks != [] && (newToks[|newToks| - 1].N? || newToks[|newToks| - 1] == I(Stack(Dup))) {
          newToks, didOpt := newToks[..|newToks| - 1], true;
        }
      } else if tok == I(Stack(Swap)) {
        if newToks != [] && newToks[|newToks| - 1] == tok {
          newToks, didOpt := newToks[..|newToks| - 1], true;
        }
      } else if tok.I? && tok.instruction.ArithmeticOrLogic? {
        var folded := FoldConstants(newToks, tok.instruction.op);
        if folded.None? {
          OptimisingStops(tokens, k + 1);
          return None;
        }
        newToks, didOpt := folded.value, true;
      }
      if !didOpt {
        newToks := newToks + [tok];
      }
    }
    assert tokens[..|tokens|] == tokens;
    r := Some(newToks);
  }

  lemma {:induction false} OptimisingStops(tokens: seq<Token>, k: nat)
    requires k <= |tokens| && Optimised(tokens[..k]).None?
    ensures Optimised(tokens).None?
    decreases |tokens|
  {
    if k == |tokens| {
      assert tokens[..k] == tokens;
    } else {
      assert tokens[..|tokens| - 1][..k] == tokens[..k];
      OptimisingStops(tokens[..|tokens| - 1], k);
    }
  }

  // ----- meaning -----

  /** Where labels are, and what instructions outside the straight line do. */
  datatype World<!T> = World(address: string -> Word, other: (Instruction, seq<Word>, T) -> Option<(seq<Word>, T)>)

  function Execute<T>(t: Token, s: seq<Word>, w: T, world: World<T>): Option<(seq<Word>, T)> {
    match t
    case N(n) => Some(([n] + s, w))
    case L(name) => Some(([world.address(name)] + s, w))
    case I(i) =>
      if StraightLine(i) then
        var v :- Values(s, i, 0);
        Some((v, w))
      else world.other(i, s, w)
  }

  /** Runs the tokens in order. */
  function Run<T>(tokens: seq<Token>, s: seq<Word>, w: T, world: World<T>): Option<(seq<Word>, T)> {
    if tokens == [] then Some((s, w))
    else
      var r :- Run(tokens[..|tokens| - 1], s, w, world);
      Execute(tokens[|tokens| - 1], r.0, r.1, world)
  }

  lemma RunOneMore<T>(b: seq<Token>, t: Token, s: seq<Word>, w: T, world: World<T>)
    ensures var r := Run(b, s, w, world);
            Run(b + [t], s, w, world) == if r.None? then None else Execute(t, r.value.0, r.value.1, world)
  {
    assert (b + [t])[..|b|] == b;
  }

  /** The step that goes wrong: a negation after a constant that is not the first token. */
  predicate Breaks(b: seq<Token>, t: Token) {
    t == I(ArithmeticOrLogic(LogicalNot)) && |b| >= 2 && b[|b| - 1].N?
  }

  /** The last token of a list, run. */
  lemma RunLast<T>(b: seq<Token>, s: seq<Word>, w: T, world: World<T>)
    requires b != []
    ensures var r := Run(b[..|b| - 1], s, w, world);
            Run(b, s, w, world) == if r.None? then None else Execute(b[|b| - 1], r.value.0, r.value.1, world)
  {
  }

  lemma FoldMeaning<T>(o: Op, n1: Word, n2: Word, s: seq<Word>, w: T, world: World<T>)
    requires CanFold(o) && Fold(o, n1, n2).Some?
    ensures Execute(I(ArithmeticOrLogic(o)), [n1] + ([n2] + s), w, world) == Some(([Fold(o, n1, n2).value] + s, w))
  {
    var t := [n1] + ([n2] + s);
    assert t[0] == n1 && t[1] == n2 && t[2..] == s;
    FoldIsAlu(o, n1, n2);
    AluValues(o, n1, n2, t);
  }

  lemma AluValues(o: Op, n1: Word, n2: Word, t: seq<Word>)
    requires CanFold(o) && |t| >= 2 && t[0] == n1 && t[1] == n2 && Alu(o, n2, n1).Some?
    ensures Values(t, ArithmeticOrLogic(o), 0) == Some([Alu(o, n2, n1).value] + t[2..])
  {
  }

  /** Folding is what the arithmetic unit does, when it does not leave 16 bits. */
  lemma FoldIsAlu(o: Op, n1: Word, n2: Word)
    requires CanFold(o) && Fold(o, n1, n2).Some?
    ensures Alu(o, n2, n1) == Fold(o, n1, n2)
  {
    if o != Add && o != Sub {
      GatesAreSymmetric(if o == LogicalAnd then Conjunction else if o == LogicalOr then Disjunction else Exclusive, n1, n2);
    }
  }

  /** The last two tokens are constants whose sum, or whose difference, does not fit 16 bits. */
  predicate Overflows(b: seq<Token>, t: Token) {
    var k := |b|;
    && k >= 2 && b[k - 1].N? && b[k - 2].N?
    && ((t == I(ArithmeticOrLogic(Add)) && b[k - 2].n + b[k - 1].n > 0xFFFF)
        || (t == I(ArithmeticOrLogic(Sub)) && b[k - 2].n < b[k - 1].n))
  }

  predicate StopsAt(tokens: seq<Token>, k: nat) {
    k < |tokens| && Optimised(tokens[..k]).Some? && Overflows(Optimised(tokens[..k]).value, tokens[k])
  }

  lemma NextStops(b: seq<Token>, t: Token)
    ensures Next(b, t).None? <==> Overflows(b, t)
  {
  }

  lemma StopsLater(tokens: seq<Token>, n: nat, k: nat)
    requires k < n <= |tokens|
    ensures StopsAt(tokens[..n], k) <==> StopsAt(tokens, k)
  {
    assert tokens[..n][..k] == tokens[..k];
  }

  /** The optimiser stops exactly where folding two constants would leave 16 bits. */
  lemma {:induction false} StopsExactly(tokens: seq<Token>)
    ensures Optimised(tokens).None? <==> exists k :: StopsAt(tokens, k)
  {
    if tokens == [] {
      assert forall k :: !StopsAt(tokens, k);
    } else {
      var n := |tokens| - 1;
      StopsExactly(tokens[..n]);
      if Optimised(tokens[..n]).None? {
        var k :| StopsAt(tokens[..n], k);
        StopsLater(tokens, n, k);
      } else {
        NextStops(Optimised(tokens[..n]).value, tokens[n]);
        assert Optimised(tokens).None? <==> StopsAt(tokens, n);
        forall k: nat | k < n ensures !StopsAt(tokens, k) {
          StopsLater(tokens, n, k);
        }
      }
    }
  }

  lemma {:induction false} GatesAreSymmetric(g: Gate, a: nat, b: nat)
    ensures Bitwise(g, a, b) == Bitwise(g, b, a)
    decreases a + b
  {
    if a > 0 || b > 0 { GatesAreSymmetric(g, a / 2, b / 2); }
  }

  /** Dropping what was just pushed, or swapping twice, changes nothing. */
  lemma CancelMeaning<T>(a: Token, t: Token, s: seq<Word>, w: T, world: World<T>)
    requires (t == I(Stack(Drop)) && (a.N? || a == I(Stack(Dup)))) || (t == I(Stack(Swap)) && a == t)
    ensures var r := Execute(a, s, w, world);
            r.Some? && Execute(t, r.value.0, r.value.1, world).Some? ==>
              Execute(t, r.value.0, r.value.1, world) == Some((s, w))
  {
    if a.N? {
      assert ([a.n] + s)[1..] == s;
    } else if a == I(Stack(Dup)) && |s| >= 1 {
      assert ([s[0]] + s)[1..] == s;
    } else if |s| >= 2 {
      assert [s[0], s[1]] + s[2..] == s && ([s[1], s[0]] + s[2..])[2..] == s[2..];
    }
  }

  /**
   * A step keeps the meaning of what has been read, wherever that runs, except when it breaks: then
   * it never does.
   */
  lemma StepExactly<T>(b: seq<Token>, t: Token, s: seq<Word>, w: T, world: World<T>)
    requires Next(b, t).Some? && Run(b + [t], s, w, world).Some?
    ensures Run(Next(b, t).value, s, w, world) == Run(b + [t], s, w, world) <==> !Breaks(b, t)
  {
    RunOneMore(b, t, s, w, world);
    var k := |b|;
    if t == I(Stack(Drop)) && k >= 1 && (b[k - 1].N? || b[k - 1] == I(Stack(Dup))) {
      RunLast(b, s, w, world);
      var r := Run(b[..k - 1], s, w, world).value;
      CancelMeaning(b[k - 1], t, r.0, r.1, world);
    } else if t == I(Stack(Swap)) && k >= 1 && b[k - 1] == t {
      RunLast(b, s, w, world);
      var r := Run(b[..k - 1], s, w, world).value;
      CancelMeaning(b[k - 1], t, r.0, r.1, world);
    } else if t.I? && t.instruction.ArithmeticOrLogic? && k >= 2 && b[k - 1].N? {
      AluExactly(b, t.instruction.op, s, w, world);
    }
  }

  lemma AluExactly<T>(b: seq<Token>, o: Op, s: seq<Word>, w: T, world: World<T>)
    requires |b| >= 2 && b[|b| - 1].N? && NextAlu(b, o).Some?
    requires Run(b + [I(ArithmeticOrLogic(o))], s, w, world).Some?
    ensures Run(NextAlu(b, o).value, s, w, world) == Run(b + [I(ArithmeticOrLogic(o))], s, w, world) <==> o != LogicalNot
  {
    var k, t := |b|, I(ArithmeticOrLogic(o));
    RunOneMore(b, t, s, w, world);
    RunLast(b, s, w, world);
    var n1 := b[k - 1].n;
    var r := Run(b[..k - 1], s, w, world).value;
    if b[k - 2].N? && CanFold(o) {
      RunLast(b[..k - 1], s, w, world);
      assert b[..k - 1][..k - 2] == b[..k - 2];
      var q := Run(b[..k - 2], s, w, world).value;
      FoldMeaning(o, n1, b[k - 2].n, q.0, q.1, world);
      RunOneMore(b[..k - 2], N(Fold(o, n1, b[k - 2].n).value), s, w, world);
    } else if o == LogicalNot {
      RunOneMore(b[..k - 1], N(Not(n1)), s, w, world);
      RunOneMore(b[..k - 1] + [N(Not(n1))], t, s, w, world);
      assert b[..k - 1] + [N(Not(n1))] + [t] == b[..k - 1] + [N(Not(n1)), t];
      NotTwice(n1, r.0, r.1, world);
    }
  }

  lemma NotTwice<T>(n: Word, s: seq<Word>, w: T, world: World<T>)
    ensures var t := I(ArithmeticOrLogic(LogicalNot));
            && Execute(t, [n] + s, w, world) == Some(([Not(n)] + s, w))
            && Execute(t, [Not(n)] + s, w, world) == Some(([n] + s, w))
            && [n] + s != [Not(n)] + s
  {
    assert ([n] + s)[1..] == s && ([Not(n)] + s)[1..] == s;
    assert ([n] + s)[0] != ([Not(n)] + s)[0];
  }

  /** No step of the optimiser breaks. */
  predicate NeverBreaks(tokens: seq<Token>) {
    tokens == [] ||
    (NeverBreaks(tokens[..|tokens| - 1]) && Optimised(tokens[..|tokens| - 1]).Some? &&
     !Breaks(Optimised(tokens[..|tokens| - 1]).value, tokens[|tokens| - 1]))
  }

  lemma {:induction false} WithoutNotNeverBreaks(tokens: seq<Token>)
    requires I(ArithmeticOrLogic(LogicalNot)) !in tokens && Optimised(tokens).Some?
    ensures NeverBreaks(tokens)
  {
    if tokens != [] {
      WithoutNotNeverBreaks(tokens[..|tokens| - 1]);
    }
  }

  /**
   * The optimised tokens leave the same stack, and do the same to the rest of the world, wherever the
   * original does not underflow, provided no step breaks.
   */
  lemma {:induction false} OptimisedMeansTheSame<T>(tokens: seq<Token>, s: seq<Word>, w: T, world: World<T>)
    requires Optimised(tokens).Some? && NeverBreaks(tokens) && Run(tokens, s, w, world).Some?
    ensures Run(Optimised(tokens).value, s, w, world) == Run(tokens, s, w, world)
  {
    if tokens != [] {
      var rest, t := tokens[..|tokens| - 1], tokens[|tokens| - 1];
      OptimisedMeansTheSame(rest, s, w, world);
      var b := Optimised(rest).value;
      RunOneMore(b, t, s, w, world);
      StepExactly(b, t, s, w, world);
    }
  }

  /** And the first step that breaks makes what has been read so far mean something else. */
  lemma FirstBreakShows<T>(tokens: seq<Token>, t: Token, s: seq<Word>, w: T, world: World<T>)
    requires Optimised(tokens).Some? && NeverBreaks(tokens) && Breaks(Optimised(tokens).value, t)
    requires Run(tokens + [t], s, w, world).Some?
    ensures Optimised(tokens + [t]).Some? && Run(Optimised(tokens + [t]).value, s, w, world) != Run(tokens + [t], s, w, world)
  {
    assert (tokens + [t])[..|tokens|] == tokens;
    RunOneMore(tokens, t, s, w, world);
    OptimisedMeansTheSame(tokens, s, w, world);
    RunOneMore(Optimised(tokens).value, t, s, w, world);
    StepExactly(Optimised(tokens).value, t, s, w, world);
  }

  /** A program that breaks: 1, 2, not. It leaves 0xFFFD on top of 1, and optimised 2. */
  lemma NegationBreaks<T>(s: seq<Word>, w: T, world: World<T>)
    ensures var t := I(ArithmeticOrLogic(LogicalNot));
            && Optimised([N(1), N(2), t]) == Some([N(1), N(0xFFFD), t])
            && Run([N(1), N(2), t], s, w, world) == Some(([0xFFFD, 1] + s, w))
            && Run([N(1), N(0xFFFD), t], s, w, world) == Some(([2, 1] + s, w))
  {
    var t := I(ArithmeticOrLogic(LogicalNot));
    var none: seq<Token> := [];
    OptimisedOneMore(none, N(1));
    OptimisedOneMore([N(1)], N(2));
    OptimisedOneMore([N(1), N(2)], t);
    assert none + [N(1)] == [N(1)] && [N(1)] + [N(2)] == [N(1), N(2)] && [N(1), N(2)] + [t] == [N(1), N(2), t];
    assert [N(1), N(2)][..1] == [N(1)] && [N(1)] + [N(0xFFFD), t] == [N(1), N(0xFFFD), t];
    assert Next([N(1), N(2)], t) == NextAlu([N(1), N(2)], LogicalNot) == Some([N(1)] + [N(0xFFFD), t]);
    TwoThenNot(2, s, w, world);
    TwoThenNot(0xFFFD, s, w, world);
  }

  lemma OptimisedOneMore(b: seq<Token>, t: Token)
    ensures Optimised(b + [t]) == if Optimised(b).None? then None else Next(Optimised(b).value, t)
  {
    assert (b + [t])[..|b|] == b;
  }

  lemma PushTwo<T>(n: Word, s: seq<Word>, w: T, world: World<T>)
    ensures Run([N(1), N(n)], s, w, world) == Some(([n] + ([1] + s), w))
  {
    var none: seq<Token> := [];
    RunOneMore(none, N(1), s, w, world);
    RunOneMore([N(1)], N(n), s, w, world);
    assert none + [N(1)] == [N(1)] && [N(1)] + [N(n)] == [N(1), N(n)];
  }

  lemma TwoThenNot<T>(n: Word, s: seq<Word>, w: T, world: World<T>)
    ensures Run([N(1), N(n), I(ArithmeticOrLogic(LogicalNot))], s, w, world) == Some(([Not(n), 1] + s, w))
  {
    var b, t := [N(1), N(n)], I(ArithmeticOrLogic(LogicalNot));
    PushTwo(n, s, w, world);
    NotTwice(n, [1] + s, w, world);
    RunOneMore(b, t, s, w, world);
    assert b + [t] == [N(1), N(n), t] && [Not(n)] + ([1] + s) == [Not(n), 1] + s;
  }

  // ----- what is left -----

  predicate Folding(o: Op) {
    o in {Add, Sub, LogicalAnd, LogicalOr, LogicalXor}
  }

  /** Two neighbours that cancel. */
  predicate Cancels(a: Token, b: Token) {
    (b == I(Stack(Drop)) && (a.N? || a == I(Stack(Dup)))) || (a == b == I(Stack(Swap)))
  }

  /** No two neighbours cancel, and no two constants stand before an operation that folds them. */
  predicate Tidy(b: seq<Token>) {
    && (forall k | 0 < k < |b| :: !Cancels(b[k - 1], b[k]))
    && forall k | 1 < k < |b| && b[k].I? && b[k].instruction.ArithmeticOrLogic? && Folding(b[k].instruction.op) ::
         !(b[k - 2].N? && b[k - 1].N?)
  }

  lemma TidyPrefix(b: seq<Token>, k: nat)
    requires Tidy(b) && k <= |b|
    ensures Tidy(b[..k])
  {
  }

  lemma OneMoreTidy(b: seq<Token>, t: Token)
    requires Tidy(b)
    requires b != [] ==> !Cancels(b[|b| - 1], t)
    requires |b| >= 2 && t.I? && t.instruction.ArithmeticOrLogic? && Folding(t.instruction.op) ==> !(b[|b| - 2].N? && b[|b| - 1].N?)
    ensures Tidy(b + [t])
  {
  }

  /** Nothing is left that the optimiser was to remove, and nothing has grown. */
  lemma {:induction false} OptimisedIsTidy(tokens: seq<Token>)
    requires Optimised(tokens).Some?
    ensures Tidy(Optimised(tokens).value) && |Optimised(tokens).value| <= |tokens|
  {
    if tokens != [] {
      OptimisedIsTidy(tokens[..|tokens| - 1]);
      NextIsTidy(Optimised(tokens[..|tokens| - 1]).value, tokens[|tokens| - 1]);
    }
  }

  lemma NextIsTidy(b: seq<Token>, t: Token)
    requires Tidy(b) && Next(b, t).Some?
    ensures Tidy(Next(b, t).value) && |Next(b, t).value| <= |b| + 1
  {
    var k := |b|;
    if k >= 1 && Cancels(b[k - 1], t) {
      TidyPrefix(b, k - 1);
    } else if t.I? && t.instruction.ArithmeticOrLogic? {
      AluIsTidy(b, t.instruction.op);
    } else {
      OneMoreTidy(b, t);
    }
  }

  lemma AluIsTidy(b: seq<Token>, o: Op)
    requires Tidy(b) && NextAlu(b, o).Some?
    ensures Tidy(NextAlu(b, o).value) && |NextAlu(b, o).value| <= |b| + 1
  {
    var k, t := |b|, I(ArithmeticOrLogic(o));
    if k >= 2 && b[k - 1].N? && b[k - 2].N? && CanFold(o) {
      TidyPrefix(b, k - 2);
      OneMoreTidy(b[..k - 2], N(Fold(o, b[k - 1].n, b[k - 2].n).value));
    } else if k >= 2 && b[k - 1].N? && o == LogicalNot {
      var n := N(Not(b[k - 1].n));
      TidyPrefix(b, k - 1);
      OneMoreTidy(b[..k - 1], n);
      OneMoreTidy(b[..k - 1] + [n], t);
      assert b[..k - 1] + [n] + [t] == b[..k - 1] + [n, t];
    } else {
      OneMoreTidy(b, t);
    }
  }
}
