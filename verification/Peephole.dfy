/**
 * The assembler's peephole optimiser: instructions join a buffer one by one, and the end of the
 * buffer is rewritten for as long as a rule applies.
 */
module Peephole {
  import opened Wrappers
  import opened Isa
  import opened StackMachine

  /** The four rules for a small push and the instruction after it. */
  function Fuse(i: Byte, last: Instruction): Option<seq<Instruction>> {
    if last == ArithmeticOrLogic(Add) then Some([AddSmall(i)])
    else if last == ReadLocal then Some([ReadLocalOffset(i)])
    else if last == WriteLocal then Some([WriteLocalOffset(i)])
    else if last.AddSmall? then Some(EncodePush(i + last.n))
    else None
  }

  /** One rewriting of the end of the buffer; adding zero goes first. */
  function Rewrite(buffer: seq<Instruction>): Option<seq<Instruction>> {
    var n := |buffer|;
    if n >= 1 && buffer[n - 1] == AddSmall(0) then Some(buffer[..n - 1])
    else if n >= 2 && buffer[n - 2].PushSmall? then
      var fused :- Fuse(buffer[n - 2].n, buffer[n - 1]);
      Some(buffer[..n - 2] + fused)
    else None
  }

  // ----- the rewriting ends -----

  function Weight(code: seq<Instruction>): nat {
    if code == [] then 0 else Weight(code[..|code| - 1]) + WeightOf(code[|code| - 1])
  }

  function WeightOf(i: Instruction): nat {
    if i.PushSmall? || i.AddSmall? || i == ArithmeticOrLogic(Add) then 1 else 0
  }

  lemma {:induction false} WeightSum(a: seq<Instruction>, b: seq<Instruction>)
    ensures Weight(a + b) == Weight(a) + Weight(b)
  {
    if b == [] {
      assert a + b == a;
    } else {
      WeightSum(a, b[..|b| - 1]);
      assert (a + b)[..|a + b| - 1] == a + b[..|b| - 1];
    }
  }

  /** Every rewriting makes the buffer lighter. */
  lemma RewriteIsLighter(buffer: seq<Instruction>)
    requires Rewrite(buffer).Some?
    ensures Weight(Rewrite(buffer).value) < Weight(buffer)
  {
    var n := |buffer|;
    if buffer[n - 1] != AddSmall(0) {
      var fused := Fuse(buffer[n - 2].n, buffer[n - 1]).value;
      WeightSum(buffer[..n - 2], fused);
      assert buffer[..n - 1][..n - 2] == buffer[..n - 2];
      FusedWeight(buffer[n - 2].n, buffer[n - 1]);
    }
  }

  lemma FusedWeight(i: Byte, last: Instruction)
    requires Fuse(i, last).Some? && last != AddSmall(0)
    ensures Weight(Fuse(i, last).value) < 1 + WeightOf(last)
  {
    var fused := Fuse(i, last).value;
    assert |fused| <= 2;
    assert fused[..|fused| - 1] == if |fused| == 1 then [] else [fused[0]];
    assert |fused| == 2 ==> [fused[0]][..0] == [] && Weight([fused[0]]) == 0;
  }

  function Reduce(buffer: seq<Instruction>): seq<Instruction>
    decreases Weight(buffer)
  {
    if Rewrite(buffer).None? then buffer
    else
      RewriteIsLighter(buffer);
      Reduce(Rewrite(buffer).value)
  }

  function Optimised(code: seq<Instruction>): seq<Instruction> {
    if code == [] then [] else Reduce(Optimised(code[..|code| - 1]) + [code[|code| - 1]])
  }

  /** One turn of the inner loop. */
  method TryOptimise(buffer: seq<Instruction>) returns (next: seq<Instruction>, didOptimise: bool)
    ensures didOptimise == Rewrite(buffer).Some? && next == if didOptimise then Rewrite(buffer).value else buffer
  {
    var n := |buffer|;
    next, didOptimise := buffer, false;
    if n >= 1 && buffer[n - 1] == AddSmall(0) {
      next, didOptimise := buffer[..n - 1], true;
    }
    if !didOptimise && n >= 2 && buffer[n - 2].PushSmall? {
      var i, last := buffer[n - 2].n, buffer[n - 1];
      didOptimise := true;
      if last == ArithmeticOrLogic(Add) {
        next := buffer[..n - 2] + [AddSmall(i)];
      } else if last == ReadLocal {
        next := buffer[..n - 2] + [ReadLocalOffset(i)];
      } else if last == WriteLocal {
        next := buffer[..n - 2] + [WriteLocalOffset(i)];
      } else if last.AddSmall? {
        next := buffer[..n - 2] + EncodePush(i + last.n);
      } else {
        didOptimise := false;
      }
    }
  }

  /** The optimiser: a deque, and two nested loops. */
  method PeepholeOptimise(code: seq<Instruction>) returns (res: seq<Instruction>)
    ensures res == Optimised(code)
  {
    var buffer: seq<Instruction> := [];
    for k := 0 to |code|
      invariant buffer == Optimised(code[..k])
    {
      assert code[..k + 1][..k] == code[..k];
      buffer := buffer + [code[k]];
      ghost var start := buffer;
      var tryOptimise := true;
      while tryOptimise
        invariant Reduce(buffer) == Reduce(start)
        invariant !tryOptimise ==> Rewrite(buffer).None?
        decreases Weight(buffer), tryOptimise
      {
        if Rewrite(buffer).Some? {
          RewriteIsLighter(buffer);
        }
        buffer, tryOptimise := TryOptimise(buffer);
      }
    }
    assert code[..|code|] == code;
    res := [];
    while buffer != []
      invariant res + buffer == Optimised(code)
      decreases |buffer|
    {
      res, buffer := res + [buffer[0]], buffer[1..];
    }
  }

  // ----- what is kept: the meaning -----

  /** What an instruction outside the straight line does to the value stack and to the rest of the world. */
  type Other<!T> = (Instruction, seq<Word>, T) -> Option<(seq<Word>, T)>

  /** An instruction takes the byte after it along exactly when it is two bytes long. */
  predicate Prefix(i: Instruction) {
    i.PushNextLower? || i.PushNextUpper?
  }

  /** Runs a list; a raw byte only counts behind its prefix. */
  function Run<T>(code: seq<Instruction>, s: seq<Word>, w: T, other: Other<T>): Option<(seq<Word>, T)>
    decreases |code|
  {
    if code == [] then Some((s, w))
    else if Prefix(code[0]) then
      if |code| >= 2 && code[1].Raw? then
        var t :- Values(s, code[0], code[1].n);
        Run(code[2..], t, w, other)
      else None
    else if StraightLine(code[0]) then
      var t :- Values(s, code[0], 0);
      Run(code[1..], t, w, other)
    else if code[0].Raw? then None
    else
      var (t, v) :- other(code[0], s, w);
      Run(code[1..], t, v, other)
  }

  /** Every raw byte stands behind a prefix, every prefix before a raw byte, and all can be encoded. */
  predicate WellFormed(code: seq<Instruction>)
    decreases |code|
  {
    if code == [] then true
    else if code[0].Raw? then false
    else if Prefix(code[0]) then |code| >= 2 && code[1].Raw? && Encode(code[0]).Some? && WellFormed(code[2..])
    else Encode(code[0]).Some? && WellFormed(code[1..])
  }

  lemma {:induction false} WellFormedAppend(a: seq<Instruction>, b: seq<Instruction>)
    requires WellFormed(a)
    ensures WellFormed(a + b) == WellFormed(b)
    decreases |a|
  {
    if a == [] {
      assert a + b == b;
    } else {
      var k := if Prefix(a[0]) then 2 else 1;
      WellFormedAppend(a[k..], b);
      assert (a + b)[k..] == a[k..] + b && (a + b)[0] == a[0];
    }
  }

  lemma {:induction false} RunAppend<T>(a: seq<Instruction>, b: seq<Instruction>, s: seq<Word>, w: T, other: Other<T>)
    requires WellFormed(a)
    ensures Run(a + b, s, w, other) ==
            var r := Run(a, s, w, other);
            if r.None? then None else Run(b, r.value.0, r.value.1, other)
    decreases |a|
  {
    if a == [] {
      assert a + b == b;
    } else {
      var k := if Prefix(a[0]) then 2 else 1;
      assert (a + b)[k..] == a[k..] + b && (a + b)[0] == a[0] && (k == 2 ==> (a + b)[1] == a[1]);
      if StraightLine(a[0]) {
        var t := Values(s, a[0], if k == 2 then a[1].n else 0);
        if t.Some? { RunAppend(a[k..], b, t.value, w, other); }
      } else {
        var t := other(a[0], s, w);
        if t.Some? { RunAppend(a[k..], b, t.value.0, t.value.1, other); }
      }
    }
  }

  /** A well-formed list ends with a whole instruction. */
  lemma {:induction false} LastInstruction(code: seq<Instruction>)
    requires WellFormed(code) && code != []
    ensures var n := |code|;
            if code[n - 1].Raw? then n >= 2 && Prefix(code[n - 2]) && WellFormed(code[..n - 2]) && WellFormed([code[n - 2], code[n - 1]])
            else WellFormed(code[..n - 1]) && WellFormed([code[n - 1]])
    decreases |code|
  {
    var n, k := |code|, if Prefix(code[0]) then 2 else 1;
    if n > k {
      LastInstruction(code[k..]);
      var m := if code[n - 1].Raw? then n - 2 else n - 1;
      assert code[..m] == code[..k] + code[k..][..m - k];
      HeadIsWhole(code, k);
      WellFormedAppend(code[..k], code[k..][..m - k]);
      assert code[k..][..|code[k..]| - (n - m)] == code[k..][..m - k];
    } else {
      assert code[..0] == [];
      assert n == 2 ==> code == [code[0], code[1]];
      assert n == 1 ==> code == [code[0]];
    }
  }

  lemma HeadIsWhole(code: seq<Instruction>, k: nat)
    requires WellFormed(code) && code != [] && k == if Prefix(code[0]) then 2 else 1
    ensures k <= |code| && WellFormed(code[..k])
  {
    assert code[..k][k..] == [];
  }

  /** Fused instructions are well formed and do what the pair did. */
  lemma FuseKeeps<T>(i: Byte, last: Instruction, s: seq<Word>, w: T, other: Other<T>)
    requires Fuse(i, last).Some? && WellFormed([PushSmall(i)]) && WellFormed([last])
    ensures WellFormed(Fuse(i, last).value)
    ensures Run([PushSmall(i)] + [last], s, w, other) == Run(Fuse(i, last).value, s, w, other)
  {
    var fused := Fuse(i, last).value;
    assert ([PushSmall(i)] + [last])[1..] == [last] && [last][1..] == [];
    assert fused[|fused|..] == [];
    assert ([i] + s)[1..] == s;
    if last == ArithmeticOrLogic(Add) {
      AddMeaning(i, s);
    } else if last == WriteLocal {
      WriteMeaning(i, s);
    } else if last == ReadLocal {
      ReadMeaning(i, s);
    } else {
      assert last == AddSmall(last.n) && last.n < 16;
      AddSmallMeaning(i, last.n, s);
    }
  }

  lemma AddMeaning(i: Byte, s: seq<Word>)
    ensures Values([i] + s, ArithmeticOrLogic(Add), 0) == Values(s, AddSmall(i), 0)
  {
    assert |s| >= 1 ==> ([i] + s)[2..] == s[1..];
  }

  lemma ReadMeaning(i: Byte, s: seq<Word>)
    ensures Values([i] + s, ReadLocal, 0) == Values(s, ReadLocalOffset(i), 0)
  {
    assert ([i] + s)[1..] == s;
  }

  lemma WriteMeaning(i: Byte, s: seq<Word>)
    ensures Values([i] + s, WriteLocal, 0) == Values(s, WriteLocalOffset(i), 0)
  {
    assert |s| >= 1 ==> ([i] + s)[2..] == s[1..];
  }

  lemma AddSmallMeaning(i: Byte, j: Byte, s: seq<Word>)
    requires i < 16 && j < 16
    ensures Values([i] + s, AddSmall(j), 0) == Some([i + j] + s)
    ensures var p := EncodePush(i + j);
            if |p| == 1 then p[0].PushSmall? && Values(s, p[0], 0) == Some([i + j] + s)
            else |p| == 2 && Prefix(p[0]) && p[1].Raw? && Values(s, p[0], p[1].n) == Some([i + j] + s)
  {
    assert ([i] + s)[1..] == s;
  }

  /** A rewriting keeps the buffer well formed, and does what it did wherever that did something. */
  lemma RewriteKeeps<T>(buffer: seq<Instruction>, s: seq<Word>, w: T, other: Other<T>)
    requires WellFormed(buffer) && Rewrite(buffer).Some?
    ensures WellFormed(Rewrite(buffer).value)
    ensures Run(buffer, s, w, other).Some? ==> Run(Rewrite(buffer).value, s, w, other) == Run(buffer, s, w, other)
  {
    var n := |buffer|;
    LastInstruction(buffer);
    var last, a := buffer[n - 1], buffer[..n - 1];
    RunAppend(a, [last], s, w, other);
    assert a + [last] == buffer;
    if last == AddSmall(0) {
      AddingZero(Run(a, s, w, other), w, other);
    } else {
      LastInstruction(a);
      var i, b, fused := a[n - 2].n, a[..n - 2], Fuse(a[n - 2].n, last).value;
      assert b == buffer[..n - 2] && buffer == b + ([PushSmall(i)] + [last]);
      RunAppend(b, [PushSmall(i)] + [last], s, w, other);
      RunAppend(b, fused, s, w, other);
      var r := Run(b, s, w, other);
      FuseKeeps(i, last, s, w, other);
      if r.Some? { FuseKeeps(i, last, r.value.0, r.value.1, other); }
      WellFormedAppend(b, fused);
    }
  }

  lemma AddingZero<T>(r: Option<(seq<Word>, T)>, w: T, other: Other<T>)
    ensures r.Some? && Run([AddSmall(0)], r.value.0, r.value.1, other).Some? ==>
              Run([AddSmall(0)], r.value.0, r.value.1, other) == r
  {
    if r.Some? && r.value.0 != [] {
      var s := r.value.0;
      assert [s[0]] + s[1..] == s && [AddSmall(0)][1..] == [];
    }
  }

  lemma {:induction false} ReduceKeeps<T>(buffer: seq<Instruction>, s: seq<Word>, w: T, other: Other<T>)
    requires WellFormed(buffer)
    ensures WellFormed(Reduce(buffer))
    ensures Run(buffer, s, w, other).Some? ==> Run(Reduce(buffer), s, w, other) == Run(buffer, s, w, other)
    decreases Weight(buffer)
  {
    if Rewrite(buffer).Some? {
      RewriteIsLighter(buffer);
      RewriteKeeps(buffer, s, w, other);
      ReduceKeeps(Rewrite(buffer).value, s, w, other);
    }
  }

  lemma Joins(code: seq<Instruction>)
    requires code != [] && Rewrite(Optimised(code[..|code| - 1]) + [code[|code| - 1]]).None?
    ensures Optimised(code) == Optimised(code[..|code| - 1]) + [code[|code| - 1]]
  {
  }

  lemma NothingToRewrite(b: seq<Instruction>, p: Instruction, r: Instruction)
    requires Prefix(p) && r.Raw?
    ensures Rewrite(b + [p]).None? && Rewrite(b + [p] + [r]).None?
  {
  }

  /** A prefix and its raw byte join the buffer untouched. */
  lemma LongPushJoins(rest: seq<Instruction>, p: Instruction, r: Instruction)
    requires Prefix(p) && r.Raw?
    ensures Optimised(rest + [p, r]) == Optimised(rest) + [p, r]
  {
    NothingToRewrite(Optimised(rest), p, r);
    assert (rest + [p])[..|rest|] == rest;
    Joins(rest + [p]);
    assert (rest + [p, r])[..|rest| + 1] == rest + [p];
    Joins(rest + [p, r]);
    assert Optimised(rest) + [p] + [r] == Optimised(rest) + [p, r];
  }

  /** The last instruction of a list, once the list before it is optimised to `done`. */
  lemma LastJoins<T>(rest: seq<Instruction>, last: seq<Instruction>, done: seq<Instruction>, s: seq<Word>, w: T, other: Other<T>)
    requires WellFormed(rest) && WellFormed(last) && WellFormed(done)
    requires Run(rest, s, w, other).Some? ==> Run(done, s, w, other) == Run(rest, s, w, other)
    ensures WellFormed(done + last)
    ensures Run(rest + last, s, w, other).Some? ==> Run(done + last, s, w, other) == Run(rest + last, s, w, other)
  {
    WellFormedAppend(done, last);
    RunAppend(rest, last, s, w, other);
    RunAppend(done, last, s, w, other);
  }

  /**
   * The optimised list is well formed, so every raw byte is still next to its prefix; and wherever the
   * original list ran, it leaves the same value stack and does the same to the world, whatever the
   * instructions outside the straight line do with either.
   */
  lemma {:induction false} OptimisedMeansTheSame<T>(code: seq<Instruction>, s: seq<Word>, w: T, other: Other<T>)
    requires WellFormed(code)
    ensures WellFormed(Optimised(code))
    ensures Run(code, s, w, other).Some? ==> Run(Optimised(code), s, w, other) == Run(code, s, w, other)
    decreases |code|
  {
    if code != [] {
      var n := |code|;
      LastInstruction(code);
      if code[n - 1].Raw? {
        var rest, last := code[..n - 2], [code[n - 2], code[n - 1]];
        assert code == rest + last;
        OptimisedMeansTheSame(rest, s, w, other);
        LastJoins(rest, last, Optimised(rest), s, w, other);
        LongPushJoins(rest, code[n - 2], code[n - 1]);
      } else {
        var rest, last := code[..n - 1], [code[n - 1]];
        assert code == rest + last;
        OptimisedMeansTheSame(rest, s, w, other);
        LastJoins(rest, last, Optimised(rest), s, w, other);
        ReduceKeeps(Optimised(rest) + last, s, w, other);
      }
    }
  }

  /** The one difference a rewriting can make: adding zero to an empty stack is an error, and goes away. */
  lemma RewriteExactly<T>(buffer: seq<Instruction>, s: seq<Word>, w: T, other: Other<T>)
    requires WellFormed(buffer) && Rewrite(buffer).Some?
    ensures var n := |buffer|;
            Run(Rewrite(buffer).value, s, w, other) == Run(buffer, s, w, other) <==>
            !(buffer[n - 1] == AddSmall(0) && Run(buffer[..n - 1], s, w, other).Some? && Run(buffer[..n - 1], s, w, other).value.0 == [])
  {
    var n := |buffer|;
    LastInstruction(buffer);
    var last, a := buffer[n - 1], buffer[..n - 1];
    RunAppend(a, [last], s, w, other);
    assert a + [last] == buffer;
    if last == AddSmall(0) {
      AddingZero(Run(a, s, w, other), w, other);
    } else {
      LastInstruction(a);
      var i, b, fused := a[n - 2].n, a[..n - 2], Fuse(a[n - 2].n, last).value;
      assert b == buffer[..n - 2] && buffer == b + ([PushSmall(i)] + [last]);
      RunAppend(b, [PushSmall(i)] + [last], s, w, other);
      RunAppend(b, fused, s, w, other);
      var r := Run(b, s, w, other);
      if r.Some? { FuseKeeps(i, last, r.value.0, r.value.1, other); }
    }
  }

  // ----- what is left: nothing to rewrite -----

  /** No rule applies anywhere. */
  ghost predicate Normal(code: seq<Instruction>) {
    forall k | 0 <= k <= |code| :: Rewrite(code[..k]).None?
  }

  lemma {:induction false} ReduceIsNormal(buffer: seq<Instruction>)
    requires forall k | 0 <= k < |buffer| :: Rewrite(buffer[..k]).None?
    ensures Normal(Reduce(buffer))
    decreases Weight(buffer)
  {
    assert buffer[..|buffer|] == buffer;
    if Rewrite(buffer).Some? {
      RewriteIsLighter(buffer);
      var next := Rewrite(buffer).value;
      forall k | 0 <= k < |next| ensures Rewrite(next[..k]).None? {
        PrefixesStayNormal(buffer, next, k);
      }
      ReduceIsNormal(next);
    }
  }

  lemma PrefixesStayNormal(buffer: seq<Instruction>, next: seq<Instruction>, k: nat)
    requires (forall j | 0 <= j < |buffer| :: Rewrite(buffer[..j]).None?) && Rewrite(buffer) == Some(next) && k < |next|
    ensures Rewrite(next[..k]).None?
  {
    var n := |buffer|;
    if k <= n - 2 || buffer[n - 1] == AddSmall(0) {
      assert next[..k] == buffer[..k];
    } else {
      assert next[..k][k - 1] == next[k - 1] && Prefix(next[k - 1]);
    }
  }

  lemma {:induction false} OptimisedIsNormal(code: seq<Instruction>)
    ensures Normal(Optimised(code))
  {
    if code != [] {
      var b, last := Optimised(code[..|code| - 1]), code[|code| - 1];
      OptimisedIsNormal(code[..|code| - 1]);
      forall k | 0 <= k < |b + [last]| ensures Rewrite((b + [last])[..k]).None? {
        assert (b + [last])[..k] == b[..k];
      }
      ReduceIsNormal(b + [last]);
    }
  }

  lemma {:induction false} NormalIsKept(code: seq<Instruction>)
    requires Normal(code)
    ensures Optimised(code) == code
    decreases |code|
  {
    if code != [] {
      var rest := code[..|code| - 1];
      forall k | 0 <= k <= |rest| ensures Rewrite(rest[..k]).None? {
        assert rest[..k] == code[..k];
      }
      NormalIsKept(rest);
      assert rest + [code[|code| - 1]] == code == code[..|code|];
    }
  }

  /** Optimising twice is optimising once. */
  lemma OptimisedOnceIsEnough(code: seq<Instruction>)
    ensures Optimised(Optimised(code)) == Optimised(code)
  {
    OptimisedIsNormal(code);
    NormalIsKept(Optimised(code));
  }

  /** A small push and what the core can do with it at once. */
  predicate Fusible(a: Instruction, b: Instruction) {
    a.PushSmall? && (b == ArithmeticOrLogic(Add) || b == ReadLocal || b == WriteLocal || b.AddSmall?)
  }

  /** No addition of zero, and no such pair of neighbours. */
  predicate Compact(code: seq<Instruction>) {
    && (forall k | 0 <= k < |code| :: code[k] != AddSmall(0))
    && forall k | 0 < k < |code| :: !Fusible(code[k - 1], code[k])
  }

  lemma LastIsCompact(code: seq<Instruction>)
    requires code != []
    ensures Rewrite(code).None? <==>
            code[|code| - 1] != AddSmall(0) && (|code| >= 2 ==> !Fusible(code[|code| - 2], code[|code| - 1]))
  {
  }

  /** The rules apply nowhere exactly when the list is compact. */
  lemma NormalExactly(code: seq<Instruction>)
    ensures Normal(code) <==> Compact(code)
  {
    if Normal(code) {
      forall k | 0 <= k < |code| ensures code[k] != AddSmall(0) && (k > 0 ==> !Fusible(code[k - 1], code[k])) {
        assert Rewrite(code[..k + 1]).None?;
        LastIsCompact(code[..k + 1]);
      }
    }
    if Compact(code) {
      forall k | 0 <= k <= |code| ensures Rewrite(code[..k]).None? {
        if k > 0 { LastIsCompact(code[..k]); }
      }
    }
  }

  /** What the optimiser leaves is compact, and what is compact it leaves. */
  lemma OptimisedIsCompact(code: seq<Instruction>)
    ensures Compact(Optimised(code))
    ensures Optimised(code) == code <==> Compact(code)
  {
    OptimisedIsNormal(code);
    NormalExactly(Optimised(code));
    NormalExactly(code);
    if Compact(code) { NormalIsKept(code); }
  }
}
