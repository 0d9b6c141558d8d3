/**
 * What a process knows of its core. The flags stay with the core when the process leaves it, so a
 * process may rely on them only from the operation that set them to the next send, receive, yield or
 * end. A step that needs more than that is not settled: what it does depends on the core.
 */
module Threads {
  import opened Wrappers
  import opened Isa
  import opened StackMachine
  import opened WordMemory
  import opened Simulator
  import opened ProcessorModel
  import opened Scheduler
  import opened Net

  /** For each process, the flags it knows. */
  type Knowledge = seq<Maybe<Flags>>

  /** What a core may hold, as far as the process knows. */
  predicate Possible(t: Thread, r: Registers) {
    t.flags.Just? ==> r.flags == t.flags.value
  }

  predicate Alike(a: Ticked, b: Ticked) {
    if a.Did? then b.Did? && a.machine == b.machine && a.message == b.message else b.Failed?
  }

  /** The next step is the same on every core that the process may be on. */
  ghost predicate Settled(run: CoreFunction, t: Thread) {
    forall r, q | Possible(t, r) && Possible(t, q) :: Alike(run(r, t.machine), run(q, t.machine))
  }

  /** The step leaves the same flags on every core that the process may be on. */
  ghost predicate Sets(run: CoreFunction, t: Thread, f: Flags) {
    forall r | Possible(t, r) :: run(r, t.machine).Did? && run(r, t.machine).registers.flags == f
  }

  const CLEAR := Flags(false, false, false, false)

  function Guess(t: Thread): Registers {
    Registers(if t.flags.Just? then t.flags.value else CLEAR, false)
  }

  /** The step as far as it is settled; whoever meets another process, or stops, forgets the flags. */
  ghost function Follow(run: CoreFunction, t: Thread): Move {
    var d := run(Guess(t), t.machine);
    if d.Did? && Settled(run, t) then
      Moves(Thread(d.machine, if d.message.Nothing? && Sets(run, t, d.registers.flags) then Just(d.registers.flags) else Nobody),
            d.message)
    else Sticks
  }

  ghost function AsProgram(run: CoreFunction): Program {
    (t: Thread) => Follow(run, t)
  }

  /** A step that is settled is what happens on the core, and what it then knows is so there. */
  lemma FollowIsRight(run: CoreFunction, t: Thread, r: Registers)
    requires Possible(t, r)
    ensures var d, m := run(r, t.machine), Follow(run, t);
            && (m.Moves? <==> Settled(run, t) && d.Did?)
            && (m.Moves? ==> d.machine == m.thread.machine && d.message == m.message && Possible(m.thread, d.registers))
  {
    if Settled(run, t) {
      assert Alike(run(Guess(t), t.machine), run(r, t.machine));
    }
  }

  // ----- what the processes know during a run -----

  ghost predicate Runner(s: Sys, p: nat) {
    p < |s.machines| && p < |s.states| && s.states[p].Running?
  }

  /** Those who run know the flags of their core or nothing; the others know nothing. */
  ghost predicate Knows(s: Sys, known: Knowledge) {
    && |known| == |s.states|
    && forall p | 0 <= p < |known| && known[p].Just? ::
         s.states[p].Running? && s.states[p].core < |s.registers| && s.registers[s.states[p].core].flags == known[p].value
  }

  function Ignorant(s: Sys): Knowledge {
    seq(|s.states|, p => Nobody)
  }

  ghost function Learned(run: CoreFunction, s: Sys, known: Knowledge, p: nat): Maybe<Flags>
    requires p < |known|
  {
    if Runner(s, p) && Follow(run, Thread(s.machines[p], known[p])).Moves?
    then Follow(run, Thread(s.machines[p], known[p])).thread.flags
    else known[p]
  }

  /** What is known when the running processes have taken a step. */
  ghost function Learn(run: CoreFunction, s: Sys, known: Knowledge): (r: Knowledge)
    ensures |r| == |known| && forall p | 0 <= p < |r| :: r[p] == Learned(run, s, known, p)
  {
    seq(|known|, p requires 0 <= p < |known| => Learned(run, s, known, p))
  }

  /** Every process that runs has a settled step before it. */
  ghost predicate AllSettled(run: CoreFunction, s: Sys, known: Knowledge) {
    forall p | 0 <= p < |known| && Runner(s, p) :: Settled(run, Thread(s.machines[p], known[p]))
  }

  /** The same processes on the same cores, with other registers where nobody knows the flags. */
  ghost predicate Indistinct(s: Sys, t: Sys, known: Knowledge) {
    t == s.(registers := t.registers) && |t.registers| == |s.registers| && Knows(t, known)
  }

  /** The process's step from `t` is its step from `s`. */
  ghost predicate SameStep(run: CoreFunction, s: Sys, t: Sys, p: nat)
    requires Runner(s, p)
  {
    var c := s.states[p].core;
    c < |s.registers| && c < |t.registers| && Alike(run(s.registers[c], s.machines[p]), run(t.registers[c], s.machines[p]))
  }

  lemma OtherRegisters(s: Sys, known: Knowledge, p: nat, r: Registers) returns (t: Sys)
    requires Agrees(s) && Knows(s, known) && p < |known| && Runner(s, p) && Possible(Thread(s.machines[p], known[p]), r)
    ensures s.states[p].core < |s.registers| && t == s.(registers := s.registers[s.states[p].core := r]) && Indistinct(s, t, known)
  {
    var c := s.states[p].core;
    assert On(s.running, p, c);
    t := s.(registers := s.registers[c := r]);
    forall q | 0 <= q < |known| && known[q].Just? ensures t.registers[s.states[q].core].flags == known[q].value {
      assert On(s.running, q, s.states[q].core);
    }
  }

  /** The steps of a tick are settled exactly when no system its processes cannot tell from it steps otherwise. */
  lemma SettledTickExactly(run: CoreFunction, s: Sys, known: Knowledge)
    requires Agrees(s) && Knows(s, known)
    ensures AllSettled(run, s, known) <==> forall t, p: nat | Indistinct(s, t, known) && Runner(s, p) :: SameStep(run, s, t, p)
  {
    if AllSettled(run, s, known) {
      forall t, p: nat | Indistinct(s, t, known) && Runner(s, p) ensures SameStep(run, s, t, p) {
        assert On(s.running, p, s.states[p].core) && Settled(run, Thread(s.machines[p], known[p]));
      }
    }
    if forall t, p: nat | Indistinct(s, t, known) && Runner(s, p) :: SameStep(run, s, t, p) {
      forall p | 0 <= p < |known| && Runner(s, p) ensures Settled(run, Thread(s.machines[p], known[p])) {
        var x := Thread(s.machines[p], known[p]);
        forall r, q | Possible(x, r) && Possible(x, q) ensures Alike(run(r, x.machine), run(q, x.machine)) {
          var t := OtherRegisters(s, known, p, r);
          var u := OtherRegisters(s, known, p, q);
          assert SameStep(run, s, t, p) && SameStep(run, s, u, p);
        }
      }
    }
  }

  // ----- the simulator's own core -----

  function CoreOf(code: Memory): CoreFunction {
    (r: Registers, m: Machine) => Tick(code, r, m)
  }

  /**
   * The next instruction is a conditional jump that pops a target other than the address behind it,
   * with flags the process does not know; or a disable, which depends on what the core last received.
   */
  predicate LooksAtCore(code: Memory, t: Thread) {
    var f, s := Fetch(code, t.machine.pc), t.machine.stack;
    f.Some? &&
    match f.value.0
    case Jump(c) => c != Always && c != Never && t.flags == Nobody && s != [] && s[0] != Wrap(t.machine.pc + 1)
    case Process(DisableChannel) => |s| >= 2
    case _ => false
  }

  /** Some flags let a conditional jump through, and others do not. */
  lemma FlagsMatter(c: Condition) returns (f: Flags, g: Flags)
    requires c != Always && c != Never
    ensures Matches(f, c) && !Matches(g, c)
  {
    var each := [CLEAR, CLEAR.(zero := true), CLEAR.(overflow := true), CLEAR.(sign := true), CLEAR.(carry := true)];
    if Matches(CLEAR, c) {
      f := CLEAR;
      g := if c == NotZeroNotEqual || c == UnsignedGreater || c == SignedGreater then each[1]
           else if c == NoOverflow then each[2]
           else if c == NonNegative || c == SignedGreaterOrEqual then each[3]
           else each[4];
    } else {
      g := CLEAR;
      f := if c == ZeroEqual then each[1] else if c == Overflow then each[2]
           else if c == Negative || c == SignedLess || c == SignedLessOrEqual then each[3] else each[4];
    }
  }

  lemma SameOnAllCores(code: Memory, t: Thread, r: Registers, q: Registers)
    requires !LooksAtCore(code, t) && Possible(t, r) && Possible(t, q)
    ensures Alike(Tick(code, r, t.machine), Tick(code, q, t.machine))
  {
    var f := Fetch(code, t.machine.pc);
    if f.Some? {
      var i, next, m := f.value.0, f.value.1, t.machine;
      if i.Jump? {
        SameJump(i.condition, next, t, r, q);
      } else if i.Process? {
        assert i == Process(i.process) && (i.process == DisableChannel ==> |m.stack| < 2);
      }
    }
  }

  lemma SameJump(c: Condition, next: Byte, t: Thread, r: Registers, q: Registers)
    requires Possible(t, r) && Possible(t, q)
    requires c == Always || c == Never || t.flags.Just? || t.machine.stack == [] || t.machine.stack[0] == Wrap(t.machine.pc + 1)
    ensures Alike(Execute(r, t.machine, Jump(c), next), Execute(q, t.machine, Jump(c), next))
  {
    if c == Always {
      assert Matches(r.flags, Always) && Matches(q.flags, Always);
    }
  }

  lemma DiffersBetweenCores(code: Memory, t: Thread) returns (r: Registers, q: Registers)
    requires LooksAtCore(code, t)
    ensures Possible(t, r) && Possible(t, q) && !Alike(Tick(code, r, t.machine), Tick(code, q, t.machine))
  {
    var i := Fetch(code, t.machine.pc).value.0;
    if i.Jump? {
      var f, g := FlagsMatter(i.condition);
      r, q := Registers(f, false), Registers(g, false);
    } else {
      r, q := Guess(t).(hasAlternationValue := true), Guess(t);
    }
  }

  /** A step of the simulator is settled exactly when it does not look at what the process does not know. */
  lemma SettledExactly(code: Memory, t: Thread)
    ensures Settled(CoreOf(code), t) <==> !LooksAtCore(code, t)
  {
    if LooksAtCore(code, t) {
      var r, q := DiffersBetweenCores(code, t);
      assert !Alike(CoreOf(code)(r, t.machine), CoreOf(code)(q, t.machine));
    } else {
      forall r, q | Possible(t, r) && Possible(t, q) ensures Alike(CoreOf(code)(r, t.machine), CoreOf(code)(q, t.machine)) {
        SameOnAllCores(code, t, r, q);
      }
    }
  }

  /**
   * After an arithmetic or logic operation the process knows the flags; it keeps what it knows over
   * everything else but what involves the processor. So a compare settles the jumps behind it.
   */
  lemma KnownExactly(code: Memory, t: Thread)
    requires Follow(CoreOf(code), t).Moves?
    ensures var m, i, s := Follow(CoreOf(code), t), Fetch(code, t.machine.pc).value.0, t.machine.stack;
            && Fetch(code, t.machine.pc).Some?
            && m.thread.flags == if !m.message.Nothing? then Nobody
                                 else if i.ArithmeticOrLogic? then Just(AluFlags(i.op, if |s| >= 2 then s[1] else 0, s[0]))
                                 else t.flags
  {
    var g, i := Guess(t), Fetch(code, t.machine.pc).value.0;
    var d := Tick(code, g, t.machine);
    if d.message.Nothing? {
      forall r | Possible(t, r)
        ensures var e := CoreOf(code)(r, t.machine); e.Did? && e.registers.flags == NewFlags(r.flags, t.machine.stack, i)
      {
        FollowIsRight(CoreOf(code), t, r);
      }
      if !i.ArithmeticOrLogic? && t.flags == Nobody {
        var q := Registers(CLEAR.(zero := true), false);
        assert CoreOf(code)(q, t.machine).registers.flags != CoreOf(code)(g, t.machine).registers.flags;
      }
    }
  }

  /** So a compare settles the jump behind it, on whatever core, and whatever is pushed in between. */
  lemma OperationSettlesJump(code: Memory, t: Thread)
    requires Follow(CoreOf(code), t).Moves?
    ensures var next, i := Follow(CoreOf(code), t).thread, Fetch(code, t.machine.pc).value.0;
            && Fetch(code, t.machine.pc).Some?
            && (i.ArithmeticOrLogic? || (t.flags.Just? && StraightLine(i)) ==> next.flags.Just?)
            && (next.flags.Just? && Fetch(code, next.machine.pc).Some? && Fetch(code, next.machine.pc).value.0.Jump? ==>
                  Settled(CoreOf(code), next))
  {
    KnownExactly(code, t);
    SettledExactly(code, Follow(CoreOf(code), t).thread);
  }
}
