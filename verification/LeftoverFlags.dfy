/**
 * Why a process must not jump on flags that another has left on its core. Two systems of two cores
 * differ only in which process is on which core; both halt; one ends with a word on a stack, the other
 * without.
 */
module LeftoverFlags {
  import opened Wrappers
  import opened Isa
  import opened StackMachine
  import opened WordMemory
  import opened Simulator
  import opened ProcessorModel
  import opened Scheduler
  import opened Rendezvous
  import opened Net
  import opened Threads
  import opened Interleaving
  import opened Independence

  // ----- ticks in which processes compute and end -----

  predicate Quiet(m: Maybe<Message>) {
    m == Nobody || m == Just(Nothing) || m == Just(Halt)
  }

  /** The tasks of the first `k` cores: who ends is destroyed. */
  function Endings(s: Sys, ms: Messages, k: nat): seq<Task>
    requires k <= |ms| && forall c | 0 <= c < |ms| :: ms[c].Just? ==> c in s.running
  {
    if k == 0 then [] else Endings(s, ms, k - 1) + if ms[k - 1] == Just(Halt) then [Destroy(s.running[k - 1])] else []
  }

  lemma {:induction false} QuietMessages(s: Sys, ms: Messages, k: nat)
    requires Shaped(s) && k <= |ms| == s.cores && forall c | 0 <= c < |ms| :: ms[c].Just? <==> c in s.running
    requires forall c | 0 <= c < |ms| :: Quiet(ms[c])
    ensures var r := HandleCores(s, ms, k);
            && r.Done? && r.value.sys == s && r.value.tasks == Endings(s, ms, k)
            && forall c | 0 <= c < k :: r.value.replies[c] == Nobody || r.value.replies[c] == Just(SaveToMemory)
  {
    if k > 0 {
      QuietMessages(s, ms, k - 1);
      assert Quiet(ms[k - 1]);
    }
  }

  lemma {:induction false} QuietAnswers(s: Sys, replies: seq<Maybe<Reply>>, k: nat)
    requires Shaped(s) && k <= |replies| == s.cores && forall c | 0 <= c < |replies| :: replies[c].Just? ==> c in s.running
    requires forall c | 0 <= c < |replies| :: replies[c] == Nobody || replies[c] == Just(SaveToMemory)
    ensures AnswerCores(s, replies, k) == s
  {
    if k > 0 { QuietAnswers(s, replies, k - 1); }
  }

  lemma {:induction false} NobodyWaits(p: Placed, first: nat, n: nat)
    requires n <= |p.states| && forall x | 0 <= x < |p.states| :: p.states[x] != Waiting
    ensures PlaceWaiting(p, first, n) == p
  {
    if n > first { NobodyWaits(p, first, n - 1); }
  }

  /** Such a tick is what the cores execute, and then the end of those who end. */
  lemma QuietTick(s: Sys, run: CoreFunction, e: Sys, ms: Messages)
    requires Shaped(s) && ExecuteCores(s, run, s.cores) == Done(Executed(e, ms)) && forall c | 0 <= c < |ms| :: Quiet(ms[c])
    ensures forall c | 0 <= c < |ms| :: ms[c].Just? ==> c in s.running
    ensures Shaped(e) && (forall t | t in Endings(s, ms, s.cores) :: IsPid(e, t.pid))
    ensures var t := ScheduleAll(e, Endings(s, ms, s.cores));
            t.Done? ==> TickAll(s, run) == Done(Cycle(t.value, t.value.running == map[]))
  {
    MessagesAreFromRunning(s, run, s.cores);
    QuietMessages(e, ms, s.cores);
    SameEndings(s, e, ms, s.cores);
    RepliesAreFromRunning(e, ms, s.cores);
    QuietAnswers(e, HandleCores(e, ms, s.cores).value.replies, s.cores);
  }

  lemma {:induction false} SameEndings(s: Sys, e: Sys, ms: Messages, k: nat)
    requires k <= |ms| && s.running == e.running && forall c | 0 <= c < |ms| :: ms[c].Just? ==> c in s.running
    ensures Endings(s, ms, k) == Endings(e, ms, k)
  {
    if k > 0 { SameEndings(s, e, ms, k - 1); }
  }

  /** When nobody waits and nobody ends, the scheduler changes nothing. */
  lemma NobodyEnds(e: Sys)
    requires Shaped(e) && forall x | 0 <= x < e.cells :: e.states[x] != Waiting
    ensures ScheduleAll(e, []) == Done(e)
  {
    NobodyWaits(Placed(e.states, e.running, IdleCores(e.running, e.cores)), e.cores, e.cells - 1);
  }

  lemma OneEnds(e: Sys, p: nat, core: nat)
    requires Shaped(e) && (forall x | 0 <= x < e.cells :: e.states[x] != Waiting)
    requires IsPid(e, p) && e.states[p] == Running(core) && p in e.numbers
    ensures ScheduleAll(e, [Destroy(p)]) ==
            Done(e.(states := e.states[p := Dead], running := e.running - {core}, finals := e.finals[e.numbers[p] := e.machines[p].stack]))
  {
    var tasks := [Destroy(p)];
    var before := Placed(e.states, e.running, IdleCores(e.running, e.cores));
    assert RemoveTasks(before, tasks, 0) == before;
    var r := RemoveTasks(before, tasks, 1);
    assert r == Placed(e.states[p := Dead], e.running - {core}, before.idle + [core]);
    assert PlaceTasks(r, tasks, 0) == r;
    assert PlaceTasks(r, tasks, 1) == r;
    NobodyWaits(r, e.cores, e.cells - 1);
    assert FinalStacks(e, tasks, 0) == Done(e.finals);
    assert FinalStacks(e, tasks, 1) == Done(e.finals[e.numbers[p] := e.machines[p].stack]);
  }

  lemma CoreRuns(s: Sys, run: CoreFunction, k: nat, y: Executed, d: Ticked)
    requires Shaped(s) && k < s.cores && ExecuteCores(s, run, k) == Done(y) && k in s.running
    requires run(y.sys.registers[k], y.sys.machines[s.running[k]]) == d && d.Did?
    ensures ExecuteCores(s, run, k + 1) ==
            Done(Executed(y.sys.(registers := y.sys.registers[k := d.registers], machines := y.sys.machines[s.running[k] := d.machine]),
                          y.messages + [Just(d.message)]))
  {
  }

  lemma CoreIdles(s: Sys, run: CoreFunction, k: nat, y: Executed)
    requires Shaped(s) && k < s.cores && ExecuteCores(s, run, k) == Done(y) && k !in s.running
    ensures ExecuteCores(s, run, k + 1) == Done(Executed(y.sys, y.messages + [Nobody]))
  {
  }

  /** Both cores run, and leave their registers alone. */
  lemma BothRun(s: Sys, run: CoreFunction, x: Machine, a: Message, y: Machine, b: Message)
    requires Shaped(s) && s.cores == 2 && 0 in s.running && 1 in s.running && s.running[0] != s.running[1]
    requires run(s.registers[0], s.machines[s.running[0]]) == Did(s.registers[0], x, a)
    requires run(s.registers[1], s.machines[s.running[1]]) == Did(s.registers[1], y, b)
    ensures ExecuteCores(s, run, 2) ==
            Done(Executed(s.(machines := s.machines[s.running[0] := x][s.running[1] := y]), [Just(a), Just(b)]))
  {
    CoreRuns(s, run, 0, Executed(s, []), Did(s.registers[0], x, a));
    assert s.registers[0 := s.registers[0]] == s.registers && [] + [Just(a)] == [Just(a)];
    var first := s.(machines := s.machines[s.running[0] := x]);
    CoreRuns(s, run, 1, Executed(first, [Just(a)]), Did(s.registers[1], y, b));
    assert s.registers[1 := s.registers[1]] == s.registers && [Just(a)] + [Just(b)] == [Just(a), Just(b)];
  }

  /** One of the two cores runs. */
  lemma OneRuns(s: Sys, run: CoreFunction, c: nat, x: Machine, a: Message)
    requires Shaped(s) && s.cores == 2 && c < 2 && c in s.running && 1 - c !in s.running
    requires run(s.registers[c], s.machines[s.running[c]]) == Did(s.registers[c], x, a)
    ensures ExecuteCores(s, run, 2) ==
            Done(Executed(s.(machines := s.machines[s.running[c] := x]), if c == 0 then [Just(a), Nobody] else [Nobody, Just(a)]))
  {
    assert s.registers[c := s.registers[c]] == s.registers;
    assert ExecuteCores(s, run, 0) == Done(Executed(s, []));
    if c == 0 {
      CoreRuns(s, run, 0, Executed(s, []), Did(s.registers[0], x, a));
      assert [] + [Just(a)] == [Just(a)];
      CoreIdles(s, run, 1, Executed(s.(machines := s.machines[s.running[0] := x]), [Just(a)]));
      assert [Just(a)] + [Nobody] == [Just(a), Nobody];
    } else {
      CoreIdles(s, run, 0, Executed(s, []));
      var none: Messages := [];
      assert none + [Nobody] == [Nobody];
      CoreRuns(s, run, 1, Executed(s, [Nobody]), Did(s.registers[1], x, a));
      assert [Nobody] + [Just(a)] == [Nobody, Just(a)];
    }
  }

  /** A tick in which the process on one core ends, and nobody waits. */
  lemma EndTick(s: Sys, run: CoreFunction, e: Sys, ms: Messages, c: nat)
    requires Shaped(s) && s.cores == 2 && ExecuteCores(s, run, 2) == Done(Executed(e, ms)) && (forall d | 0 <= d < 2 :: Quiet(ms[d]))
    requires c < 2 && ms[c] == Just(Halt) && ms[1 - c] != Just(Halt)
    requires forall x | 0 <= x < s.cells :: s.states[x] != Waiting
    requires c in s.running && s.states[s.running[c]] == Running(c) && s.running[c] in s.numbers
    ensures var p, running := s.running[c], s.running - {c};
            TickAll(s, run) ==
            Done(Cycle(e.(states := s.states[p := Dead], running := running, finals := s.finals[s.numbers[p] := e.machines[p].stack]),
                       running == map[]))
  {
    QuietTick(s, run, e, ms);
    OneEnding(s, ms, c);
    OneEnds(e, s.running[c], c);
  }

  lemma OneEnding(s: Sys, ms: Messages, c: nat)
    requires |ms| == 2 && (forall d | 0 <= d < 2 :: ms[d].Just? ==> d in s.running)
    requires c < 2 && ms[c] == Just(Halt) && ms[1 - c] != Just(Halt)
    ensures Endings(s, ms, 2) == [Destroy(s.running[c])]
  {
    assert Endings(s, ms, 0) == [];
    assert Endings(s, ms, 1) == if c == 0 then [Destroy(s.running[c])] else [];
  }

  /** A tick in which nobody ends or waits. */
  lemma ComputeTick(s: Sys, run: CoreFunction, e: Sys, ms: Messages)
    requires Shaped(s) && s.cores == 2 && ExecuteCores(s, run, 2) == Done(Executed(e, ms)) && (forall d | 0 <= d < 2 :: Quiet(ms[d]))
    requires ms[0] != Just(Halt) && ms[1] != Just(Halt)
    requires forall x | 0 <= x < s.cells :: s.states[x] != Waiting
    ensures TickAll(s, run) == Done(Cycle(e, s.running == map[]))
  {
    QuietTick(s, run, e, ms);
    assert Endings(s, ms, 0) == [] && Endings(s, ms, 1) == [] && Endings(s, ms, 2) == [];
    NobodyEnds(e);
  }

  /** Who runs on core `c` ends. */
  function WithoutCore(s: Sys, machines: seq<Machine>, c: nat): Sys
    requires c in s.running && s.running[c] < |s.states| && s.running[c] < |machines| && s.running[c] in s.numbers
  {
    var p := s.running[c];
    s.(machines := machines, states := s.states[p := Dead], running := s.running - {c}, finals := s.finals[s.numbers[p] := machines[p].stack])
  }

  /** Two cores, nobody waiting, and every process there numbered. */
  ghost predicate Busy(s: Sys) {
    && Agrees(s) && s.cores == 2 && (forall x | 0 <= x < s.cells :: s.states[x] != Waiting)
    && forall c | c in s.running :: s.running[c] in s.numbers
  }

  ghost predicate QuietReport(s: Sys, run: CoreFunction)
    requires Shaped(s)
  {
    && |Reported(s, run)| == s.cores
    && forall c | 0 <= c < s.cores :: Quiet(Reported(s, run)[c]) && (Reported(s, run)[c].Just? <==> c in s.running)
  }

  lemma ReportIs(s: Sys, run: CoreFunction, e: Sys, ms: Messages)
    requires Shaped(s) && ExecuteCores(s, run, s.cores) == Done(Executed(e, ms)) && forall c | 0 <= c < |ms| :: Quiet(ms[c])
    ensures QuietReport(s, run)
  {
    MessagesAreFromRunning(s, run, s.cores);
  }

  lemma OneOfTwoEnds(s: Sys, run: CoreFunction, x: Machine, a: Message, y: Machine, b: Message, c: nat)
    requires Busy(s) && 0 in s.running && 1 in s.running && s.running[0] != s.running[1] && c < 2
    requires run(s.registers[0], s.machines[s.running[0]]) == Did(s.registers[0], x, a)
    requires run(s.registers[1], s.machines[s.running[1]]) == Did(s.registers[1], y, b)
    requires if c == 0 then a == Halt && b == Nothing else a == Nothing && b == Halt
    ensures var t := WithoutCore(s, s.machines[s.running[0] := x][s.running[1] := y], c);
            TickAll(s, run) == Done(Cycle(t, t.running == map[])) && QuietReport(s, run)
  {
    BothRun(s, run, x, a, y, b);
    var e := s.(machines := s.machines[s.running[0] := x][s.running[1] := y]);
    EndTick(s, run, e, [Just(a), Just(b)], c);
    ReportIs(s, run, e, [Just(a), Just(b)]);
  }

  lemma LastEnds(s: Sys, run: CoreFunction, x: Machine, c: nat)
    requires Busy(s) && c < 2 && c in s.running && 1 - c !in s.running
    requires run(s.registers[c], s.machines[s.running[c]]) == Did(s.registers[c], x, Halt)
    ensures var t := WithoutCore(s, s.machines[s.running[c] := x], c);
            TickAll(s, run) == Done(Cycle(t, t.running == map[])) && QuietReport(s, run)
  {
    OneRuns(s, run, c, x, Halt);
    var e, ms := s.(machines := s.machines[s.running[c] := x]), if c == 0 then [Just(Halt), Nobody] else [Nobody, Just(Halt)];
    EndTick(s, run, e, ms, c);
    ReportIs(s, run, e, ms);
  }

  lemma LastComputes(s: Sys, run: CoreFunction, x: Machine, c: nat)
    requires Busy(s) && c < 2 && c in s.running && 1 - c !in s.running
    requires run(s.registers[c], s.machines[s.running[c]]) == Did(s.registers[c], x, Nothing)
    ensures TickAll(s, run) == Done(Cycle(s.(machines := s.machines[s.running[c] := x]), false)) && QuietReport(s, run)
  {
    OneRuns(s, run, c, x, Nothing);
    var e, ms := s.(machines := s.machines[s.running[c] := x]), if c == 0 then [Just(Nothing), Nobody] else [Nobody, Just(Nothing)];
    ComputeTick(s, run, e, ms);
    ReportIs(s, run, e, ms);
    assert c in s.running && s.running != map[];
  }

  // ----- the two systems -----

  /** Jump to 2 if the zero flag is set; push 1; end. */
  const CODE: Memory := [0x50, 0x11, 0x71, 0]

  const ZERO := Registers(CLEAR.(zero := true), false)
  const NONZERO := Registers(CLEAR, false)

  const IDLE := Machine(0, [], [])

  /** Process 2 runs the program from its start, with the target on its stack; process 3 only ends. */
  function Two(a: ProcessState, b: ProcessState, running: map<nat, nat>, x: Machine, y: Machine, finals: map<nat, seq<Word>>): Sys {
    Sys(2, 5, [ZERO, NONZERO], [IDLE, IDLE, x, y, IDLE], [Dead, Dead, a, b, Dead],
        running, map[], ProcessorModel.Heap(0, []), {}, {}, map[2 := 0, 3 := 1], finals, map[])
  }

  const START := Machine(0, [2], [])
  const BEHIND := Machine(1, [], [])
  const AT_END := Machine(2, [], [])
  const PUSHED := Machine(2, [1], [])
  const ENDED := Machine(3, [], [])
  const ENDED_LATER := Machine(3, [1], [])

  // Process 2 on the core with the zero flag: it jumps.

  function First0(): Sys { Two(Running(0), Running(1), map[0 := 2, 1 := 3], START, AT_END, map[]) }

  function First1(): Sys { Two(Running(0), Dead, map[0 := 2], AT_END, ENDED, map[1 := []]) }

  function First2(): Sys { Two(Dead, Dead, map[], ENDED, ENDED, map[1 := [], 0 := []]) }

  // Process 2 on the other core: it does not.

  function Second0(): Sys { Two(Running(1), Running(0), map[0 := 3, 1 := 2], START, AT_END, map[]) }

  function Second1(): Sys { Two(Running(1), Dead, map[1 := 2], BEHIND, ENDED, map[1 := []]) }

  function Second2(): Sys { Two(Running(1), Dead, map[1 := 2], PUSHED, ENDED, map[1 := []]) }

  function Second3(): Sys { Two(Dead, Dead, map[], ENDED_LATER, ENDED, map[1 := [], 0 := [1]]) }

  lemma Fetches()
    ensures Fetch(CODE, 0) == Some((Jump(ZeroEqual), 0x11 as Byte))
    ensures Fetch(CODE, 1) == Some((PushSmall(1), 0x71 as Byte))
    ensures Fetch(CODE, 2) == Some((Function(Return), 0 as Byte))
  {
    ReadByteIsIndexing(CODE, 0);
    ReadByteIsIndexing(CODE, 1);
    ReadByteIsIndexing(CODE, 2);
    ReadByteIsIndexing(CODE, 3);
    assert Decode(0x50) == Some(Jump(ZeroEqual)) && Decode(0x11) == Some(PushSmall(1)) && Decode(0x71) == Some(Function(Return));
  }

  lemma Jumps(r: Registers)
    ensures Tick(CODE, r, Machine(0, [2], [])) == Did(r, Machine(if r.flags.zero then 2 else 1, [], []), Nothing)
  {
    Fetches();
    ExecuteControl(r, START, Jump(ZeroEqual), 0x11);
  }

  lemma Pushes(r: Registers)
    ensures Tick(CODE, r, Machine(1, [], [])) == Did(r, Machine(2, [1], []), Nothing)
  {
    Fetches();
  }

  lemma Ends(r: Registers, stack: seq<Word>)
    ensures Tick(CODE, r, Machine(2, stack, [])) == Did(r, Machine(3, stack, []), Halt)
  {
    Fetches();
    ExecuteControl(r, Machine(2, stack, []), Function(Return), 0);
  }

  lemma MapsShrink()
    ensures map[0 as nat := 2 as nat, 1 := 3] - {1} == map[0 := 2] && map[0 as nat := 2 as nat] - {0} == map[]
    ensures map[0 as nat := 3 as nat, 1 := 2] - {0} == map[1 := 2] && map[1 as nat := 2 as nat] - {1} == map[]
  {
  }

  lemma First0Ends()
    ensures Busy(First0()) && WithoutCore(First0(), First0().machines[2 := AT_END][3 := ENDED], 1) == First1()
  {
    MapsShrink();
    assert First0().machines[2 := AT_END][3 := ENDED] == First1().machines;
  }

  lemma First1Ends()
    ensures Busy(First1()) && WithoutCore(First1(), First1().machines[2 := ENDED], 0) == First2()
  {
    MapsShrink();
    assert First1().machines[2 := ENDED] == First2().machines;
  }

  lemma Second0Ends()
    ensures Busy(Second0()) && WithoutCore(Second0(), Second0().machines[3 := ENDED][2 := BEHIND], 0) == Second1()
  {
    MapsShrink();
    assert Second0().machines[3 := ENDED][2 := BEHIND] == Second1().machines;
  }

  lemma Second1Computes()
    ensures Busy(Second1()) && Second1().(machines := Second1().machines[2 := PUSHED]) == Second2()
  {
    assert Second1().machines[2 := PUSHED] == Second2().machines;
  }

  lemma Second2Ends()
    ensures Busy(Second2()) && WithoutCore(Second2(), Second2().machines[2 := ENDED_LATER], 1) == Second3()
  {
    MapsShrink();
    assert Second2().machines[2 := ENDED_LATER] == Second3().machines;
  }

  lemma QuietIsDisciplined(s: Sys, ms: Messages)
    requires |ms| == s.cores && forall c | 0 <= c < s.cores :: Quiet(ms[c]) && (ms[c].Just? <==> c in s.running)
    ensures Disciplined(s, map[], ms) && forall c | 0 <= c < |ms| :: Plain(ms[c])
  {
    forall c | 0 <= c < |ms| ensures Plain(ms[c]) && forall ch :: !SendsOn(ms[c], ch) && !ReceivesOn(ms[c], ch) && !Deletes(ms[c], ch) {
      assert Quiet(ms[c]);
    }
  }

  lemma QuietIsPlain(s: Sys, run: CoreFunction, t: Sys)
    requires Linked(s, map[]) && QuietReport(s, run) && TickAll(s, run) == Done(Cycle(t, t.running == map[]))
    ensures PlainTick(s, map[], run, t)
  {
    QuietIsDisciplined(s, Reported(s, run));
  }

  /** Without channels there is nothing more to agree on. */
  lemma TickIsPlain(s: Sys, t: Sys)
    requires Busy(s) && s.channels == map[] && s.history == map[] && s.heap == ProcessorModel.Heap(0, [])
    requires QuietReport(s, CoreOf(CODE)) && TickAll(s, CoreOf(CODE)) == Done(Cycle(t, t.running == map[]))
    ensures PlainTick(s, map[], CoreOf(CODE), t)
  {
    assert Linked(s, map[]);
    QuietIsPlain(s, CoreOf(CODE), t);
  }

  lemma First0Ticks()
    ensures PlainTick(First0(), map[], CoreOf(CODE), First1())
  {
    Jumps(ZERO);
    Ends(NONZERO, []);
    First0Ends();
    OneOfTwoEnds(First0(), CoreOf(CODE), AT_END, Nothing, ENDED, Halt, 1);
    TickIsPlain(First0(), First1());
  }

  lemma First1Ticks()
    ensures PlainTick(First1(), map[], CoreOf(CODE), First2())
  {
    Ends(ZERO, []);
    First1Ends();
    LastEnds(First1(), CoreOf(CODE), ENDED, 0);
    TickIsPlain(First1(), First2());
  }

  lemma Second0Ticks()
    ensures PlainTick(Second0(), map[], CoreOf(CODE), Second1())
  {
    Jumps(NONZERO);
    Ends(ZERO, []);
    Second0Ends();
    OneOfTwoEnds(Second0(), CoreOf(CODE), ENDED, Halt, BEHIND, Nothing, 0);
    TickIsPlain(Second0(), Second1());
  }

  lemma Second1Ticks()
    ensures PlainTick(Second1(), map[], CoreOf(CODE), Second2())
  {
    Pushes(NONZERO);
    Second1Computes();
    LastComputes(Second1(), CoreOf(CODE), PUSHED, 1);
    TickIsPlain(Second1(), Second2());
  }

  lemma Second2Ticks()
    ensures PlainTick(Second2(), map[], CoreOf(CODE), Second3())
  {
    Ends(NONZERO, [1]);
    Second2Ends();
    LastEnds(Second2(), CoreOf(CODE), ENDED_LATER, 1);
    TickIsPlain(Second2(), Second3());
  }

  lemma SameStart()
    ensures Linked(First0(), map[]) && Linked(Second0(), map[])
    ensures NetOf(First0(), map[], Ignorant(First0())) == NetOf(Second0(), map[], Ignorant(Second0()))
  {
    First0Ends();
    Second0Ends();
    assert Linked(First0(), map[]) && Linked(Second0(), map[]);
    var n := NetOf(Second0(), map[], Ignorant(Second0()));
    forall p | 0 <= p < 5 ensures n.status[p] == StatusOf(First0().states[p]) && n.threads[p] == Thread(First0().machines[p], Nobody) {
      assert p == 0 || p == 1 || p == 2 || p == 3 || p == 4;
    }
    assert IsNetOf(n, First0(), map[], Ignorant(First0()));
    SameNet(n, NetOf(First0(), map[], Ignorant(First0())), First0(), map[], Ignorant(First0()));
  }

  /** Two runs that start with the same processes on the same cores, the other way round, and end differently. */
  ghost predicate Differ(ss: seq<Sys>, tt: seq<Sys>, own: Owners, run: CoreFunction) {
    && PlainRun(ss, own, run) && PlainRun(tt, own, run)
    && ss[0] == tt[0].(states := ss[0].states, running := ss[0].running)
    && FirstNet(ss, own) == FirstNet(tt, own)
    && HasHalted(ss[|ss| - 1]) && HasHalted(tt[|tt| - 1])
    && ss[|ss| - 1].machines != tt[|tt| - 1].machines && ss[|ss| - 1].finals != tt[|tt| - 1].finals
  }

  lemma OneTickMore(ss: seq<Sys>, own: Owners, run: CoreFunction, t: Sys)
    ensures PlainRun(ss, own, run) && PlainTick(ss[|ss| - 1], own, run, t) ==> PlainRun(ss + [t], own, run)
  {
    if PlainRun(ss, own, run) && PlainTick(ss[|ss| - 1], own, run, t) {
      var tt := ss + [t];
      forall i | 0 < i < |tt| ensures PlainTick(tt[i - 1], own, run, tt[i]) {
        if i < |ss| { assert tt[i - 1] == ss[i - 1] && tt[i] == ss[i]; }
      }
    }
  }

  lemma TwoTicks(s: Sys, t: Sys, u: Sys, own: Owners, run: CoreFunction)
    ensures PlainTick(s, own, run, t) && PlainTick(t, own, run, u) ==> RunsTo([s, t, u], own, run, s, u)
  {
    OneTickMore([s], own, run, t);
    OneTickMore([s] + [t], own, run, u);
    assert [s] + [t] + [u] == [s, t, u];
  }

  lemma ThreeTicks(s: Sys, t: Sys, u: Sys, w: Sys, own: Owners, run: CoreFunction)
    ensures PlainTick(s, own, run, t) && PlainTick(t, own, run, u) && PlainTick(u, own, run, w) ==> RunsTo([s, t, u, w], own, run, s, w)
  {
    TwoTicks(s, t, u, own, run);
    OneTickMore([s, t, u], own, run, w);
    assert [s, t, u] + [w] == [s, t, u, w];
  }

  /** A run from one system to another. */
  ghost predicate RunsTo(ss: seq<Sys>, own: Owners, run: CoreFunction, s: Sys, t: Sys) {
    PlainRun(ss, own, run) && ss[0] == s && ss[|ss| - 1] == t
  }

  lemma FirstRuns()
    ensures exists ss :: RunsTo(ss, map[], CoreOf(CODE), First0(), First2())
  {
    First0Ticks();
    First1Ticks();
    TwoTicks(First0(), First1(), First2(), map[], CoreOf(CODE));
  }

  lemma SecondRuns()
    ensures exists ss :: RunsTo(ss, map[], CoreOf(CODE), Second0(), Second3())
  {
    Second0Ticks();
    Second1Ticks();
    Second2Ticks();
    ThreeTicks(Second0(), Second1(), Second2(), Second3(), map[], CoreOf(CODE));
  }

  lemma TheyDiffer(s: Sys, t: Sys, u: Sys, w: Sys, own: Owners, run: CoreFunction)
    requires Linked(s, own) && Linked(u, own) && NetOf(s, own, Ignorant(s)) == NetOf(u, own, Ignorant(u))
    requires s == u.(states := s.states, running := s.running)
    requires HasHalted(t) && HasHalted(w) && t.machines != w.machines && t.finals != w.finals
    ensures (exists ss :: RunsTo(ss, own, run, s, t)) && (exists tt :: RunsTo(tt, own, run, u, w))
            ==> exists ss, tt :: Differ(ss, tt, own, run)
  {
    if (exists ss :: RunsTo(ss, own, run, s, t)) && (exists tt :: RunsTo(tt, own, run, u, w)) {
      var ss :| RunsTo(ss, own, run, s, t);
      var tt :| RunsTo(tt, own, run, u, w);
      assert Differ(ss, tt, own, run);
    }
  }

  /** There are a program, a system of two cores, and two such runs. */
  lemma SchedulingCanMatter()
    ensures exists ss, tt :: Differ(ss, tt, map[], CoreOf(CODE))
  {
    FirstRuns();
    SecondRuns();
    SameStart();
    EndDiffers();
    TheyDiffer(First0(), First2(), Second0(), Second3(), map[], CoreOf(CODE));
  }

  lemma EndDiffers()
    ensures First0() == Second0().(states := First0().states, running := First0().running)
    ensures HasHalted(First2()) && HasHalted(Second3())
    ensures First2().machines != Second3().machines && First2().finals != Second3().finals
  {
    assert First2().machines[2] != Second3().machines[2];
    assert First2().finals[0] != Second3().finals[0];
  }

  /** Neither of two such runs is settled: someone jumps on leftover flags in both. */
  lemma DifferingRunsAreUnsettled(ss: seq<Sys>, tt: seq<Sys>, own: Owners, run: CoreFunction)
    requires Differ(ss, tt, own, run)
    ensures !SettledFor(ss, run, |ss| - 1) && !SettledFor(tt, run, |tt| - 1)
  {
    if SettledFor(ss, run, |ss| - 1) { SchedulingDoesNotMatter(ss, tt, own, run); }
    if SettledFor(tt, run, |tt| - 1) { SchedulingDoesNotMatter(tt, ss, own, run); }
  }
}
