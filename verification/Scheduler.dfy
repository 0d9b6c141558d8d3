/**
 * What every tick keeps of the scheduler: the cores and the states of processes agree, no process
 * waits while a core is idle, and the tasks of the tick decide who may run next.
 */
module Scheduler {
  import opened StackMachine
  import opened Simulator
  import opened ProcessorModel

  predicate On(running: map<nat, nat>, p: nat, core: nat) {
    core in running && running[core] == p
  }

  /**
   * Cores below `cores` run processes from `cores` up. Each running core's process says so, and each
   * running process is on the core it names; only processes wait.
   */
  ghost predicate Matched(cores: nat, states: seq<ProcessState>, running: map<nat, nat>) {
    && (forall c | c in running :: c < cores && cores <= running[c] < |states| - 1 && states[running[c]] == Running(c))
    && (forall p | 0 <= p < |states| && states[p].Running? :: On(running, p, states[p].core))
    && (forall p | 0 <= p < |states| && states[p] == Waiting :: cores <= p < |states| - 1)
  }

  ghost predicate Agrees(s: Sys) {
    Shaped(s) && Matched(s.cores, s.states, s.running)
  }

  /** No process waits while a core is idle. */
  ghost predicate WorkConserving(s: Sys) {
    forall p, c | 0 <= p < |s.states| && 0 <= c < s.cores :: s.states[p] == Waiting ==> c in s.running
  }

  /** May be given a core without anyone scheduling it. */
  predicate Runnable(state: ProcessState) {
    state.Running? || state == Waiting
  }

  /** `idle` lists the cores without a process, each once. */
  ghost predicate Lists(cores: nat, running: map<nat, nat>, idle: seq<nat>) {
    && (forall i | 0 <= i < |idle| :: idle[i] < cores && idle[i] !in running)
    && (forall i, j | 0 <= i < j < |idle| :: idle[i] != idle[j])
    && (forall c | 0 <= c < cores :: c in running || c in idle)
  }

  ghost predicate Good(cores: nat, p: Placed) {
    Matched(cores, p.states, p.running) && Lists(cores, p.running, p.idle)
  }

  predicate AllPids(cores: nat, cells: nat, tasks: seq<Task>) {
    forall t | t in tasks :: cores <= t.pid < cells - 1
  }

  lemma {:induction false} IdleIsListed(running: map<nat, nat>, k: nat)
    ensures Lists(k, running, IdleCores(running, k))
  {
    if k > 0 { IdleIsListed(running, k - 1); }
  }

  lemma FreedLists(cores: nat, running: map<nat, nat>, idle: seq<nat>, core: nat)
    requires Lists(cores, running, idle) && core in running && core < cores
    ensures Lists(cores, running - {core}, idle + [core])
  {
    var more := idle + [core];
    assert more[|idle|] == core;
    forall c | c in idle ensures c in more {
    }
  }

  lemma TakenLists(cores: nat, running: map<nat, nat>, idle: seq<nat>, pid: nat)
    requires Lists(cores, running, idle) && idle != []
    ensures Lists(cores, running[idle[|idle| - 1] := pid], idle[..|idle| - 1])
  {
    var core := idle[|idle| - 1];
    assert idle == idle[..|idle| - 1] + [core];
    var fewer := idle[..|idle| - 1];
    forall c | c in idle && c != core ensures c in fewer {
    }
  }

  /** Taking a process off gives its core back, and changes no other process. */
  lemma RemoveLists(cores: nat, p: Placed, pid: nat, state: ProcessState)
    requires Good(cores, p) && cores <= pid < |p.states| - 1 && (state == Inactive || state == Dead)
    ensures Good(cores, Remove(p, pid, state)) && Remove(p, pid, state).states == p.states[pid := state]
  {
    var before, q := p.states[pid], Remove(p, pid, state);
    if before.Running? {
      assert On(p.running, pid, before.core);
      FreedLists(cores, p.running, p.idle, before.core);
    }
    RemoveMatches(cores, p.states, p.running, pid, state, q.running);
  }

  lemma RemoveMatches(cores: nat, states: seq<ProcessState>, running: map<nat, nat>, pid: nat, state: ProcessState, after: map<nat, nat>)
    requires Matched(cores, states, running) && cores <= pid < |states| - 1 && (state == Inactive || state == Dead)
    requires after == if states[pid].Running? then running - {states[pid].core} else running
    ensures Matched(cores, states[pid := state], after)
  {
    forall p | 0 <= p < |states| && states[pid := state][p].Running?
      ensures On(after, p, states[p].core)
    {
      assert On(running, p, states[p].core);
      if states[pid].Running? { assert On(running, pid, states[pid].core); }
    }
    forall c | c in after
      ensures c < cores && cores <= after[c] < |states| - 1 && states[pid := state][after[c]] == Running(c)
    {
      assert states[running[c]] == Running(c);
    }
  }

  lemma PlaceMatches(cores: nat, states: seq<ProcessState>, running: map<nat, nat>, pid: nat, core: nat)
    requires Matched(cores, states, running) && cores <= pid < |states| - 1 && !states[pid].Running?
    requires core < cores && core !in running
    ensures Matched(cores, states[pid := Running(core)], running[core := pid])
  {
    var after := states[pid := Running(core)];
    forall p | 0 <= p < |states| && after[p].Running?
      ensures On(running[core := pid], p, after[p].core)
    {
      if p != pid { assert On(running, p, states[p].core); }
    }
  }

  /** Placing a process uses up one idle core, or has it wait when there is none. */
  lemma PlaceLists(cores: nat, p: Placed, pid: nat)
    requires Good(cores, p) && cores <= pid < |p.states| - 1 && !p.states[pid].Running?
    ensures var q := Place(p, pid);
            && Good(cores, q) && Runnable(q.states[pid]) && q.states == p.states[pid := q.states[pid]]
            && (if p.idle == [] then q.idle == [] else q.states[pid].Running?)
  {
    if p.idle != [] {
      TakenLists(cores, p.running, p.idle, pid);
      PlaceMatches(cores, p.states, p.running, pid, p.idle[|p.idle| - 1]);
    } else {
      WaitMatches(cores, p.states, p.running, pid);
    }
  }

  lemma WaitMatches(cores: nat, states: seq<ProcessState>, running: map<nat, nat>, pid: nat)
    requires Matched(cores, states, running) && cores <= pid < |states| - 1 && !states[pid].Running?
    ensures Matched(cores, states[pid := Waiting], running)
  {
    var after := states[pid := Waiting];
    forall p | 0 <= p < |states| && after[p].Running?
      ensures On(running, p, after[p].core)
    {
      assert On(running, p, states[p].core);
    }
  }

  // ----- the three passes -----

  /** The state the first `k` tasks take the process off its core with. */
  function TakenOff(tasks: seq<Task>, k: nat, pid: nat): Maybe<ProcessState>
    requires k <= |tasks|
  {
    if k == 0 then Nobody
    else
      var t := tasks[k - 1];
      if t.pid != pid || t.Schedule? then TakenOff(tasks, k - 1, pid)
      else if t.Destroy? then Just(Dead)
      else Just(Inactive)
  }

  ghost predicate Removed(p: Placed, tasks: seq<Task>, k: nat, q: Placed)
    requires k <= |tasks| && |p.states| == |q.states|
  {
    forall x | 0 <= x < |p.states| ::
      q.states[x] == if TakenOff(tasks, k, x) == Nobody then p.states[x] else TakenOff(tasks, k, x).value
  }

  lemma {:induction false} RemovesAll(cores: nat, p: Placed, tasks: seq<Task>, k: nat)
    requires Good(cores, p) && k <= |tasks| && AllPids(cores, |p.states|, tasks)
    ensures var q := RemoveTasks(p, tasks, k);
            Good(cores, q) && Removed(p, tasks, k, q)
  {
    if k > 0 {
      RemovesAll(cores, p, tasks, k - 1);
      var t := tasks[k - 1];
      if !t.Schedule? {
        RemoveLists(cores, RemoveTasks(p, tasks, k - 1), t.pid, if t.Destroy? then Dead else Inactive);
      }
    }
  }

  /** A process that is asked for by the first `k` tasks. */
  ghost predicate AskedFor(tasks: seq<Task>, k: nat, pid: nat)
    requires k <= |tasks|
  {
    exists i :: 0 <= i < k && tasks[i] == Schedule(pid)
  }

  ghost predicate PlacedAll(p: Placed, tasks: seq<Task>, k: nat, q: Placed)
    requires k <= |tasks| && |p.states| == |q.states|
  {
    forall x | 0 <= x < |p.states| ::
      if AskedFor(tasks, k, x) then Runnable(q.states[x]) else q.states[x] == p.states[x]
  }

  lemma PlacesAll(cores: nat, p: Placed, tasks: seq<Task>, k: nat)
    requires Good(cores, p) && k <= |tasks| && AllPids(cores, |p.states|, tasks)
    ensures var q := PlaceTasks(p, tasks, k);
            Good(cores, q) && PlacedAll(p, tasks, k, q)
  {
    PlacesWell(cores, p, tasks, k);
    PlacesTheAsked(p, tasks, k);
  }

  lemma {:induction false} PlacesWell(cores: nat, p: Placed, tasks: seq<Task>, k: nat)
    requires Good(cores, p) && k <= |tasks| && AllPids(cores, |p.states|, tasks)
    ensures Good(cores, PlaceTasks(p, tasks, k))
  {
    if k > 0 {
      PlacesWell(cores, p, tasks, k - 1);
      var q, t := PlaceTasks(p, tasks, k - 1), tasks[k - 1];
      if t.Schedule? && !q.states[t.pid].Running? { PlaceLists(cores, q, t.pid); }
    }
  }

  lemma {:induction false} PlacesTheAsked(p: Placed, tasks: seq<Task>, k: nat)
    requires k <= |tasks| && forall t | t in tasks :: t.pid < |p.states|
    ensures PlacedAll(p, tasks, k, PlaceTasks(p, tasks, k))
  {
    if k > 0 {
      PlacesTheAsked(p, tasks, k - 1);
      var t := tasks[k - 1];
      forall x | 0 <= x < |p.states|
        ensures AskedFor(tasks, k, x) <==> AskedFor(tasks, k - 1, x) || t == Schedule(x)
      {
      }
    }
  }

  ghost predicate PlacedWaiting(p: Placed, n: nat, q: Placed)
    requires n <= |p.states| == |q.states|
  {
    && (forall x | 0 <= x < |p.states| ::
          if p.states[x] == Waiting then Runnable(q.states[x]) else q.states[x] == p.states[x])
    && (forall x | 0 <= x < n :: q.states[x] == Waiting ==> q.idle == [])
  }

  /** After the pass over the processes below `n`, those that still wait found no idle core. */
  lemma PlacesWaiting(cores: nat, p: Placed, n: nat)
    requires Good(cores, p) && cores <= n <= |p.states| - 1
    ensures var q := PlaceWaiting(p, cores, n);
            Good(cores, q) && PlacedWaiting(p, n, q)
  {
    WaitingPlacedWell(cores, p, n);
    PlacesTheWaiting(cores, p, n);
  }

  lemma {:induction false} WaitingPlacedWell(cores: nat, p: Placed, n: nat)
    requires Good(cores, p) && cores <= n <= |p.states| - 1
    ensures Good(cores, PlaceWaiting(p, cores, n))
  {
    if n > cores {
      WaitingPlacedWell(cores, p, n - 1);
      var q := PlaceWaiting(p, cores, n - 1);
      if q.idle != [] && q.states[n - 1] == Waiting { PlaceLists(cores, q, n - 1); }
    }
  }

  lemma {:induction false} PlacesTheWaiting(cores: nat, p: Placed, n: nat)
    requires cores <= n <= |p.states| && forall x | 0 <= x < cores && x < |p.states| :: p.states[x] != Waiting
    ensures PlacedWaiting(p, n, PlaceWaiting(p, cores, n))
  {
    if n > cores { PlacesTheWaiting(cores, p, n - 1); }
  }

  /** What the tasks make of a process, whoever else is scheduled. */
  ghost predicate Decided(before: ProcessState, tasks: seq<Task>, x: nat, after: ProcessState) {
    if AskedFor(tasks, |tasks|, x) then Runnable(after)
    else if TakenOff(tasks, |tasks|, x).Just? then after == TakenOff(tasks, |tasks|, x).value
    else if before == Waiting then Runnable(after)
    else after == before
  }

  ghost predicate AllDecided(p: Placed, tasks: seq<Task>, q: Placed)
    requires |p.states| == |q.states|
  {
    && (forall x | 0 <= x < |p.states| :: Decided(p.states[x], tasks, x, q.states[x]))
    && (forall x | 0 <= x < |p.states| - 1 :: q.states[x] == Waiting ==> q.idle == [])
  }

  lemma SchedulesAll(cores: nat, p: Placed, tasks: seq<Task>, q: Placed)
    requires Good(cores, p) && cores < |p.states| && AllPids(cores, |p.states|, tasks)
    requires q == Scheduled(p, tasks, cores)
    ensures Good(cores, q) && |q.states| == |p.states| && AllDecided(p, tasks, q)
  {
    var removed, placed := TwoPasses(cores, p, tasks);
    LastPass(cores, placed, q);
    ThreePasses(p, tasks, removed, placed, q);
  }

  lemma TwoPasses(cores: nat, p: Placed, tasks: seq<Task>) returns (removed: Placed, placed: Placed)
    requires Good(cores, p) && cores < |p.states| && AllPids(cores, |p.states|, tasks)
    ensures removed == RemoveTasks(p, tasks, |tasks|) && placed == PlaceTasks(removed, tasks, |tasks|)
    ensures Good(cores, placed) && Removed(p, tasks, |tasks|, removed) && PlacedAll(removed, tasks, |tasks|, placed)
  {
    removed := RemoveTasks(p, tasks, |tasks|);
    RemovesAll(cores, p, tasks, |tasks|);
    PlacesAll(cores, removed, tasks, |tasks|);
    placed := PlaceTasks(removed, tasks, |tasks|);
  }

  lemma LastPass(cores: nat, placed: Placed, q: Placed)
    requires Good(cores, placed) && cores < |placed.states| && q == PlaceWaiting(placed, cores, |placed.states| - 1)
    ensures Good(cores, q) && |q.states| == |placed.states| && PlacedWaiting(placed, |placed.states| - 1, q)
  {
    PlacesWaiting(cores, placed, |placed.states| - 1);
  }

  lemma ThreePasses(p: Placed, tasks: seq<Task>, removed: Placed, placed: Placed, q: Placed)
    requires 1 <= |p.states| == |removed.states| == |placed.states| == |q.states|
    ensures Removed(p, tasks, |tasks|, removed) && PlacedAll(removed, tasks, |tasks|, placed) && PlacedWaiting(placed, |p.states| - 1, q)
            ==> AllDecided(p, tasks, q)
  {
    if Removed(p, tasks, |tasks|, removed) && PlacedAll(removed, tasks, |tasks|, placed) && PlacedWaiting(placed, |p.states| - 1, q) {
      forall x | 0 <= x < |p.states|
        ensures Decided(p.states[x], tasks, x, q.states[x])
      {
        TakenOffIsIdle(tasks, |tasks|, x);
      }
    }
  }

  lemma {:induction false} TakenOffIsIdle(tasks: seq<Task>, k: nat, pid: nat)
    requires k <= |tasks|
    ensures TakenOff(tasks, k, pid).Just? ==> TakenOff(tasks, k, pid).value == Dead || TakenOff(tasks, k, pid).value == Inactive
  {
    if k > 0 { TakenOffIsIdle(tasks, k - 1, pid); }
  }

  /** The tasks of a tick decide who may run next, and leave no core idle that could run. */
  lemma TasksDecide(s: Sys, tasks: seq<Task>, r: Sys)
    requires Agrees(s) && (forall t | t in tasks :: IsPid(s, t.pid)) && ScheduleAll(s, tasks) == Done(r)
    ensures Agrees(r) && WorkConserving(r) && r == s.(states := r.states, running := r.running, finals := r.finals)
    ensures forall x | 0 <= x < s.cells :: Decided(s.states[x], tasks, x, r.states[x])
  {
    IdleIsListed(s.running, s.cores);
    var p := Placed(s.states, s.running, IdleCores(s.running, s.cores));
    var q := Scheduled(p, tasks, s.cores);
    SchedulesAll(s.cores, p, tasks, q);
    PlacedAgrees(s, q, r);
  }

  lemma PlacedAgrees(s: Sys, q: Placed, r: Sys)
    requires Shaped(s) && Good(s.cores, q) && |q.states| == |s.states|
    requires forall x | 0 <= x < |q.states| - 1 :: q.states[x] == Waiting ==> q.idle == []
    requires r == s.(states := q.states, running := q.running, finals := r.finals)
    ensures Agrees(r) && WorkConserving(r)
  {
  }

  // ----- the tick, and every run -----

  /** A tick keeps the agreement, whatever the cores report; and it halts when nothing can run. */
  lemma TickKeepsScheduler(s: Sys, run: CoreFunction)
    requires Agrees(s)
    ensures var r := TickAll(s, run);
            r.Done? ==>
              && Agrees(r.value.sys) && WorkConserving(r.value.sys)
              && (r.value.halted <==> forall p | 0 <= p < s.cells :: !Runnable(r.value.sys.states[p]))
  {
    var r := TickAll(s, run);
    if r.Done? {
      var e := ExecuteCores(s, run, s.cores).value;
      MessagesAreFromRunning(s, run, s.cores);
      var a := Exchange(e.sys, e.messages).value;
      var t := ScheduleAll(a.sys, a.tasks).value;
      TasksDecide(a.sys, a.tasks, t);
      HaltsWhenNothingCanRun(r.value.sys);
    }
  }

  lemma HaltsWhenNothingCanRun(s: Sys)
    requires Agrees(s) && WorkConserving(s)
    ensures s.running == map[] <==> forall p | 0 <= p < s.cells :: !Runnable(s.states[p])
  {
    if s.running == map[] {
      forall p | 0 <= p < s.cells ensures !Runnable(s.states[p]) {
        assert 0 !in s.running;
        assert s.states[p].Running? ==> On(s.running, p, s.states[p].core);
      }
    } else {
      var c :| c in s.running;
      assert Runnable(s.states[s.running[c]]);
    }
  }

  /** No process is on two cores, and no two cores disagree about who runs a process. */
  lemma OneCoreEach(s: Sys, c: nat, d: nat)
    requires Agrees(s) && c in s.running && d in s.running && s.running[c] == s.running[d]
    ensures c == d
  {
    assert s.states[s.running[c]] == Running(c) == Running(d);
  }

  /** At most `n` ticks, ending early when the processor halts. */
  ghost function Run(s: Sys, run: CoreFunction, n: nat): (r: Result<Sys>)
    requires Agrees(s) && WorkConserving(s)
    ensures r.Done? ==> Agrees(r.value) && WorkConserving(r.value)
    decreases n
  {
    if n == 0 then Done(s)
    else
      var c :- TickAll(s, run);
      TickKeepsScheduler(s, run);
      if c.halted then Done(c.sys) else Run(c.sys, run, n - 1)
  }

  /** The processor as its instructions are set: one process, on the first core. */
  function Initial(cores: nat, cells: nat, off: Registers, blank: Machine): (s: Sys)
    requires 1 <= cores && cores + 2 < cells <= CELL_BYTES
    ensures Agrees(s) && WorkConserving(s)
  {
    Sys(cores, cells, seq(cores, _ => off), seq(cells, _ => blank),
        seq(cells, p => if p == cores then Running(0) else Dead),
        map[0 := cores], map[], Heap(cells, []), {}, {}, map[cores := 0], map[], map[])
  }
}
