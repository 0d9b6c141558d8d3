/**
 * A process that ends, or yields, in a tick: its core is free, and if it has ended, its stack is kept.
 */
module Ending {
  import opened Isa
  import opened StackMachine
  import opened Simulator
  import opened ProcessorModel
  import opened Scheduler
  import Rendezvous
  import opened Starting
  import opened Placement
  import Alternation

  /** The process on core `c` ends or yields, nobody starts a process, and it stands in no channel. */
  ghost predicate Stops(s: Sys, ms: Messages, c: nat, pid: nat, m: Message) {
    && Agrees(s) && Reporting(s, ms) && c < |ms| && On(s.running, pid, c) && OnlyStarter(ms, c) && Unnamed(s, pid)
    && ms[c] == Just(m) && (m == Halt || m == Yielded)
  }

  function StopTask(m: Message, pid: nat): Task {
    if m == Halt then Destroy(pid) else Deschedule(pid)
  }

  /** The message itself, among the others. */
  lemma StopHandled(e: Sys, ms: Messages, c: nat, pid: nat, m: Message, a: AllHandled)
      returns (b: AllHandled, from: nat, d: AllHandled)
    requires Stops(e, ms, c, pid, m) && HandleCores(e, ms, |ms|) == Done(a)
    ensures HandleCores(e, ms, c) == Done(b) && c < from <= |ms| && HandleCores(e, ms, from) == Done(d)
    ensures d.sys == b.sys && d.tasks == b.tasks + [StopTask(m, pid)] && c < |d.replies| && d.replies[c] == Just(SaveToMemory)
  {
    from := c + 1;
    EarlierDone(e, ms, from, |ms|);
    d := HandleCores(e, ms, from).value;
    var h;
    b, h := LastMessage(e, ms, c, d);
  }

  lemma BeforeStop(e: Sys, ms: Messages, c: nat, pid: nat, m: Message, none: AllHandled, b: AllHandled)
    requires Stops(e, ms, c, pid, m) && HandleCores(e, ms, 0) == Done(none) && HandleCores(e, ms, c) == Done(b)
    ensures Continues(none, b, {pid})
  {
    NobodyElse(e, c, pid, pid);
    MessagesLeave(e, ms, 0, none, c, b, c, {pid});
  }

  lemma BehindStop(e: Sys, ms: Messages, c: nat, pid: nat, m: Message, from: nat, d: AllHandled, a: AllHandled)
    requires Stops(e, ms, c, pid, m) && c < from <= |ms| && Unnamed(d.sys, pid)
    requires HandleCores(e, ms, from) == Done(d) && HandleCores(e, ms, |ms|) == Done(a)
    ensures Continues(d, a, {pid})
  {
    NobodyElse(e, c, pid, pid);
    MessagesLeave(e, ms, from, d, |ms|, a, c, {pid});
  }

  /** All messages handled: the process is as it was, and is to stop. */
  ghost predicate ToStop(e: Sys, pid: nat, m: Message, r: Sys, tasks: seq<Task>) {
    && pid < |e.machines| == |r.machines| && r.machines[pid] == e.machines[pid] && r.numbers == e.numbers
    && StopTask(m, pid) in tasks && forall t | t in tasks && t.pid == pid :: t == StopTask(m, pid)
  }

  lemma MessagesStop(e: Sys, ms: Messages, c: nat, pid: nat, m: Message, a: AllHandled)
    requires Stops(e, ms, c, pid, m) && HandleCores(e, ms, |ms|) == Done(a)
    ensures ToStop(e, pid, m, a.sys, a.tasks) && c < |a.replies| && a.replies[c] == Just(SaveToMemory)
  {
    var none := HandleCores(e, ms, 0).value;
    var b, from, d := StopHandled(e, ms, c, pid, m, a);
    BeforeStop(e, ms, c, pid, m, none, b);
    assert Leaves(none.sys, b.sys, pid) by { assert pid in {pid}; }
    BehindStop(e, ms, c, pid, m, from, d, a);
    StopThrough(none, b, d, a, pid, m);
    assert d.replies[c] == a.replies[c];
  }

  lemma StopThrough(none: AllHandled, b: AllHandled, d: AllHandled, a: AllHandled, pid: nat, m: Message)
    requires none.tasks == [] && Continues(none, b, {pid}) && Continues(d, a, {pid})
    requires d.sys == b.sys && d.tasks == b.tasks + [StopTask(m, pid)]
    ensures ToStop(none.sys, pid, m, a.sys, a.tasks)
  {
    assert pid in {pid};
    assert Leaves(none.sys, b.sys, pid) && Leaves(d.sys, a.sys, pid);
    assert d.tasks[|b.tasks|] == StopTask(m, pid) && a.tasks[|b.tasks|] == d.tasks[|b.tasks|];
    assert forall t | t in b.tasks :: t.pid != pid;
    forall t | t in a.tasks && t.pid == pid ensures t == StopTask(m, pid) {
      assert t in d.tasks;
    }
  }

  lemma {:induction false} TakenOffAs(tasks: seq<Task>, k: nat, pid: nat, m: Message)
    requires k <= |tasks| && (m == Halt || m == Yielded) && forall t | t in tasks && t.pid == pid :: t == StopTask(m, pid)
    ensures if exists i :: 0 <= i < k && tasks[i] == StopTask(m, pid)
            then TakenOff(tasks, k, pid) == Just(if m == Halt then Dead else Inactive) else TakenOff(tasks, k, pid) == Nobody
  {
    if k > 0 {
      TakenOffAs(tasks, k - 1, pid, m);
      assert tasks[k - 1] in tasks;
    }
  }

  lemma StopDecides(before: ProcessState, tasks: seq<Task>, pid: nat, m: Message, after: ProcessState)
    requires (m == Halt || m == Yielded) && StopTask(m, pid) in tasks && forall t | t in tasks && t.pid == pid :: t == StopTask(m, pid)
    requires Decided(before, tasks, pid, after)
    ensures after == if m == Halt then Dead else Inactive
  {
    var i :| 0 <= i < |tasks| && tasks[i] == StopTask(m, pid);
    TakenOffAs(tasks, |tasks|, pid, m);
    assert !AskedFor(tasks, |tasks|, pid) by {
      forall j | 0 <= j < |tasks| ensures tasks[j] != Schedule(pid) { assert tasks[j] in tasks; }
    }
  }

  /** Of two processes with one number only one can have ended. */
  lemma StackIsKept(b: Sys, tasks: seq<Task>, pid: nat, t: Sys)
    requires (forall x | x in tasks :: x.pid < |b.machines|) && Destroy(pid) in tasks && Numbered(b.numbers)
    requires pid < |b.machines| && FinalStacks(b, tasks, |tasks|) == Done(t.finals)
    ensures pid in b.numbers && b.numbers[pid] in t.finals && t.finals[b.numbers[pid]] == b.machines[pid].stack
  {
    FinalsAreKept(b, tasks, |tasks|);
    var i :| 0 <= i < |tasks| && tasks[i] == Destroy(pid);
    assert tasks[i].Destroy? && Ends(b, tasks[i], b.numbers[pid]);
    assert Ended(b, tasks, |tasks|, b.numbers[pid]);
    var j :| 0 <= j < |tasks| && Ends(b, tasks[j], b.numbers[pid]) && t.finals[b.numbers[pid]] == b.machines[tasks[j].pid].stack;
  }

  lemma StillStops(s: Sys, e: Sys, ms: Messages, c: nat, pid: nat, m: Message)
    requires Stops(s, ms, c, pid, m) && e == s.(registers := e.registers, machines := e.machines) && Agrees(e)
    ensures Stops(e, ms, c, pid, m)
  {
    assert forall p :: Unnamed(s, p) <==> Unnamed(e, p);
  }

  lemma AnswersSave(e: Sys, a: AllHandled, b: Sys, c: nat, pid: nat)
    requires Agrees(e) && On(e.running, pid, c) && Keeps(e, a.sys, a.tasks) && pid < |a.sys.machines|
    requires |a.replies| == e.cores && (forall d | 0 <= d < e.cores :: a.replies[d].Just? ==> d in e.running)
    requires c < e.cores && a.replies[c] == Just(SaveToMemory) && b == AnswerCores(a.sys, a.replies, e.cores)
    ensures |b.machines| == |a.sys.machines| && b.machines[pid] == a.sys.machines[pid]
  {
    Alternation.AnswersReach(a.sys, a.replies, e.cores);
    assert Alternation.Gets(a.replies, e.cores, c);
  }

  /**
   * A tick in which a process ends or yields, whatever the others do but start processes: it is off its
   * core, dead or inactive, with the stack it had; and the stack of one that ended is kept by its number.
   */
  lemma TickStops(s: Sys, run: CoreFunction, c: nat, pid: nat, m: Message, t: Sys) returns (e: Sys)
    requires Agrees(s) && TickAll(s, run).Done? && TickAll(s, run).value.sys == t
    requires Stops(s, Rendezvous.Reported(s, run), c, pid, m)
    ensures ExecuteCores(s, run, s.cores) == Done(Executed(e, Rendezvous.Reported(s, run))) && pid < |e.machines| == |t.machines|
    ensures t.machines[pid] == e.machines[pid] && pid < |t.states| && t.states[pid] == if m == Halt then Dead else Inactive
    ensures m == Halt && Numbered(s.numbers) ==>
              pid in s.numbers && s.numbers[pid] in t.finals && t.finals[s.numbers[pid]] == e.machines[pid].stack
  {
    var ms := Rendezvous.Reported(s, run);
    var x, a, b := Rendezvous.TickParts(s, run, t);
    e := x;
    StillStops(s, e, ms, c, pid, m);
    MessagesStop(e, ms, c, pid, m, a);
    AnswersSave(e, a, b, c, pid);
    StopScheduled(b, a.tasks, pid, m, t);
  }

  /** The scheduler takes it off, and keeps its stack if it has ended. */
  lemma StopScheduled(b: Sys, tasks: seq<Task>, pid: nat, m: Message, t: Sys)
    requires Agrees(b) && (forall x | x in tasks :: IsPid(b, x.pid)) && ScheduleAll(b, tasks) == Done(t) && (m == Halt || m == Yielded)
    requires StopTask(m, pid) in tasks && forall x | x in tasks && x.pid == pid :: x == StopTask(m, pid)
    ensures t.machines == b.machines && pid < |t.states| == |t.machines| && t.states[pid] == if m == Halt then Dead else Inactive
    ensures m == Halt && Numbered(b.numbers) ==>
              pid in b.numbers && b.numbers[pid] in t.finals && t.finals[b.numbers[pid]] == b.machines[pid].stack
  {
    assert IsPid(b, StopTask(m, pid).pid);
    TasksDecide(b, tasks, t);
    StopDecides(b.states[pid], tasks, pid, m, t.states[pid]);
    if m == Halt && Numbered(b.numbers) { StackIsKept(b, tasks, pid, t); }
  }
}
