/**
 * In which order cores and processes find each other, and what is kept of a process that ends.
 */
module Placement {
  import opened Isa
  import opened StackMachine
  import opened Simulator
  import opened ProcessorModel
  import opened Scheduler
  import Rendezvous
  import opened Starting

  // ----- the cores that are free -----

  /** Idle cores are listed from the first to the last. */
  lemma {:induction false} IdleInOrder(running: map<nat, nat>, k: nat)
    ensures var idle := IdleCores(running, k);
            && (forall i, j | 0 <= i < j < |idle| :: idle[i] < idle[j])
            && forall c :: c in idle <==> 0 <= c < k && c !in running
  {
    if k > 0 {
      IdleInOrder(running, k - 1);
      var rest := IdleCores(running, k - 1);
      forall i | 0 <= i < |rest| ensures rest[i] < k - 1 { assert rest[i] in rest; }
    }
  }

  /** The task takes a running process off its core, the first to do so. */
  predicate Frees(p: Placed, tasks: seq<Task>, i: nat)
    requires i < |tasks|
  {
    && !tasks[i].Schedule? && tasks[i].pid < |p.states| && p.states[tasks[i].pid].Running?
    && forall j | 0 <= j < i :: tasks[j].Schedule? || tasks[j].pid != tasks[i].pid
  }

  /** The cores freed by the first `k` tasks, in their order. */
  function Freed(p: Placed, tasks: seq<Task>, k: nat): seq<nat>
    requires k <= |tasks|
  {
    if k == 0 then []
    else Freed(p, tasks, k - 1) + if Frees(p, tasks, k - 1) then [p.states[tasks[k - 1].pid].core] else []
  }

  lemma {:induction false} NotTaken(tasks: seq<Task>, k: nat, pid: nat)
    requires k <= |tasks|
    ensures TakenOff(tasks, k, pid) == Nobody <==> forall j | 0 <= j < k :: tasks[j].Schedule? || tasks[j].pid != pid
  {
    if k > 0 { NotTaken(tasks, k - 1, pid); }
  }

  /** A process runs after the first `k` tasks if it ran before and none of them took it off. */
  lemma {:induction false} StillRuns(p: Placed, tasks: seq<Task>, k: nat, pid: nat)
    requires k <= |tasks| && (forall t | t in tasks :: t.pid < |p.states|) && pid < |p.states|
    ensures var q := RemoveTasks(p, tasks, k);
            if TakenOff(tasks, k, pid) == Nobody then q.states[pid] == p.states[pid] else !q.states[pid].Running?
  {
    if k > 0 { StillRuns(p, tasks, k - 1, pid); }
  }

  lemma OneMoreFreed(p: Placed, q: Placed, t: Task, freed: seq<nat>)
    requires t.pid < |q.states| && q.idle == p.idle + freed
    ensures RemoveTask(q, t).idle ==
            p.idle + (freed + if !t.Schedule? && q.states[t.pid].Running? then [q.states[t.pid].core] else [])
  {
  }

  /** Freed cores go behind the idle ones. */
  lemma {:induction false} FreedLast(p: Placed, tasks: seq<Task>, k: nat)
    requires k <= |tasks| && forall t | t in tasks :: t.pid < |p.states|
    ensures RemoveTasks(p, tasks, k).idle == p.idle + Freed(p, tasks, k)
  {
    if k > 0 {
      FreedLast(p, tasks, k - 1);
      var t := tasks[k - 1];
      StillRuns(p, tasks, k - 1, t.pid);
      NotTaken(tasks, k - 1, t.pid);
      OneMoreFreed(p, RemoveTasks(p, tasks, k - 1), t, Freed(p, tasks, k - 1));
    }
  }

  // ----- who gets them -----

  /** The takers get the cores from the end of the list, in turn; who finds none waits. */
  ghost predicate HandedOut(p: Placed, takers: seq<nat>, q: Placed) {
    && |q.states| == |p.states|
    && q.idle == p.idle[..if |takers| <= |p.idle| then |p.idle| - |takers| else 0]
    && (forall j | 0 <= j < |takers| :: takers[j] < |q.states| &&
          q.states[takers[j]] == if j < |p.idle| then Running(p.idle[|p.idle| - 1 - j]) else Waiting)
    && forall x | 0 <= x < |p.states| && x !in takers :: q.states[x] == p.states[x]
  }

  lemma OneMoreTaker(p: Placed, takers: seq<nat>, q: Placed, pid: nat)
    requires HandedOut(p, takers, q) && pid < |q.states| && pid !in takers
    ensures HandedOut(p, takers + [pid], Place(q, pid))
  {
    var n := |p.idle|;
    if |takers| < n {
      assert q.idle[|q.idle| - 1] == p.idle[n - 1 - |takers|];
      assert q.idle[..|q.idle| - 1] == p.idle[..n - |takers| - 1];
    }
  }

  /** Whoever found no core still finds none. */
  lemma AgainNone(p: Placed, takers: seq<nat>, q: Placed, pid: nat)
    requires HandedOut(p, takers, q) && pid in takers && q.states[pid] == Waiting
    requires q.idle == []
    ensures HandedOut(p, takers, Place(q, pid))
  {
    assert q.states[pid := Waiting] == q.states;
  }

  lemma TakersWait(p: Placed, takers: seq<nat>, q: Placed, pid: nat)
    requires HandedOut(p, takers, q) && pid in takers && !q.states[pid].Running?
    ensures q.states[pid] == Waiting && q.idle == []
  {
    var j :| 0 <= j < |takers| && takers[j] == pid;
    assert j >= |p.idle|;
  }

  /** A process that does not run is asked for, for the first time. */
  predicate Asks(p: Placed, tasks: seq<Task>, i: nat)
    requires i < |tasks|
  {
    && tasks[i].Schedule? && tasks[i].pid < |p.states| && !p.states[tasks[i].pid].Running?
    && forall j | 0 <= j < i :: tasks[j] != tasks[i]
  }

  function Takers(p: Placed, tasks: seq<Task>, k: nat): seq<nat>
    requires k <= |tasks|
  {
    if k == 0 then [] else Takers(p, tasks, k - 1) + if Asks(p, tasks, k - 1) then [tasks[k - 1].pid] else []
  }

  lemma {:induction false} TakersAre(p: Placed, tasks: seq<Task>, k: nat, pid: nat)
    requires k <= |tasks|
    ensures pid in Takers(p, tasks, k) <==> pid < |p.states| && !p.states[pid].Running? && AskedFor(tasks, k, pid)
  {
    if k > 0 {
      TakersAre(p, tasks, k - 1, pid);
      assert AskedFor(tasks, k, pid) <==> AskedFor(tasks, k - 1, pid) || tasks[k - 1] == Schedule(pid);
      if Asks(p, tasks, k - 1) {
        assert tasks[k - 1] == Schedule(tasks[k - 1].pid);
      } else if tasks[k - 1] == Schedule(pid) && pid < |p.states| && !p.states[pid].Running? {
        var j :| 0 <= j < k - 1 && tasks[j] == tasks[k - 1];
        assert AskedFor(tasks, k - 1, pid);
      }
    }
  }

  lemma OneMoreAsked(p: Placed, q: Placed, t: Task, takers: seq<nat>, asks: bool)
    requires HandedOut(p, takers, q) && t.pid < |p.states|
    requires asks <==> t.Schedule? && !p.states[t.pid].Running? && t.pid !in takers
    requires t.Schedule? && t.pid in takers ==> !p.states[t.pid].Running?
    ensures HandedOut(p, takers + if asks then [t.pid] else [],
                      if t.Schedule? && !q.states[t.pid].Running? then Place(q, t.pid) else q)
  {
    assert takers + [] == takers;
    if t.Schedule? {
      if t.pid !in takers {
        if asks { OneMoreTaker(p, takers, q, t.pid); }
      } else if !q.states[t.pid].Running? {
        TakersWait(p, takers, q, t.pid);
        AgainNone(p, takers, q, t.pid);
      }
    }
  }

  /** In the second pass cores go to those asked for, in the order in which they are first asked for. */
  lemma {:induction false} AskedInOrder(p: Placed, tasks: seq<Task>, k: nat)
    requires k <= |tasks| && forall t | t in tasks :: t.pid < |p.states|
    ensures HandedOut(p, Takers(p, tasks, k), PlaceTasks(p, tasks, k))
  {
    if k > 0 {
      AskedInOrder(p, tasks, k - 1);
      TakersAre(p, tasks, k - 1, tasks[k - 1].pid);
      assert tasks[k - 1].Schedule? ==> tasks[k - 1] == Schedule(tasks[k - 1].pid);
      OneMoreAsked(p, PlaceTasks(p, tasks, k - 1), tasks[k - 1], Takers(p, tasks, k - 1), Asks(p, tasks, k - 1));
    }
  }

  /** Those who wait, by their number. */
  function Waiters(p: Placed, first: nat, n: nat): seq<nat>
    requires n <= |p.states|
  {
    if n <= first then [] else Waiters(p, first, n - 1) + if p.states[n - 1] == Waiting then [n - 1] else []
  }

  lemma {:induction false} WaitersAre(p: Placed, first: nat, n: nat)
    requires n <= |p.states|
    ensures forall x :: x in Waiters(p, first, n) <==> first <= x < n && p.states[x] == Waiting
    ensures forall i, j | 0 <= i < j < |Waiters(p, first, n)| :: Waiters(p, first, n)[i] < Waiters(p, first, n)[j]
  {
    if n > first {
      WaitersAre(p, first, n - 1);
      var rest := Waiters(p, first, n - 1);
      forall i | 0 <= i < |rest| ensures rest[i] < n - 1 { assert rest[i] in rest; }
    }
  }

  lemma OneMoreWaiter(p: Placed, q: Placed, waiters: seq<nat>, x: nat)
    requires HandedOut(p, waiters, q) && x < |p.states| && x !in waiters
    ensures HandedOut(p, waiters + if p.states[x] == Waiting then [x] else [],
                      if q.idle != [] && q.states[x] == Waiting then Place(q, x) else q)
  {
    assert waiters + [] == waiters && q.states[x] == p.states[x];
    if p.states[x] == Waiting && q.idle != [] { OneMoreTaker(p, waiters, q, x); }
  }

  /** In the third pass what is left goes to those who wait, the lowest number first. */
  lemma {:induction false} WaitingInOrder(p: Placed, first: nat, n: nat)
    requires n <= |p.states|
    ensures HandedOut(p, Waiters(p, first, n), PlaceWaiting(p, first, n))
  {
    if n > first {
      WaitingInOrder(p, first, n - 1);
      WaitersAre(p, first, n - 1);
      OneMoreWaiter(p, PlaceWaiting(p, first, n - 1), Waiters(p, first, n - 1), n - 1);
    }
  }

  // ----- what is kept of those who end -----

  /** The task ends a process, and this is its number. */
  predicate Ends(s: Sys, t: Task, n: nat) {
    t.Destroy? && t.pid in s.numbers && s.numbers[t.pid] == n
  }

  ghost predicate Ended(s: Sys, tasks: seq<Task>, k: nat, n: nat)
    requires k <= |tasks|
  {
    exists i :: 0 <= i < k && Ends(s, tasks[i], n)
  }

  ghost predicate EndedWith(s: Sys, tasks: seq<Task>, k: nat, n: nat, stack: seq<Word>)
    requires k <= |tasks| && forall t | t in tasks :: t.pid < |s.machines|
  {
    exists i :: 0 <= i < k && Ends(s, tasks[i], n) && stack == s.machines[tasks[i].pid].stack
                && forall j | i < j < k :: !Ends(s, tasks[j], n)
  }

  /** Each entry is the stack of the last process with that number that has ended, or an old one; and none is lost. */
  ghost predicate Kept(s: Sys, tasks: seq<Task>, k: nat, finals: map<nat, seq<Word>>)
    requires k <= |tasks| && forall t | t in tasks :: t.pid < |s.machines|
  {
    forall n :: (n in finals <==> n in s.finals || Ended(s, tasks, k, n))
                && (n in finals ==> if Ended(s, tasks, k, n) then EndedWith(s, tasks, k, n, finals[n])
                                    else n in s.finals && finals[n] == s.finals[n])
  }

  /** The stacks of all who end are kept by number; only a process without a number makes this fail. */
  lemma {:induction false} FinalsAreKept(s: Sys, tasks: seq<Task>, k: nat)
    requires k <= |tasks| && forall t | t in tasks :: t.pid < |s.machines|
    ensures var r := FinalStacks(s, tasks, k);
            && (r.Done? <==> forall i | 0 <= i < k && tasks[i].Destroy? :: tasks[i].pid in s.numbers)
            && (r.Done? ==> Kept(s, tasks, k, r.value))
  {
    if k > 0 {
      FinalsAreKept(s, tasks, k - 1);
      var r := FinalStacks(s, tasks, k - 1);
      if r.Done? && FinalStacks(s, tasks, k).Done? { OneMoreKept(s, tasks, k - 1, r.value, FinalStacks(s, tasks, k).value); }
    }
  }

  lemma OneMoreEnded(s: Sys, tasks: seq<Task>, k: nat, n: nat, stack: seq<Word>)
    requires k < |tasks| && forall t | t in tasks :: t.pid < |s.machines|
    ensures Ended(s, tasks, k + 1, n) <==> Ended(s, tasks, k, n) || Ends(s, tasks[k], n)
    ensures EndedWith(s, tasks, k, n, stack) && !Ends(s, tasks[k], n) ==> EndedWith(s, tasks, k + 1, n, stack)
    ensures Ends(s, tasks[k], n) && stack == s.machines[tasks[k].pid].stack ==> EndedWith(s, tasks, k + 1, n, stack)
  {
  }

  lemma OneMoreKept(s: Sys, tasks: seq<Task>, k: nat, a: map<nat, seq<Word>>, b: map<nat, seq<Word>>)
    requires k < |tasks| && forall t | t in tasks :: t.pid < |s.machines|
    requires Kept(s, tasks, k, a) && (tasks[k].Destroy? ==> tasks[k].pid in s.numbers)
    requires b == if tasks[k].Destroy? then a[s.numbers[tasks[k].pid] := s.machines[tasks[k].pid].stack] else a
    ensures Kept(s, tasks, k + 1, b)
  {
    forall n: nat
      ensures n in b <==> n in s.finals || Ended(s, tasks, k + 1, n)
      ensures n in b ==> if Ended(s, tasks, k + 1, n) then EndedWith(s, tasks, k + 1, n, b[n]) else n in s.finals && b[n] == s.finals[n]
    {
      OneMoreEnded(s, tasks, k, n, if n in b then b[n] else []);
    }
  }

  // ----- numbers -----

  /** The numbers given out are the first ones, each once. */
  predicate Numbered(numbers: map<nat, nat>) {
    && (forall p | p in numbers :: numbers[p] < |numbers|)
    && forall p, q | p in numbers && q in numbers && p != q :: numbers[p] != numbers[q]
  }

  /** They are at the beginning: the process that is there first has the number 0. */
  lemma FirstIsZero(cores: nat, cells: nat, off: Registers, blank: Machine)
    requires 1 <= cores && cores + 2 < cells <= CELL_BYTES
    ensures var s := Initial(cores, cells, off, blank);
            && Numbered(s.numbers) && s.numbers.Keys == {cores} && s.numbers[cores] == 0 && s.finals == map[]
            && forall p | 0 <= p < cells :: s.states[p] != Dead <==> p == cores
  {
  }

  /** A start keeps the numbers apart from then on exactly when its slot had none yet: a slot used again takes a number twice. */
  lemma NumbersStayApart(s: Sys, pid: nat, child: nat, pc: Word, words: Word, r: Sys)
    requires Numbered(s.numbers) && pid < |s.machines| && child < |s.machines| && Splits(s, pid, child, pc, words, r)
    ensures Numbered(r.numbers) <==> child !in s.numbers
    ensures forall p | p in r.numbers && p != child :: r.numbers[p] != r.numbers[child]
  {
    assert r.numbers == s.numbers[child := |s.numbers|];
    MapGrows(s.numbers, child, |s.numbers|);
  }

  lemma MapGrows<K, V>(m: map<K, V>, k: K, v: V)
    ensures |m[k := v]| == |m| + if k in m then 0 else 1
  {
    assert m[k := v].Keys == m.Keys + {k};
    assert |m[k := v]| == |m[k := v].Keys| && |m| == |m.Keys|;
    if k in m { assert m.Keys + {k} == m.Keys; }
  }

  /** The next start after a slot has been used again gives a number that is taken. */
  lemma ReuseMakesNumbersClash(s: Sys, a: nat, child: nat, pc: Word, words: Word, r: Sys, b: nat, other: nat, pc': Word, words': Word, t: Sys)
    requires Numbered(s.numbers) && child in s.numbers && other !in s.numbers
    requires a < |s.machines| && child < |s.machines| && Splits(s, a, child, pc, words, r)
    requires b < |r.machines| && other < |r.machines| && Splits(r, b, other, pc', words', t)
    ensures child != other && child in t.numbers && other in t.numbers && t.numbers[child] == t.numbers[other]
  {
    assert r.numbers == s.numbers[child := |s.numbers|];
    MapGrows(s.numbers, child, |s.numbers|);
  }
}
