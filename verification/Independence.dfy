/**
 * The tick itself, process by process, and the theorem: every run of the processor is a schedule of
 * the net, so two runs that halt end with the same machines, whatever cores there were and whoever
 * was scheduled when.
 */
module Independence {
  import opened Wrappers
  import opened Isa
  import opened StackMachine
  import opened WordMemory
  import opened Simulator
  import opened ProcessorModel
  import opened Scheduler
  import opened Rendezvous
  import opened Net
  import opened Threads
  import opened Interleaving

  // ----- one message, in the processor -----

  /** The slot of a channel that a message wakes someone from. */
  predicate WakesFrom(v: View, m: Message)
    requires m.SendOn? || m.ReceiveOn? ==> m.channel in v.s.channels
  {
    (m.SendOn? || m.ReceiveOn?) && !Meets(v.ms, m.channel) && v.s.channels[m.channel].pid != NO_PROCESS
  }

  function Waited(v: View, m: Message): Word
    requires (m.SendOn? || m.ReceiveOn?) && m.channel in v.s.channels
  {
    if m.SendOn? then m.value else v.s.channels[m.channel].value
  }

  function OnTop(m: Machine, xs: seq<Word>): Machine {
    m.(stack := xs + m.stack)
  }

  lemma NothingOnTop(m: Machine)
    ensures OnTop(m, []) == m
  {
    assert [] + m.stack == m.stack;
  }

  function TasksOf(v: View, p: nat, m: Message): seq<Task>
    requires m.SendOn? || m.ReceiveOn? ==> m.channel in v.s.channels
  {
    if m.Halt? then [Destroy(p)]
    else if m.Yielded? then [Deschedule(p)]
    else if !m.SendOn? && !m.ReceiveOn? then []
    else if Meets(v.ms, m.channel) then []
    else if v.s.channels[m.channel].pid != NO_PROCESS then [Schedule(v.s.channels[m.channel].pid)]
    else [Deschedule(p)]
  }

  function MachinesAfter(v: View, machines: seq<Machine>, m: Message): seq<Machine>
    requires m.SendOn? || m.ReceiveOn? ==> m.channel in v.s.channels && m.channel in v.own && v.own[m.channel].receiver < |machines|
  {
    if WakesFrom(v, m) then
      var q := v.own[m.channel].receiver;
      machines[q := Pushed(machines[q], Waited(v, m))]
    else machines
  }

  function ReplyOf(v: View, m: Message): Maybe<Reply> {
    if m.ReceiveOn? && m.channel in SendsOf(v.ms) then Just(Received(m.channel, SendsOf(v.ms)[m.channel]))
    else if m.Nothing? || (m.SendOn? && m.channel in ListenersOf(v.ms)) then Nobody
    else Just(SaveToMemory)
  }

  /** Handling a message, told by the system before the tick. */
  lemma HandleDoes(v: View, k: nat, u: Sys, h: Handled)
    requires Proper(v) && k < |v.ms| && v.ms[k].Just? && k in v.s.running && Mid(v.e, v.own, v.ms, k, u)
    requires Shaped(u) && u.running == v.s.running && u.cores == v.s.cores && u.cells == v.s.cells
    requires Handle(u, v.s.running[k], v.ms[k].value, SendsOf(v.ms), ListenersOf(v.ms)) == Done(h)
    ensures var m := v.ms[k].value;
            && (m.SendOn? || m.ReceiveOn? ==> m.channel in v.s.channels && IsPid(v.s, v.own[m.channel].receiver))
            && h.tasks == TasksOf(v, v.s.running[k], m)
            && h.sys.machines == MachinesAfter(v, u.machines, m)
            && h.reply == ReplyOf(v, m)
  {
    var m := v.ms[k].value;
    if m.SendOn? || m.ReceiveOn? {
      var ch := m.channel;
      UsedChannel(v, k, ch);
      UserIsOwner(v, k, ch);
      assert Owned(v.s, v.own[ch]);
      ListensOrSends(v.ms, k, ch);
      SlotStillThere(v, k, u, ch);
      if m.SendOn? { SendDoes(v, k, u, h, ch); } else { ReceiveDoes(v, k, u, h, ch); }
    }
  }

  lemma SlotStillThere(v: View, k: nat, u: Sys, ch: nat)
    requires Proper(v) && k < |v.ms| && Uses(v.ms[k], ch) && Mid(v.e, v.own, v.ms, k, u)
    ensures ch in v.s.channels && ch in u.channels && (!Meets(v.ms, ch) ==> u.channels[ch] == v.s.channels[ch])
  {
    UserIsOwner(v, k, ch);
    SameLinked(v.s, v.e, v.own, v.ms);
    NamedIsOld(v.e, v.own, v.ms, k, ch);
    assert MidSlot(v.e, v.own, v.ms, k, u, ch);
    ExpectedStep(SlotOf(v.e, ch), v.own[ch], v.ms, k, ch);
    ListensOrSends(v.ms, k, ch);
  }

  lemma SendDoes(v: View, k: nat, u: Sys, h: Handled, ch: nat)
    requires Sized(v) && k < |v.ms| && SendsOn(v.ms[k], ch) && k in v.s.running && UsedFacts(v, k, ch)
    requires Shaped(u) && ch in u.channels && (!Meets(v.ms, ch) ==> u.channels[ch] == v.s.channels[ch])
    requires v.own[ch].receiver < |u.machines| && IsPid(u, v.s.running[k]) && !v.s.channels[ch].inAlternation
    requires Handle(u, v.s.running[k], v.ms[k].value, SendsOf(v.ms), ListenersOf(v.ms)) == Done(h)
    ensures h.tasks == TasksOf(v, v.s.running[k], v.ms[k].value)
    ensures h.sys.machines == MachinesAfter(v, u.machines, v.ms[k].value) && h.reply == ReplyOf(v, v.ms[k].value)
  {
  }

  lemma ReceiveDoes(v: View, k: nat, u: Sys, h: Handled, ch: nat)
    requires Sized(v) && k < |v.ms| && ReceivesOn(v.ms[k], ch) && k in v.s.running && UsedFacts(v, k, ch)
    requires Shaped(u) && ch in u.channels && (!Meets(v.ms, ch) ==> u.channels[ch] == v.s.channels[ch])
    requires v.own[ch].receiver == v.s.running[k] < |u.machines| && IsPid(u, v.s.running[k])
    requires Handle(u, v.s.running[k], v.ms[k].value, SendsOf(v.ms), ListenersOf(v.ms)) == Done(h)
    ensures h.tasks == TasksOf(v, v.s.running[k], v.ms[k].value)
    ensures h.sys.machines == MachinesAfter(v, u.machines, v.ms[k].value) && h.reply == ReplyOf(v, v.ms[k].value)
  {
  }

  // ----- all messages, in the processor -----

  function FromSlot(v: View, m: Message): seq<Word>
    requires m.SendOn? || m.ReceiveOn? ==> m.channel in v.s.channels
  {
    if m.ReceiveOn? && WakesFrom(v, m) then [Waited(v, m)] else []
  }

  function TakenBy(v: View, m: Message): Maybe<ProcessState>
    requires m.SendOn? || m.ReceiveOn? ==> m.channel in v.s.channels
  {
    if m.Halt? then Just(Dead)
    else if m.Yielded? then Just(Inactive)
    else if (m.SendOn? || m.ReceiveOn?) && !Meets(v.ms, m.channel) && v.s.channels[m.channel].pid == NO_PROCESS then Just(Inactive)
    else Nobody
  }

  ghost predicate RanUpTo(v: View, k: nat, machine: Machine, tasks: seq<Task>, p: nat, c: nat)
    requires Sized(v) && k <= |v.ms| && p < |v.s.states|
  {
    && !AskedFor(tasks, |tasks|, p)
    && if c < k then
         v.ms[c].Just? &&
         var m := v.ms[c].value;
         && (m.SendOn? || m.ReceiveOn? ==> m.channel in v.s.channels)
         && machine == OnTop(v.e.machines[p], FromSlot(v, m)) && TakenOff(tasks, |tasks|, p) == TakenBy(v, m)
       else machine == v.e.machines[p] && TakenOff(tasks, |tasks|, p) == Nobody
  }

  ghost predicate SleptUpTo(v: View, k: nat, machine: Machine, tasks: seq<Task>, p: nat)
    requires Sized(v) && k <= |v.ms| && p < |v.s.states|
  {
    && TakenOff(tasks, |tasks|, p) == Nobody
    && (forall ch | ch in v.own && SleepsIn(v.s, p, ch) ::
          machine == OnTop(v.e.machines[p], Handed(v, k, p, ch)) && (AskedFor(tasks, |tasks|, p) <==> WokenBy(v, k, p, ch)))
    && ((forall ch :: !SleepsIn(v.s, p, ch)) ==> machine == v.e.machines[p] && !AskedFor(tasks, |tasks|, p))
  }

  ghost predicate UpTo(v: View, k: nat, machine: Machine, tasks: seq<Task>, p: nat)
    requires Sized(v) && k <= |v.ms| && p < |v.s.states|
  {
    if v.s.states[p].Running? then RanUpTo(v, k, machine, tasks, p, v.s.states[p].core)
    else SleptUpTo(v, k, machine, tasks, p)
  }

  lemma AskedForOne(tasks: seq<Task>, t: Task, p: nat)
    ensures AskedFor(tasks + [t], |tasks + [t]|, p) <==> AskedFor(tasks, |tasks|, p) || t == Schedule(p)
  {
    assert (tasks + [t])[|tasks|] == t;
    assert forall i | 0 <= i < |tasks| :: (tasks + [t])[i] == tasks[i];
  }

  /** Tasks that are not about the process change nothing for it. */
  lemma OtherTasks(tasks: seq<Task>, more: seq<Task>, p: nat)
    requires |more| <= 1 && forall t | t in more :: t.pid != p
    ensures AskedFor(tasks + more, |tasks + more|, p) <==> AskedFor(tasks, |tasks|, p)
    ensures TakenOff(tasks + more, |tasks + more|, p) == TakenOff(tasks, |tasks|, p)
  {
    if more == [] {
      assert tasks + more == tasks;
    } else {
      assert more == [more[0]];
      AskedForOne(tasks, more[0], p);
      TakenOffOne(tasks, more[0], p);
    }
  }

  lemma BystanderUpTo(v: View, k: nat, machine: Machine, tasks: seq<Task>, after: seq<Task>, p: nat)
    requires Proper(v) && k < |v.ms| && p < |v.s.states| && Bystander(v, k, p) && UpTo(v, k, machine, tasks, p)
    requires AskedFor(after, |after|, p) <==> AskedFor(tasks, |tasks|, p)
    requires TakenOff(after, |after|, p) == TakenOff(tasks, |tasks|, p)
    ensures UpTo(v, k + 1, machine, after, p)
  {
    if !v.s.states[p].Running? {
      SleepingBystanderUpTo(v, k, machine, tasks, after, p);
    }
  }

  lemma SleepingBystanderUpTo(v: View, k: nat, machine: Machine, tasks: seq<Task>, after: seq<Task>, p: nat)
    requires Proper(v) && k < |v.ms| && p < |v.s.states| && Bystander(v, k, p)
    requires AskedFor(after, |after|, p) <==> AskedFor(tasks, |tasks|, p)
    requires TakenOff(after, |after|, p) == TakenOff(tasks, |tasks|, p)
    ensures SleptUpTo(v, k, machine, tasks, p) ==> SleptUpTo(v, k + 1, machine, after, p)
  {
    if SleptUpTo(v, k, machine, tasks, p) {
      forall ch | ch in v.own && SleepsIn(v.s, p, ch)
        ensures WokenBy(v, k + 1, p, ch) == WokenBy(v, k, p, ch) && Handed(v, k + 1, p, ch) == Handed(v, k, p, ch)
      {
        BystanderSleeps(v, k, p, ch);
      }
    }
  }

  /** A process that came first and meets its partner gets no task. */
  lemma MeeterUpTo(v: View, k: nat, machine: Machine, tasks: seq<Task>, p: nat, ch: nat)
    requires Sized(v) && k < |v.ms| && p < |v.s.states| && CameFirst(v, k, p, ch) && UpTo(v, k, machine, tasks, p)
    ensures UpTo(v, k + 1, machine, tasks, p)
  {
  }

  lemma SleeperUpTo(v: View, k: nat, machines: seq<Machine>, tasks: seq<Task>, p: nat, ch: nat)
    requires Proper(v) && k < |v.ms| && v.ms[k].Just? && p < |v.s.states| == |machines| && Slept(v, k, p, ch)
    requires v.own[ch].receiver < |machines| && k in v.s.running && v.s.running[k] != p
    requires (SendsOn(v.ms[k], ch) || v.own[ch].receiver != p) && UpTo(v, k, machines[p], tasks, p)
    ensures UpTo(v, k + 1, MachinesAfter(v, machines, v.ms[k].value)[p], tasks + TasksOf(v, v.s.running[k], v.ms[k].value), p)
  {
    var m := v.ms[k].value;
    SleeperIsInactive(v, p, ch);
    SleeperWokenHere(v, k, machines, p, ch);
    AskedForOne(tasks, Schedule(p), p);
    TakenOffOne(tasks, Schedule(p), p);
    assert TasksOf(v, v.s.running[k], m) == [Schedule(p)];
  }

  lemma SleeperWokenHere(v: View, k: nat, machines: seq<Machine>, p: nat, ch: nat)
    requires Sized(v) && k < |v.ms| && v.ms[k].Just? && p < |v.s.states| == |machines| && Slept(v, k, p, ch)
    requires v.own[ch].receiver < |machines| && (SendsOn(v.ms[k], ch) || v.own[ch].receiver != p)
    requires machines[p] == OnTop(v.e.machines[p], Handed(v, k, p, ch))
    ensures MachinesAfter(v, machines, v.ms[k].value)[p] == OnTop(v.e.machines[p], Handed(v, k + 1, p, ch))
    ensures WokenBy(v, k + 1, p, ch)
  {
    MembersGrow(v, k, ch);
    NothingOnTop(v.e.machines[p]);
  }

  /** The process whose message is dealt with. */
  lemma OwnUpTo(v: View, k: nat, machines: seq<Machine>, tasks: seq<Task>, p: nat)
    requires Sized(v) && k < |v.ms| && v.ms[k].Just? && p < |v.s.states| == |machines| && v.s.states[p] == Running(k)
    requires UseIsKnown(v, k) && Plain(v.ms[k]) && UpTo(v, k, machines[p], tasks, p)
    requires v.ms[k].value.SendOn? || v.ms[k].value.ReceiveOn? ==>
               var ch := v.ms[k].value.channel;
               v.own[ch].receiver < |machines| && p == (if v.ms[k].value.SendOn? then v.own[ch].sender else v.own[ch].receiver) &&
               (v.s.channels[ch].pid != NO_PROCESS ==> v.s.channels[ch].pid != p)
    ensures UpTo(v, k + 1, MachinesAfter(v, machines, v.ms[k].value)[p], tasks + TasksOf(v, p, v.ms[k].value), p)
  {
    var m := v.ms[k].value;
    var more := TasksOf(v, p, m);
    if more == [] {
      assert tasks + more == tasks;
    } else {
      assert more == [more[0]];
      AskedForOne(tasks, more[0], p);
      TakenOffOne(tasks, more[0], p);
    }
    NothingOnTop(v.e.machines[p]);
  }

  /** Only a sleeper is scheduled, and only a sleeper or the process itself is handed anything. */
  lemma OthersUntouched(v: View, k: nat, p: nat, q: nat, machines: seq<Machine>)
    requires Proper(v) && k < |v.ms| && v.ms[k].Just? && k in v.s.running && p == v.s.running[k] && UseIsKnown(v, k)
    requires q < |v.s.states| == |machines| && q != p && !(exists ch :: Slept(v, k, q, ch))
    requires v.ms[k].value.SendOn? || v.ms[k].value.ReceiveOn? ==> v.own[v.ms[k].value.channel].receiver < |machines|
    ensures MachinesAfter(v, machines, v.ms[k].value)[q] == machines[q]
    ensures forall t | t in TasksOf(v, p, v.ms[k].value) :: t.pid != q
  {
    var m := v.ms[k].value;
    if m.SendOn? || m.ReceiveOn? {
      var ch := m.channel;
      UserIsOwner(v, k, ch);
      if !Meets(v.ms, ch) && v.s.channels[ch].pid != NO_PROCESS {
        PartnerSlept(v, k, ch);
      }
    }
  }

  lemma MessageUpTo(v: View, k: nat, machines: seq<Machine>, tasks: seq<Task>, p: nat, q: nat)
    requires Proper(v) && k < |v.ms| && v.ms[k].Just? && k in v.s.running && p == v.s.running[k] && UseIsKnown(v, k)
    requires q < |v.s.states| == |machines| && UpTo(v, k, machines[q], tasks, q)
    requires v.ms[k].value.SendOn? || v.ms[k].value.ReceiveOn? ==> v.own[v.ms[k].value.channel].receiver < |machines|
    ensures UpTo(v, k + 1, MachinesAfter(v, machines, v.ms[k].value)[q], tasks + TasksOf(v, p, v.ms[k].value), q)
  {
    var m := v.ms[k].value;
    if q == p {
      if m.SendOn? || m.ReceiveOn? { UserIsOwner(v, k, m.channel); }
      OwnUpTo(v, k, machines, tasks, p);
    } else if Bystander(v, k, q) {
      assert forall ch :: !Slept(v, k, q, ch);
      OthersUntouched(v, k, p, q, machines);
      OtherTasks(tasks, TasksOf(v, p, m), q);
      BystanderUpTo(v, k, machines[q], tasks, tasks + TasksOf(v, p, m), q);
    } else {
      var ch := Concerned(v, k, q);
      assert Uses(v.ms[k], ch) && m.channel == ch;
      if CameFirst(v, k, q, ch) {
        MeeterUpTo(v, k, machines[q], tasks, q, ch);
        assert TasksOf(v, p, m) == [] && tasks + [] == tasks;
      } else {
        UserIsOwner(v, k, ch);
        SleeperUpTo(v, k, machines, tasks, q, ch);
      }
    }
  }

  /** A core without a process. */
  lemma SilentUpTo(v: View, k: nat, machine: Machine, tasks: seq<Task>, q: nat)
    requires Proper(v) && k < |v.ms| && v.ms[k] == Nobody && q < |v.s.states| && UpTo(v, k, machine, tasks, q)
    ensures UpTo(v, k + 1, machine, tasks, q)
  {
    assert v.s.states[q] == Running(k) ==> On(v.s.running, q, k);
    BystanderUpTo(v, k, machine, tasks, tasks, q);
  }

  ghost predicate MachinesUpTo(v: View, k: nat, machines: seq<Machine>, tasks: seq<Task>)
    requires Sized(v) && k <= |v.ms|
  {
    |machines| == |v.s.states| && forall q | 0 <= q < |v.s.states| :: UpTo(v, k, machines[q], tasks, q)
  }

  ghost predicate RepliesUpTo(v: View, k: nat, replies: seq<Maybe<Reply>>)
    requires k <= |v.ms|
  {
    |replies| == k && forall c | 0 <= c < k :: replies[c] == if v.ms[c] == Nobody then Nobody else ReplyOf(v, v.ms[c].value)
  }

  ghost predicate AllUpTo(v: View, k: nat, machines: seq<Machine>, tasks: seq<Task>, replies: seq<Maybe<Reply>>)
    requires Sized(v) && k <= |v.ms|
  {
    MachinesUpTo(v, k, machines, tasks) && RepliesUpTo(v, k, replies)
  }

  lemma MidOf(v: View, k: nat, b: AllHandled)
    requires Proper(v) && k <= |v.ms| && HandleCores(v.e, v.ms, k) == Done(b)
    ensures Mid(v.e, v.own, v.ms, k, b.sys)
  {
    SameLinked(v.s, v.e, v.own, v.ms);
    MessagesKeepMid(v.e, v.own, v.ms, k, b);
  }

  ghost predicate HandledTo(v: View, k: nat, a: AllHandled) {
    Proper(v) && k <= |v.ms| && HandleCores(v.e, v.ms, k) == Done(a)
  }

  ghost predicate DoneTo(v: View, k: nat, a: AllHandled) {
    Sized(v) && k <= |v.ms| && AllUpTo(v, k, a.sys.machines, a.tasks, a.replies)
  }

  /** However the first `k` messages are handled, what they do is done. */
  ghost predicate AllDone(v: View, k: nat) {
    forall a | HandledTo(v, k, a) :: DoneTo(v, k, a)
  }

  lemma {:induction false} MessagesDo(v: View, k: nat)
    ensures AllDone(v, k)
  {
    if k == 0 {
      forall a | HandledTo(v, 0, a) ensures DoneTo(v, 0, a) { NoneDone(v, a); }
    } else {
      MessagesDo(v, k - 1);
      AllDoneMore(v, k - 1);
    }
  }

  lemma AllDoneMore(v: View, k: nat)
    ensures AllDone(v, k) ==> AllDone(v, k + 1)
  {
    if AllDone(v, k) {
      var next := k + 1;
      forall a | HandledTo(v, next, a) ensures DoneTo(v, next, a) {
        var b := LastDone(v, k, a);
      }
    }
  }

  /** One more core's message. */
  lemma LastDone(v: View, k: nat, a: AllHandled) returns (b: AllHandled)
    ensures HandledTo(v, k + 1, a) ==> HandledTo(v, k, b) && (DoneTo(v, k, b) ==> DoneTo(v, k + 1, a))
  {
    b := a;
    if HandledTo(v, k + 1, a) {
      var c, h := LastMessage(v.e, v.ms, k, a);
      b := c;
      MidOf(v, k, b);
      LastReply(v.e, v.ms, k, a, b, h);
      OneMoreDone(v, k, a, b, h);
    }
  }

  lemma LastReply(s: Sys, ms: Messages, k: nat, a: AllHandled, b: AllHandled, h: Handled)
    requires Shaped(s) && k < |ms| == s.cores && forall c | 0 <= c < |ms| :: ms[c].Just? <==> c in s.running
    requires HandleCores(s, ms, k + 1) == Done(a) && HandleCores(s, ms, k) == Done(b)
    requires ms[k].Just? ==> Shaped(b.sys) && IsPid(b.sys, s.running[k])
    requires ms[k].Just? ==> Handle(b.sys, s.running[k], ms[k].value, SendsOf(ms), ListenersOf(ms)) == Done(h)
    ensures a.replies == b.replies + [if ms[k] == Nobody then Nobody else h.reply]
  {
  }

  lemma NoneDone(v: View, a: AllHandled)
    ensures HandledTo(v, 0, a) ==> DoneTo(v, 0, a)
  {
    if HandledTo(v, 0, a) { NothingDone(v); }
  }

  lemma NothingDone(v: View)
    requires Proper(v)
    ensures AllUpTo(v, 0, v.e.machines, [], [])
  {
    assert v.ms[..0] == [];
    forall q | 0 <= q < |v.s.states| ensures UpTo(v, 0, v.e.machines[q], [], q) {
      NothingOnTop(v.e.machines[q]);
    }
  }

  lemma OneMoreDone(v: View, k: nat, a: AllHandled, b: AllHandled, h: Handled)
    requires Proper(v) && k < |v.ms| && Keeps(v.e, b.sys, b.tasks) && Mid(v.e, v.own, v.ms, k, b.sys)
    requires if v.ms[k] == Nobody then a.sys == b.sys && a.tasks == b.tasks
             else k in v.s.running && Handle(b.sys, v.s.running[k], v.ms[k].value, SendsOf(v.ms), ListenersOf(v.ms)) == Done(h) &&
                  a.sys == h.sys && a.tasks == b.tasks + h.tasks
    requires a.replies == b.replies + [if v.ms[k] == Nobody then Nobody else h.reply]
    ensures DoneTo(v, k, b) ==> DoneTo(v, k + 1, a)
  {
    if DoneTo(v, k, b) {
      if v.ms[k] == Nobody {
        OneMoreSilent(v, k, b.sys.machines, b.tasks);
      } else {
        HandleDoes(v, k, b.sys, h);
        OneMoreMessage(v, k, b.sys.machines, b.tasks);
      }
      OneMoreReply(v, k, b.replies, a.replies[k]);
    }
  }

  lemma OneMoreSilent(v: View, k: nat, machines: seq<Machine>, tasks: seq<Task>)
    requires Proper(v) && k < |v.ms| && v.ms[k] == Nobody
    ensures MachinesUpTo(v, k, machines, tasks) ==> MachinesUpTo(v, k + 1, machines, tasks)
  {
    if MachinesUpTo(v, k, machines, tasks) {
      var next := k + 1;
      forall q | 0 <= q < |v.s.states| ensures UpTo(v, next, machines[q], tasks, q) {
        SilentUpTo(v, k, machines[q], tasks, q);
      }
    }
  }

  lemma OneMoreMessage(v: View, k: nat, machines: seq<Machine>, tasks: seq<Task>)
    requires Proper(v) && k < |v.ms| && v.ms[k].Just? && k in v.s.running && |machines| == |v.s.states|
    requires var m := v.ms[k].value;
             m.SendOn? || m.ReceiveOn? ==> m.channel in v.s.channels && v.own[m.channel].receiver < |machines|
    ensures MachinesUpTo(v, k, machines, tasks) ==>
            MachinesUpTo(v, k + 1, MachinesAfter(v, machines, v.ms[k].value), tasks + TasksOf(v, v.s.running[k], v.ms[k].value))
  {
    if MachinesUpTo(v, k, machines, tasks) {
      var m, next := v.ms[k].value, k + 1;
      if m.SendOn? || m.ReceiveOn? { UsedChannel(v, k, m.channel); }
      forall q | 0 <= q < |v.s.states|
        ensures UpTo(v, next, MachinesAfter(v, machines, m)[q], tasks + TasksOf(v, v.s.running[k], m), q)
      {
        assert UpTo(v, k, machines[q], tasks, q);
        MessageUpTo(v, k, machines, tasks, v.s.running[k], q);
      }
    }
  }

  lemma OneMoreReply(v: View, k: nat, replies: seq<Maybe<Reply>>, r: Maybe<Reply>)
    requires k < |v.ms| && r == if v.ms[k] == Nobody then Nobody else ReplyOf(v, v.ms[k].value)
    ensures RepliesUpTo(v, k, replies) ==> RepliesUpTo(v, k + 1, replies + [r])
  {
  }

  // ----- answers, and the end of the tick -----

  /** What the answer to a message puts on the process's stack. */
  function Answered(v: View, c: nat): seq<Word>
    requires c < |v.ms|
  {
    if v.ms[c].Just? && v.ms[c].value.ReceiveOn? && v.ms[c].value.channel in SendsOf(v.ms)
    then [SendsOf(v.ms)[v.ms[c].value.channel]] else []
  }

  ghost predicate AnsweredUpTo(v: View, k: nat, before: seq<Machine>, after: seq<Machine>, q: nat)
    requires Sized(v) && k <= |v.ms| && q < |v.s.states| == |before| == |after|
  {
    after[q] == OnTop(before[q], if v.s.states[q].Running? && v.s.states[q].core < k then Answered(v, v.s.states[q].core) else [])
  }

  ghost predicate AllAnswered(v: View, k: nat, before: seq<Machine>, after: seq<Machine>)
    requires Sized(v) && k <= |v.ms|
  {
    |before| == |after| == |v.s.states| && forall q | 0 <= q < |v.s.states| :: AnsweredUpTo(v, k, before, after, q)
  }

  lemma {:induction false} AnswersDo(v: View, u: Sys, replies: seq<Maybe<Reply>>, k: nat, b: Sys)
    requires Sized(v) && Agrees(v.s) && Shaped(u) && u.running == v.s.running && |u.machines| == |v.s.machines| && u.cores == v.s.cores
    requires k <= |replies| == u.cores && forall c | 0 <= c < |replies| :: replies[c].Just? ==> c in u.running
    requires forall c | 0 <= c < |replies| :: replies[c] == if v.ms[c] == Nobody then Nobody else ReplyOf(v, v.ms[c].value)
    requires b == AnswerCores(u, replies, k)
    ensures AllAnswered(v, k, u.machines, b.machines)
  {
    if k == 0 {
      NoAnswers(v, u.machines);
    } else {
      var a := AnswerCores(u, replies, k - 1);
      AnswersDo(v, u, replies, k - 1, a);
      AnswerDoes(v, u, replies, k - 1, a, b);
      AnsweredAllMore(v, k - 1, u.machines, a.machines, b.machines);
    }
  }

  lemma NoAnswers(v: View, machines: seq<Machine>)
    requires Sized(v) && |machines| == |v.s.states|
    ensures AllAnswered(v, 0, machines, machines)
  {
    forall q | 0 <= q < |v.s.states| ensures AnsweredUpTo(v, 0, machines, machines, q) {
      NothingOnTop(machines[q]);
    }
  }

  lemma AnsweredAllMore(v: View, k: nat, u: seq<Machine>, a: seq<Machine>, b: seq<Machine>)
    requires Sized(v) && Agrees(v.s) && k < |v.ms| && AllAnswered(v, k, u, a) && |a| == |b|
    requires forall q | 0 <= q < |a| :: b[q] == OnTop(a[q], if k in v.s.running && v.s.running[k] == q then Answered(v, k) else [])
    ensures AllAnswered(v, k + 1, u, b)
  {
    var next := k + 1;
    forall q | 0 <= q < |v.s.states| ensures AnsweredUpTo(v, next, u, b, q) {
      AnsweredMore(v, k, u, a, b, q);
    }
  }

  lemma AnswerDoes(v: View, u: Sys, replies: seq<Maybe<Reply>>, k: nat, a: Sys, b: Sys)
    requires Sized(v) && Agrees(v.s) && Shaped(u) && u.running == v.s.running && u.cores == v.s.cores
    requires k < |replies| == u.cores && forall c | 0 <= c < |replies| :: replies[c].Just? ==> c in u.running
    requires replies[k] == if v.ms[k] == Nobody then Nobody else ReplyOf(v, v.ms[k].value)
    requires a == AnswerCores(u, replies, k) && b == AnswerCores(u, replies, k + 1)
    ensures |a.machines| == |b.machines|
    ensures forall q | 0 <= q < |a.machines| ::
              b.machines[q] == OnTop(a.machines[q], if k in v.s.running && v.s.running[k] == q then Answered(v, k) else [])
  {
    forall q | 0 <= q < |a.machines|
      ensures b.machines[q] == OnTop(a.machines[q], if k in v.s.running && v.s.running[k] == q then Answered(v, k) else [])
    {
      NothingOnTop(a.machines[q]);
    }
  }

  lemma AnsweredMore(v: View, k: nat, u: seq<Machine>, a: seq<Machine>, b: seq<Machine>, q: nat)
    requires Sized(v) && Agrees(v.s) && k < |v.ms| && q < |v.s.states| == |u| == |a| == |b| && AnsweredUpTo(v, k, u, a, q)
    requires b[q] == OnTop(a[q], if k in v.s.running && v.s.running[k] == q then Answered(v, k) else [])
    ensures AnsweredUpTo(v, k + 1, u, b, q)
  {
    NothingOnTop(u[q]);
    NothingOnTop(a[q]);
    if v.s.states[q].Running? {
      assert On(v.s.running, q, v.s.states[q].core);
    }
    if k in v.s.running && v.s.running[k] == q {
      assert v.s.states[q] == Running(k);
    }
  }

  lemma AllMembers(v: View)
    ensures Sent(v, |v.ms|) == SendsOf(v.ms) && Heard(v, |v.ms|) == ListenersOf(v.ms)
  {
    assert v.ms[..|v.ms|] == v.ms;
  }

  /** A process at the end of the tick, and in the net. */
  lemma RunnerEnds(v: View, n: Net, q: nat, c: nat, machine: Machine, tasks: seq<Task>, final: Machine, after: ProcessState)
    requires Proper(v) && q < |v.s.states| == |n.status| == |n.threads| && v.s.states[q] == Running(c)
    requires ProcessAt(n, v, |v.ms|, q) && UpTo(v, |v.ms|, machine, tasks, q)
    requires final == OnTop(machine, if c < |v.ms| then Answered(v, c) else [])
    requires Decided(v.s.states[q], tasks, q, after)
    ensures n.threads[q] == Thread(final, v.after[q]) && n.status[q] == StatusOf(after)
  {
    assert On(v.s.running, q, c);
    var m := v.ms[c].value;
    assert Plain(v.ms[c]);
    AllMembers(v);
    NothingOnTop(machine);
    NothingOnTop(v.e.machines[q]);
    if m.ReceiveOn? || m.SendOn? { UsedChannel(v, c, m.channel); ListensOrSends(v.ms, c, m.channel); }
  }

  lemma SleeperEnds(v: View, n: Net, q: nat, machine: Machine, tasks: seq<Task>, final: Machine, after: ProcessState)
    requires Proper(v) && q < |v.s.states| == |n.status| == |n.threads| && !v.s.states[q].Running?
    requires v.e.machines[q] == v.s.machines[q] && v.after[q] == v.known[q]
    requires ProcessAt(n, v, |v.ms|, q) && UpTo(v, |v.ms|, machine, tasks, q)
    requires final == OnTop(machine, []) && Decided(v.s.states[q], tasks, q, after)
    ensures n.threads[q] == Thread(final, v.after[q]) && n.status[q] == StatusOf(after)
  {
    NothingOnTop(machine);
    if ch :| SleepsIn(v.s, q, ch) {
      SleeperIsInactive(v, q, ch);
      assert ch in v.own;
    }
  }

  /** A channel at the end of the tick, and in the net. */
  lemma ChannelEnds(v: View, n: Net, ch: nat, t: Channel)
    requires Proper(v) && NetAt(n, v, |v.ms|) && ch in v.own
    requires t == Expected(SlotOf(v.s, ch), v.own[ch], v.ms, |v.ms|, ch).channel
    ensures n.slots[ch] == CellOf(t, v.own[ch])
  {
    AllMembers(v);
    assert Fair(SlotOf(v.s, ch), v.own[ch]) && Owned(v.s, v.own[ch]);
    ActorsAreAwake(v.s, v.own, v.ms, ch);
    assert n.slots[ch] == CellAt(v, |v.ms|, ch);
  }

  // ----- a tick is a schedule -----

  ghost function NetOf(s: Sys, own: Owners, known: Knowledge): (n: Net)
    requires |s.machines| == |s.states| == |known| && own.Keys == s.channels.Keys
    ensures IsNetOf(n, s, own, known)
  {
    Net(seq(|s.states|, p requires 0 <= p < |s.states| => Thread(s.machines[p], known[p])),
        seq(|s.states|, p requires 0 <= p < |s.states| => StatusOf(s.states[p])),
        map ch | ch in own :: CellOf(s.channels[ch], own[ch]))
  }

  lemma SameNet(n: Net, k: Net, s: Sys, own: Owners, known: Knowledge)
    requires IsNetOf(n, s, own, known) && IsNetOf(k, s, own, known)
    ensures n == k
  {
  }

  lemma NetIsValid(s: Sys, own: Owners, known: Knowledge)
    requires Linked(s, own) && |known| == |s.states|
    ensures Valid(NetOf(s, own, known), own)
  {
    var n := NetOf(s, own, known);
    forall ch | ch in own
      ensures own[ch].sender < |n.status| && own[ch].receiver < |n.status| && own[ch].sender != own[ch].receiver
    {
      assert Owned(s, own[ch]);
    }
    forall ch, p | ch in own && 0 <= p < |n.status| && WaitsIn(own[ch], n.slots[ch], p)
      ensures s.channels[ch].pid == p != NO_PROCESS && n.status[p] == Blocked
    {
      WaiterIsBlocked(s, own, n, ch, p);
    }
  }

  lemma WaiterIsBlocked(s: Sys, own: Owners, n: Net, ch: nat, p: nat)
    requires Linked(s, own) && ch in own && n.slots.Keys == own.Keys && p < |n.status| == |s.states|
    requires n.slots[ch] == CellOf(s.channels[ch], own[ch]) && WaitsIn(own[ch], n.slots[ch], p)
    requires n.status[p] == StatusOf(s.states[p])
    ensures s.channels[ch].pid == p != NO_PROCESS && n.status[p] == Blocked
  {
    assert Owned(s, own[ch]) && Fair(SlotOf(s, ch), own[ch]);
  }

  lemma CellStarts(v: View, ch: nat)
    requires Proper(v) && ch in v.own
    ensures CellAt(v, 0, ch) == CellOf(v.s.channels[ch], v.own[ch])
  {
    assert v.ms[..0] == [];
    ActorsAreAwake(v.s, v.own, v.ms, ch);
    assert Fair(SlotOf(v.s, ch), v.own[ch]);
  }

  lemma ProcessStarts(n: Net, v: View, p: nat)
    requires Sized(v) && p < |v.s.machines| == |n.threads| == |n.status|
    requires n.threads[p] == Before(v, p) && n.status[p] == StatusOf(v.s.states[p])
    ensures ProcessAt(n, v, 0, p)
  {
    assert v.ms[..0] == [];
    NothingOnto(Before(v, p));
  }

  lemma NetStarts(n: Net, v: View)
    requires Proper(v) && IsNetOf(n, v.s, v.own, v.known)
    ensures NetAt(n, v, 0)
  {
    forall p | 0 <= p < |n.status| ensures ProcessAt(n, v, 0, p) {
      ProcessStarts(n, v, p);
    }
    forall ch | ch in v.own ensures n.slots[ch] == CellAt(v, 0, ch) {
      CellStarts(v, ch);
    }
  }

  lemma {:induction false} AfterOneMore(n: Net, own: Owners, program: Program, order: seq<nat>, p: nat)
    requires Valid(n, own) && After(n, own, program, order).Some?
    requires Able(After(n, own, program, order).value, own, program, p)
    ensures After(n, own, program, order + [p]) == Some(StepBy(After(n, own, program, order).value, own, program, p))
    decreases |order|
  {
    if order == [] {
      var r := StepBy(n, own, program, p);
      StepKeepsValid(n, own, program, p);
      assert ([] + [p])[1..] == [] && After(r, own, program, []) == Some(r);
    } else {
      StepKeepsValid(n, own, program, order[0]);
      AfterOneMore(StepBy(n, own, program, order[0]), own, program, order[1..], p);
      assert (order + [p])[1..] == order[1..] + [p];
    }
  }

  /** The running processes, in core order. */
  function Order(s: Sys, k: nat): seq<nat> {
    if k == 0 then [] else Order(s, k - 1) + (if k - 1 in s.running then [s.running[k - 1]] else [])
  }

  ghost predicate RunsAt(program: Program, v: View, c: nat)
    requires Sized(v) && c < |v.ms|
  {
    c in v.s.running ==> v.ms[c].Just? && Runs(program, v, c)
  }

  /** A tick's view, and the net before it. */
  ghost predicate Setting(n: Net, v: View, program: Program) {
    Proper(v) && Valid(n, v.own) && NetAt(n, v, 0) && forall c | 0 <= c < |v.ms| :: RunsAt(program, v, c)
  }

  ghost predicate Reached(n: Net, v: View, program: Program, k: nat, r: Net) {
    && Setting(n, v, program) && k <= |v.ms|
    && After(n, v.own, program, Order(v.s, k)) == Some(r) && Valid(r, v.own) && NetAt(r, v, k)
  }

  ghost predicate CanReach(n: Net, v: View, program: Program, k: nat) {
    exists r :: Reached(n, v, program, k, r)
  }

  lemma {:induction false} CoresStepInOrder(n: Net, v: View, program: Program, k: nat)
    requires k <= |v.ms|
    ensures Setting(n, v, program) ==> CanReach(n, v, program, k)
  {
    if k == 0 {
      NoCoreYet(n, v, program);
    } else {
      CoresStepInOrder(n, v, program, k - 1);
      CanReachMore(n, v, program, k - 1);
    }
  }

  lemma NoCoreYet(n: Net, v: View, program: Program)
    ensures Setting(n, v, program) ==> CanReach(n, v, program, 0)
  {
    if Setting(n, v, program) { assert Reached(n, v, program, 0, n); }
  }

  lemma CanReachMore(n: Net, v: View, program: Program, k: nat)
    ensures CanReach(n, v, program, k) && k < |v.ms| ==> CanReach(n, v, program, k + 1)
  {
    if CanReach(n, v, program, k) && k < |v.ms| {
      var a :| Reached(n, v, program, k, a);
      var r := CoreSteps(n, v, program, k, a);
    }
  }

  lemma CoreSteps(n: Net, v: View, program: Program, k: nat, a: Net) returns (r: Net)
    ensures Reached(n, v, program, k, a) && k < |v.ms| ==> Reached(n, v, program, k + 1, r)
  {
    r := a;
    if Reached(n, v, program, k, a) && k < |v.ms| {
      assert RunsAt(program, v, k);
      if k !in v.s.running {
        SilentStep(a, v, k);
        assert Order(v.s, k + 1) == Order(v.s, k);
      } else {
        var p := v.s.running[k];
        if v.ms[k].value.SendOn? || v.ms[k].value.ReceiveOn? { UsedChannel(v, k, v.ms[k].value.channel); }
        NetStep(a, v, k, program);
        StepKeepsValid(a, v.own, program, p);
        r := StepBy(a, v.own, program, p);
        AfterOneMore(n, v.own, program, Order(v.s, k), p);
      }
    }
  }

  // ----- the instructions of a tick -----

  ghost predicate ExecutedUpTo(s: Sys, run: CoreFunction, k: nat, x: Executed)
    requires Shaped(s) && k <= s.cores == |x.sys.registers| && |x.sys.machines| == |s.machines| && |x.messages| == k
  {
    && (forall c | 0 <= c < k && c in s.running ::
          x.messages[c].Just? &&
          run(s.registers[c], s.machines[s.running[c]]) ==
            Did(x.sys.registers[c], x.sys.machines[s.running[c]], x.messages[c].value))
    && (forall c | k <= c < s.cores :: x.sys.registers[c] == s.registers[c])
    && (forall p | 0 <= p < |s.machines| && !(s.states[p].Running? && s.states[p].core < k) :: x.sys.machines[p] == s.machines[p])
  }

  lemma {:induction false} ExecutionMeaning(s: Sys, run: CoreFunction, k: nat, x: Executed)
    requires Agrees(s) && k <= s.cores && ExecuteCores(s, run, k) == Done(x)
    ensures ExecutedUpTo(s, run, k, x)
  {
    if k > 0 {
      var y := LastExecuted(s, run, k - 1, x);
      ExecutionMeaning(s, run, k - 1, y);
      if k - 1 in s.running {
        OneMoreExecuted(s, run, k - 1, y, x);
      } else {
        NoneExecuted(s, run, k - 1, y, x);
      }
    }
  }

  lemma LastExecuted(s: Sys, run: CoreFunction, k: nat, x: Executed) returns (y: Executed)
    requires Shaped(s) && k < s.cores && ExecuteCores(s, run, k + 1) == Done(x)
    ensures ExecuteCores(s, run, k) == Done(y) && |y.messages| == k && |x.messages| == k + 1 && x.messages[..k] == y.messages
    ensures |y.sys.registers| == |x.sys.registers| == s.cores && |y.sys.machines| == |x.sys.machines| == |s.machines|
    ensures if k in s.running then
              && x.messages[k].Just? && s.running[k] < |s.machines|
              && run(y.sys.registers[k], y.sys.machines[s.running[k]])
                 == Did(x.sys.registers[k], x.sys.machines[s.running[k]], x.messages[k].value)
              && x.sys.registers == y.sys.registers[k := x.sys.registers[k]]
              && x.sys.machines == y.sys.machines[s.running[k] := x.sys.machines[s.running[k]]]
            else x == Executed(y.sys, y.messages + [Nobody])
  {
    y := ExecuteCores(s, run, k).value;
  }

  lemma NoneExecuted(s: Sys, run: CoreFunction, k: nat, y: Executed, x: Executed)
    requires Agrees(s) && k < s.cores && k !in s.running && |y.messages| == k && x == Executed(y.sys, y.messages + [Nobody])
    requires |y.sys.registers| == s.cores && |y.sys.machines| == |s.machines| && ExecutedUpTo(s, run, k, y)
    ensures ExecutedUpTo(s, run, k + 1, x)
  {
    forall p | 0 <= p < |s.machines| && s.states[p].Running? ensures s.states[p].core != k {
      assert On(s.running, p, s.states[p].core);
    }
  }

  lemma OneMoreExecuted(s: Sys, run: CoreFunction, k: nat, y: Executed, x: Executed)
    requires Agrees(s) && k < s.cores && k in s.running && |y.messages| == k && |x.messages| == k + 1
    requires |y.sys.registers| == |x.sys.registers| == s.cores && |y.sys.machines| == |x.sys.machines| == |s.machines|
    requires ExecutedUpTo(s, run, k, y) && x.messages[..k] == y.messages && x.messages[k].Just?
    requires run(y.sys.registers[k], y.sys.machines[s.running[k]])
             == Did(x.sys.registers[k], x.sys.machines[s.running[k]], x.messages[k].value)
    requires x.sys.registers == y.sys.registers[k := x.sys.registers[k]]
    requires x.sys.machines == y.sys.machines[s.running[k] := x.sys.machines[s.running[k]]]
    ensures ExecutedUpTo(s, run, k + 1, x)
  {
    assert s.states[s.running[k]] == Running(k);
    forall c | 0 <= c < k + 1 && c in s.running
      ensures x.messages[c].Just?
      ensures run(s.registers[c], s.machines[s.running[c]]) ==
                Did(x.sys.registers[c], x.sys.machines[s.running[c]], x.messages[c].value)
    {
      assert s.states[s.running[c]] == Running(c);
      if c < k { assert x.messages[c] == y.messages[c]; }
    }
  }

  // ----- the tick and the run -----

  /** A tick of a fixed, alternation-free system whose processes keep to their channels. */
  ghost predicate PlainTick(s: Sys, own: Owners, run: CoreFunction, t: Sys) {
    && Linked(s, own) && TickAll(s, run).Done? && TickAll(s, run).value.sys == t
    && Disciplined(s, own, Reported(s, run)) && forall c | 0 <= c < |Reported(s, run)| :: Plain(Reported(s, run)[c])
  }

  /** A plain tick is a proper view. */
  lemma ViewIsProper(s: Sys, own: Owners, ms: Messages, e: Sys, known: Knowledge, after: Knowledge)
    requires Linked(s, own) && Disciplined(s, own, ms) && forall c | 0 <= c < |ms| :: Plain(ms[c])
    requires e == s.(registers := e.registers, machines := e.machines) && Shaped(e)
    requires |known| == |after| == |s.states|
    ensures Proper(View(s, e, own, ms, known, after))
  {
  }

  /** The view of a tick of `run`, in which every process that runs has a settled step before it. */
  ghost predicate Steady(v: View, run: CoreFunction) {
    && Proper(v) && ExecutedUpTo(v.s, run, v.s.cores, Executed(v.e, v.ms))
    && Knows(v.s, v.known) && v.after == Learn(run, v.s, v.known) && AllSettled(run, v.s, v.known)
  }

  /** A running process does what its program says, and knows what is so on its core. */
  lemma ProgramRuns(v: View, run: CoreFunction, c: nat)
    requires Steady(v, run) && c in v.s.running
    ensures RunsAt(AsProgram(run), v, c)
    ensures Possible(Since(v, v.s.running[c]), v.e.registers[c])
    ensures !v.ms[c].value.Nothing? ==> v.after[v.s.running[c]] == Nobody
  {
    var p := v.s.running[c];
    assert v.s.states[p] == Running(c) && Runner(v.s, p);
    assert v.after[p] == Learned(run, v.s, v.known, p);
    FollowIsRight(run, Before(v, p), v.s.registers[c]);
  }

  lemma ProcessEnds(v: View, n: Net, a: AllHandled, b: Sys, t: Sys, q: nat)
    requires Proper(v) && NetAt(n, v, |v.ms|) && AllUpTo(v, |v.ms|, a.sys.machines, a.tasks, a.replies)
    requires AllAnswered(v, |v.ms|, a.sys.machines, b.machines) && q < |v.s.states| == |t.states|
    requires !v.s.states[q].Running? ==> v.e.machines[q] == v.s.machines[q]
    requires Decided(v.s.states[q], a.tasks, q, t.states[q])
    requires !v.s.states[q].Running? ==> v.after[q] == v.known[q]
    ensures n.threads[q] == Thread(b.machines[q], v.after[q]) && n.status[q] == StatusOf(t.states[q])
  {
    assert ProcessAt(n, v, |v.ms|, q) && UpTo(v, |v.ms|, a.sys.machines[q], a.tasks, q);
    assert AnsweredUpTo(v, |v.ms|, a.sys.machines, b.machines, q);
    if v.s.states[q].Running? {
      RunnerEnds(v, n, q, v.s.states[q].core, a.sys.machines[q], a.tasks, b.machines[q], t.states[q]);
    } else {
      SleeperEnds(v, n, q, a.sys.machines[q], a.tasks, b.machines[q], t.states[q]);
    }
  }

  lemma SlotEnds(v: View, n: Net, a: AllHandled, ch: nat)
    requires Proper(v) && NetAt(n, v, |v.ms|) && ch in v.own && HandleCores(v.e, v.ms, |v.ms|) == Done(a)
    ensures ch in a.sys.channels && n.slots[ch] == CellOf(a.sys.channels[ch], v.own[ch])
  {
    MidOf(v, |v.ms|, a);
    assert MidSlot(v.e, v.own, v.ms, |v.ms|, a.sys, ch);
    NoneDeleted(v, ch);
    ChannelEnds(v, n, ch, a.sys.channels[ch]);
  }

  lemma NoneDeleted(v: View, ch: nat)
    requires Proper(v)
    ensures !DeletedBy(v.ms, |v.ms|, ch)
  {
    assert forall c | 0 <= c < |v.ms| :: Plain(v.ms[c]) ==> !Deletes(v.ms[c], ch);
  }

  /** No plain message makes or deletes a channel. */
  lemma {:induction false} ChannelsStay(s: Sys, ms: Messages, k: nat, a: AllHandled)
    requires Shaped(s) && k <= |ms| == s.cores && forall c | 0 <= c < |ms| :: ms[c].Just? <==> c in s.running
    requires (forall c | 0 <= c < |ms| :: Plain(ms[c])) && HandleCores(s, ms, k) == Done(a)
    ensures a.sys.channels.Keys == s.channels.Keys
  {
    if k > 0 {
      var b, h := LastMessage(s, ms, k - 1, a);
      ChannelsStay(s, ms, k - 1, b);
      if ms[k - 1].Just? {
        PlainKeepsChannels(b.sys, s.running[k - 1], ms[k - 1].value, SendsOf(ms), ListenersOf(ms), h);
      }
    }
  }

  lemma PlainKeepsChannels(s: Sys, pid: nat, m: Message, sends: map<Word, Word>, listeners: set<Word>, h: Handled)
    requires Shaped(s) && IsPid(s, pid) && Plain(Just(m)) && Handle(s, pid, m, sends, listeners) == Done(h)
    ensures h.sys.channels.Keys == s.channels.Keys
  {
    if m.SendOn? && m.channel in s.channels {
      SendKeepsChannels(s, m.channel, m.value, pid);
    } else if m.ReceiveOn? && m.channel in s.channels {
      ReceiveKeepsChannels(s, m.channel, pid);
    }
  }

  lemma SendKeepsChannels(s: Sys, ch: nat, v: Word, tx: nat)
    requires Shaped(s) && IsPid(s, tx) && ch in s.channels
    ensures SendWord(s, ch, v, tx).sys.channels.Keys == s.channels.Keys
  {
  }

  lemma ReceiveKeepsChannels(s: Sys, ch: nat, rx: nat)
    requires Shaped(s) && IsPid(s, rx) && ch in s.channels
    ensures ReceiveWord(s, ch, rx).sys.channels.Keys == s.channels.Keys
  {
  }

  /** The instructions of a tick, as a schedule. */
  lemma TickSteps(v: View, run: CoreFunction) returns (n: Net)
    requires Steady(v, run)
    ensures Valid(NetOf(v.s, v.own, v.known), v.own)
    ensures Reached(NetOf(v.s, v.own, v.known), v, AsProgram(run), |v.ms|, n)
  {
    NetIsValid(v.s, v.own, v.known);
    NetStarts(NetOf(v.s, v.own, v.known), v);
    forall c | 0 <= c < |v.ms| ensures RunsAt(AsProgram(run), v, c) {
      if c in v.s.running { ProgramRuns(v, run, c); }
    }
    CoresStepInOrder(NetOf(v.s, v.own, v.known), v, AsProgram(run), |v.ms|);
    assert CanReach(NetOf(v.s, v.own, v.known), v, AsProgram(run), |v.ms|);
    n :| Reached(NetOf(v.s, v.own, v.known), v, AsProgram(run), |v.ms|, n);
  }

  /** A settled tick is a schedule of the net: the running processes step once each, in core order. */
  lemma TickIsSchedule(s: Sys, own: Owners, run: CoreFunction, known: Knowledge, t: Sys)
    requires PlainTick(s, own, run, t) && Knows(s, known) && AllSettled(run, s, known)
    ensures Valid(NetOf(s, own, known), own) && Linked(t, own) && Knows(t, Learn(run, s, known))
    ensures After(NetOf(s, own, known), own, AsProgram(run), Order(s, s.cores)) == Some(NetOf(t, own, Learn(run, s, known)))
  {
    var ms := Reported(s, run);
    var e, a, b := TickParts(s, run, t);
    var after := Learn(run, s, known);
    ViewIsProper(s, own, ms, e, known, after);
    var v := View(s, e, own, ms, known, after);
    ExecutionMeaning(s, run, s.cores, Executed(e, ms));
    var n := TickSteps(v, run);
    TasksDecide(b, a.tasks, t);
    TickEnds(v, n, a, b, t, run);
    StaysOwned(v, t);
    TickKeepsRendezvous(s, own, run, t, own);
    SameNet(n, NetOf(t, own, after), t, own, after);
  }

  lemma PlainTickKeepsChannels(s: Sys, own: Owners, run: CoreFunction, t: Sys)
    requires PlainTick(s, own, run, t)
    ensures Inherits(s, own, Reported(s, run), t, own)
  {
    var ms := Reported(s, run);
    var e, a, b := TickParts(s, run, t);
    ChannelsStay(e, ms, s.cores, a);
    forall ch | ch in own ensures Owned(t, own[ch]) {
      assert Owned(s, own[ch]);
    }
  }

  /** The end of a tick, as the end of its schedule. */
  lemma TickEnds(v: View, n: Net, a: AllHandled, b: Sys, t: Sys, run: CoreFunction)
    requires Steady(v, run) && NetAt(n, v, |v.ms|) && HandleCores(v.e, v.ms, |v.ms|) == Done(a) && Keeps(v.e, a.sys, a.tasks)
    requires |a.replies| == a.sys.cores && (forall c | 0 <= c < |a.replies| :: a.replies[c].Just? ==> c in a.sys.running)
    requires b == AnswerCores(a.sys, a.replies, a.sys.cores)
    requires t == b.(states := t.states, running := t.running, finals := t.finals) && |t.states| == |v.s.states|
    requires forall x | 0 <= x < |v.s.states| :: Decided(v.s.states[x], a.tasks, x, t.states[x])
    ensures IsNetOf(n, t, v.own, v.after) && t.channels.Keys == v.s.channels.Keys && Knows(t, v.after)
  {
    ChannelsStay(v.e, v.ms, |v.ms|, a);
    MessagesDo(v, |v.ms|);
    assert HandledTo(v, |v.ms|, a) && DoneTo(v, |v.ms|, a);
    AnswersDo(v, a.sys, a.replies, |v.ms|, b);
    AnswersKeepFlags(a.sys, a.replies, a.sys.cores);
    EndsAsNet(v, n, a, b, t, run);
    StillKnown(v, run, a, t);
  }

  lemma {:induction false} AnswersKeepFlags(s: Sys, replies: seq<Maybe<Reply>>, k: nat)
    requires Shaped(s) && k <= |replies| == s.cores
    requires forall c | 0 <= c < |replies| :: replies[c].Just? ==> c in s.running
    ensures var r := AnswerCores(s, replies, k).registers;
            |r| == s.cores && forall c | 0 <= c < s.cores :: r[c].flags == s.registers[c].flags
  {
    if k > 0 { AnswersKeepFlags(s, replies, k - 1); }
  }

  /** What was known in the tick still is so, and who has left its core knows nothing. */
  lemma StillKnown(v: View, run: CoreFunction, a: AllHandled, t: Sys)
    requires Steady(v, run) && AllUpTo(v, |v.ms|, a.sys.machines, a.tasks, a.replies)
    requires |t.states| == |v.s.states| && |t.registers| == v.s.cores
    requires forall c | 0 <= c < v.s.cores :: t.registers[c].flags == v.e.registers[c].flags
    requires forall x | 0 <= x < |v.s.states| :: Decided(v.s.states[x], a.tasks, x, t.states[x])
    ensures Knows(t, v.after)
  {
    forall p | 0 <= p < |v.after| && v.after[p].Just?
      ensures t.states[p].Running? && t.states[p].core < |t.registers|
      ensures t.registers[t.states[p].core].flags == v.after[p].value
    {
      assert UpTo(v, |v.ms|, a.sys.machines[p], a.tasks, p);
      FlagsStay(v, run, a.sys.machines[p], a.tasks, p, t.states[p]);
    }
  }

  lemma FlagsStay(v: View, run: CoreFunction, m: Machine, tasks: seq<Task>, p: nat, after: ProcessState)
    requires Steady(v, run) && p < |v.after| && v.after[p].Just?
    ensures UpTo(v, |v.ms|, m, tasks, p) && Decided(v.s.states[p], tasks, p, after) ==>
              after == v.s.states[p] && after.Running? && after.core < |v.e.registers| && v.e.registers[after.core].flags == v.after[p].value
  {
    assert v.after[p] == Learned(run, v.s, v.known, p) && v.s.states[p].Running?;
    var c := v.s.states[p].core;
    assert On(v.s.running, p, c);
    ProgramRuns(v, run, c);
  }

  lemma EndsAsNet(v: View, n: Net, a: AllHandled, b: Sys, t: Sys, run: CoreFunction)
    requires Steady(v, run) && NetAt(n, v, |v.ms|) && HandleCores(v.e, v.ms, |v.ms|) == Done(a)
    requires AllUpTo(v, |v.ms|, a.sys.machines, a.tasks, a.replies) && AllAnswered(v, |v.ms|, a.sys.machines, b.machines)
    requires |t.states| == |v.s.states| && t.machines == b.machines && t.channels == a.sys.channels
    requires a.sys.channels.Keys == v.s.channels.Keys
    requires forall x | 0 <= x < |v.s.states| :: Decided(v.s.states[x], a.tasks, x, t.states[x])
    ensures IsNetOf(n, t, v.own, v.after)
  {
    forall q | 0 <= q < |v.s.states| ensures n.threads[q] == Thread(t.machines[q], v.after[q]) && n.status[q] == StatusOf(t.states[q]) {
      assert v.after[q] == Learned(run, v.s, v.known, q);
      ProcessEnds(v, n, a, b, t, q);
    }
    forall ch | ch in v.own ensures n.slots[ch] == CellOf(t.channels[ch], v.own[ch]) {
      SlotEnds(v, n, a, ch);
    }
  }

  lemma StaysOwned(v: View, t: Sys)
    requires Proper(v) && t.cores == v.s.cores && t.cells == v.s.cells && t.channels.Keys == v.s.channels.Keys
    ensures Inherits(v.s, v.own, v.ms, t, v.own)
  {
    forall ch | ch in v.own ensures Owned(t, v.own[ch]) {
      assert Owned(v.s, v.own[ch]);
    }
  }

  ghost predicate PlainRun(ss: seq<Sys>, own: Owners, run: CoreFunction) {
    && ss != [] && Linked(ss[0], own)
    && forall i | 0 < i < |ss| :: PlainTick(ss[i - 1], own, run, ss[i])
  }

  /** What the processes know after `n` ticks; at first, nothing. */
  ghost function KnownAt(ss: seq<Sys>, run: CoreFunction, n: nat): Knowledge
    requires n < |ss|
  {
    if n == 0 then Ignorant(ss[0]) else Learn(run, ss[n - 1], KnownAt(ss, run, n - 1))
  }

  /** No process jumps on flags left from before it last met another process, or by another process, in `n` ticks. */
  ghost predicate SettledFor(ss: seq<Sys>, run: CoreFunction, n: nat)
    requires n <= |ss|
  {
    forall i | 0 <= i < n :: AllSettled(run, ss[i], KnownAt(ss, run, i))
  }

  /** The instructions of the first `n` ticks. */
  function Instructions(ss: seq<Sys>, n: nat): seq<nat>
    requires n <= |ss|
  {
    if n == 0 then [] else Instructions(ss, n - 1) + Order(ss[n - 1], ss[n - 1].cores)
  }

  ghost function FirstNet(ss: seq<Sys>, own: Owners): (n: Net)
    requires ss != [] && Linked(ss[0], own)
    ensures Valid(n, own)
  {
    NetIsValid(ss[0], own, Ignorant(ss[0]));
    NetOf(ss[0], own, Ignorant(ss[0]))
  }

  lemma StaysLinked(ss: seq<Sys>, own: Owners, run: CoreFunction, n: nat)
    requires PlainRun(ss, own, run) && n < |ss|
    ensures Linked(ss[n], own)
  {
    if n > 0 {
      assert PlainTick(ss[n - 1], own, run, ss[n]);
      TickStaysLinked(ss[n - 1], own, run, ss[n]);
    }
  }

  lemma TickStaysLinked(s: Sys, own: Owners, run: CoreFunction, t: Sys)
    requires PlainTick(s, own, run, t)
    ensures Linked(t, own)
  {
    PlainTickKeepsChannels(s, own, run, t);
    TickKeepsRendezvous(s, own, run, t, own);
  }

  /** The net after `n` ticks of a run, by its instructions. */
  ghost predicate NetAfter(ss: seq<Sys>, own: Owners, run: CoreFunction, n: nat)
    requires n < |ss|
  {
    && Linked(ss[0], own) && Linked(ss[n], own) && Knows(ss[n], KnownAt(ss, run, n))
    && After(FirstNet(ss, own), own, AsProgram(run), Instructions(ss, n)) == Some(NetOf(ss[n], own, KnownAt(ss, run, n)))
  }

  /** After each of its first `n` ticks the run is where a schedule of the net is. */
  ghost predicate IsSchedule(ss: seq<Sys>, own: Owners, run: CoreFunction, n: nat)
    requires n < |ss|
  {
    forall i | 0 <= i <= n :: NetAfter(ss, own, run, i)
  }

  lemma StartIsSchedule(ss: seq<Sys>, own: Owners, run: CoreFunction)
    requires ss != [] && Linked(ss[0], own)
    ensures IsSchedule(ss, own, run, 0)
  {
    assert After(FirstNet(ss, own), own, AsProgram(run), []) == Some(NetOf(ss[0], own, KnownAt(ss, run, 0)));
  }

  lemma IsScheduleMore(ss: seq<Sys>, own: Owners, run: CoreFunction, n: nat)
    requires n + 1 < |ss|
    ensures IsSchedule(ss, own, run, n) && NetAfter(ss, own, run, n + 1) ==> IsSchedule(ss, own, run, n + 1)
  {
  }

  lemma ScheduleIsNet(ss: seq<Sys>, own: Owners, run: CoreFunction, n: nat)
    requires n < |ss|
    ensures IsSchedule(ss, own, run, n) ==> NetAfter(ss, own, run, n)
  {
  }

  /** Every settled run is a schedule of the net. */
  lemma {:induction false} RunIsSchedule(ss: seq<Sys>, own: Owners, run: CoreFunction, n: nat)
    requires PlainRun(ss, own, run) && n < |ss| && SettledFor(ss, run, n)
    ensures IsSchedule(ss, own, run, n)
  {
    if n == 0 {
      StartIsSchedule(ss, own, run);
    } else {
      RunIsSchedule(ss, own, run, n - 1);
      ScheduleIsNet(ss, own, run, n - 1);
      OneMoreTick(ss, own, run, n - 1);
      IsScheduleMore(ss, own, run, n - 1);
    }
  }

  lemma OneMoreTick(ss: seq<Sys>, own: Owners, run: CoreFunction, n: nat)
    requires n + 1 < |ss|
    ensures PlainRun(ss, own, run) && NetAfter(ss, own, run, n) && AllSettled(run, ss[n], KnownAt(ss, run, n))
            ==> NetAfter(ss, own, run, n + 1)
  {
    if PlainRun(ss, own, run) && NetAfter(ss, own, run, n) && AllSettled(run, ss[n], KnownAt(ss, run, n)) {
      var s, t, known := ss[n], ss[n + 1], KnownAt(ss, run, n);
      StaysLinked(ss, own, run, n + 1);
      assert PlainTick(ss[n + 1 - 1], own, run, ss[n + 1]);
      TickIsSchedule(s, own, run, known, t);
      AfterAppend(FirstNet(ss, own), own, AsProgram(run), Instructions(ss, n), Order(s, s.cores));
    }
  }

  lemma AfterFirst(n: Net, own: Owners, program: Program, p: nat, rest: seq<nat>)
    requires Valid(n, own) && Able(n, own, program, p)
    ensures Valid(StepBy(n, own, program, p), own)
    ensures After(n, own, program, [p] + rest) == After(StepBy(n, own, program, p), own, program, rest)
  {
    StepKeepsValid(n, own, program, p);
    assert ([p] + rest)[1..] == rest;
  }

  lemma {:induction false} AfterAppend(n: Net, own: Owners, program: Program, order: seq<nat>, later: seq<nat>)
    requires Valid(n, own) && After(n, own, program, order).Some?
    ensures After(n, own, program, order + later) == After(After(n, own, program, order).value, own, program, later)
    decreases |order|
  {
    if order == [] {
      assert [] + later == later;
    } else {
      var p, rest := order[0], order[1..];
      assert order == [p] + rest && order + later == [p] + (rest + later);
      AfterFirst(n, own, program, p, rest);
      AfterFirst(n, own, program, p, rest + later);
      AfterAppend(StepBy(n, own, program, p), own, program, rest, later);
    }
  }

  /** If any schedule of the net ends, every run is settled, and so is a schedule. */
  lemma {:induction false} RunsAreSettled(ss: seq<Sys>, own: Owners, run: CoreFunction, ending: seq<nat>, n: nat)
    requires PlainRun(ss, own, run) && n < |ss| && Ends(FirstNet(ss, own), own, AsProgram(run), ending)
    ensures SettledFor(ss, run, n) && IsSchedule(ss, own, run, n)
  {
    if n == 0 {
      StartIsSchedule(ss, own, run);
    } else {
      RunsAreSettled(ss, own, run, ending, n - 1);
      SettledMore(ss, own, run, ending, n - 1);
    }
  }

  lemma SettledMore(ss: seq<Sys>, own: Owners, run: CoreFunction, ending: seq<nat>, n: nat)
    requires PlainRun(ss, own, run) && n + 1 < |ss| && Ends(FirstNet(ss, own), own, AsProgram(run), ending)
    ensures SettledFor(ss, run, n) && IsSchedule(ss, own, run, n) ==> SettledFor(ss, run, n + 1) && IsSchedule(ss, own, run, n + 1)
  {
    ScheduleIsNet(ss, own, run, n);
    TickIsSettled(ss, own, run, ending, n);
    SettledForMore(ss, run, n);
    OneMoreTick(ss, own, run, n);
    IsScheduleMore(ss, own, run, n);
  }

  lemma SettledForMore(ss: seq<Sys>, run: CoreFunction, n: nat)
    requires n < |ss|
    ensures SettledFor(ss, run, n) && AllSettled(run, ss[n], KnownAt(ss, run, n)) ==> SettledFor(ss, run, n + 1)
  {
  }

  lemma TickIsSettled(ss: seq<Sys>, own: Owners, run: CoreFunction, ending: seq<nat>, n: nat)
    requires n < |ss| && Linked(ss[0], own)
    ensures NetAfter(ss, own, run, n) && Ends(FirstNet(ss, own), own, AsProgram(run), ending)
            ==> AllSettled(run, ss[n], KnownAt(ss, run, n))
  {
    var s, known := ss[n], KnownAt(ss, run, n);
    if NetAfter(ss, own, run, n) && Ends(FirstNet(ss, own), own, AsProgram(run), ending) {
      NoScheduleIsLonger(FirstNet(ss, own), own, AsProgram(run), ending, Instructions(ss, n), NetOf(s, own, known));
      AbleIsSettled(run, s, own, known);
    }
  }

  lemma AbleIsSettled(run: CoreFunction, s: Sys, own: Owners, known: Knowledge)
    requires |s.machines| == |s.states| == |known| && own.Keys == s.channels.Keys
    requires var n := NetOf(s, own, known); forall q | CanStep(n, q) :: Able(n, own, AsProgram(run), q)
    ensures AllSettled(run, s, known)
  {
    forall p | 0 <= p < |known| && Runner(s, p) ensures Settled(run, Thread(s.machines[p], known[p])) {
      assert CanStep(NetOf(s, own, known), p);
    }
  }

  /** The processor has halted: no core has a process, and none waits for a core. */
  ghost predicate HasHalted(s: Sys) {
    s.running == map[] && WorkConserving(s)
  }

  lemma HaltedIsEnded(s: Sys, own: Owners, known: Knowledge)
    requires Linked(s, own) && HasHalted(s) && |known| == |s.states|
    ensures Ended(NetOf(s, own, known))
  {
    HaltsWhenNothingCanRun(s);
  }

  /** A settled run that halts is a schedule that ends. */
  lemma HaltingRunEnds(ss: seq<Sys>, own: Owners, run: CoreFunction)
    requires PlainRun(ss, own, run) && SettledFor(ss, run, |ss| - 1) && HasHalted(ss[|ss| - 1])
    ensures IsSchedule(ss, own, run, |ss| - 1)
    ensures Ends(FirstNet(ss, own), own, AsProgram(run), Instructions(ss, |ss| - 1))
  {
    RunIsSchedule(ss, own, run, |ss| - 1);
    ScheduleIsNet(ss, own, run, |ss| - 1);
    HaltedIsEnded(ss[|ss| - 1], own, KnownAt(ss, run, |ss| - 1));
  }

  /**
   * Two runs that halt, from systems that differ at most in their cores, in what is in them, and in
   * who is on them. If one of them never jumps on leftover flags, both execute the same number of
   * instructions and end with the same value stacks, the same processes done and blocked, and the
   * same channels.
   */
  lemma SchedulingDoesNotMatter(ss: seq<Sys>, tt: seq<Sys>, own: Owners, run: CoreFunction)
    requires PlainRun(ss, own, run) && PlainRun(tt, own, run) && SettledFor(ss, run, |ss| - 1)
    requires FirstNet(ss, own) == FirstNet(tt, own)
    requires HasHalted(ss[|ss| - 1]) && HasHalted(tt[|tt| - 1])
    ensures SettledFor(tt, run, |tt| - 1)
    ensures ss[|ss| - 1].machines == tt[|tt| - 1].machines
    ensures |Instructions(ss, |ss| - 1)| == |Instructions(tt, |tt| - 1)|
    ensures var s, t := ss[|ss| - 1], tt[|tt| - 1];
            Linked(s, own) && Linked(t, own) && NetOf(s, own, Ignorant(s)) == NetOf(t, own, Ignorant(t))
  {
    HaltingRunEnds(ss, own, run);
    RunsAreSettled(tt, own, run, Instructions(ss, |ss| - 1), |tt| - 1);
    HaltingRunEnds(tt, own, run);
    ScheduleIsNet(ss, own, run, |ss| - 1);
    ScheduleIsNet(tt, own, run, |tt| - 1);
    OneOutcome(FirstNet(ss, own), own, AsProgram(run), Instructions(ss, |ss| - 1), Instructions(tt, |tt| - 1));
    SameOutcome(ss[|ss| - 1], tt[|tt| - 1], own, KnownAt(ss, run, |ss| - 1), KnownAt(tt, run, |tt| - 1));
  }

  lemma SameOutcome(s: Sys, t: Sys, own: Owners, known: Knowledge, other: Knowledge)
    requires |s.machines| == |s.states| == |known| && |t.machines| == |t.states| == |other|
    requires own.Keys == s.channels.Keys == t.channels.Keys && NetOf(s, own, known) == NetOf(t, own, other)
    ensures s.machines == t.machines && NetOf(s, own, Ignorant(s)) == NetOf(t, own, Ignorant(t))
  {
    var n := NetOf(s, own, known);
    forall p | 0 <= p < |s.machines| ensures s.machines[p] == t.machines[p] {
      assert n.threads[p] == Thread(s.machines[p], known[p]) == Thread(t.machines[p], other[p]);
    }
    SameNet(NetOf(s, own, Ignorant(s)), NetOf(t, own, Ignorant(t)), t, own, Ignorant(t));
  }

  /**
   * If one settled run halts, no run goes on for longer: it has executed at most as many
   * instructions, fewer while anyone is ready, and whoever is ready can take a step.
   */
  lemma NoRunIsStuck(ss: seq<Sys>, tt: seq<Sys>, own: Owners, run: CoreFunction)
    requires PlainRun(ss, own, run) && PlainRun(tt, own, run) && SettledFor(ss, run, |ss| - 1)
    requires FirstNet(ss, own) == FirstNet(tt, own) && HasHalted(ss[|ss| - 1])
    ensures IsSchedule(tt, own, run, |tt| - 1) && Linked(tt[|tt| - 1], own) && Knows(tt[|tt| - 1], KnownAt(tt, run, |tt| - 1))
    ensures |Instructions(tt, |tt| - 1)| <= |Instructions(ss, |ss| - 1)|
    ensures var n := NetOf(tt[|tt| - 1], own, KnownAt(tt, run, |tt| - 1));
            forall q | CanStep(n, q) ::
              Able(n, own, AsProgram(run), q) && |Instructions(tt, |tt| - 1)| < |Instructions(ss, |ss| - 1)|
  {
    HaltingRunEnds(ss, own, run);
    RunsAreSettled(tt, own, run, Instructions(ss, |ss| - 1), |tt| - 1);
    ScheduleIsNet(tt, own, run, |tt| - 1);
    NoScheduleIsLonger(FirstNet(tt, own), own, AsProgram(run), Instructions(ss, |ss| - 1),
                       Instructions(tt, |tt| - 1), NetOf(tt[|tt| - 1], own, KnownAt(tt, run, |tt| - 1)));
  }
}
