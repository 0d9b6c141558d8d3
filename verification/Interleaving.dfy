/**
 * A tick of the processor is a schedule of the net: the running processes step one after another, in
 * core order. So neither the number of cores nor the choices of the scheduler change an outcome.
 */
module Interleaving {
  import opened Wrappers
  import opened Isa
  import opened StackMachine
  import opened Simulator
  import opened ProcessorModel
  import opened Scheduler
  import opened Rendezvous
  import opened Net
  import opened Threads

  function StatusOf(s: ProcessState): Status {
    match s
    case Dead => Finished
    case Inactive => Blocked
    case _ => Ready
  }

  function CellOf(c: Channel, o: Owner): Cell {
    if c.pid == NO_PROCESS then Empty
    else if c.pid == o.sender then Holding(c.value)
    else Wanting
  }

  /** The system without its cores, its idle values and its scheduler. */
  ghost predicate IsNetOf(n: Net, s: Sys, own: Owners, known: Knowledge) {
    && |n.threads| == |n.status| == |s.machines| == |s.states| == |known|
    && (forall p | 0 <= p < |s.states| :: n.threads[p] == Thread(s.machines[p], known[p]))
    && (forall p | 0 <= p < |s.states| :: n.status[p] == StatusOf(s.states[p]))
    && n.slots.Keys == own.Keys == s.channels.Keys
    && (forall ch | ch in own :: n.slots[ch] == CellOf(s.channels[ch], own[ch]))
  }

  /** A tick: the system before it, with the instructions executed, what the cores report, and what is known before and after. */
  datatype View = View(s: Sys, e: Sys, own: Owners, ms: Messages, known: Knowledge, after: Knowledge)

  predicate Plain(m: Maybe<Message>) {
    m == Nobody || m.value.Nothing? || m.value.Yielded? || m.value.Halt? || m.value.SendOn? || m.value.ReceiveOn?
  }

  ghost predicate Sized(v: View) {
    && |v.ms| == v.s.cores && |v.s.machines| == |v.s.states| == |v.e.machines| && v.own.Keys == v.s.channels.Keys
    && |v.known| == |v.after| == |v.s.states|
  }

  ghost predicate Proper(v: View) {
    && Sized(v) && Linked(v.s, v.own) && Disciplined(v.s, v.own, v.ms) && Shaped(v.e)
    && v.e == v.s.(registers := v.e.registers, machines := v.e.machines)
    && (forall c | 0 <= c < |v.ms| :: Plain(v.ms[c]))
  }

  /** A process before its instruction, and after. */
  function Before(v: View, p: nat): Thread
    requires p < |v.s.machines| && p < |v.known|
  {
    Thread(v.s.machines[p], v.known[p])
  }

  function Since(v: View, p: nat): Thread
    requires p < |v.e.machines| && p < |v.after|
  {
    Thread(v.e.machines[p], v.after[p])
  }

  function Sent(v: View, k: nat): map<Word, Word>
    requires k <= |v.ms|
  {
    SendsOf(v.ms[..k])
  }

  function Heard(v: View, k: nat): set<Word>
    requires k <= |v.ms|
  {
    ListenersOf(v.ms[..k])
  }

  // ----- the net when `k` cores have had their step, piece by piece -----

  ghost predicate SleepsIn(s: Sys, p: nat, ch: nat) {
    ch in s.channels && s.channels[ch].pid == p != NO_PROCESS
  }

  function CellAt(v: View, k: nat, ch: nat): Cell
    requires k <= |v.ms| && ch in v.s.channels && ch in v.own
  {
    var sent, took := ch in Sent(v, k), ch in Heard(v, k);
    if Meets(v.ms, ch) then
      if sent == took then Empty else if sent then Holding(SendsOf(v.ms)[ch]) else Wanting
    else if sent then if v.s.channels[ch].pid == NO_PROCESS then Holding(Sent(v, k)[ch]) else Empty
    else if took then if v.s.channels[ch].pid == NO_PROCESS then Wanting else Empty
    else CellOf(v.s.channels[ch], v.own[ch])
  }

  /** A process that has had its step. */
  function StatusAfter(v: View, k: nat, m: Message): Status
    requires k <= |v.ms| && (m.SendOn? || m.ReceiveOn? ==> m.channel in v.s.channels)
  {
    match m
    case Halt => Finished
    case Yielded => Blocked
    case SendOn(ch, _) =>
      if Meets(v.ms, ch) then if ch in Heard(v, k) then Ready else Blocked
      else if v.s.channels[ch].pid == NO_PROCESS then Blocked else Ready
    case ReceiveOn(ch) =>
      if Meets(v.ms, ch) then if ch in Sent(v, k) then Ready else Blocked
      else if v.s.channels[ch].pid == NO_PROCESS then Blocked else Ready
    case _ => Ready
  }

  /** What a process that has had its step has received. */
  function Got(v: View, k: nat, m: Message): seq<Word>
    requires k <= |v.ms| && (m.ReceiveOn? ==> m.channel in v.s.channels)
  {
    if !m.ReceiveOn? then []
    else if Meets(v.ms, m.channel) then if m.channel in Sent(v, k) then [SendsOf(v.ms)[m.channel]] else []
    else if v.s.channels[m.channel].pid == NO_PROCESS then []
    else [v.s.channels[m.channel].value]
  }

  /** A process asleep in a channel is woken when the other owner comes. */
  predicate WokenBy(v: View, k: nat, p: nat, ch: nat)
    requires k <= |v.ms| && ch in v.own
  {
    if p == v.own[ch].receiver then ch in Sent(v, k) else ch in Heard(v, k)
  }

  /** What it is handed, if it is the receiver. */
  function Handed(v: View, k: nat, p: nat, ch: nat): seq<Word>
    requires k <= |v.ms| && ch in v.own
  {
    if p == v.own[ch].receiver && ch in Sent(v, k) then [Sent(v, k)[ch]] else []
  }

  lemma NothingOnto(t: Thread)
    ensures Onto(t, []) == t
  {
    assert [] + t.machine.stack == t.machine.stack;
  }

  ghost predicate RunnerAt(n: Net, v: View, k: nat, p: nat, c: nat)
    requires k <= |v.ms| && Sized(v) && p < |n.threads| == |n.status| && p < |v.s.machines| && v.s.states[p] == Running(c)
  {
    if c >= k then n.threads[p] == Before(v, p) && n.status[p] == Ready
    else
      c in v.s.running && v.ms[c].Just? &&
      (v.ms[c].value.SendOn? || v.ms[c].value.ReceiveOn? ==> v.ms[c].value.channel in v.s.channels) &&
      n.threads[p] == Onto(Since(v, p), Got(v, k, v.ms[c].value)) && n.status[p] == StatusAfter(v, k, v.ms[c].value)
  }

  ghost predicate SleeperAt(n: Net, v: View, k: nat, p: nat)
    requires k <= |v.ms| && Sized(v) && p < |n.threads| == |n.status| && p < |v.s.machines|
  {
    && (forall ch | ch in v.own && SleepsIn(v.s, p, ch) ::
          n.threads[p] == Onto(Before(v, p), Handed(v, k, p, ch)) &&
          n.status[p] == if WokenBy(v, k, p, ch) then Ready else StatusOf(v.s.states[p]))
    && ((forall ch :: !SleepsIn(v.s, p, ch)) ==> n.threads[p] == Before(v, p) && n.status[p] == StatusOf(v.s.states[p]))
  }

  ghost predicate ProcessAt(n: Net, v: View, k: nat, p: nat)
    requires k <= |v.ms| && Sized(v) && p < |n.threads| == |n.status| && p < |v.s.machines|
  {
    if v.s.states[p].Running? then RunnerAt(n, v, k, p, v.s.states[p].core) else SleeperAt(n, v, k, p)
  }

  ghost predicate NetAt(n: Net, v: View, k: nat)
    requires k <= |v.ms| && Sized(v)
  {
    && |n.threads| == |n.status| == |v.s.machines|
    && n.slots.Keys == v.own.Keys
    && (forall ch | ch in v.own :: n.slots[ch] == CellAt(v, k, ch))
    && (forall p | 0 <= p < |n.status| :: ProcessAt(n, v, k, p))
  }

  // ----- facts about a tick -----

  /** Whom a message of the tick concerns. */
  predicate Uses(m: Maybe<Message>, ch: nat) {
    SendsOn(m, ch) || ReceivesOn(m, ch)
  }

  lemma MembersGrow(v: View, k: nat, x: nat)
    requires k < |v.ms|
    ensures x in Sent(v, k + 1) <==> x in Sent(v, k) || SendsOn(v.ms[k], x)
    ensures x in Heard(v, k + 1) <==> x in Heard(v, k) || ReceivesOn(v.ms[k], x)
    ensures x in Sent(v, k) && !SendsOn(v.ms[k], x) ==> Sent(v, k + 1)[x] == Sent(v, k)[x]
    ensures SendsOn(v.ms[k], x) ==> Sent(v, k + 1)[x] == v.ms[k].value.value
  {
    assert v.ms[..k + 1][..k] == v.ms[..k] && v.ms[..k + 1][k] == v.ms[k];
  }

  /** The other owner of a channel that a core uses. */
  function Partner(v: View, k: nat, ch: nat): nat
    requires ch in v.own && k < |v.ms|
  {
    if SendsOn(v.ms[k], ch) then v.own[ch].receiver else v.own[ch].sender
  }

  /** A channel in use is between the process on the core and its partner. */
  lemma UserIsOwner(v: View, k: nat, ch: nat)
    requires Proper(v) && k < |v.ms| && Uses(v.ms[k], ch)
    ensures k in v.s.running && ch in v.own && ch in v.s.channels && Partner(v, k, ch) != v.s.running[k]
    ensures v.s.running[k] == if SendsOn(v.ms[k], ch) then v.own[ch].sender else v.own[ch].receiver
    ensures v.s.states[v.s.running[k]] == Running(k) && IsPid(v.s, Partner(v, k, ch)) && OneEach(v.ms, ch)
  {
    OwnersAreUnique(v.s, v.own, v.ms, ch);
    OwnerIs(v.s, v.own, v.ms, k, ch);
    assert Owned(v.s, v.own[ch]);
  }

  /** Who sleeps is inactive, and sleeps in one channel, which is its own. */
  lemma SleeperIsInactive(v: View, p: nat, ch: nat)
    requires Proper(v) && SleepsIn(v.s, p, ch)
    ensures p < |v.s.states| && v.s.states[p] == Inactive && (p == v.own[ch].sender || p == v.own[ch].receiver)
    ensures forall x :: SleepsIn(v.s, p, x) ==> x == ch
    ensures v.own[ch].sender != v.own[ch].receiver
  {
    assert Fair(SlotOf(v.s, ch), v.own[ch]) && Owned(v.s, v.own[ch]);
  }

  /** A process that the step on core `k` does not concern: it used no channel of the step, and sleeps in none. */
  ghost predicate Bystander(v: View, k: nat, p: nat)
    requires Sized(v) && k < |v.ms| && p < |v.s.machines|
  {
    && v.s.states[p] != Running(k)
    && forall ch | Uses(v.ms[k], ch) ::
         !SleepsIn(v.s, p, ch) && (v.s.states[p].Running? && v.s.states[p].core < k ==> !Uses(v.ms[v.s.states[p].core], ch))
  }

  lemma BystanderRuns(v: View, k: nat, p: nat, c: nat, m: Message)
    requires Proper(v) && k < |v.ms| && p < |v.s.machines| && Bystander(v, k, p)
    requires v.s.states[p] == Running(c) && c < k && v.ms[c] == Just(m)
    requires m.SendOn? || m.ReceiveOn? ==> m.channel in v.s.channels
    ensures StatusAfter(v, k + 1, m) == StatusAfter(v, k, m) && Got(v, k + 1, m) == Got(v, k, m)
  {
    if m.SendOn? || m.ReceiveOn? {
      assert Uses(v.ms[c], m.channel);
      MembersGrow(v, k, m.channel);
    }
  }

  lemma BystanderSleeps(v: View, k: nat, p: nat, ch: nat)
    requires Proper(v) && k < |v.ms| && p < |v.s.machines| && Bystander(v, k, p) && SleepsIn(v.s, p, ch)
    requires ch in v.own
    ensures WokenBy(v, k + 1, p, ch) == WokenBy(v, k, p, ch) && Handed(v, k + 1, p, ch) == Handed(v, k, p, ch)
  {
    MembersGrow(v, k, ch);
  }

  lemma BystanderSame(n: Net, r: Net, v: View, k: nat, p: nat)
    requires Proper(v) && k < |v.ms| && p < |n.threads| == |n.status| && p < |v.s.machines|
    requires |r.threads| == |r.status| == |n.status| && r.threads[p] == n.threads[p] && r.status[p] == n.status[p]
    requires Bystander(v, k, p) && ProcessAt(n, v, k, p)
    ensures ProcessAt(r, v, k + 1, p)
  {
    if v.s.states[p].Running? {
      var c := v.s.states[p].core;
      if c < k { BystanderRuns(v, k, p, c, v.ms[c].value); }
    } else {
      forall ch | SleepsIn(v.s, p, ch)
        ensures WokenBy(v, k + 1, p, ch) == WokenBy(v, k, p, ch) && Handed(v, k + 1, p, ch) == Handed(v, k, p, ch)
      {
        BystanderSleeps(v, k, p, ch);
      }
    }
  }

  /** A channel that the step does not use is as it was. */
  lemma UnusedCell(v: View, k: nat, ch: nat)
    requires Sized(v) && k < |v.ms| && ch in v.own && !Uses(v.ms[k], ch)
    ensures CellAt(v, k + 1, ch) == CellAt(v, k, ch)
  {
    MembersGrow(v, k, ch);
  }

  /** A core without a process changes nothing. */
  lemma SilentStep(n: Net, v: View, k: nat)
    requires Proper(v) && k < |v.ms| && v.ms[k] == Nobody && NetAt(n, v, k)
    ensures NetAt(n, v, k + 1)
  {
    var next := k + 1;
    forall p | 0 <= p < |n.status| ensures ProcessAt(n, v, next, p) {
      assert ProcessAt(n, v, k, p);
      if v.s.states[p].Running? { assert On(v.s.running, p, v.s.states[p].core); }
      BystanderSame(n, n, v, k, p);
    }
    forall ch | ch in v.own ensures n.slots[ch] == CellAt(v, k + 1, ch) {
      UnusedCell(v, k, ch);
    }
  }

  // ----- one core's step -----

  /** The change that the process on core `k` makes to the net. */
  ghost function StepChange(v: View, k: nat, p: nat): Change
    requires Sized(v) && k < |v.ms| && v.ms[k].Just? && p < |v.e.machines|
    requires v.ms[k].value.SendOn? || v.ms[k].value.ReceiveOn? ==>
               v.ms[k].value.channel in v.own && v.ms[k].value.channel in v.s.channels
  {
    var m, x := v.ms[k].value, Since(v, p);
    match m
    case Halt => Change(p, x, p, [], p, Finished, map[])
    case Yielded => Change(p, x, p, [], p, Blocked, map[])
    case SendOn(ch, w) =>
      var q := v.own[ch].receiver;
      if (if Meets(v.ms, ch) then ch in Heard(v, k) else v.s.channels[ch].pid != NO_PROCESS) then
        Change(p, x, q, [w], q, Ready, map[ch := Empty])
      else Change(p, x, p, [], p, Blocked, map[ch := Holding(w)])
    case ReceiveOn(ch) =>
      var q := v.own[ch].sender;
      if Meets(v.ms, ch) then
        if ch in Sent(v, k) then Change(p, x, p, [SendsOf(v.ms)[ch]], q, Ready, map[ch := Empty])
        else Change(p, x, p, [], p, Blocked, map[ch := Wanting])
      else if v.s.channels[ch].pid != NO_PROCESS then Change(p, x, p, [v.s.channels[ch].value], q, Ready, map[ch := Empty])
      else Change(p, x, p, [], p, Blocked, map[ch := Wanting])
    case _ => Change(p, x, p, [], p, Ready, map[])
  }

  /** A used channel, before the step: nothing earlier in the tick used it the same way. */
  ghost predicate UsedFacts(v: View, k: nat, ch: nat)
    requires Sized(v) && k < |v.ms|
  {
    && ch in v.own && ch in v.s.channels && v.own[ch].sender != v.own[ch].receiver && Uses(v.ms[k], ch)
    && !(ch in Sent(v, k) && SendsOn(v.ms[k], ch)) && !(ch in Heard(v, k) && ReceivesOn(v.ms[k], ch))
    && (SendsOn(v.ms[k], ch) ==> ch in SendsOf(v.ms) && SendsOf(v.ms)[ch] == v.ms[k].value.value)
    && (ReceivesOn(v.ms[k], ch) ==> ch in ListenersOf(v.ms))
    && (!Meets(v.ms, ch) ==> ch !in Sent(v, k) && ch !in Heard(v, k))
    && (v.s.channels[ch].pid == NO_PROCESS || v.s.channels[ch].pid == Partner(v, k, ch))
    && (Meets(v.ms, ch) ==> v.s.channels[ch].pid == NO_PROCESS)
    && v.own[ch].sender != NO_PROCESS && v.own[ch].receiver != NO_PROCESS
  }

  ghost predicate UseIsKnown(v: View, k: nat)
    requires Sized(v) && k < |v.ms| && v.ms[k].Just?
  {
    v.ms[k].value.SendOn? || v.ms[k].value.ReceiveOn? ==> UsedFacts(v, k, v.ms[k].value.channel)
  }

  lemma UsedChannel(v: View, k: nat, ch: nat)
    requires Proper(v) && k < |v.ms| && Uses(v.ms[k], ch)
    ensures UsedFacts(v, k, ch)
  {
    UserIsOwner(v, k, ch);
    assert Fair(SlotOf(v.s, ch), v.own[ch]) && Owned(v.s, v.own[ch]);
    PrefixSends(v.ms, ch, k);
    ActorsAreAwake(v.s, v.own, v.ms, ch);
    if SendsOn(v.ms[k], ch) { SendBefore(v.ms, ch, k); }
    if ReceivesOn(v.ms[k], ch) { ReceiveBefore(v.ms, ch, k); }
  }

  /** The net's step is that change. */
  lemma StepIsChange(v: View, k: nat, p: nat, d: Move, slots: map<nat, Cell>)
    requires Sized(v) && k < |v.ms| && p < |v.e.machines| && v.ms[k].Just?
    requires d.Moves? && d.thread == Since(v, p) && d.message == v.ms[k].value
    requires UseIsKnown(v, k)
    requires (d.message.SendOn? || d.message.ReceiveOn?) ==>
               d.message.channel in slots && slots[d.message.channel] == CellAt(v, k, d.message.channel)
    ensures ChangeOf(d, v.own, slots, p) == StepChange(v, k, p)
  {
  }

  lemma SentCell(v: View, k: nat, p: nat, ch: nat)
    requires Sized(v) && k < |v.ms| && p < |v.e.machines| && SendsOn(v.ms[k], ch) && UsedFacts(v, k, ch)
    ensures StepChange(v, k, p).slots == map[ch := CellAt(v, k + 1, ch)]
  {
    MembersGrow(v, k, ch);
  }

  lemma ReceivedCell(v: View, k: nat, p: nat, ch: nat)
    requires Sized(v) && k < |v.ms| && p < |v.e.machines| && ReceivesOn(v.ms[k], ch) && UsedFacts(v, k, ch)
    ensures StepChange(v, k, p).slots == map[ch := CellAt(v, k + 1, ch)]
  {
    MembersGrow(v, k, ch);
  }

  lemma CellAfterStep(v: View, k: nat, p: nat, ch: nat, before: Cell)
    requires Sized(v) && k < |v.ms| && v.ms[k].Just? && p < |v.e.machines| && ch in v.own && before == CellAt(v, k, ch)
    requires UseIsKnown(v, k)
    ensures var slots := StepChange(v, k, p).slots;
            CellAt(v, k + 1, ch) == (if ch in slots then slots[ch] else before) && slots.Keys <= v.own.Keys
  {
    if SendsOn(v.ms[k], ch) {
      SentCell(v, k, p, ch);
    } else if ReceivesOn(v.ms[k], ch) {
      ReceivedCell(v, k, p, ch);
    } else {
      UnusedCell(v, k, ch);
      OtherSlots(v, k, p, ch);
    }
  }

  lemma OtherSlots(v: View, k: nat, p: nat, ch: nat)
    requires Sized(v) && k < |v.ms| && v.ms[k].Just? && p < |v.e.machines|
    requires UseIsKnown(v, k)
    ensures ch in StepChange(v, k, p).slots ==> Uses(v.ms[k], ch)
    ensures StepChange(v, k, p).slots.Keys <= v.own.Keys
  {
  }

  lemma CellsAfterStep(v: View, k: nat, p: nat, slots: map<nat, Cell>)
    requires Sized(v) && k < |v.ms| && v.ms[k].Just? && p < |v.e.machines|
    requires UseIsKnown(v, k)
    requires slots.Keys == v.own.Keys && forall ch | ch in v.own :: slots[ch] == CellAt(v, k, ch)
    ensures var r := slots + StepChange(v, k, p).slots;
            r.Keys == v.own.Keys && forall ch | ch in v.own :: r[ch] == CellAt(v, k + 1, ch)
  {
    var more := StepChange(v, k, p).slots;
    forall ch | ch in v.own ensures more.Keys <= v.own.Keys && (slots + more)[ch] == CellAt(v, k + 1, ch) {
      CellAfterStep(v, k, p, ch, slots[ch]);
    }
    OtherSlots(v, k, p, 0);
  }

  /** The step's own process. */
  lemma StepperAfterStep(v: View, k: nat, p: nat)
    requires Sized(v) && k < |v.ms| && v.ms[k].Just? && p < |v.e.machines|
    requires UseIsKnown(v, k)
    requires v.ms[k].value.SendOn? || v.ms[k].value.ReceiveOn? ==> Partner(v, k, v.ms[k].value.channel) != p
    ensures var c, m := StepChange(v, k, p), v.ms[k].value;
            && (m.SendOn? || m.ReceiveOn? ==> m.channel in v.s.channels)
            && c.pid == p && c.thread == Since(v, p)
            && Got(v, k + 1, m) == (if c.to == p then c.pushed else [])
            && StatusAfter(v, k + 1, m) == (if c.whose == p then c.status else Ready)
  {
    var m := v.ms[k].value;
    if m.SendOn? || m.ReceiveOn? {
      MembersGrow(v, k, m.channel);
    }
  }

  /** A core that dealt with the channel earlier in the tick. */
  lemma EarlierUser(v: View, k: nat, ch: nat) returns (c: nat)
    requires Sized(v) && k <= |v.ms| && (ch in Sent(v, k) || ch in Heard(v, k))
    ensures c < k && (if ch in Sent(v, k) then SendsOn(v.ms[c], ch) else ReceivesOn(v.ms[c], ch))
  {
    SendsMeaning(v.ms[..k], ch);
    ListenersMeaning(v.ms[..k], ch);
    if ch in Sent(v, k) {
      c :| 0 <= c < k && SendsOn(v.ms[..k][c], ch);
    } else {
      c :| 0 <= c < k && ReceivesOn(v.ms[..k][c], ch);
    }
  }

  /** The step wakes the partner: it came first in this tick, or it sleeps in the channel. */
  ghost predicate CameFirst(v: View, k: nat, q: nat, ch: nat)
    requires Sized(v) && k < |v.ms| && q < |v.s.states|
  {
    && UsedFacts(v, k, ch) && q == Partner(v, k, ch) && Meets(v.ms, ch)
    && v.s.states[q].Running? && v.s.states[q].core < k && Uses(v.ms[v.s.states[q].core], ch)
    && SendsOn(v.ms[v.s.states[q].core], ch) == ReceivesOn(v.ms[k], ch)
    && (if SendsOn(v.ms[k], ch) then ch in Heard(v, k) else ch in Sent(v, k))
  }

  ghost predicate Slept(v: View, k: nat, q: nat, ch: nat)
    requires Sized(v) && k < |v.ms| && q < |v.s.states|
  {
    UsedFacts(v, k, ch) && q == Partner(v, k, ch) && !Meets(v.ms, ch) && SleepsIn(v.s, q, ch) && !v.s.states[q].Running?
  }

  lemma PartnerCameFirst(v: View, k: nat, ch: nat)
    requires Proper(v) && k < |v.ms| && Uses(v.ms[k], ch) && Meets(v.ms, ch)
    requires ch in Sent(v, k) || ch in Heard(v, k)
    ensures ch in v.own && Partner(v, k, ch) < |v.s.states| && CameFirst(v, k, Partner(v, k, ch), ch)
  {
    UsedChannel(v, k, ch);
    var c := EarlierUser(v, k, ch);
    UserIsOwner(v, c, ch);
    UserIsOwner(v, k, ch);
  }

  lemma PartnerSlept(v: View, k: nat, ch: nat)
    requires Proper(v) && k < |v.ms| && Uses(v.ms[k], ch) && !Meets(v.ms, ch)
    requires ch in v.s.channels && v.s.channels[ch].pid != NO_PROCESS
    ensures ch in v.own && Partner(v, k, ch) < |v.s.states| && Slept(v, k, Partner(v, k, ch), ch)
  {
    UsedChannel(v, k, ch);
    UserIsOwner(v, k, ch);
    SleeperIsInactive(v, Partner(v, k, ch), ch);
  }

  /** Whom the step concerns besides its own process, it wakes. */
  lemma Concerned(v: View, k: nat, q: nat) returns (ch: nat)
    requires Proper(v) && k < |v.ms| && k in v.s.running && q != v.s.running[k] && q < |v.s.states| && !Bystander(v, k, q)
    ensures CameFirst(v, k, q, ch) || Slept(v, k, q, ch)
  {
    assert v.s.states[q] == Running(k) ==> On(v.s.running, q, k);
    ch :| Uses(v.ms[k], ch) &&
          (SleepsIn(v.s, q, ch) || (v.s.states[q].Running? && v.s.states[q].core < k && Uses(v.ms[v.s.states[q].core], ch)));
    UsedChannel(v, k, ch);
    if SleepsIn(v.s, q, ch) {
      PartnerSlept(v, k, ch);
    } else {
      var c := v.s.states[q].core;
      assert On(v.s.running, q, c);
      UserIsOwner(v, c, ch);
      UserIsOwner(v, k, ch);
      EarlierIsMember(v, k, c, ch);
    }
  }

  lemma EarlierIsMember(v: View, k: nat, c: nat, ch: nat)
    requires Sized(v) && c < k < |v.ms| && Uses(v.ms[c], ch)
    ensures SendsOn(v.ms[c], ch) ==> ch in Sent(v, k) && ch in SendsOf(v.ms)
    ensures ReceivesOn(v.ms[c], ch) ==> ch in Heard(v, k) && ch in ListenersOf(v.ms)
  {
    assert v.ms[..k][c] == v.ms[c];
    SendsMeaning(v.ms[..k], ch);
    ListenersMeaning(v.ms[..k], ch);
    PrefixSends(v.ms, ch, k);
  }

  /** Only the partner in a channel is reached besides the process itself. */
  lemma ChangeReachesPartner(v: View, k: nat, p: nat)
    requires Sized(v) && k < |v.ms| && v.ms[k].Just? && p < |v.e.machines| && UseIsKnown(v, k)
    ensures var c, m := StepChange(v, k, p), v.ms[k].value;
            c.to != p || c.whose != p ==>
              && (m.SendOn? || m.ReceiveOn?) && (c.to == p || c.to == Partner(v, k, m.channel))
              && (c.whose == p || c.whose == Partner(v, k, m.channel)) && m.channel in v.s.channels
              && (if Meets(v.ms, m.channel) then m.channel in (if m.SendOn? then Heard(v, k) else Sent(v, k).Keys)
                  else v.s.channels[m.channel].pid != NO_PROCESS)
  {
  }

  /** The step changes nobody whom it does not concern. */
  lemma BystanderUntouched(v: View, k: nat, p: nat, q: nat)
    requires Proper(v) && k < |v.ms| && v.ms[k].Just? && k in v.s.running && p == v.s.running[k] && UseIsKnown(v, k)
    requires q < |v.s.states| && q != p && Bystander(v, k, q)
    ensures StepChange(v, k, p).to != q && StepChange(v, k, p).whose != q
  {
    var c := StepChange(v, k, p);
    ChangeReachesPartner(v, k, p);
    if c.to == q || c.whose == q {
      var ch := v.ms[k].value.channel;
      assert Uses(v.ms[k], ch);
      if Meets(v.ms, ch) { PartnerCameFirst(v, k, ch); }
    }
  }

  lemma RunnerWoken(v: View, k: nat, p: nat, q: nat, ch: nat)
    requires Sized(v) && k < |v.ms| && v.ms[k].Just? && p < |v.e.machines| && p != q && q < |v.s.states| && CameFirst(v, k, q, ch)
    ensures var c, m := StepChange(v, k, p), v.ms[v.s.states[q].core].value;
            && c.pid == p && c.whose == q && c.status == Ready && m.channel == ch && (m.SendOn? || m.ReceiveOn?) && StatusAfter(v, k + 1, m) == Ready
            && Got(v, k, m) == [] && Got(v, k + 1, m) == (if c.to == q then c.pushed else [])
  {
    MembersGrow(v, k, ch);
  }

  lemma SleeperWoken(v: View, k: nat, p: nat, q: nat, ch: nat)
    requires Sized(v) && k < |v.ms| && v.ms[k].Just? && p < |v.e.machines| && p != q && q < |v.s.states| && Slept(v, k, q, ch)
    ensures var c := StepChange(v, k, p);
            && c.pid == p && c.whose == q && c.status == Ready && WokenBy(v, k + 1, q, ch)
            && Handed(v, k, q, ch) == [] && Handed(v, k + 1, q, ch) == (if c.to == q then c.pushed else [])
  {
    MembersGrow(v, k, ch);
  }

  /** The thread and the status of one process after a change. */
  predicate Changed(n: Net, c: Change, r: Net, q: nat) {
    && |n.threads| == |n.status| == |r.threads| == |r.status| && q < |n.status|
    && (if c.pid == q then r.threads[q] == Onto(c.thread, if c.to == q then c.pushed else [])
        else r.threads[q] == Onto(n.threads[q], if c.to == q then c.pushed else []))
    && r.status[q] == if c.whose == q then c.status else n.status[q]
  }

  lemma ApplyChanges(n: Net, c: Change, q: nat)
    requires c.pid < |n.threads| == |n.status| && c.to < |n.threads| && c.whose < |n.status| && q < |n.status|
    ensures Changed(n, c, Apply(n, c), q)
  {
    NothingOnto(n.threads[q]);
    NothingOnto(c.thread);
  }

  lemma RunnerAfterStep(n: Net, r: Net, v: View, k: nat, c: Change, q: nat, m: Message)
    requires Sized(v) && k < |v.ms| && q < |v.s.states| == |n.status| && v.s.states[q].Running? && v.s.states[q].core < k
    requires Changed(n, c, r, q) && c.pid != q && c.whose == q && c.status == Ready && v.ms[v.s.states[q].core] == Just(m)
    requires (m.SendOn? || m.ReceiveOn?) && m.channel in v.s.channels && StatusAfter(v, k + 1, m) == Ready
    requires Got(v, k, m) == [] && Got(v, k + 1, m) == (if c.to == q then c.pushed else [])
    ensures ProcessAt(n, v, k, q) ==> ProcessAt(r, v, k + 1, q)
  {
    NothingOnto(Since(v, q));
  }

  lemma SleeperAfterStep(n: Net, r: Net, v: View, k: nat, c: Change, q: nat, ch: nat)
    requires Sized(v) && k < |v.ms| && q < |v.s.states| == |n.status| && !v.s.states[q].Running?
    requires Changed(n, c, r, q) && c.pid != q && c.whose == q && c.status == Ready
    requires ch in v.own && SleepsIn(v.s, q, ch) && forall x :: SleepsIn(v.s, q, x) ==> x == ch
    requires WokenBy(v, k + 1, q, ch) && Handed(v, k, q, ch) == [] && Handed(v, k + 1, q, ch) == (if c.to == q then c.pushed else [])
    ensures ProcessAt(n, v, k, q) ==> ProcessAt(r, v, k + 1, q)
  {
    if ProcessAt(n, v, k, q) {
      NothingOnto(Before(v, q));
      SleeperOnce(r, v, k + 1, q, ch);
    }
  }

  lemma SleeperOnce(r: Net, v: View, k: nat, q: nat, ch: nat)
    requires k <= |v.ms| && Sized(v) && q < |r.threads| == |r.status| && q < |v.s.machines| && !v.s.states[q].Running?
    requires ch in v.own && SleepsIn(v.s, q, ch) && forall x :: SleepsIn(v.s, q, x) ==> x == ch
    requires r.threads[q] == Onto(Before(v, q), Handed(v, k, q, ch))
    requires r.status[q] == if WokenBy(v, k, q, ch) then Ready else StatusOf(v.s.states[q])
    ensures ProcessAt(r, v, k, q)
  {
  }

  lemma StepperIsRight(n: Net, r: Net, v: View, k: nat, p: nat)
    requires Proper(v) && k < |v.ms| && v.ms[k].Just? && k in v.s.running && p == v.s.running[k] && UseIsKnown(v, k)
    requires Changed(n, StepChange(v, k, p), r, p) && |n.status| == |v.s.states| && ProcessAt(n, v, k, p)
    ensures ProcessAt(r, v, k + 1, p)
  {
    var m := v.ms[k].value;
    if m.SendOn? || m.ReceiveOn? { UserIsOwner(v, k, m.channel); }
    StepperAfterStep(v, k, p);
    assert v.s.states[p] == Running(k);
  }

  lemma ProcessAfterStep(n: Net, r: Net, v: View, k: nat, p: nat, q: nat)
    requires Proper(v) && k < |v.ms| && v.ms[k].Just? && k in v.s.running && p == v.s.running[k] && UseIsKnown(v, k)
    requires Changed(n, StepChange(v, k, p), r, q) && |n.status| == |v.s.states| && ProcessAt(n, v, k, q)
    ensures ProcessAt(r, v, k + 1, q)
  {
    if q == p {
      StepperIsRight(n, r, v, k, p);
    } else if Bystander(v, k, q) {
      BystanderUntouched(v, k, p, q);
      NothingOnto(n.threads[q]);
      BystanderSame(n, r, v, k, q);
    } else {
      var ch := Concerned(v, k, q);
      var c := StepChange(v, k, p);
      if CameFirst(v, k, q, ch) {
        RunnerWoken(v, k, p, q, ch);
        RunnerAfterStep(n, r, v, k, c, q, v.ms[v.s.states[q].core].value);
      } else {
        SleeperIsInactive(v, q, ch);
        SleeperWoken(v, k, p, q, ch);
        SleeperAfterStep(n, r, v, k, c, q, ch);
      }
    }
  }

  /** The process on the core is able to step, and its step is that change. */
  lemma StepperIsAble(n: Net, v: View, k: nat, program: Program)
    requires Proper(v) && k < |v.ms| && v.ms[k].Just? && NetAt(n, v, k) && k in v.s.running && Runs(program, v, k)
    requires UseIsKnown(v, k)
    ensures Able(n, v.own, program, v.s.running[k])
    ensures ChangeOf(program(n.threads[v.s.running[k]]), v.own, n.slots, v.s.running[k]) == StepChange(v, k, v.s.running[k])
  {
    var p, m := v.s.running[k], v.ms[k].value;
    if m.SendOn? || m.ReceiveOn? { UserIsOwner(v, k, m.channel); }
    assert v.s.states[p] == Running(k) && ProcessAt(n, v, k, p);
    StepIsChange(v, k, p, program(n.threads[p]), n.slots);
  }

  /** One step of the net deals with one core's message. */
  lemma NetStep(n: Net, v: View, k: nat, program: Program)
    requires Proper(v) && k < |v.ms| && v.ms[k].Just? && NetAt(n, v, k) && Valid(n, v.own)
    requires k in v.s.running && Runs(program, v, k)
    ensures Able(n, v.own, program, v.s.running[k]) && NetAt(StepBy(n, v.own, program, v.s.running[k]), v, k + 1)
  {
    var p, m := v.s.running[k], v.ms[k].value;
    if m.SendOn? || m.ReceiveOn? { UsedChannel(v, k, m.channel); }
    StepperIsAble(n, v, k, program);
    ChangeReaches(n, v.own, program, p, StepChange(v, k, p));
    NetAfterChange(n, v, k, StepBy(n, v.own, program, p));
  }

  lemma NetAfterChange(n: Net, v: View, k: nat, r: Net)
    requires Proper(v) && k < |v.ms| && v.ms[k].Just? && NetAt(n, v, k) && k in v.s.running && UseIsKnown(v, k)
    requires var c := StepChange(v, k, v.s.running[k]);
             c.pid < |n.threads| && c.to < |n.threads| && c.whose < |n.status| && r == Apply(n, c)
    ensures NetAt(r, v, k + 1)
  {
    var p, next := v.s.running[k], k + 1;
    CellsAfterStep(v, k, p, n.slots);
    forall q | 0 <= q < |r.status| ensures ProcessAt(r, v, next, q) {
      assert ProcessAt(n, v, k, q);
      ApplyChanges(n, StepChange(v, k, p), q);
      ProcessAfterStep(n, r, v, k, p, q);
    }
  }

  /** The process on the core does what the core reports. */
  ghost predicate Runs(program: Program, v: View, k: nat)
    requires Sized(v) && k < |v.ms| && v.ms[k].Just?
  {
    && k in v.s.running && v.s.running[k] < |v.s.machines|
    && var d := program(Before(v, v.s.running[k]));
       d.Moves? && d.thread == Since(v, v.s.running[k]) && d.message == v.ms[k].value
  }
}
