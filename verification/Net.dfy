/**
 * The processes of a fixed, alternation-free system as a net: no cores, no time, and a channel that
 * holds nothing unless someone waits in it. Any process that is ready may take the next step. Whoever
 * chooses, the outcome is the same.
 */
module Net {
  import opened Wrappers
  import opened Isa
  import opened StackMachine
  import opened Simulator
  import opened ProcessorModel
  import opened Rendezvous

  datatype Status = Ready | Blocked | Finished

  /** A channel: empty, or with its sender waiting with a value, or with its receiver waiting. */
  datatype Cell = Empty | Holding(value: Word) | Wanting

  /** A process, and the flags of its core as far as it set them itself since it last met another process. */
  datatype Thread = Thread(machine: Machine, flags: Maybe<Flags>)

  datatype Net = Net(threads: seq<Thread>, status: seq<Status>, slots: map<nat, Cell>)

  datatype Move = Moves(thread: Thread, message: Message) | Sticks

  /** What a process does next, from its machine and the flags it knows; it sticks if they do not decide. */
  type Program = Thread -> Move

  /** The words on top of the process's stack. */
  function Onto(t: Thread, xs: seq<Word>): Thread {
    t.(machine := t.machine.(stack := xs + t.machine.stack))
  }

  /** The process waits in the channel. */
  predicate WaitsIn(o: Owner, c: Cell, p: nat) {
    (c.Holding? && p == o.sender) || (c.Wanting? && p == o.receiver)
  }

  /** Channels have two different owners; who waits in one is blocked and waits in no other. */
  ghost predicate Tidy(status: seq<Status>, slots: map<nat, Cell>, own: Owners) {
    && slots.Keys == own.Keys
    && (forall ch | ch in own :: own[ch].sender < |status| && own[ch].receiver < |status| && own[ch].sender != own[ch].receiver)
    && (forall ch, p | ch in own && 0 <= p < |status| && WaitsIn(own[ch], slots[ch], p) :: status[p] == Blocked)
    && (forall a, b, p | a in own && b in own && WaitsIn(own[a], slots[a], p) && WaitsIn(own[b], slots[b], p) :: a == b)
  }

  ghost predicate Valid(n: Net, own: Owners) {
    |n.threads| == |n.status| && Tidy(n.status, n.slots, own)
  }

  predicate CanStep(n: Net, p: nat) {
    p < |n.status| && n.status[p] == Ready
  }

  /** The process is ready, its instruction does not fail or stick, and it uses its own channels only. */
  predicate Able(n: Net, own: Owners, program: Program, p: nat)
    requires |n.threads| == |n.status| && n.slots.Keys == own.Keys
  {
    && CanStep(n, p)
    && var d := program(n.threads[p]);
       d.Moves? &&
       match d.message
       case Nothing => true
       case Yielded => true
       case Halt => true
       case SendOn(ch, _) => ch in own && own[ch].sender == p
       case ReceiveOn(ch) => ch in own && own[ch].receiver == p
       case _ => false
  }

  /** What a step changes: its own machine, one process's stack, one status, and one channel at most. */
  datatype Change = Change(pid: nat, thread: Thread, to: nat, pushed: seq<Word>, whose: nat, status: Status, slots: map<nat, Cell>)

  function Apply(n: Net, c: Change): (r: Net)
    requires c.pid < |n.threads| == |n.status| && c.to < |n.threads| && c.whose < |n.status|
    ensures |r.threads| == |r.status| == |n.status|
  {
    var ts := n.threads[c.pid := c.thread];
    Net(ts[c.to := Onto(ts[c.to], c.pushed)], n.status[c.whose := c.status], n.slots + c.slots)
  }

  /** The change a process makes, by the channel it uses: who is ready is woken, who must wait is blocked. */
  function ChangeOf(d: Move, own: Owners, slots: map<nat, Cell>, p: nat): Change
    requires d.Moves? && (d.message.SendOn? || d.message.ReceiveOn? ==> d.message.channel in own && d.message.channel in slots)
  {
    var m := d.thread;
    match d.message
    case Yielded => Change(p, m, p, [], p, Blocked, map[])
    case Halt => Change(p, m, p, [], p, Finished, map[])
    case SendOn(ch, v) =>
      if slots[ch] == Empty then Change(p, m, p, [], p, Blocked, map[ch := Holding(v)])
      else Change(p, m, own[ch].receiver, [v], own[ch].receiver, Ready, map[ch := Empty])
    case ReceiveOn(ch) =>
      if !slots[ch].Holding? then Change(p, m, p, [], p, Blocked, map[ch := Wanting])
      else Change(p, m, p, [slots[ch].value], own[ch].sender, Ready, map[ch := Empty])
    case _ => Change(p, m, p, [], p, Ready, map[])
  }

  function StepBy(n: Net, own: Owners, program: Program, p: nat): (r: Net)
    requires |n.threads| == |n.status| && n.slots.Keys == own.Keys && Able(n, own, program, p)
    requires forall ch | ch in own :: own[ch].sender < |n.status| && own[ch].receiver < |n.status|
    ensures |r.threads| == |r.status| == |n.status| && r.slots.Keys == own.Keys
  {
    Apply(n, ChangeOf(program(n.threads[p]), own, n.slots, p))
  }

  lemma BlockingIsTidy(status: seq<Status>, slots: map<nat, Cell>, own: Owners, p: nat, ch: nat, c: Cell)
    requires Tidy(status, slots, own) && p < |status| && status[p] == Ready && ch in own && slots[ch] == Empty
    requires WaitsIn(own[ch], c, p)
    ensures Tidy(status[p := Blocked], slots[ch := c], own)
  {
  }

  lemma PassingIsTidy(status: seq<Status>, slots: map<nat, Cell>, own: Owners, other: nat, ch: nat)
    requires Tidy(status, slots, own) && other < |status| && ch in own && WaitsIn(own[ch], slots[ch], other)
    ensures Tidy(status[other := Ready], slots[ch := Empty], own)
  {
  }

  lemma ChangingIsTidy(status: seq<Status>, slots: map<nat, Cell>, own: Owners, p: nat, s: Status)
    requires Tidy(status, slots, own) && p < |status| && status[p] == Ready
    ensures Tidy(status[p := s], slots, own)
  {
  }

  lemma StepKeepsValid(n: Net, own: Owners, program: Program, p: nat)
    requires Valid(n, own) && Able(n, own, program, p)
    ensures Valid(StepBy(n, own, program, p), own)
  {
    var d := program(n.threads[p]);
    var c := ChangeOf(d, own, n.slots, p);
    if d.message.SendOn? || d.message.ReceiveOn? {
      var ch := d.message.channel;
      assert n.slots + c.slots == n.slots[ch := c.slots[ch]];
      if n.slots[ch] == Empty {
        BlockingIsTidy(n.status, n.slots, own, p, ch, if d.message.SendOn? then Holding(d.message.value) else Wanting);
      } else {
        assert !WaitsIn(own[ch], n.slots[ch], p);
        PassingIsTidy(n.status, n.slots, own, if d.message.SendOn? then own[ch].receiver else own[ch].sender, ch);
      }
    } else if d.message.Yielded? || d.message.Halt? {
      assert n.slots + c.slots == n.slots;
      ChangingIsTidy(n.status, n.slots, own, p, c.status);
    } else {
      assert n.slots + c.slots == n.slots && n.status[p := Ready] == n.status;
    }
  }

  // ----- two steps commute -----

  predicate Apart(c: Change, d: Change) {
    && c.pid != d.pid && c.pid != d.to && c.to != d.pid && c.to != d.to && c.whose != d.whose
    && c.slots.Keys !! d.slots.Keys
  }

  lemma ApartCommute(n: Net, c: Change, d: Change)
    requires c.pid < |n.threads| == |n.status| && c.to < |n.threads| && c.whose < |n.status|
    requires d.pid < |n.threads| && d.to < |n.threads| && d.whose < |n.status| && Apart(c, d)
    ensures Apply(Apply(n, c), d) == Apply(Apply(n, d), c)
  {
    assert (n.slots + c.slots) + d.slots == (n.slots + d.slots) + c.slots;
  }

  predicate UsesChannel(d: Move, ch: nat) {
    d.Moves? && (d.message.SendOn? || d.message.ReceiveOn?) && d.message.channel == ch
  }

  /** Whom a step reaches besides itself: a process that waits in the channel. */
  lemma ChangeReaches(n: Net, own: Owners, program: Program, p: nat, c: Change)
    requires Valid(n, own) && Able(n, own, program, p) && c == ChangeOf(program(n.threads[p]), own, n.slots, p)
    ensures c.pid == p && (c.to == p || c.to == c.whose) && c.whose < |n.status|
    ensures c.whose != p ==> exists ch :: UsesChannel(program(n.threads[p]), ch) && ch in own && WaitsIn(own[ch], n.slots[ch], c.whose)
    ensures forall ch | ch in c.slots :: UsesChannel(program(n.threads[p]), ch)
  {
    var d := program(n.threads[p]);
    if d.message.SendOn? || d.message.ReceiveOn? {
      var ch := d.message.channel;
      assert UsesChannel(d, ch) && !WaitsIn(own[ch], n.slots[ch], p);
    }
  }

  /** Only a process's own step changes a ready process. */
  lemma OthersStayReady(n: Net, own: Owners, program: Program, p: nat, q: nat)
    requires Valid(n, own) && Able(n, own, program, p) && CanStep(n, q) && p != q
    ensures var r := StepBy(n, own, program, p);
            CanStep(r, q) && r.threads[q] == n.threads[q] && (Able(n, own, program, q) <==> Able(r, own, program, q))
  {
    var c := ChangeOf(program(n.threads[p]), own, n.slots, p);
    ChangeReaches(n, own, program, p, c);
  }

  /** Steps on different channels, or on none. */
  lemma UnrelatedStepsCommute(n: Net, own: Owners, program: Program, p: nat, q: nat)
    requires Valid(n, own) && Able(n, own, program, p) && Able(n, own, program, q) && p != q
    requires forall ch :: !(UsesChannel(program(n.threads[p]), ch) && UsesChannel(program(n.threads[q]), ch))
    requires Able(StepBy(n, own, program, p), own, program, q) && StepBy(n, own, program, p).threads[q] == n.threads[q]
    requires Able(StepBy(n, own, program, q), own, program, p) && StepBy(n, own, program, q).threads[p] == n.threads[p]
    ensures StepBy(StepBy(n, own, program, p), own, program, q) == StepBy(StepBy(n, own, program, q), own, program, p)
  {
    var c, d := ChangeOf(program(n.threads[p]), own, n.slots, p), ChangeOf(program(n.threads[q]), own, n.slots, q);
    ChangeReaches(n, own, program, p, c);
    ChangeReaches(n, own, program, q, d);
    SameChange(n, own, program, p, q, c);
    SameChange(n, own, program, q, p, d);
    ApartCommute(n, c, d);
  }

  lemma SameChange(n: Net, own: Owners, program: Program, p: nat, q: nat, c: Change)
    requires Valid(n, own) && Able(n, own, program, p) && Able(n, own, program, q)
    requires forall ch :: !(UsesChannel(program(n.threads[p]), ch) && UsesChannel(program(n.threads[q]), ch))
    requires c == ChangeOf(program(n.threads[p]), own, n.slots, p)
    ensures c == ChangeOf(program(n.threads[p]), own, StepBy(n, own, program, q).slots, p)
  {
    var e := ChangeOf(program(n.threads[q]), own, n.slots, q);
    ChangeReaches(n, own, program, q, e);
    var d := program(n.threads[p]);
    if d.message.SendOn? || d.message.ReceiveOn? {
      assert UsesChannel(d, d.message.channel) && d.message.channel !in e.slots;
    }
  }

  /** The sender and the receiver of one channel, both ready: the value passes either way. */
  lemma MeetingStepsCommute(n: Net, own: Owners, program: Program, p: nat, q: nat, ch: nat)
    requires Valid(n, own) && Able(n, own, program, p) && Able(n, own, program, q) && p != q
    requires UsesChannel(program(n.threads[p]), ch) && UsesChannel(program(n.threads[q]), ch)
    requires program(n.threads[p]).message.SendOn?
    requires Able(StepBy(n, own, program, p), own, program, q) && StepBy(n, own, program, p).threads[q] == n.threads[q]
    requires Able(StepBy(n, own, program, q), own, program, p) && StepBy(n, own, program, q).threads[p] == n.threads[p]
    ensures StepBy(StepBy(n, own, program, p), own, program, q) == StepBy(StepBy(n, own, program, q), own, program, p)
  {
    var d, e := program(n.threads[p]), program(n.threads[q]);
    assert !WaitsIn(own[ch], n.slots[ch], p) && !WaitsIn(own[ch], n.slots[ch], q);
    assert n.slots[ch] == Empty && d.message == SendOn(ch, d.message.value) && e.message == ReceiveOn(ch);
    HandOver(n, p, d.thread, q, e.thread, d.message.value, ch);
    assert own[ch].sender == p && own[ch].receiver == q;
    var a, b := StepBy(n, own, program, p), StepBy(n, own, program, q);
    assert ChangeOf(e, own, a.slots, q) == Change(q, e.thread, q, [d.message.value], p, Ready, map[ch := Empty]);
    assert ChangeOf(d, own, b.slots, p) == Change(p, d.thread, q, [d.message.value], q, Ready, map[ch := Empty]);
  }

  /** A value handed over by the sender or fetched by the receiver, whoever came first. */
  lemma HandOver(n: Net, p: nat, m: Thread, q: nat, k: Thread, v: Word, ch: nat)
    requires |n.threads| == |n.status| && p < |n.status| && q < |n.status| && p != q
    requires n.status[p] == Ready && n.status[q] == Ready
    ensures Apply(Apply(n, Change(p, m, p, [], p, Blocked, map[ch := Holding(v)])), Change(q, k, q, [v], p, Ready, map[ch := Empty]))
         == Apply(Apply(n, Change(q, k, q, [], q, Blocked, map[ch := Wanting])), Change(p, m, q, [v], q, Ready, map[ch := Empty]))
  {
    assert n.slots + map[ch := Holding(v)] + map[ch := Empty] == n.slots + map[ch := Wanting] + map[ch := Empty];
    assert n.status[p := Blocked][p := Ready] == n.status == n.status[q := Blocked][q := Ready];
    assert [] + m.machine.stack == m.machine.stack && [] + k.machine.stack == k.machine.stack;
    assert n.threads[p := m][q := k] == n.threads[q := k][p := m];
  }

  /** Two processes that are both ready reach the same net in either order. */
  lemma StepsCommute(n: Net, own: Owners, program: Program, p: nat, q: nat)
    requires Valid(n, own) && Able(n, own, program, p) && Able(n, own, program, q) && p != q
    ensures Able(StepBy(n, own, program, p), own, program, q) && Able(StepBy(n, own, program, q), own, program, p)
    ensures StepBy(StepBy(n, own, program, p), own, program, q) == StepBy(StepBy(n, own, program, q), own, program, p)
  {
    OthersStayReady(n, own, program, p, q);
    OthersStayReady(n, own, program, q, p);
    var d, e := program(n.threads[p]), program(n.threads[q]);
    if (d.message.SendOn? || d.message.ReceiveOn?) && UsesChannel(e, d.message.channel) {
      if d.message.SendOn? {
        MeetingStepsCommute(n, own, program, p, q, d.message.channel);
      } else {
        MeetingStepsCommute(n, own, program, q, p, d.message.channel);
      }
    } else {
      UnrelatedStepsCommute(n, own, program, p, q);
    }
  }

  // ----- whole schedules -----

  /** The net after the processes have stepped in this order; `None` when one of them cannot. */
  ghost function After(n: Net, own: Owners, program: Program, order: seq<nat>): (r: Option<Net>)
    requires Valid(n, own)
    ensures r.Some? ==> Valid(r.value, own)
    decreases |order|
  {
    if order == [] then Some(n)
    else if !Able(n, own, program, order[0]) then None
    else
      StepKeepsValid(n, own, program, order[0]);
      After(StepBy(n, own, program, order[0]), own, program, order[1..])
  }

  predicate Ended(n: Net) {
    forall p | 0 <= p < |n.status| :: n.status[p] != Ready
  }

  ghost predicate Ends(n: Net, own: Owners, program: Program, order: seq<nat>) {
    Valid(n, own) && var r := After(n, own, program, order); r.Some? && Ended(r.value)
  }

  /** In a schedule that ends, any process that is ready now can be moved to the front. */
  lemma {:induction false} MoveToFront(n: Net, own: Owners, program: Program, order: seq<nat>, q: nat) returns (rest: seq<nat>)
    requires Ends(n, own, program, order) && CanStep(n, q)
    ensures Able(n, own, program, q) && |rest| == |order| - 1
    ensures Valid(StepBy(n, own, program, q), own)
    ensures After(StepBy(n, own, program, q), own, program, rest) == After(n, own, program, order)
    decreases |order|
  {
    var p := order[0];
    StepKeepsValid(n, own, program, p);
    if p == q {
      rest := order[1..];
    } else {
      OthersStayReady(n, own, program, p, q);
      var later := MoveToFront(StepBy(n, own, program, p), own, program, order[1..], q);
      StepsCommute(n, own, program, p, q);
      StepKeepsValid(n, own, program, q);
      rest := [p] + later;
    }
  }

  /** If one schedule ends, every other has at most its length and can be completed to the same end. */
  lemma {:induction false} SchedulesAgree(n: Net, own: Owners, program: Program, order: seq<nat>, other: seq<nat>)
      returns (rest: seq<nat>)
    requires Ends(n, own, program, order) && After(n, own, program, other).Some?
    ensures |other| + |rest| == |order|
    ensures After(After(n, own, program, other).value, own, program, rest) == After(n, own, program, order)
    decreases |other|
  {
    if other == [] {
      rest := order;
    } else {
      var q := other[0];
      var later := MoveToFront(n, own, program, order, q);
      rest := SchedulesAgree(StepBy(n, own, program, q), own, program, later, other[1..]);
    }
  }

  /** All schedules that end take the same number of steps and end in the same net. */
  lemma OneOutcome(n: Net, own: Owners, program: Program, order: seq<nat>, other: seq<nat>)
    requires Ends(n, own, program, order) && Ends(n, own, program, other)
    ensures After(n, own, program, order) == After(n, own, program, other) && |order| == |other|
  {
    var rest := SchedulesAgree(n, own, program, order, other);
    assert rest != [] ==> !CanStep(After(n, own, program, other).value, rest[0]);
  }

  /** If one schedule ends, none gets stuck: whoever is ready can take a step that leads to that end. */
  lemma NoScheduleFails(n: Net, own: Owners, program: Program, order: seq<nat>, other: seq<nat>, q: nat)
    requires Ends(n, own, program, order) && After(n, own, program, other).Some?
    requires CanStep(After(n, own, program, other).value, q)
    ensures Able(After(n, own, program, other).value, own, program, q) && |other| < |order|
  {
    var rest := SchedulesAgree(n, own, program, order, other);
    var later := MoveToFront(After(n, own, program, other).value, own, program, rest, q);
  }

  /** If one schedule ends, no other is longer, and whoever is ready after it can step. */
  lemma NoScheduleIsLonger(n: Net, own: Owners, program: Program, order: seq<nat>, other: seq<nat>, r: Net)
    requires Ends(n, own, program, order) && After(n, own, program, other) == Some(r)
    ensures |other| <= |order| && forall q | CanStep(r, q) :: Able(r, own, program, q) && |other| < |order|
  {
    var rest := SchedulesAgree(n, own, program, order, other);
    forall q | CanStep(r, q) ensures Able(r, own, program, q) && |other| < |order| {
      NoScheduleFails(n, own, program, order, other, q);
    }
  }
}
