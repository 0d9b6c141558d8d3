/**
 * Channels over whole runs. Each channel has one sender and one receiver, and no process alternates.
 * Then what was received is what was sent, in order, less the last value exactly while the sender
 * waits in the slot; and a process that waits in a slot does not run.
 */
module Rendezvous {
  import opened Isa
  import opened StackMachine
  import opened Simulator
  import opened ProcessorModel
  import opened Scheduler

  datatype Owner = Owner(sender: nat, receiver: nat)

  type Messages = seq<Maybe<Message>>

  /** A channel with what has gone through it. */
  datatype Slot = Slot(channel: Channel, log: History)

  // ----- one channel, one tick -----

  function AfterSend(x: Slot, tx: nat, v: Word): Slot {
    if x.channel.pid == NO_PROCESS then
      Slot(Channel(tx, false, v), x.log.(sent := x.log.sent + [v]))
    else
      Slot(Channel(NO_PROCESS, false, v), History(x.log.sent + [v], x.log.received + [v]))
  }

  function AfterReceive(x: Slot, rx: nat): Slot {
    if x.channel.pid == NO_PROCESS then Slot(Channel(rx, false, x.channel.value), x.log)
    else Slot(Channel(NO_PROCESS, false, x.channel.value), x.log.(received := x.log.received + [x.channel.value]))
  }

  predicate Meets(ms: Messages, ch: nat) {
    ch in SendsOf(ms) && ch in ListenersOf(ms)
  }

  /** A channel when the first `k` cores' messages have been dealt with. */
  function Expected(x: Slot, o: Owner, ms: Messages, k: nat, ch: nat): Slot
    requires k <= |ms|
  {
    var sent, took := SendsOf(ms[..k]), ListenersOf(ms[..k]);
    if Meets(ms, ch) then
      Slot(x.channel, History(if ch in sent then x.log.sent + [SendsOf(ms)[ch]] else x.log.sent,
                              if ch in took then x.log.received + [SendsOf(ms)[ch]] else x.log.received))
    else if ch in sent then AfterSend(x, o.sender, sent[ch])
    else if ch in took then AfterReceive(x, o.receiver)
    else x
  }

  predicate Fair(x: Slot, o: Owner) {
    && !x.channel.inAlternation
    && (x.channel.pid == NO_PROCESS || x.channel.pid == o.sender || x.channel.pid == o.receiver)
    && x.log.sent == x.log.received + if x.channel.pid == o.sender then [x.channel.value] else []
  }

  predicate SendsOn(m: Maybe<Message>, ch: nat) {
    m.Just? && m.value.SendOn? && m.value.channel == ch
  }

  predicate ReceivesOn(m: Maybe<Message>, ch: nat) {
    m.Just? && m.value.ReceiveOn? && m.value.channel == ch
  }

  lemma {:induction false} SendsMeaning(ms: Messages, ch: nat)
    ensures ch in SendsOf(ms) <==> exists c :: 0 <= c < |ms| && SendsOn(ms[c], ch)
    ensures ch in SendsOf(ms) ==> exists c :: 0 <= c < |ms| && ms[c] == Just(SendOn(ch, SendsOf(ms)[ch]))
  {
    if ms != [] {
      var n := |ms| - 1;
      SendsMeaning(ms[..n], ch);
      assert forall c | 0 <= c < n :: ms[..n][c] == ms[c];
      if SendsOn(ms[n], ch) {
        assert ms[n] == Just(SendOn(ch, SendsOf(ms)[ch]));
      }
    }
  }

  lemma {:induction false} ListenersMeaning(ms: Messages, ch: nat)
    ensures ch in ListenersOf(ms) <==> exists c :: 0 <= c < |ms| && ReceivesOn(ms[c], ch)
  {
    if ms != [] {
      var n := |ms| - 1;
      ListenersMeaning(ms[..n], ch);
      assert forall c | 0 <= c < n :: ms[..n][c] == ms[c];
    }
  }

  /** At most one core sends on the channel, and at most one receives. */
  predicate OneEach(ms: Messages, ch: nat) {
    && (forall c, d | 0 <= c < |ms| && 0 <= d < |ms| && SendsOn(ms[c], ch) && SendsOn(ms[d], ch) :: c == d)
    && (forall c, d | 0 <= c < |ms| && 0 <= d < |ms| && ReceivesOn(ms[c], ch) && ReceivesOn(ms[d], ch) :: c == d)
  }

  lemma SendBefore(ms: Messages, ch: nat, k: nat)
    requires OneEach(ms, ch) && k < |ms| && SendsOn(ms[k], ch)
    ensures ch !in SendsOf(ms[..k]) && ch in SendsOf(ms) && ms[k] == Just(SendOn(ch, SendsOf(ms)[ch]))
    ensures ch in SendsOf(ms[..k + 1]) && SendsOf(ms[..k + 1])[ch] == SendsOf(ms)[ch]
  {
    SendsMeaning(ms[..k], ch);
    SendsMeaning(ms[..k + 1], ch);
    SendsMeaning(ms, ch);
    assert forall c | 0 <= c < k :: ms[..k][c] == ms[c];
    assert ms[..k + 1][k] == ms[k];
    var c :| 0 <= c < |ms| && ms[c] == Just(SendOn(ch, SendsOf(ms)[ch]));
    assert SendsOn(ms[c], ch);
    var d :| 0 <= d < k + 1 && ms[..k + 1][d] == Just(SendOn(ch, SendsOf(ms[..k + 1])[ch]));
    assert SendsOn(ms[d], ch);
  }

  lemma ReceiveBefore(ms: Messages, ch: nat, k: nat)
    requires OneEach(ms, ch) && k < |ms| && ReceivesOn(ms[k], ch)
    ensures ch !in ListenersOf(ms[..k]) && ch in ListenersOf(ms) && ch in ListenersOf(ms[..k + 1])
  {
    ListenersMeaning(ms[..k], ch);
    ListenersMeaning(ms[..k + 1], ch);
    ListenersMeaning(ms, ch);
    assert forall c | 0 <= c < k :: ms[..k][c] == ms[c];
    assert ms[..k + 1][k] == ms[k];
  }

  lemma PrefixSends(ms: Messages, ch: nat, k: nat)
    requires k <= |ms|
    ensures ch in SendsOf(ms[..k]) ==> ch in SendsOf(ms)
    ensures ch in ListenersOf(ms[..k]) ==> ch in ListenersOf(ms)
  {
    SendsMeaning(ms[..k], ch);
    SendsMeaning(ms, ch);
    ListenersMeaning(ms[..k], ch);
    ListenersMeaning(ms, ch);
    assert forall c | 0 <= c < k :: ms[..k][c] == ms[c];
  }

  /** What one more core's message does to a channel that nobody deletes. */
  lemma ExpectedStep(x: Slot, o: Owner, ms: Messages, k: nat, ch: nat)
    requires k < |ms| && OneEach(ms, ch)
    ensures var e, f := Expected(x, o, ms, k, ch), Expected(x, o, ms, k + 1, ch);
            if SendsOn(ms[k], ch) then
              if ch in ListenersOf(ms) then f == e.(log := e.log.(sent := e.log.sent + [ms[k].value.value]))
              else e == x && f == AfterSend(x, o.sender, ms[k].value.value)
            else if ReceivesOn(ms[k], ch) then
              if ch in SendsOf(ms) then f == e.(log := e.log.(received := e.log.received + [SendsOf(ms)[ch]]))
              else e == x && f == AfterReceive(x, o.receiver)
            else e == f
  {
    assert ms[..k + 1][..k] == ms[..k] && ms[..k + 1][k] == ms[k];
    PrefixSends(ms, ch, k);
    if SendsOn(ms[k], ch) {
      SendBefore(ms, ch, k);
    } else if ReceivesOn(ms[k], ch) {
      ReceiveBefore(ms, ch, k);
    }
  }

  /** A channel when every core's message has been dealt with. */
  function AfterAll(x: Slot, o: Owner, ms: Messages, ch: nat): Slot {
    if Meets(ms, ch) then Slot(x.channel, History(x.log.sent + [SendsOf(ms)[ch]], x.log.received + [SendsOf(ms)[ch]]))
    else if ch in SendsOf(ms) then AfterSend(x, o.sender, SendsOf(ms)[ch])
    else if ch in ListenersOf(ms) then AfterReceive(x, o.receiver)
    else x
  }

  lemma ExpectedIsAfterAll(x: Slot, o: Owner, ms: Messages, ch: nat)
    ensures Expected(x, o, ms, |ms|, ch) == AfterAll(x, o, ms, ch)
  {
    assert ms[..|ms|] == ms;
  }

  /** A tick leaves a fair channel fair, when those who act on it were not waiting in it. */
  lemma StaysFair(x: Slot, o: Owner, ms: Messages, ch: nat, y: Slot)
    requires Fair(x, o) && o.sender != o.receiver && o.sender != NO_PROCESS && o.receiver != NO_PROCESS
    requires ch in SendsOf(ms) ==> x.channel.pid != o.sender
    requires ch in ListenersOf(ms) ==> x.channel.pid != o.receiver
    requires y == AfterAll(x, o, ms, ch)
    ensures Fair(y, o) && x.log.received <= y.log.received
    ensures y.log.sent == x.log.sent + if ch in SendsOf(ms) then [SendsOf(ms)[ch]] else []
  {
    if Meets(ms, ch) {
      assert x.channel.pid == NO_PROCESS;
    } else if ch in SendsOf(ms) {
      SendStaysFair(x, o, SendsOf(ms)[ch], y);
    } else if ch in ListenersOf(ms) {
      ReceiveStaysFair(x, o, y);
    }
  }

  lemma SendStaysFair(x: Slot, o: Owner, v: Word, y: Slot)
    requires Fair(x, o) && o.sender != NO_PROCESS && x.channel.pid != o.sender && y == AfterSend(x, o.sender, v)
    ensures Fair(y, o) && x.log.received <= y.log.received && y.log.sent == x.log.sent + [v]
  {
  }

  lemma ReceiveStaysFair(x: Slot, o: Owner, y: Slot)
    requires Fair(x, o) && o.sender != o.receiver && o.sender != NO_PROCESS && x.channel.pid != o.receiver
    requires y == AfterReceive(x, o.receiver)
    ensures Fair(y, o) && x.log.received <= y.log.received && y.log.sent == x.log.sent
  {
  }

  // ----- one message -----

  /** Live channels lie below the bump pointer, and freed ones are not live. */
  predicate HeapGood(s: Sys) {
    && (forall ch | ch in s.channels :: ch < s.heap.end)
    && (forall i | 0 <= i < |s.heap.free| :: s.heap.free[i] < s.heap.end && s.heap.free[i] !in s.channels)
    && (forall i, j | 0 <= i < j < |s.heap.free| :: s.heap.free[i] != s.heap.free[j])
  }

  predicate Logged(s: Sys) {
    forall ch | ch in s.channels :: ch in s.history
  }

  function SlotOf(s: Sys, ch: nat): Slot
    requires ch in s.channels && ch in s.history
  {
    Slot(s.channels[ch], s.history[ch])
  }

  const UNUSED := Slot(Channel(NO_PROCESS, false, 0), History([], []))

  predicate SameSlot(s: Sys, r: Sys, ch: nat)
    requires Logged(s) && Logged(r)
  {
    (ch in s.channels <==> ch in r.channels) && (ch in s.channels ==> SlotOf(r, ch) == SlotOf(s, ch))
  }

  /** What a message does to a channel it names. */
  ghost predicate Named(x: Slot, y: Slot, pid: nat, m: Message, sends: map<Word, Word>, listeners: set<Word>)
    requires m.SendOn? || m.ReceiveOn?
  {
    if m.SendOn? then
      y == if m.channel in listeners then x.(log := x.log.(sent := x.log.sent + [m.value])) else AfterSend(x, pid, m.value)
    else
      y == if m.channel in sends then x.(log := x.log.(received := x.log.received + [sends[m.channel]])) else AfterReceive(x, pid)
  }

  ghost predicate Effect(s: Sys, r: Sys, pid: nat, m: Message, sends: map<Word, Word>, listeners: set<Word>) {
    && Logged(s) && Logged(r)
    && (m.SendOn? || m.ReceiveOn? ==>
          m.channel in s.channels && m.channel in r.channels &&
          Named(SlotOf(s, m.channel), SlotOf(r, m.channel), pid, m, sends, listeners) &&
          forall ch :: ch != m.channel ==> SameSlot(s, r, ch))
    && (m.DeleteChannel? ==> m.channel !in r.channels && forall ch :: ch != m.channel ==> SameSlot(s, r, ch))
    && (m.NewChannel? ==>
          forall ch :: SameSlot(s, r, ch) || (ch !in s.channels && ch in r.channels && SlotOf(r, ch) == UNUSED))
    && (!m.SendOn? && !m.ReceiveOn? && !m.DeleteChannel? && !m.NewChannel? ==> forall ch :: SameSlot(s, r, ch))
  }

  /** Only one channel and its log change. */
  ghost predicate Writes(s: Sys, r: Sys, ch: nat, y: Slot) {
    r.channels == s.channels[ch := y.channel] && r.history == s.history[ch := y.log] && r.heap == s.heap
  }

  lemma WriteKeeps(s: Sys, r: Sys, ch: nat, y: Slot)
    requires Logged(s) && HeapGood(s) && ch in s.channels && Writes(s, r, ch, y)
    ensures Logged(r) && HeapGood(r) && SlotOf(r, ch) == y && forall x :: x != ch ==> SameSlot(s, r, x)
  {
  }

  lemma SendWrites(s: Sys, pid: nat, ch: nat, v: Word, h: Handled)
    requires Shaped(s) && Logged(s) && IsPid(s, pid) && ch in s.channels && !s.channels[ch].inAlternation
    requires h == SendWord(s, ch, v, pid)
    ensures Writes(s, h.sys, ch, AfterSend(SlotOf(s, ch), pid, v))
    ensures h.tasks == if s.channels[ch].pid == NO_PROCESS then [Deschedule(pid)] else [Schedule(s.channels[ch].pid)]
  {
  }

  lemma SendEffect(s: Sys, pid: nat, m: Message, sends: map<Word, Word>, listeners: set<Word>, h: Handled)
    requires Shaped(s) && Logged(s) && HeapGood(s) && IsPid(s, pid) && m.SendOn?
    requires m.channel in s.channels && !s.channels[m.channel].inAlternation
    requires Handle(s, pid, m, sends, listeners) == Done(h)
    ensures Effect(s, h.sys, pid, m, sends, listeners) && HeapGood(h.sys)
    ensures h.tasks == if m.channel in listeners then []
                       else if s.channels[m.channel].pid == NO_PROCESS then [Deschedule(pid)]
                       else [Schedule(s.channels[m.channel].pid)]
  {
    var ch, x := m.channel, SlotOf(s, m.channel);
    if ch in listeners {
      var y := x.(log := x.log.(sent := x.log.sent + [m.value]));
      assert s.channels[ch := y.channel] == s.channels;
      WriteKeeps(s, h.sys, ch, y);
    } else {
      SendWrites(s, pid, ch, m.value, h);
      WriteKeeps(s, h.sys, ch, AfterSend(x, pid, m.value));
    }
  }

  lemma ReceiveWrites(s: Sys, pid: nat, ch: nat, h: Handled)
    requires Shaped(s) && Logged(s) && IsPid(s, pid) && ch in s.channels && h == ReceiveWord(s, ch, pid)
    ensures Writes(s, h.sys, ch, AfterReceive(SlotOf(s, ch), pid))
    ensures h.tasks == if s.channels[ch].pid == NO_PROCESS then [Deschedule(pid)] else [Schedule(s.channels[ch].pid)]
  {
    assert s.history[ch := s.history[ch]] == s.history;
  }

  lemma ReceiveEffect(s: Sys, pid: nat, m: Message, sends: map<Word, Word>, listeners: set<Word>, h: Handled)
    requires Shaped(s) && Logged(s) && HeapGood(s) && IsPid(s, pid) && m.ReceiveOn?
    requires m.channel in s.channels
    requires Handle(s, pid, m, sends, listeners) == Done(h)
    ensures Effect(s, h.sys, pid, m, sends, listeners) && HeapGood(h.sys)
    ensures h.tasks == if m.channel in sends then []
                       else if s.channels[m.channel].pid == NO_PROCESS then [Deschedule(pid)]
                       else [Schedule(s.channels[m.channel].pid)]
  {
    var ch, x := m.channel, SlotOf(s, m.channel);
    if ch in sends {
      var y := x.(log := x.log.(received := x.log.received + [sends[ch]]));
      assert s.channels[ch := y.channel] == s.channels;
      WriteKeeps(s, h.sys, ch, y);
    } else {
      ReceiveWrites(s, pid, ch, h);
      WriteKeeps(s, h.sys, ch, AfterReceive(x, pid));
    }
  }

  lemma NewEffect(s: Sys, h: Handled)
    requires Shaped(s) && Logged(s) && HeapGood(s) && MakeChannel(s) == Done(h)
    ensures Logged(h.sys) && HeapGood(h.sys) && h.tasks == []
    ensures forall ch :: SameSlot(s, h.sys, ch) || (ch !in s.channels && ch in h.sys.channels && SlotOf(h.sys, ch) == UNUSED)
  {
    var (ch, heap) := Alloc(s.heap).value;
    assert ch !in s.channels && h.sys.channels == s.channels[ch := UNUSED.channel];
    assert h.sys.history == s.history[ch := UNUSED.log] && h.sys.heap == heap;
  }

  lemma FreeEffect(s: Sys, ch: nat, h: Handled)
    requires Shaped(s) && Logged(s) && HeapGood(s) && ch in s.channels && h == FreeChannel(s, ch)
    ensures Logged(h.sys) && HeapGood(h.sys) && h.tasks == [] && ch !in h.sys.channels
    ensures forall x :: x != ch ==> SameSlot(s, h.sys, x)
  {
  }

  lemma OtherEffect(s: Sys, pid: nat, m: Message, sends: map<Word, Word>, listeners: set<Word>, h: Handled)
    requires Shaped(s) && Logged(s) && HeapGood(s) && IsPid(s, pid)
    requires !m.SendOn? && !m.ReceiveOn? && !m.Enable? && !m.Disable?
    requires Handle(s, pid, m, sends, listeners) == Done(h)
    ensures Effect(s, h.sys, pid, m, sends, listeners) && HeapGood(h.sys)
    ensures forall t | t in h.tasks :: if t.Schedule? then s.states[t.pid] == Dead else t.pid == pid
  {
    if m.NewChannel? {
      NewEffect(s, h);
    } else if m.DeleteChannel? {
      FreeEffect(s, m.channel, h);
    } else {
      QuietEffect(s, pid, m, sends, listeners, h);
    }
  }

  lemma QuietEffect(s: Sys, pid: nat, m: Message, sends: map<Word, Word>, listeners: set<Word>, h: Handled)
    requires Shaped(s) && IsPid(s, pid) && !m.SendOn? && !m.ReceiveOn? && !m.Enable? && !m.Disable?
    requires !m.NewChannel? && !m.DeleteChannel? && Handle(s, pid, m, sends, listeners) == Done(h)
    ensures h.sys.channels == s.channels && h.sys.history == s.history && h.sys.heap == s.heap
    ensures forall t | t in h.tasks :: if t.Schedule? then s.states[t.pid] == Dead else t.pid == pid
  {
    if m.StartProcess? {
      var child := NewProcess(s, s.cores);
    }
  }

  // ----- the tick's messages -----

  type Owners = map<nat, Owner>

  predicate Deletes(m: Maybe<Message>, ch: nat) {
    m.Just? && m.value.DeleteChannel? && m.value.channel == ch
  }

  predicate Mentions(m: Maybe<Message>, ch: nat) {
    SendsOn(m, ch) || ReceivesOn(m, ch) || Deletes(m, ch)
  }

  /**
   * What the processes must keep to: sends and receives by the owners, no alternation, and nobody uses
   * a channel in the cycle in which another deletes it.
   */
  ghost predicate Disciplined(s: Sys, own: Owners, ms: Messages) {
    && |ms| == s.cores
    && (forall c | 0 <= c < |ms| :: ms[c].Just? <==> c in s.running)
    && (forall c, ch | 0 <= c < |ms| && SendsOn(ms[c], ch) :: ch in own && own[ch].sender == s.running[c])
    && (forall c, ch | 0 <= c < |ms| && ReceivesOn(ms[c], ch) :: ch in own && own[ch].receiver == s.running[c])
    && (forall c | 0 <= c < |ms| && ms[c].Just? :: !ms[c].value.Enable? && !ms[c].value.Disable?)
    && (forall c, d, ch | 0 <= c < |ms| && 0 <= d < |ms| && Deletes(ms[c], ch) && Mentions(ms[d], ch) :: c == d)
  }

  predicate NamedOnce(channels: map<nat, Channel>) {
    forall a, b | a in channels && b in channels && a != b && channels[a].pid != NO_PROCESS ::
      channels[a].pid != channels[b].pid
  }

  predicate Owned(s: Sys, o: Owner) {
    o.sender != o.receiver && IsPid(s, o.sender) && IsPid(s, o.receiver)
  }

  /** What every tick keeps of the channels. */
  ghost predicate Linked(s: Sys, own: Owners) {
    && Agrees(s) && HeapGood(s) && Logged(s) && NamedOnce(s.channels) && own.Keys == s.channels.Keys
    && (forall ch | ch in s.channels :: Owned(s, own[ch]) && Fair(SlotOf(s, ch), own[ch]))
    && (forall ch | ch in s.channels && s.channels[ch].pid != NO_PROCESS :: s.states[s.channels[ch].pid] == Inactive)
  }

  predicate DeletedBy(ms: Messages, k: nat, ch: nat)
    requires k <= |ms|
  {
    exists c :: 0 <= c < k && Deletes(ms[c], ch)
  }

  /** A channel of before the tick is as expected; any other is new and unused. */
  ghost predicate MidSlot(s0: Sys, own: Owners, ms: Messages, k: nat, s: Sys, ch: nat)
    requires k <= |ms| && Logged(s0) && own.Keys == s0.channels.Keys
  {
    if ch in s0.channels && !DeletedBy(ms, k, ch) then
      ch in s.channels && ch in s.history && SlotOf(s, ch) == Expected(SlotOf(s0, ch), own[ch], ms, k, ch)
    else ch in s.channels ==> ch in s.history && SlotOf(s, ch) == UNUSED
  }

  ghost predicate Mid(s0: Sys, own: Owners, ms: Messages, k: nat, s: Sys)
    requires k <= |ms| && Logged(s0) && own.Keys == s0.channels.Keys
  {
    HeapGood(s) && Logged(s) && forall ch :: MidSlot(s0, own, ms, k, s, ch)
  }

  lemma OwnersAreUnique(s: Sys, own: Owners, ms: Messages, ch: nat)
    requires Agrees(s) && Disciplined(s, own, ms)
    ensures OneEach(ms, ch)
  {
    forall c, d | 0 <= c < |ms| && 0 <= d < |ms| && SendsOn(ms[c], ch) && SendsOn(ms[d], ch) ensures c == d {
      assert own[ch].sender == s.running[c] && own[ch].sender == s.running[d];
      OneCoreEach(s, c, d);
    }
    forall c, d | 0 <= c < |ms| && 0 <= d < |ms| && ReceivesOn(ms[c], ch) && ReceivesOn(ms[d], ch) ensures c == d {
      assert own[ch].receiver == s.running[c] && own[ch].receiver == s.running[d];
      OneCoreEach(s, c, d);
    }
  }

  /** A channel that is named now was there before the tick and nobody has deleted it. */
  lemma NamedIsOld(s0: Sys, own: Owners, ms: Messages, k: nat, ch: nat)
    requires Disciplined(s0, own, ms) && own.Keys == s0.channels.Keys && k < |ms|
    requires SendsOn(ms[k], ch) || ReceivesOn(ms[k], ch)
    ensures ch in s0.channels && !DeletedBy(ms, k, ch)
  {
    assert forall c | 0 <= c < k :: !(Deletes(ms[c], ch) && Mentions(ms[k], ch));
  }

  lemma MidSlotStep(s0: Sys, own: Owners, ms: Messages, k: nat, s: Sys, r: Sys, ch: nat)
    requires k < |ms| && Linked(s0, own) && Disciplined(s0, own, ms) && ms[k].Just?
    requires Logged(s) && MidSlot(s0, own, ms, k, s, ch)
    requires Effect(s, r, s0.running[k], ms[k].value, SendsOf(ms), ListenersOf(ms))
    ensures MidSlot(s0, own, ms, k + 1, r, ch)
  {
    OwnersAreUnique(s0, own, ms, ch);
    assert DeletedBy(ms, k + 1, ch) <==> DeletedBy(ms, k, ch) || Deletes(ms[k], ch);
    if SendsOn(ms[k], ch) || ReceivesOn(ms[k], ch) {
      NamedIsOld(s0, own, ms, k, ch);
      ExpectedStep(SlotOf(s0, ch), own[ch], ms, k, ch);
      OwnerIs(s0, own, ms, k, ch);
    } else if !Deletes(ms[k], ch) {
      assert SameSlot(s, r, ch) || (ch !in s.channels && ch in r.channels && SlotOf(r, ch) == UNUSED);
      if ch in s0.channels {
        ExpectedStep(SlotOf(s0, ch), own[ch], ms, k, ch);
      }
    }
  }

  lemma OwnerIs(s: Sys, own: Owners, ms: Messages, k: nat, ch: nat)
    requires Disciplined(s, own, ms) && k < |ms| && ch in own && k in s.running
    ensures SendsOn(ms[k], ch) ==> own[ch].sender == s.running[k]
    ensures ReceivesOn(ms[k], ch) ==> own[ch].receiver == s.running[k]
  {
  }

  // ----- the tick's tasks -----

  /** Who waits in a slot either waited there before the tick or is about to be taken off its core. */
  ghost predicate Settling(s0: Sys, k: nat, s: Sys, tasks: seq<Task>, ch: nat)
    requires ch in s.channels && Shaped(s0)
  {
    var p := s.channels[ch].pid;
    p == NO_PROCESS ||
    (IsPid(s0, p) &&
     ((s0.states[p] == Inactive && ch in s0.channels && s0.channels[ch].pid == p) ||
      (s0.states[p].Running? && s0.states[p].core < k && TakenOff(tasks, |tasks|, p) == Just(Inactive))))
  }

  /** Tasks start the dead and the woken, and stop those whose messages have been dealt with. */
  ghost predicate Sensible(s0: Sys, k: nat, s: Sys, t: Task)
    requires Shaped(s0)
  {
    IsPid(s0, t.pid) &&
    if t.Schedule? then
      s0.states[t.pid] == Dead ||
      (s0.states[t.pid] == Inactive && forall ch | ch in s.channels :: s.channels[ch].pid != t.pid)
    else s0.states[t.pid].Running? && s0.states[t.pid].core < k
  }

  ghost predicate MidTasks(s0: Sys, k: nat, s: Sys, tasks: seq<Task>)
    requires Shaped(s0)
  {
    && (forall ch | ch in s.channels :: Settling(s0, k, s, tasks, ch))
    && (forall t | t in tasks :: Sensible(s0, k, s, t))
  }

  lemma TakenOffOne(tasks: seq<Task>, t: Task, pid: nat)
    ensures TakenOff(tasks + [t], |tasks + [t]|, pid) ==
            if t.pid != pid || t.Schedule? then TakenOff(tasks, |tasks|, pid)
            else if t.Destroy? then Just(Dead) else Just(Inactive)
  {
    TakenOffPrefix(tasks, [t], |tasks|, pid);
  }

  lemma {:induction false} TakenOffPrefix(tasks: seq<Task>, more: seq<Task>, k: nat, pid: nat)
    requires k <= |tasks|
    ensures TakenOff(tasks + more, k, pid) == TakenOff(tasks, k, pid)
  {
    if k > 0 { TakenOffPrefix(tasks, more, k - 1, pid); }
  }

  predicate SamePids(s: Sys, r: Sys, ch: nat) {
    forall x | x in r.channels && x != ch :: x in s.channels && s.channels[x].pid == r.channels[x].pid
  }

  /** A process falls asleep in a slot. */
  lemma BlocksWell(s0: Sys, k: nat, s: Sys, r: Sys, tasks: seq<Task>, ch: nat, p: nat)
    requires Agrees(s0) && k < s0.cores && k in s0.running && p == s0.running[k]
    requires MidTasks(s0, k, s, tasks) && ch in s.channels
    requires ch in r.channels && r.channels[ch].pid == p && SamePids(s, r, ch)
    ensures MidTasks(s0, k + 1, r, tasks + [Deschedule(p)])
  {
    forall x | x in r.channels ensures Settling(s0, k + 1, r, tasks + [Deschedule(p)], x) {
      TakenOffOne(tasks, Deschedule(p), r.channels[x].pid);
      assert x != ch ==> Settling(s0, k, s, tasks, x);
    }
    forall t | t in tasks + [Deschedule(p)] ensures Sensible(s0, k + 1, r, t) {
      assert t in tasks ==> Sensible(s0, k, s, t);
    }
  }

  /** A process is woken from a slot. */
  lemma WakesWell(s0: Sys, k: nat, s: Sys, r: Sys, tasks: seq<Task>, ch: nat, p: nat)
    requires Agrees(s0) && NamedOnce(s0.channels) && MidTasks(s0, k, s, tasks)
    requires ch in s.channels && ch in s0.channels && s.channels[ch].pid == s0.channels[ch].pid == p
    requires IsPid(s0, p) && s0.states[p] == Inactive
    requires ch in r.channels && r.channels[ch].pid == NO_PROCESS && SamePids(s, r, ch)
    ensures MidTasks(s0, k + 1, r, tasks + [Schedule(p)])
  {
    forall x | x in r.channels
      ensures Settling(s0, k + 1, r, tasks + [Schedule(p)], x) && r.channels[x].pid != p
    {
      TakenOffOne(tasks, Schedule(p), r.channels[x].pid);
      assert x != ch ==> Settling(s0, k, s, tasks, x);
    }
    forall t | t in tasks + [Schedule(p)] ensures Sensible(s0, k + 1, r, t) {
      assert t in tasks ==> Sensible(s0, k, s, t);
    }
  }

  /** Channels only come unused or go, and the tasks are about the process itself and the dead. */
  lemma OthersWell(s0: Sys, k: nat, s: Sys, r: Sys, tasks: seq<Task>, more: seq<Task>, p: nat)
    requires Agrees(s0) && k < s0.cores && k in s0.running && p == s0.running[k] && MidTasks(s0, k, s, tasks)
    requires |more| <= 1 && forall t | t in more :: IsPid(s0, t.pid) && if t.Schedule? then s0.states[t.pid] == Dead else t.pid == p
    requires forall x | x in r.channels :: r.channels[x].pid == NO_PROCESS || (x in s.channels && s.channels[x].pid == r.channels[x].pid)
    ensures MidTasks(s0, k + 1, r, tasks + more)
  {
    forall x | x in r.channels ensures Settling(s0, k + 1, r, tasks + more, x) {
      if more != [] { TakenOffOne(tasks, more[0], r.channels[x].pid); assert more == [more[0]]; } else { assert tasks + more == tasks; }
      assert x in s.channels ==> Settling(s0, k, s, tasks, x);
    }
    forall t | t in tasks + more ensures Sensible(s0, k + 1, r, t) {
      assert t in tasks ==> Sensible(s0, k, s, t);
    }
  }

  // ----- all of the tick's messages -----

  lemma NamedTasksStep(s0: Sys, own: Owners, ms: Messages, k: nat, s: Sys, tasks: seq<Task>, h: Handled, ch: nat)
    requires Linked(s0, own) && Disciplined(s0, own, ms) && k < |ms| && k in s0.running
    requires Mid(s0, own, ms, k, s) && MidTasks(s0, k, s, tasks)
    requires SendsOn(ms[k], ch) || ReceivesOn(ms[k], ch)
    requires Effect(s, h.sys, s0.running[k], ms[k].value, SendsOf(ms), ListenersOf(ms))
    requires h.tasks == if Meets(ms, ch) then []
                        else if s.channels[ch].pid == NO_PROCESS then [Deschedule(s0.running[k])]
                        else [Schedule(s.channels[ch].pid)]
    ensures MidTasks(s0, k + 1, h.sys, tasks + h.tasks)
  {
    NamedSlot(s0, own, ms, k, s, tasks, h, ch);
    if Meets(ms, ch) {
      OthersWell(s0, k, s, h.sys, tasks, [], s0.running[k]);
    } else if s.channels[ch].pid == NO_PROCESS {
      BlocksWell(s0, k, s, h.sys, tasks, ch, s0.running[k]);
    } else {
      WakesWell(s0, k, s, h.sys, tasks, ch, s.channels[ch].pid);
    }
  }

  /** A channel's slot before and after the message that names it. */
  lemma NamedSlot(s0: Sys, own: Owners, ms: Messages, k: nat, s: Sys, tasks: seq<Task>, h: Handled, ch: nat)
    requires Linked(s0, own) && Disciplined(s0, own, ms) && k < |ms| && k in s0.running
    requires Logged(s) && MidSlot(s0, own, ms, k, s, ch)
    requires SendsOn(ms[k], ch) || ReceivesOn(ms[k], ch)
    requires Effect(s, h.sys, s0.running[k], ms[k].value, SendsOf(ms), ListenersOf(ms))
    ensures ch in s.channels && ch in h.sys.channels && SamePids(s, h.sys, ch) && ch in s0.channels
    ensures if Meets(ms, ch) then h.sys.channels[ch] == s.channels[ch]
            else if s.channels[ch].pid == NO_PROCESS then h.sys.channels[ch].pid == s0.running[k]
            else h.sys.channels[ch].pid == NO_PROCESS
    ensures !Meets(ms, ch) ==> s.channels[ch] == s0.channels[ch]
    ensures s0.channels[ch].pid != NO_PROCESS ==> IsPid(s0, s0.channels[ch].pid) && s0.states[s0.channels[ch].pid] == Inactive
  {
    NamedIsOld(s0, own, ms, k, ch);
    OwnersAreUnique(s0, own, ms, ch);
    ListensOrSends(ms, k, ch);
    ExpectedStep(SlotOf(s0, ch), own[ch], ms, k, ch);
    forall x | x in h.sys.channels && x != ch ensures x in s.channels && s.channels[x].pid == h.sys.channels[x].pid {
      assert SameSlot(s, h.sys, x);
    }
  }

  lemma ListensOrSends(ms: Messages, k: nat, ch: nat)
    requires k < |ms|
    ensures SendsOn(ms[k], ch) ==> ch in SendsOf(ms)
    ensures ReceivesOn(ms[k], ch) ==> ch in ListenersOf(ms)
  {
    SendsMeaning(ms, ch);
    ListenersMeaning(ms, ch);
  }

  lemma OneMoreMessage(s0: Sys, own: Owners, ms: Messages, k: nat, s: Sys, tasks: seq<Task>, h: Handled)
    requires Linked(s0, own) && Disciplined(s0, own, ms) && k < |ms| && ms[k].Just? && Keeps(s0, s, tasks)
    requires Mid(s0, own, ms, k, s) && MidTasks(s0, k, s, tasks)
    requires Handle(s, s0.running[k], ms[k].value, SendsOf(ms), ListenersOf(ms)) == Done(h)
    ensures Mid(s0, own, ms, k + 1, h.sys) && MidTasks(s0, k + 1, h.sys, tasks + h.tasks)
  {
    var m, p := ms[k].value, s0.running[k];
    if m.SendOn? {
      NamedIsOld(s0, own, ms, k, m.channel);
      NotAlternating(s0, own, ms, k, s, m.channel);
      SendEffect(s, p, m, SendsOf(ms), ListenersOf(ms), h);
      ListensOrSends(ms, k, m.channel);
      NamedTasksStep(s0, own, ms, k, s, tasks, h, m.channel);
    } else if m.ReceiveOn? {
      NamedIsOld(s0, own, ms, k, m.channel);
      assert MidSlot(s0, own, ms, k, s, m.channel);
      ReceiveEffect(s, p, m, SendsOf(ms), ListenersOf(ms), h);
      ListensOrSends(ms, k, m.channel);
      NamedTasksStep(s0, own, ms, k, s, tasks, h, m.channel);
    } else {
      OtherEffect(s, p, m, SendsOf(ms), ListenersOf(ms), h);
      OtherTasksStep(s0, k, s, tasks, h, p, m, SendsOf(ms), ListenersOf(ms));
    }
    var next := k + 1;
    forall ch ensures MidSlot(s0, own, ms, next, h.sys, ch) {
      MidSlotStep(s0, own, ms, k, s, h.sys, ch);
    }
  }

  lemma NotAlternating(s0: Sys, own: Owners, ms: Messages, k: nat, s: Sys, ch: nat)
    requires Linked(s0, own) && Disciplined(s0, own, ms) && k < |ms| && Mid(s0, own, ms, k, s)
    requires ch in s0.channels && !DeletedBy(ms, k, ch)
    ensures ch in s.channels && !s.channels[ch].inAlternation
  {
    assert MidSlot(s0, own, ms, k, s, ch);
    assert Fair(SlotOf(s0, ch), own[ch]);
  }

  lemma OtherTasksStep(s0: Sys, k: nat, s: Sys, tasks: seq<Task>, h: Handled, p: nat, m: Message, sends: map<Word, Word>, listeners: set<Word>)
    requires Agrees(s0) && k < s0.cores && k in s0.running && p == s0.running[k] && Keeps(s0, s, tasks)
    requires MidTasks(s0, k, s, tasks) && IsPid(s, p)
    requires !m.SendOn? && !m.ReceiveOn? && !m.Enable? && !m.Disable? && Handle(s, p, m, sends, listeners) == Done(h)
    requires Effect(s, h.sys, p, m, sends, listeners)
    requires forall t | t in h.tasks :: if t.Schedule? then s.states[t.pid] == Dead else t.pid == p
    ensures MidTasks(s0, k + 1, h.sys, tasks + h.tasks)
  {
    assert |h.tasks| <= 1;
    forall x | x in h.sys.channels
      ensures h.sys.channels[x].pid == NO_PROCESS || (x in s.channels && s.channels[x].pid == h.sys.channels[x].pid)
    {
      if !m.DeleteChannel? || x != m.channel {
        assert SameSlot(s, h.sys, x) || (x !in s.channels && x in h.sys.channels && SlotOf(h.sys, x) == UNUSED);
      }
    }
    OthersWell(s0, k, s, h.sys, tasks, h.tasks, p);
  }

  lemma LastMessage(s: Sys, ms: Messages, k: nat, a: AllHandled) returns (b: AllHandled, h: Handled)
    requires Shaped(s) && k < |ms| == s.cores && forall c | 0 <= c < |ms| :: ms[c].Just? <==> c in s.running
    requires HandleCores(s, ms, k + 1) == Done(a)
    ensures HandleCores(s, ms, k) == Done(b) && Keeps(s, b.sys, b.tasks)
    ensures if ms[k] == Nobody then a.sys == b.sys && a.tasks == b.tasks
            else Handle(b.sys, s.running[k], ms[k].value, SendsOf(ms), ListenersOf(ms)) == Done(h) &&
                 a.sys == h.sys && a.tasks == b.tasks + h.tasks
  {
    b := HandleCores(s, ms, k).value;
    if ms[k] == Nobody {
      h := Handled(s, [], Nobody);
    } else {
      h := Handle(b.sys, s.running[k], ms[k].value, SendsOf(ms), ListenersOf(ms)).value;
    }
  }

  lemma NothingYet(s0: Sys, own: Owners, ms: Messages)
    requires Linked(s0, own)
    ensures Mid(s0, own, ms, 0, s0) && MidTasks(s0, 0, s0, [])
  {
    assert ms[..0] == [];
    forall ch | ch in s0.channels ensures Settling(s0, 0, s0, [], ch) {
      assert Fair(SlotOf(s0, ch), own[ch]);
    }
  }

  lemma {:induction false} MessagesKeepMid(s0: Sys, own: Owners, ms: Messages, k: nat, a: AllHandled)
    requires Linked(s0, own) && Disciplined(s0, own, ms) && k <= |ms|
    requires HandleCores(s0, ms, k) == Done(a)
    ensures Mid(s0, own, ms, k, a.sys) && MidTasks(s0, k, a.sys, a.tasks)
  {
    if k == 0 {
      NothingYet(s0, own, ms);
    } else {
      var b, h := LastMessage(s0, ms, k - 1, a);
      MessagesKeepMid(s0, own, ms, k - 1, b);
      if ms[k - 1] == Nobody {
        SilentCore(s0, own, ms, k - 1, b.sys, b.tasks);
      } else {
        OneMoreMessage(s0, own, ms, k - 1, b.sys, b.tasks, h);
      }
    }
  }

  lemma SilentCore(s0: Sys, own: Owners, ms: Messages, k: nat, s: Sys, tasks: seq<Task>)
    requires Linked(s0, own) && Disciplined(s0, own, ms) && k < |ms| && ms[k] == Nobody
    requires Mid(s0, own, ms, k, s) && MidTasks(s0, k, s, tasks)
    ensures Mid(s0, own, ms, k + 1, s) && MidTasks(s0, k + 1, s, tasks)
  {
    var next := k + 1;
    forall ch ensures MidSlot(s0, own, ms, next, s, ch) {
      assert MidSlot(s0, own, ms, k, s, ch);
      OwnersAreUnique(s0, own, ms, ch);
      assert DeletedBy(ms, k + 1, ch) <==> DeletedBy(ms, k, ch);
      if ch in s0.channels { ExpectedStep(SlotOf(s0, ch), own[ch], ms, k, ch); }
    }
    forall x | x in s.channels ensures Settling(s0, k + 1, s, tasks, x) {
      assert Settling(s0, k, s, tasks, x);
    }
    forall t | t in tasks ensures Sensible(s0, k + 1, s, t) {
      assert Sensible(s0, k, s, t);
    }
  }

  // ----- the tick -----

  /** Owners of the channels after a tick: those that live on keep theirs. */
  ghost predicate Inherits(s: Sys, own: Owners, ms: Messages, t: Sys, next: Owners) {
    && next.Keys == t.channels.Keys
    && (forall ch | ch in next :: Owned(t, next[ch]))
    && (forall ch | ch in next && ch in own && !DeletedBy(ms, |ms|, ch) :: next[ch] == own[ch])
  }

  /** Nothing is lost, repeated or reordered by a tick; a send appears in the log of what was sent. */
  ghost predicate Flows(s: Sys, ms: Messages, t: Sys) {
    forall ch | ch in s.channels && ch in s.history && !DeletedBy(ms, |ms|, ch) ::
      && ch in t.channels && ch in t.history
      && t.history[ch].sent == s.history[ch].sent + (if ch in SendsOf(ms) then [SendsOf(ms)[ch]] else [])
      && s.history[ch].received <= t.history[ch].received
  }

  /** Who takes part in a channel's exchange this tick was not waiting in it. */
  lemma ActorsAreAwake(s: Sys, own: Owners, ms: Messages, ch: nat)
    requires Linked(s, own) && Disciplined(s, own, ms) && ch in s.channels
    ensures ch in SendsOf(ms) ==> s.channels[ch].pid != own[ch].sender
    ensures ch in ListenersOf(ms) ==> s.channels[ch].pid != own[ch].receiver
  {
    SendsMeaning(ms, ch);
    ListenersMeaning(ms, ch);
    assert Owned(s, own[ch]);
    if ch in SendsOf(ms) {
      var c :| 0 <= c < |ms| && SendsOn(ms[c], ch);
      OwnerIs(s, own, ms, c, ch);
    }
    if ch in ListenersOf(ms) {
      var c :| 0 <= c < |ms| && ReceivesOn(ms[c], ch);
      OwnerIs(s, own, ms, c, ch);
    }
  }

  lemma ChannelStaysFair(s: Sys, own: Owners, ms: Messages, t: Sys, next: Owners, ch: nat)
    requires Linked(s, own) && Disciplined(s, own, ms) && Mid(s, own, ms, |ms|, t)
    requires Inherits(s, own, ms, t, next) && 1 <= t.cores
    ensures ch in t.channels ==> Fair(SlotOf(t, ch), next[ch])
    ensures ch in s.channels && !DeletedBy(ms, |ms|, ch) ==>
              ch in t.channels && s.history[ch].received <= t.history[ch].received &&
              t.history[ch].sent == s.history[ch].sent + if ch in SendsOf(ms) then [SendsOf(ms)[ch]] else []
  {
    assert MidSlot(s, own, ms, |ms|, t, ch);
    if ch in s.channels && !DeletedBy(ms, |ms|, ch) {
      ActorsAreAwake(s, own, ms, ch);
      assert Owned(s, own[ch]);
      ExpectedIsAfterAll(SlotOf(s, ch), own[ch], ms, ch);
      StaysFair(SlotOf(s, ch), own[ch], ms, ch, SlotOf(t, ch));
    } else if ch in t.channels {
      assert ch in next && Owned(t, next[ch]) && SlotOf(t, ch) == UNUSED;
    }
  }

  /** The scheduler leaves those who wait in slots alone. */
  lemma SleepersSleep(s: Sys, tasks: seq<Task>, t: Sys, r: Sys, ch: nat)
    requires Shaped(s) && s.states == t.states && |r.states| == |t.states| && ch in t.channels
    requires MidTasks(s, s.cores, t, tasks) && t.channels[ch].pid != NO_PROCESS
    requires forall x | 0 <= x < |s.states| :: Decided(t.states[x], tasks, x, r.states[x])
    ensures IsPid(s, t.channels[ch].pid) && r.states[t.channels[ch].pid] == Inactive
  {
    var p := t.channels[ch].pid;
    assert Settling(s, s.cores, t, tasks, ch);
    forall i | 0 <= i < |tasks| ensures tasks[i] != Schedule(p) {
      assert Sensible(s, s.cores, t, tasks[i]);
    }
    if s.states[p] == Inactive {
      AllSensible(s, t, tasks, p);
      NotTakenOff(tasks, |tasks|, p);
    }
  }

  lemma AllSensible(s: Sys, t: Sys, tasks: seq<Task>, p: nat)
    requires Shaped(s) && MidTasks(s, s.cores, t, tasks) && IsPid(s, p) && !s.states[p].Running?
    ensures forall x | x in tasks && x.pid == p :: x.Schedule?
  {
    forall x | x in tasks && x.pid == p ensures x.Schedule? {
      assert Sensible(s, s.cores, t, x);
    }
  }

  lemma {:induction false} NotTakenOff(tasks: seq<Task>, k: nat, pid: nat)
    requires k <= |tasks| && forall t | t in tasks && t.pid == pid :: t.Schedule?
    ensures TakenOff(tasks, k, pid) == Nobody
  {
    if k > 0 { NotTakenOff(tasks, k - 1, pid); }
  }

  /** Two slots never name one process. */
  lemma StillNamedOnce(s: Sys, own: Owners, ms: Messages, tasks: seq<Task>, t: Sys)
    requires Linked(s, own) && Disciplined(s, own, ms) && Mid(s, own, ms, |ms|, t) && MidTasks(s, |ms|, t, tasks)
    ensures NamedOnce(t.channels)
  {
    forall a, b | a in t.channels && b in t.channels && a != b && t.channels[a].pid != NO_PROCESS
      ensures t.channels[a].pid != t.channels[b].pid
    {
      if t.channels[a].pid == t.channels[b].pid {
        NamedBecause(s, own, ms, tasks, t, a);
        NamedBecause(s, own, ms, tasks, t, b);
      }
    }
  }

  /** A running process that is now named sent or received on that channel in this tick. */
  lemma NamedBecause(s: Sys, own: Owners, ms: Messages, tasks: seq<Task>, t: Sys, ch: nat)
    requires Linked(s, own) && Disciplined(s, own, ms) && Mid(s, own, ms, |ms|, t) && MidTasks(s, |ms|, t, tasks)
    requires ch in t.channels && t.channels[ch].pid != NO_PROCESS
    ensures var p := t.channels[ch].pid;
            IsPid(s, p) &&
            ((s.states[p] == Inactive && ch in s.channels && s.channels[ch].pid == p) ||
             (s.states[p].Running? && s.states[p].core < |ms| &&
              (SendsOn(ms[s.states[p].core], ch) || ReceivesOn(ms[s.states[p].core], ch))))
  {
    var p := t.channels[ch].pid;
    assert Settling(s, |ms|, t, tasks, ch);
    assert MidSlot(s, own, ms, |ms|, t, ch);
    assert ms[..|ms|] == ms;
    if s.states[p].Running? {
      assert ch in s.channels && SlotOf(t, ch) == Expected(SlotOf(s, ch), own[ch], ms, |ms|, ch);
      SendsMeaning(ms, ch);
      ListenersMeaning(ms, ch);
      assert On(s.running, p, s.states[p].core);
      if ch in SendsOf(ms) && p == own[ch].sender {
        var c :| 0 <= c < |ms| && SendsOn(ms[c], ch);
        OneCoreEach(s, c, s.states[p].core);
      } else {
        var c :| 0 <= c < |ms| && ReceivesOn(ms[c], ch);
        OneCoreEach(s, c, s.states[p].core);
      }
    }
  }

  // ----- the theorem -----

  /** What the cores report in the next tick. */
  function Reported(s: Sys, run: CoreFunction): Messages
    requires Shaped(s)
  {
    var e := ExecuteCores(s, run, s.cores);
    if e.Done? then e.value.messages else []
  }

  /** The parts of a tick. */
  lemma TickParts(s: Sys, run: CoreFunction, t: Sys) returns (e: Sys, a: AllHandled, b: Sys)
    requires Agrees(s) && TickAll(s, run).Done? && TickAll(s, run).value.sys == t
    ensures e == s.(registers := e.registers, machines := e.machines) && Agrees(e)
    ensures |Reported(s, run)| == s.cores && forall c | 0 <= c < s.cores :: Reported(s, run)[c].Just? <==> c in s.running
    ensures ExecuteCores(s, run, s.cores) == Done(Executed(e, Reported(s, run)))
    ensures HandleCores(e, Reported(s, run), s.cores) == Done(a)
    ensures |a.replies| == s.cores && (forall c | 0 <= c < s.cores :: a.replies[c].Just? ==> c in s.running)
    ensures Keeps(e, a.sys, a.tasks) && b == AnswerCores(a.sys, a.replies, s.cores) && b == a.sys.(registers := b.registers, machines := b.machines) && Agrees(b)
    ensures (forall t | t in a.tasks :: IsPid(b, t.pid)) && ScheduleAll(b, a.tasks) == Done(t)
  {
    var x := ExecuteCores(s, run, s.cores).value;
    MessagesAreFromRunning(s, run, s.cores);
    e := x.sys;
    a := HandleCores(e, x.messages, s.cores).value;
    RepliesAreFromRunning(e, x.messages, s.cores);
    b := AnswerCores(a.sys, a.replies, s.cores);
  }

  lemma SameLinked(s: Sys, e: Sys, own: Owners, ms: Messages)
    requires e == s.(registers := e.registers, machines := e.machines) && Shaped(e)
    requires Linked(s, own) && Disciplined(s, own, ms)
    ensures Linked(e, own) && Disciplined(e, own, ms)
  {
    forall ch | ch in e.channels ensures Owned(e, own[ch]) && Fair(SlotOf(e, ch), own[ch]) {
      assert Owned(s, own[ch]) && Fair(SlotOf(s, ch), own[ch]) && SlotOf(s, ch) == SlotOf(e, ch);
    }
    SameDiscipline(s, e, own, ms);
  }

  lemma SameDiscipline(s: Sys, e: Sys, own: Owners, ms: Messages)
    requires e.cores == s.cores && e.running == s.running && Disciplined(s, own, ms)
    ensures Disciplined(e, own, ms)
  {
  }

  /** The processor starts with no channels, so every run of it begins linked. */
  lemma StartsLinked(cores: nat, cells: nat, off: Registers, blank: Machine)
    requires 1 <= cores && cores + 2 < cells <= CELL_BYTES
    ensures Linked(Initial(cores, cells, off, blank), map[])
  {
  }

  /** A tick of a disciplined system keeps its channels linked, and loses no value. */
  lemma TickKeepsRendezvous(s: Sys, own: Owners, run: CoreFunction, t: Sys, next: Owners)
    requires Linked(s, own) && Disciplined(s, own, Reported(s, run))
    requires TickAll(s, run).Done? && TickAll(s, run).value.sys == t
    requires Inherits(s, own, Reported(s, run), t, next)
    ensures Linked(t, next) && Flows(s, Reported(s, run), t)
  {
    var ms := Reported(s, run);
    var e, a, b := TickParts(s, run, t);
    SameLinked(s, e, own, ms);
    MessagesKeepMid(e, own, ms, s.cores, a);
    TasksDecide(b, a.tasks, t);
    StillNamedOnce(e, own, ms, a.tasks, a.sys);
    SlotsAfterTick(e, own, ms, a, t, next);
    SameFlows(s, e, ms, t);
  }

  lemma SameFlows(s: Sys, e: Sys, ms: Messages, t: Sys)
    requires e.channels == s.channels && e.history == s.history && Flows(e, ms, t)
    ensures Flows(s, ms, t)
  {
  }

  lemma SlotsAfterTick(e: Sys, own: Owners, ms: Messages, a: AllHandled, t: Sys, next: Owners)
    requires Linked(e, own) && Disciplined(e, own, ms) && Mid(e, own, ms, |ms|, a.sys) && MidTasks(e, |ms|, a.sys, a.tasks)
    requires t.channels == a.sys.channels && t.history == a.sys.history && t.heap == a.sys.heap
    requires t.cores == e.cores && t.cells == e.cells && NamedOnce(a.sys.channels) && Agrees(t)
    requires a.sys.states == e.states && |t.states| == |e.states| && Inherits(e, own, ms, t, next)
    requires forall x | 0 <= x < |e.states| :: Decided(e.states[x], a.tasks, x, t.states[x])
    ensures Linked(t, next) && Flows(e, ms, t)
  {
    forall ch | ch in t.channels
      ensures Fair(SlotOf(t, ch), next[ch])
      ensures t.channels[ch].pid != NO_PROCESS ==> t.states[t.channels[ch].pid] == Inactive
    {
      SlotAfterTick(e, own, ms, a, t, next, ch);
    }
    forall ch | ch in e.channels && !DeletedBy(ms, |ms|, ch)
      ensures ch in t.channels && e.history[ch].received <= t.history[ch].received &&
              t.history[ch].sent == e.history[ch].sent + if ch in SendsOf(ms) then [SendsOf(ms)[ch]] else []
    {
      SlotAfterTick(e, own, ms, a, t, next, ch);
    }
  }

  lemma SlotAfterTick(e: Sys, own: Owners, ms: Messages, a: AllHandled, t: Sys, next: Owners, ch: nat)
    requires Linked(e, own) && Disciplined(e, own, ms) && Mid(e, own, ms, |ms|, a.sys) && MidTasks(e, |ms|, a.sys, a.tasks)
    requires t.channels == a.sys.channels && t.history == a.sys.history && t.cores == e.cores && t.cells == e.cells
    requires a.sys.states == e.states && |t.states| == |e.states| && Inherits(e, own, ms, t, next)
    requires forall x | 0 <= x < |e.states| :: Decided(e.states[x], a.tasks, x, t.states[x])
    requires ch in e.channels || ch in t.channels
    ensures ch in t.channels ==> ch in t.history && Fair(SlotOf(t, ch), next[ch])
    ensures ch in t.channels && t.channels[ch].pid != NO_PROCESS ==>
              IsPid(e, t.channels[ch].pid) && t.states[t.channels[ch].pid] == Inactive
    ensures ch in e.channels && !DeletedBy(ms, |ms|, ch) ==>
              ch in t.channels && e.history[ch].received <= t.history[ch].received &&
              t.history[ch].sent == e.history[ch].sent + if ch in SendsOf(ms) then [SendsOf(ms)[ch]] else []
  {
    var u := a.sys.(cores := e.cores, cells := e.cells);
    assert Mid(e, own, ms, |ms|, u) by {
      forall x: nat ensures MidSlot(e, own, ms, |ms|, u, x) { assert MidSlot(e, own, ms, |ms|, a.sys, x); }
    }
    ChannelStaysFair(e, own, ms, u, next, ch);
    if ch in t.channels && t.channels[ch].pid != NO_PROCESS {
      SleepersSleep(e, a.tasks, a.sys, t, ch);
    }
  }

  /** A run: each state is the tick of the one before it, in a disciplined system. */
  ghost predicate Behaves(ss: seq<Sys>, owners: seq<Owners>, run: CoreFunction) {
    && |ss| == |owners|
    && forall i | 0 <= i < |ss| - 1 :: Follows(ss[i], owners[i], run, ss[i + 1], owners[i + 1])
  }

  ghost predicate Follows(s: Sys, own: Owners, run: CoreFunction, t: Sys, next: Owners) {
    && Shaped(s) && Disciplined(s, own, Reported(s, run))
    && TickAll(s, run).Done? && TickAll(s, run).value.sys == t
    && Inherits(s, own, Reported(s, run), t, next)
  }

  /**
   * In every run, of every disciplined system: each channel has received what was sent on it, or all
   * but the last value, which it holds exactly while its sender waits; who waits does not run.
   */
  lemma {:induction false} EveryRunDelivers(ss: seq<Sys>, owners: seq<Owners>, run: CoreFunction, n: nat)
    requires Behaves(ss, owners, run) && n < |ss| && Linked(ss[0], owners[0])
    ensures Linked(ss[n], owners[n])
    ensures forall ch | ch in ss[n].channels ::
              var c, log, o := ss[n].channels[ch], ss[n].history[ch], owners[n][ch];
              && log.sent == log.received + (if c.pid == o.sender then [c.value] else [])
              && (c.pid != NO_PROCESS ==> (c.pid == o.sender || c.pid == o.receiver) && ss[n].states[c.pid] == Inactive)
  {
    if n > 0 {
      EveryRunDelivers(ss, owners, run, n - 1);
      assert Follows(ss[n - 1], owners[n - 1], run, ss[n - 1 + 1], owners[n - 1 + 1]);
      TickKeepsRendezvous(ss[n - 1], owners[n - 1], run, ss[n], owners[n]);
    }
    forall ch | ch in ss[n].channels ensures Fair(SlotOf(ss[n], ch), owners[n][ch]) {
    }
  }
}
