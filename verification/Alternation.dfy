/**
 * Alternation on one channel: whoever comes first, the value goes over once. And what the answers of a
 * tick do to the cores they reach.
 */
module Alternation {
  import opened Isa
  import opened StackMachine
  import opened Simulator
  import opened ProcessorModel
  import opened Scheduler

  /** A channel in which nobody waits, a receiver and a sender. */
  ghost predicate Meeting(s: Sys, ch: Word, rx: nat, tx: nat) {
    && Shaped(s) && ch as nat in s.channels && s.channels[ch].pid == NO_PROCESS && !s.channels[ch].inAlternation
    && IsPid(s, rx) && IsPid(s, tx) && rx != tx
  }

  /** One message, to a channel that nobody else uses in this cycle. */
  function After(s: Sys, pid: nat, m: Message): Result<Handled>
    requires Shaped(s) && IsPid(s, pid)
  {
    Handle(s, pid, m, map[], {})
  }

  /** The value has gone to the receiver, nobody waits in the channel, and nothing else is different. */
  ghost predicate GoneOver(s: Sys, r: Sys, ch: Word, rx: nat, v: Word) {
    && |r.machines| == |s.machines| && rx < |s.machines|
    && r.machines[rx] == s.machines[rx].(stack := [v] + s.machines[rx].stack)
    && (forall q | 0 <= q < |s.machines| && q != rx :: r.machines[q] == s.machines[q])
    && ch as nat in r.channels && r.channels[ch] == Channel(NO_PROCESS, false, v)
    && r.channels.Keys == s.channels.Keys && forall c | c in s.channels && c != ch as nat :: r.channels[c] == s.channels[c]
  }

  /** A receiver that has not been woken: it waits exactly as long as nobody has sent. */
  predicate Sleeps(s: Sys, rx: nat)
    requires Shaped(s) && IsPid(s, rx)
  {
    After(s, rx, WaitAlternation) == Done(Handled(s, [Deschedule(rx)], Nobody))
  }

  lemma SleepsExactly(s: Sys, rx: nat)
    requires Shaped(s) && IsPid(s, rx)
    ensures Sleeps(s, rx) <==> rx !in s.alternationReady
    ensures !Sleeps(s, rx) ==> After(s, rx, WaitAlternation) == Done(Handled(s, [], Nobody))
  {
  }

  /** What the three messages change, if they go through: only these parts. */
  ghost predicate Changes(s: Sys, r: Sys, ch: Word, slot: Channel, ready: set<nat>) {
    r == s.(channels := s.channels[ch := slot], alternationReady := ready, history := r.history, machines := r.machines) && Shaped(r)
  }

  lemma EnableEmpty(s: Sys, ch: Word, rx: nat, tx: nat) returns (a: Handled)
    requires Meeting(s, ch, rx, tx)
    ensures After(s, rx, Enable(ch)) == Done(a) && a.tasks == []
    ensures Changes(s, a.sys, ch, Channel(rx, true, s.channels[ch].value), s.alternationReady) && a.sys.machines == s.machines
  {
    a := After(s, rx, Enable(ch)).value;
  }

  lemma SendToWaiting(s: Sys, ch: Word, rx: nat, tx: nat, v: Word, x: Word) returns (b: Handled)
    requires Shaped(s) && IsPid(s, rx) && IsPid(s, tx) && ch as nat in s.channels && s.channels[ch] == Channel(rx, true, x)
    requires rx !in s.alternationReady && rx != NO_PROCESS
    ensures After(s, tx, SendOn(ch, v)) == Done(b) && b.tasks == [Schedule(rx), Deschedule(tx)]
    ensures Changes(s, b.sys, ch, Channel(tx, true, v), s.alternationReady + {rx}) && b.sys.machines == s.machines
  {
    b := After(s, tx, SendOn(ch, v)).value;
  }

  lemma SendToEmpty(s: Sys, ch: Word, rx: nat, tx: nat, v: Word) returns (a: Handled)
    requires Meeting(s, ch, rx, tx)
    ensures After(s, tx, SendOn(ch, v)) == Done(a) && a.tasks == [Deschedule(tx)]
    ensures Changes(s, a.sys, ch, Channel(tx, false, v), s.alternationReady) && a.sys.machines == s.machines
  {
    a := After(s, tx, SendOn(ch, v)).value;
  }

  lemma EnableSent(s: Sys, ch: Word, rx: nat, tx: nat, v: Word) returns (b: Handled)
    requires Shaped(s) && IsPid(s, rx) && tx != NO_PROCESS && ch as nat in s.channels && s.channels[ch] == Channel(tx, false, v)
    ensures After(s, rx, Enable(ch)) == Done(b) && b.tasks == []
    ensures Changes(s, b.sys, ch, Channel(tx, false, v), s.alternationReady + {rx}) && b.sys.machines == s.machines
  {
    b := After(s, rx, Enable(ch)).value;
    assert s.channels[ch := Channel(tx, false, v)] == s.channels;
  }

  lemma DisableSent(s: Sys, ch: Word, rx: nat, tx: nat, v: Word, marked: bool, destination: Word) returns (c: Handled)
    requires Shaped(s) && IsPid(s, rx) && IsPid(s, tx) && rx != tx && ch as nat in s.channels && s.channels[ch] == Channel(tx, marked, v)
    ensures After(s, rx, Disable(ch, destination, false)) == Done(c) && c.tasks == [Schedule(tx)] && c.reply == Just(JumpTo(destination))
    ensures Changes(s, c.sys, ch, Channel(NO_PROCESS, false, v), s.alternationReady)
    ensures c.sys.machines == s.machines[rx := s.machines[rx].(stack := [v] + s.machines[rx].stack)]
  {
    c := After(s, rx, Disable(ch, destination, false)).value;
  }

  lemma ChangesOver(s: Sys, a: Sys, b: Sys, c: Sys, ch: Word, rx: nat, v: Word)
    requires ch as nat in s.channels && rx < |s.machines| && a.machines == s.machines && b.machines == s.machines
    requires ch as nat in a.channels && a.channels == s.channels[ch := a.channels[ch]]
    requires ch as nat in b.channels && b.channels == a.channels[ch := b.channels[ch]]
    requires c.channels == b.channels[ch := Channel(NO_PROCESS, false, v)]
    requires c.machines == s.machines[rx := s.machines[rx].(stack := [v] + s.machines[rx].stack)]
    ensures GoneOver(s, c, ch, rx, v)
  {
  }

  /** The receiver enables the channel, the sender sends, the receiver disables it. */
  lemma EnabledFirst(s: Sys, ch: Word, rx: nat, tx: nat, v: Word, destination: Word) returns (a: Handled, b: Handled, c: Handled)
    requires Meeting(s, ch, rx, tx) && rx !in s.alternationReady
    ensures After(s, rx, Enable(ch)) == Done(a) && a.tasks == [] && Keeps(s, a.sys, []) && Sleeps(a.sys, rx)
    ensures After(a.sys, tx, SendOn(ch, v)) == Done(b) && b.tasks == [Schedule(rx), Deschedule(tx)] && Keeps(a.sys, b.sys, []) && !Sleeps(b.sys, rx)
    ensures After(b.sys, rx, Disable(ch, destination, false)) == Done(c) && c.tasks == [Schedule(tx)] && c.reply == Just(JumpTo(destination))
    ensures GoneOver(s, c.sys, ch, rx, v) && c.sys.alternationReady == s.alternationReady + {rx}
  {
    a := EnableEmpty(s, ch, rx, tx);
    SleepsExactly(a.sys, rx);
    b := SendToWaiting(a.sys, ch, rx, tx, v, s.channels[ch].value);
    SleepsExactly(b.sys, rx);
    c := DisableSent(b.sys, ch, rx, tx, v, true, destination);
    ChangesOver(s, a.sys, b.sys, c.sys, ch, rx, v);
  }

  /** The sender sends first: then it is the one that sleeps, and the receiver need not. */
  lemma SentFirst(s: Sys, ch: Word, rx: nat, tx: nat, v: Word, destination: Word) returns (a: Handled, b: Handled, c: Handled)
    requires Meeting(s, ch, rx, tx)
    ensures After(s, tx, SendOn(ch, v)) == Done(a) && a.tasks == [Deschedule(tx)] && Keeps(s, a.sys, [])
    ensures After(a.sys, rx, Enable(ch)) == Done(b) && b.tasks == [] && Keeps(a.sys, b.sys, []) && !Sleeps(b.sys, rx)
    ensures After(b.sys, rx, Disable(ch, destination, false)) == Done(c) && c.tasks == [Schedule(tx)] && c.reply == Just(JumpTo(destination))
    ensures GoneOver(s, c.sys, ch, rx, v) && c.sys.alternationReady == s.alternationReady + {rx}
  {
    a := SendToEmpty(s, ch, rx, tx, v);
    b := EnableSent(a.sys, ch, rx, tx, v);
    SleepsExactly(b.sys, rx);
    c := DisableSent(b.sys, ch, rx, tx, v, false, destination);
    ChangesOver(s, a.sys, b.sys, c.sys, ch, rx, v);
  }

  /** Who comes first makes no difference to the machines, to the channel, or to who is ready. */
  lemma OrderDoesNotMatter(s: Sys, ch: Word, rx: nat, tx: nat, v: Word, destination: Word)
      returns (first: Handled, second: Handled)
    requires Meeting(s, ch, rx, tx) && rx !in s.alternationReady
    ensures GoneOver(s, first.sys, ch, rx, v) && GoneOver(s, second.sys, ch, rx, v)
    ensures first.sys.machines == second.sys.machines && first.sys.channels == second.sys.channels
    ensures first.sys.alternationReady == second.sys.alternationReady && first.tasks == second.tasks && first.reply == second.reply
  {
    var a, b, c := EnabledFirst(s, ch, rx, tx, v, destination);
    var d, e, f := SentFirst(s, ch, rx, tx, v, destination);
    first, second := c, f;
    forall q | 0 <= q < |s.machines| ensures c.sys.machines[q] == f.sys.machines[q] {
    }
    forall x | x in s.channels ensures c.sys.channels[x] == f.sys.channels[x] {
    }
  }

  /** Whoever sends to a receiver that has been woken already sleeps, and wakes nobody. */
  lemma SendToWoken(s: Sys, ch: Word, rx: nat, tx: nat, v: Word, x: Word) returns (b: Handled)
    requires Shaped(s) && IsPid(s, rx) && IsPid(s, tx) && ch as nat in s.channels && s.channels[ch] == Channel(rx, true, x)
    requires rx in s.alternationReady && rx != NO_PROCESS
    ensures After(s, tx, SendOn(ch, v)) == Done(b) && b.tasks == [Deschedule(tx)]
    ensures Changes(s, b.sys, ch, Channel(tx, true, v), s.alternationReady) && b.sys.machines == s.machines
  {
    b := After(s, tx, SendOn(ch, v)).value;
  }

  /** A receiver outside any alternation gets the value at once, and the sender goes on. */
  lemma SendToReceiver(s: Sys, ch: Word, rx: nat, tx: nat, v: Word, x: Word) returns (b: Handled)
    requires Shaped(s) && IsPid(s, rx) && IsPid(s, tx) && ch as nat in s.channels && s.channels[ch] == Channel(rx, false, x) && rx != NO_PROCESS
    ensures After(s, tx, SendOn(ch, v)) == Done(b) && b.tasks == [Schedule(rx)]
    ensures GoneOver(s, b.sys, ch, rx, v) && b.sys.alternationReady == s.alternationReady
  {
    b := After(s, tx, SendOn(ch, v)).value;
  }

  /** If nobody sends, disabling leaves the channel as it was; and one value taken, the others stay where they are. */
  lemma NothingGoesOver(s: Sys, ch: Word, rx: nat, tx: nat, v: Word, destination: Word) returns (a: Handled, b: Handled)
    requires Meeting(s, ch, rx, tx)
    ensures After(s, rx, Enable(ch)) == Done(a) && Keeps(s, a.sys, [])
    ensures After(a.sys, rx, Disable(ch, destination, false)) == Done(b) && b.sys == s && b.tasks == [] && b.reply == Nobody
  {
    a := After(s, rx, Enable(ch)).value;
    b := After(a.sys, rx, Disable(ch, destination, false)).value;
    assert s.channels[ch] == Channel(NO_PROCESS, false, s.channels[ch].value);
    assert b.sys.channels == s.channels;
  }

  lemma OnlyOneGoesOver(s: Sys, ch: Word, rx: nat, destination: Word)
    requires Shaped(s) && IsPid(s, rx) && ch as nat in s.channels && s.channels[ch].pid != rx
    ensures After(s, rx, Disable(ch, destination, true)) == Done(Handled(s, [], Nobody))
  {
  }

  /** Ending an alternation forgets that the receiver was woken: the next one sleeps again. */
  lemma EndForgets(s: Sys, rx: nat) returns (a: Handled)
    requires Shaped(s) && IsPid(s, rx)
    ensures After(s, rx, EndAlternation) == Done(a) && Keeps(s, a.sys, []) && Sleeps(a.sys, rx)
    ensures a.sys.machines == s.machines && a.sys.channels == s.channels && a.sys.alternationReady == s.alternationReady - {rx}
  {
    a := After(s, rx, EndAlternation).value;
  }

  ghost predicate NotedAlike(s: Sys, h: Handled) {
    h.sys.alternating == s.alternating
  }

  lemma SendingNotesNobody(s: Sys, ch: nat, pid: nat, v: Word)
    requires Shaped(s) && ch in s.channels && IsPid(s, pid)
    ensures NotedAlike(s, SendWord(s, ch, v, pid)) && NotedAlike(s, ReceiveWord(s, ch, pid))
  {
  }

  lemma AlternatingNotesNobody(s: Sys, ch: nat, pid: nat, destination: Word, hasValue: bool)
    requires Shaped(s) && ch in s.channels && IsPid(s, pid)
    ensures NotedAlike(s, EnableOn(s, ch, pid)) && NotedAlike(s, DisableOn(s, ch, pid, destination, hasValue))
  {
  }

  /** No message but the start and the end of an alternation tells the processor that one is under way. */
  lemma OthersNoteNobody(s: Sys, pid: nat, m: Message, sends: map<Word, Word>, listeners: set<Word>)
    requires Shaped(s) && IsPid(s, pid) && !m.StartAlternation? && !m.EndAlternation?
    requires Handle(s, pid, m, sends, listeners).Done?
    ensures NotedAlike(s, Handle(s, pid, m, sends, listeners).value)
  {
    if m.SendOn? && m.channel !in listeners {
      SendingNotesNobody(s, m.channel, pid, m.value);
    } else if m.ReceiveOn? && m.channel !in sends {
      SendingNotesNobody(s, m.channel, pid, 0);
    } else if m.Enable? {
      AlternatingNotesNobody(s, m.channel, pid, 0, false);
    } else if m.Disable? {
      AlternatingNotesNobody(s, m.channel, pid, m.destination, m.hasValue);
    }
  }

  /** One is under way from its start to its end. */
  lemma NotedExactly(s: Sys, pid: nat, q: nat, a: Sys, b: Sys)
    requires Shaped(s) && IsPid(s, pid)
    requires After(s, pid, StartAlternation).Done? && a == After(s, pid, StartAlternation).value.sys
    requires After(s, pid, EndAlternation).Done? && b == After(s, pid, EndAlternation).value.sys
    ensures q in a.alternating <==> q == pid || q in s.alternating
    ensures q in b.alternating <==> q != pid && q in s.alternating
    ensures a == s.(alternating := a.alternating)
  {
  }

  // ----- several senders -----

  predicate SentBy(ms: seq<Maybe<Message>>, c: nat, ch: Word) {
    c < |ms| && ms[c].Just? && ms[c].value.SendOn? && ms[c].value.channel == ch
  }

  /** When several cores send on a channel in one cycle, a receiver gets what the last of them sent. */
  lemma {:induction false} LastSenderIsHeard(ms: seq<Maybe<Message>>, c: nat, ch: Word)
    requires SentBy(ms, c, ch) && forall d: nat | c < d :: !SentBy(ms, d, ch)
    ensures ch in SendsOf(ms) && SendsOf(ms)[ch] == ms[c].value.value
  {
    var n := |ms| - 1;
    if c < n {
      assert !SentBy(ms, n, ch);
      forall d: nat | c < d ensures !SentBy(ms[..n], d, ch) {
        assert !SentBy(ms, d, ch);
      }
      LastSenderIsHeard(ms[..n], c, ch);
    }
  }

  // ----- answers -----

  /** What the answer does to the process that gets it. */
  predicate Answered(before: Machine, reply: Reply, after: Machine) {
    match reply
    case SaveToMemory => after == before
    case CreatedChannel(ch) => after == before.(stack := [ch] + before.stack)
    case Received(_, v) => after == before.(stack := [v] + before.stack)
    case JumpTo(pc) => after.pc == pc && after.stack == before.stack && after.calls == before.calls
  }

  /** The cores up to the `k`-th that get an answer. */
  predicate Gets(replies: seq<Maybe<Reply>>, k: nat, c: nat) {
    c < k <= |replies| && replies[c].Just?
  }

  /** Their processes have been answered. */
  ghost predicate ProcessesAnswered(s: Sys, replies: seq<Maybe<Reply>>, k: nat, machines: seq<Machine>) {
    && |machines| == |s.machines|
    && (forall c: nat | Gets(replies, k, c) :: c in s.running && s.running[c] < |machines| &&
                   Answered(s.machines[s.running[c]], replies[c].value, machines[s.running[c]]))
    && forall p | 0 <= p < |machines| && Untouched(s, replies, k, p) :: machines[p] == s.machines[p]
  }

  ghost predicate Untouched(s: Sys, replies: seq<Maybe<Reply>>, k: nat, p: nat) {
    forall c: nat | Gets(replies, k, c) && c in s.running :: s.running[c] != p
  }

  /** And only a received value marks its core. */
  ghost predicate CoresMarked(s: Sys, replies: seq<Maybe<Reply>>, k: nat, registers: seq<Registers>) {
    && |registers| == |s.registers|
    && forall c | 0 <= c < |registers| :: registers[c] ==
         if Gets(replies, k, c) && replies[c].value.Received? then s.registers[c].(hasAlternationValue := true) else s.registers[c]
  }

  lemma OneMoreAnswered(s: Sys, replies: seq<Maybe<Reply>>, k: nat, a: seq<Machine>, r: seq<Machine>)
    requires Agrees(s) && k < |replies| && ProcessesAnswered(s, replies, k, a) && |r| == |a|
    requires replies[k].Nobody? ==> r == a
    requires replies[k].Just? ==> k in s.running && Answered(a[s.running[k]], replies[k].value, r[s.running[k]]) &&
                                  forall p | 0 <= p < |r| && p != s.running[k] :: r[p] == a[p]
    ensures ProcessesAnswered(s, replies, k + 1, r)
  {
    if replies[k].Just? {
      var p := s.running[k];
      assert Untouched(s, replies, k, p) by {
        forall c: nat | Gets(replies, k, c) && c in s.running ensures s.running[c] != p {
          if s.running[c] == p { OneCoreEach(s, c, k); }
        }
      }
      assert a[p] == s.machines[p] && Gets(replies, k + 1, k);
    }
    forall p | 0 <= p < |r| && Untouched(s, replies, k + 1, p) ensures r[p] == s.machines[p] {
      assert Untouched(s, replies, k, p) by {
        forall c: nat | Gets(replies, k, c) && c in s.running ensures s.running[c] != p { assert Gets(replies, k + 1, c); }
      }
    }
    forall c: nat | Gets(replies, k + 1, c) && c != k
      ensures c in s.running && Answered(s.machines[s.running[c]], replies[c].value, r[s.running[c]])
    {
      assert Gets(replies, k, c);
      if replies[k].Just? && s.running[c] == s.running[k] { OneCoreEach(s, c, k); }
    }
  }

  lemma AnswerIs(a: Sys, c: nat, reply: Reply)
    requires Shaped(a) && c in a.running
    ensures var r, p := Answer(a, c, reply), a.running[c];
            && |r.machines| == |a.machines| && Answered(a.machines[p], reply, r.machines[p])
            && (forall q | 0 <= q < |a.machines| && q != p :: r.machines[q] == a.machines[q])
            && r.registers == if reply.Received? then a.registers[c := a.registers[c].(hasAlternationValue := true)] else a.registers
  {
  }

  ghost predicate Reached(s: Sys, replies: seq<Maybe<Reply>>, k: nat, r: Sys) {
    ProcessesAnswered(s, replies, k, r.machines) && CoresMarked(s, replies, k, r.registers)
  }

  lemma NothingReached(s: Sys, replies: seq<Maybe<Reply>>)
    ensures Reached(s, replies, 0, s)
  {
  }

  lemma LastAnswer(s: Sys, replies: seq<Maybe<Reply>>, k: nat, a: Sys, r: Sys)
    requires Agrees(s) && k < |replies| == s.cores && (replies[k].Just? ==> k in s.running)
    requires Shaped(a) && a.running == s.running && a.cores == s.cores && Reached(s, replies, k, a)
    requires r == if replies[k] == Nobody then a else Answer(a, k, replies[k].value)
    ensures Reached(s, replies, k + 1, r)
  {
    if replies[k].Just? { AnswerIs(a, k, replies[k].value); }
    OneMoreAnswered(s, replies, k, a.machines, r.machines);
    OneMoreMarked(s, replies, k, a.registers, r.registers);
  }

  /** Every answer reaches the core it is for and its process, and nobody else. */
  lemma {:induction false} AnswersReach(s: Sys, replies: seq<Maybe<Reply>>, k: nat)
    requires Agrees(s) && k <= |replies| == s.cores && forall c | 0 <= c < |replies| :: replies[c].Just? ==> c in s.running
    ensures Reached(s, replies, k, AnswerCores(s, replies, k))
  {
    if k == 0 {
      NothingReached(s, replies);
    } else {
      AnswersReach(s, replies, k - 1);
      LastAnswer(s, replies, k - 1, AnswerCores(s, replies, k - 1), AnswerCores(s, replies, k));
    }
  }

  lemma OneMoreMarked(s: Sys, replies: seq<Maybe<Reply>>, k: nat, a: seq<Registers>, r: seq<Registers>)
    requires CoresMarked(s, replies, k, a) && k < |replies| == |a|
    requires r == if replies[k].Just? && replies[k].value.Received? then a[k := a[k].(hasAlternationValue := true)] else a
    ensures CoresMarked(s, replies, k + 1, r)
  {
    forall c | 0 <= c < |r| && c != k ensures Gets(replies, k + 1, c) <==> Gets(replies, k, c) {
    }
  }
}
