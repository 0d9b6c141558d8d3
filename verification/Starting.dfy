/**
 * Starting a process: which slot it gets, what it takes from its parent's stack, and that a whole tick
 * leaves it so.
 */
module Starting {
  import opened Isa
  import opened StackMachine
  import opened Simulator
  import opened ProcessorModel
  import opened Scheduler
  import Rendezvous
  import MemoryCells
  import Cells = CellObject

  type Messages = seq<Maybe<Message>>

  predicate IsDead(s: Sys, p: nat) {
    p < |s.states| && IsPid(s, p) && s.states[p] == Dead
  }

  /** The first process slot that nobody uses. */
  predicate FirstDead(s: Sys, p: nat) {
    IsDead(s, p) && forall q | s.cores <= q < p :: !IsDead(s, q)
  }

  /** The search ends at the first dead slot, and fails exactly when there is none. */
  lemma {:induction false} SlotIsFirst(s: Sys, p: nat)
    requires Shaped(s) && s.cores <= p && forall q | s.cores <= q < p && q < s.cells - 1 :: !IsDead(s, q)
    ensures var r := NewProcess(s, p);
            if r.Done? then FirstDead(s, r.value) else r.Fails? && forall q | s.cores <= q < s.cells - 1 :: !IsDead(s, q)
    decreases s.cells - p
  {
    if p < s.cells - 1 && s.states[p] != Dead { SlotIsFirst(s, p + 1); }
  }

  // ----- one message -----

  /** The child has the top of its parent's stack, and nothing else is changed but its number. */
  ghost predicate Splits(s: Sys, pid: nat, child: nat, pc: Word, words: Word, r: Sys)
    requires pid < |s.machines| && child < |s.machines|
  {
    && |r.machines| == |s.machines| && child != pid
    && r.machines[child].pc == pc && r.machines[child].calls == [] && |r.machines[child].stack| == words
    && r.machines[child].stack + r.machines[pid].stack == s.machines[pid].stack
    && r.machines[pid].pc == s.machines[pid].pc && r.machines[pid].calls == s.machines[pid].calls
    && (forall q | 0 <= q < |s.machines| && q != pid && q != child :: r.machines[q] == s.machines[q])
    && r == s.(machines := r.machines, numbers := r.numbers)
    && child in r.numbers && r.numbers[child] == |s.numbers|
    && forall q | q != child :: (q in r.numbers <==> q in s.numbers) && (q in s.numbers ==> r.numbers[q] == s.numbers[q])
  }

  /**
   * A start succeeds exactly when there is a dead slot and its parent has the words. The first dead
   * slot becomes the child, which alone is scheduled; its stack followed by its parent's is what the
   * parent had.
   */
  lemma StartsChild(s: Sys, pid: nat, pc: Word, words: Word, sends: map<Word, Word>, listeners: set<Word>)
    requires Shaped(s) && IsPid(s, pid) && s.states[pid] != Dead
    ensures var r := Handle(s, pid, StartProcess(pc, words), sends, listeners);
            && (r.Done? <==> (exists q :: IsDead(s, q)) && words <= |s.machines[pid].stack|)
            && (r.Done? ==> r.value.reply == Nobody && exists child ::
                  FirstDead(s, child) && r.value.tasks == [Schedule(child)] && Splits(s, pid, child, pc, words, r.value.sys))
  {
    SlotIsFirst(s, s.cores);
    var r := Handle(s, pid, StartProcess(pc, words), sends, listeners);
    if r.Done? {
      var child := NewProcess(s, s.cores).value;
      var stack := s.machines[pid].stack;
      assert stack[..words] + stack[words..] == stack;
      assert FirstDead(s, child) && r.value.tasks == [Schedule(child)] && Splits(s, pid, child, pc, words, r.value.sys);
    }
  }

  /** The bytes of two cells, split as the simulator splits them, are the machines of the model. */
  method StartInCells(ghost s: Sys, ghost pid: nat, pc: Word, words: Word, parent: Cells.MemoryCell, cell: Cells.MemoryCell, ghost r: Sys, ghost child: nat)
    requires pid < |s.machines| && child < |s.machines| && Splits(s, pid, child, pc, words, r)
    requires parent.Valid() && parent.Abs() == s.machines[pid]
    requires cell.memory.Length == MemoryCells.CELL_SIZE && parent.memory != cell.memory
    modifies parent.memory, cell.memory
    ensures parent.Valid() && parent.Abs() == r.machines[pid]
    ensures cell.Valid() && cell.Abs() == r.machines[child]
  {
    ghost var whole := s.machines[pid].stack;
    assert |whole| == words + |r.machines[pid].stack|;
    Cells.StartChild(parent, cell, pc, words);
    SplitsOneWay(cell.Abs().stack, parent.Abs().stack, r.machines[child].stack, r.machines[pid].stack);
  }

  lemma SplitsOneWay<T>(a: seq<T>, b: seq<T>, c: seq<T>, d: seq<T>)
    requires a + b == c + d && |a| == |c|
    ensures a == c && b == d
  {
    assert a == (a + b)[..|a|] && c == (c + d)[..|c|];
    assert b == (a + b)[|a|..] && d == (c + d)[|c|..];
  }

  // ----- the other messages of the tick -----

  /** No channel names the process. */
  ghost predicate Unnamed(s: Sys, p: nat) {
    forall ch | ch in s.channels :: s.channels[ch].pid != p
  }

  /** What a message of another process leaves as it is. */
  ghost predicate Leaves(s: Sys, r: Sys, p: nat) {
    && p < |s.machines| == |r.machines| && r.machines[p] == s.machines[p] && r.numbers == s.numbers
    && Unnamed(r, p) && r.states == s.states && r.cores == s.cores && r.cells == s.cells && r.running == s.running
  }

  /** The tasks are about others. */
  predicate Spares(tasks: seq<Task>, p: nat) {
    forall t | t in tasks :: t.pid != p
  }

  lemma LeavesOn(s: Sys, r: Sys, t: Sys, p: nat)
    ensures Leaves(s, r, p) && Leaves(r, t, p) ==> Leaves(s, t, p)
  {
  }

  lemma PutLeaves(s: Sys, ch: nat, c: Channel, p: nat)
    requires p < |s.machines| && Unnamed(s, p) && c.pid != p
    ensures Leaves(s, PutChannel(s, ch, c), p)
  {
  }

  lemma DeliverLeaves(s: Sys, ch: nat, q: nat, v: Word, p: nat)
    requires p < |s.machines| && q < |s.machines| && Unnamed(s, p) && q != p
    ensures Leaves(s, Deliver(s, ch, q, v), p)
  {
  }

  lemma SendLeaves(s: Sys, q: nat, ch: nat, v: Word, p: nat)
    requires Shaped(s) && IsPid(s, q) && IsPid(s, p) && q != p && Unnamed(s, p) && ch in s.channels
    ensures Leaves(s, SendWord(s, ch, v, q).sys, p) && Spares(SendWord(s, ch, v, q).tasks, p)
  {
    var c, g := s.channels[ch], Gave(s, ch, v);
    assert Leaves(s, g, p);
    if c.pid == NO_PROCESS || c.inAlternation {
      PutLeaves(g, ch, Channel(q, c.pid != NO_PROCESS, v), p);
    } else {
      DeliverLeaves(g, ch, c.pid, v, p);
      PutLeaves(Deliver(g, ch, c.pid, v), ch, Channel(NO_PROCESS, false, v), p);
    }
  }

  lemma ReceiveLeaves(s: Sys, q: nat, ch: nat, p: nat)
    requires Shaped(s) && IsPid(s, q) && IsPid(s, p) && q != p && Unnamed(s, p) && ch in s.channels
    ensures Leaves(s, ReceiveWord(s, ch, q).sys, p) && Spares(ReceiveWord(s, ch, q).tasks, p)
  {
    var c := s.channels[ch];
    if c.pid == NO_PROCESS {
      PutLeaves(s, ch, Channel(q, false, c.value), p);
    } else {
      DeliverLeaves(s, ch, q, c.value, p);
      PutLeaves(Deliver(s, ch, q, c.value), ch, Channel(NO_PROCESS, false, c.value), p);
    }
  }

  lemma AlternationLeaves(s: Sys, q: nat, ch: nat, destination: Word, hasValue: bool, p: nat)
    requires Shaped(s) && IsPid(s, q) && IsPid(s, p) && q != p && Unnamed(s, p) && ch in s.channels
    ensures Leaves(s, EnableOn(s, ch, q).sys, p) && Leaves(s, DisableOn(s, ch, q, destination, hasValue).sys, p)
    ensures Spares(EnableOn(s, ch, q).tasks, p) && Spares(DisableOn(s, ch, q, destination, hasValue).tasks, p)
  {
    var c := s.channels[ch];
    PutLeaves(s, ch, Channel(q, true, c.value), p);
    PutLeaves(s, ch, Channel(NO_PROCESS, false, c.value), p);
    DeliverLeaves(s, ch, q, c.value, p);
    PutLeaves(Deliver(s, ch, q, c.value), ch, Channel(NO_PROCESS, false, c.value), p);
  }

  lemma ChannelsLeave(s: Sys, ch: nat, p: nat)
    requires Shaped(s) && IsPid(s, p) && Unnamed(s, p)
    ensures MakeChannel(s).Done? ==> Leaves(s, MakeChannel(s).value.sys, p)
    ensures Leaves(s, FreeChannel(s, ch).sys, p)
  {
  }

  lemma OtherLeaves(s: Sys, q: nat, m: Message, sends: map<Word, Word>, listeners: set<Word>, p: nat)
    requires Shaped(s) && IsPid(s, q) && IsPid(s, p) && q != p && Unnamed(s, p) && !m.StartProcess?
    requires Handle(s, q, m, sends, listeners).Done?
    ensures Leaves(s, Handle(s, q, m, sends, listeners).value.sys, p) && Spares(Handle(s, q, m, sends, listeners).value.tasks, p)
  {
    match m
    case SendOn(ch, v) => if ch !in listeners { SendLeaves(s, q, ch, v, p); }
    case ReceiveOn(ch) => if ch !in sends { ReceiveLeaves(s, q, ch, p); }
    case Enable(ch) => AlternationLeaves(s, q, ch, 0, false, p);
    case Disable(ch, destination, hasValue) => AlternationLeaves(s, q, ch, destination, hasValue, p);
    case NewChannel => ChannelsLeave(s, 0, p);
    case DeleteChannel(ch) => ChannelsLeave(s, ch, p);
    case _ =>
  }

  /** Nobody starts a process in this tick but the process on core `c`. */
  ghost predicate OnlyStarter(ms: Messages, c: nat) {
    forall d | 0 <= d < |ms| && d != c && ms[d].Just? :: !ms[d].value.StartProcess?
  }

  ghost predicate Reporting(s: Sys, ms: Messages) {
    Shaped(s) && |ms| == s.cores && forall c | 0 <= c < |ms| :: ms[c].Just? <==> c in s.running
  }

  lemma {:induction false} EarlierDone(s: Sys, ms: Messages, from: nat, k: nat)
    requires Reporting(s, ms) && from <= k <= |ms| && HandleCores(s, ms, k).Done?
    ensures HandleCores(s, ms, from).Done?
    decreases k
  {
    if from < k { EarlierDone(s, ms, from, k - 1); }
  }

  /** What has been handled only grows, and leaves the bystanders alone. */
  ghost predicate Continues(b: AllHandled, a: AllHandled, ps: set<nat>) {
    && (forall p | p in ps :: Leaves(b.sys, a.sys, p)) && b.tasks <= a.tasks && b.replies <= a.replies
    && forall t | t in a.tasks && t.pid in ps :: t in b.tasks
  }

  /** The last message handled, or nothing to handle. */
  lemma LastMessage(s: Sys, ms: Messages, k: nat, a: AllHandled) returns (b: AllHandled, h: Handled)
    requires Reporting(s, ms) && k < |ms| && HandleCores(s, ms, k + 1) == Done(a)
    ensures HandleCores(s, ms, k) == Done(b) && Shaped(b.sys) && b.sys.cores == s.cores && b.sys.cells == s.cells
    ensures b.sys.states == s.states && |b.replies| == k && a.replies == b.replies + [h.reply]
    ensures b.replies <= a.replies && a.sys == h.sys && a.tasks == b.tasks + h.tasks
    ensures if ms[k] == Nobody then h == Handled(b.sys, [], Nobody)
            else k in s.running && IsPid(b.sys, s.running[k]) && Handle(b.sys, s.running[k], ms[k].value, SendsOf(ms), ListenersOf(ms)) == Done(h)
  {
    b := HandleCores(s, ms, k).value;
    if ms[k] == Nobody {
      h := Handled(b.sys, [], Nobody);
    } else {
      h := Handle(b.sys, s.running[k], ms[k].value, SendsOf(ms), ListenersOf(ms)).value;
    }
  }

  lemma MessageLeaves(s: Sys, q: nat, m: Message, sends: map<Word, Word>, listeners: set<Word>, ps: set<nat>)
    requires Shaped(s) && IsPid(s, q) && !m.StartProcess? && Handle(s, q, m, sends, listeners).Done?
    requires forall p | p in ps :: IsPid(s, p) && Unnamed(s, p) && q != p
    ensures forall p | p in ps :: Leaves(s, Handle(s, q, m, sends, listeners).value.sys, p)
    ensures forall p | p in ps :: Spares(Handle(s, q, m, sends, listeners).value.tasks, p)
  {
    forall p | p in ps
      ensures Leaves(s, Handle(s, q, m, sends, listeners).value.sys, p) && Spares(Handle(s, q, m, sends, listeners).value.tasks, p)
    {
      OtherLeaves(s, q, m, sends, listeners, p);
    }
  }

  lemma OneMoreContinues(b: AllHandled, m: AllHandled, a: AllHandled, ps: set<nat>)
    requires Continues(b, m, ps) && m.tasks <= a.tasks && m.replies <= a.replies
    requires a.sys == m.sys || forall p | p in ps :: Leaves(m.sys, a.sys, p)
    requires forall p | p in ps :: Spares(a.tasks[|m.tasks|..], p)
    ensures Continues(b, a, ps)
  {
    assert a.tasks == m.tasks + a.tasks[|m.tasks|..];
    forall p | p in ps ensures Leaves(b.sys, a.sys, p) {
      assert Leaves(b.sys, m.sys, p);
      LeavesOn(b.sys, m.sys, a.sys, p);
    }
  }

  /** Bystanders send none of the messages from one core to the next, and stand in no channel. */
  ghost predicate Bystanders(s: Sys, from: nat, k: nat, r: Sys, ps: set<nat>) {
    forall p | p in ps :: IsPid(s, p) && Unnamed(r, p) && forall d | from <= d < k && d in s.running :: s.running[d] != p
  }

  /** From core to core, the messages of others leave them alone. */
  lemma {:induction false} MessagesLeave(s: Sys, ms: Messages, from: nat, b: AllHandled, k: nat, a: AllHandled, c: nat, ps: set<nat>)
    requires Reporting(s, ms) && OnlyStarter(ms, c) && from <= k <= |ms| && (c < from || k <= c)
    requires HandleCores(s, ms, from) == Done(b) && HandleCores(s, ms, k) == Done(a) && Bystanders(s, from, k, b.sys, ps)
    ensures Continues(b, a, ps)
    decreases k
  {
    if from < k {
      var m, h := LastMessage(s, ms, k - 1, a);
      MessagesLeave(s, ms, from, b, k - 1, m, c, ps);
      if ms[k - 1] != Nobody {
        assert ms[k - 1].Just? && k - 1 != c && !ms[k - 1].value.StartProcess?;
        StillBystanders(s, from, k, b, m, ps);
        MessageLeaves(m.sys, s.running[k - 1], ms[k - 1].value, SendsOf(ms), ListenersOf(ms), ps);
      }
      OneMoreContinues(b, m, a, ps);
    }
  }

  lemma StillBystanders(s: Sys, from: nat, k: nat, b: AllHandled, m: AllHandled, ps: set<nat>)
    requires Bystanders(s, from, k, b.sys, ps) && Continues(b, m, ps) && from < k && k - 1 in s.running
    requires m.sys.cores == s.cores && m.sys.cells == s.cells
    ensures forall p | p in ps :: IsPid(m.sys, p) && Unnamed(m.sys, p) && s.running[k - 1] != p
  {
    forall p | p in ps ensures Unnamed(m.sys, p) { assert Leaves(b.sys, m.sys, p); }
  }

  lemma {:induction false} AnswersLeave(s: Sys, replies: seq<Maybe<Reply>>, k: nat, p: nat)
    requires Shaped(s) && k <= |replies| == s.cores && IsPid(s, p)
    requires forall c | 0 <= c < |replies| :: replies[c].Just? ==> c in s.running && s.running[c] != p
    ensures AnswerCores(s, replies, k).machines[p] == s.machines[p]
  {
    if k > 0 { AnswersLeave(s, replies, k - 1, p); }
  }

  // ----- the whole tick -----

  /** The process on core `c` starts another, and nobody else does; neither it nor a dead slot stands in a channel. */
  ghost predicate StartsOne(s: Sys, ms: Messages, c: nat, pid: nat, pc: Word, words: Word) {
    && Agrees(s) && Reporting(s, ms) && c < |ms| && On(s.running, pid, c) && ms[c] == Just(StartProcess(pc, words)) && OnlyStarter(ms, c)
    && Unnamed(s, pid) && forall p | IsDead(s, p) :: Unnamed(s, p)
  }

  lemma NobodyElse(s: Sys, c: nat, pid: nat, p: nat)
    requires Agrees(s) && On(s.running, pid, c)
    ensures forall d | d in s.running && s.running[d] == pid :: d == c
    ensures IsDead(s, p) ==> p != pid && forall d | d in s.running :: s.running[d] != p
  {
    forall d | d in s.running && s.running[d] == pid ensures d == c { OneCoreEach(s, c, d); }
  }

  lemma SameSlot(s: Sys, r: Sys, p: nat)
    requires s.states == r.states && s.cores == r.cores && s.cells == r.cells
    ensures FirstDead(s, p) <==> FirstDead(r, p)
  {
    assert forall q :: IsDead(s, q) <==> IsDead(r, q);
  }

  /** The message itself, among the others. */
  lemma StartHandled(e: Sys, ms: Messages, c: nat, pid: nat, pc: Word, words: Word, a: AllHandled)
      returns (child: nat, b: AllHandled, from: nat, m: AllHandled)
    requires StartsOne(e, ms, c, pid, pc, words) && HandleCores(e, ms, |ms|) == Done(a)
    ensures HandleCores(e, ms, c) == Done(b) && c < from <= |ms| && HandleCores(e, ms, from) == Done(m)
    ensures FirstDead(e, child) && Splits(b.sys, pid, child, pc, words, m.sys)
    ensures m.tasks == b.tasks + [Schedule(child)] && c < |m.replies| && m.replies[c] == Nobody
  {
    from := c + 1;
    EarlierDone(e, ms, from, |ms|);
    m := HandleCores(e, ms, from).value;
    child, b := StartHandledAt(e, ms, c, pid, pc, words, m);
  }

  lemma StartHandledAt(e: Sys, ms: Messages, c: nat, pid: nat, pc: Word, words: Word, m: AllHandled) returns (child: nat, b: AllHandled)
    requires Reporting(e, ms) && c < |ms| && ms[c] == Just(StartProcess(pc, words)) && c in e.running && e.running[c] == pid
    requires IsPid(e, pid) && e.states[pid] != Dead && HandleCores(e, ms, c + 1) == Done(m)
    ensures HandleCores(e, ms, c) == Done(b) && FirstDead(e, child) && Splits(b.sys, pid, child, pc, words, m.sys)
    ensures m.tasks == b.tasks + [Schedule(child)] && c < |m.replies| && m.replies[c] == Nobody
  {
    var h;
    b, h := LastMessage(e, ms, c, m);
    child := ChildOf(b.sys, pid, pc, words, SendsOf(ms), ListenersOf(ms), h);
    SameSlot(b.sys, e, child);
  }

  lemma ChildOf(s: Sys, pid: nat, pc: Word, words: Word, sends: map<Word, Word>, listeners: set<Word>, h: Handled) returns (child: nat)
    requires Shaped(s) && IsPid(s, pid) && s.states[pid] != Dead && Handle(s, pid, StartProcess(pc, words), sends, listeners) == Done(h)
    ensures FirstDead(s, child) && h.tasks == [Schedule(child)] && h.reply == Nobody && Splits(s, pid, child, pc, words, h.sys)
  {
    StartsChild(s, pid, pc, words, sends, listeners);
    child :| FirstDead(s, child) && h.tasks == [Schedule(child)] && Splits(s, pid, child, pc, words, h.sys);
  }

  /** Before it nobody touches the parent or a dead slot. */
  lemma BeforeStart(e: Sys, ms: Messages, c: nat, pid: nat, pc: Word, words: Word, child: nat, none: AllHandled, b: AllHandled)
    requires StartsOne(e, ms, c, pid, pc, words) && IsDead(e, child)
    requires HandleCores(e, ms, 0) == Done(none) && HandleCores(e, ms, c) == Done(b)
    ensures Continues(none, b, {pid, child})
  {
    NobodyElse(e, c, pid, child);
    MessagesLeave(e, ms, 0, none, c, b, c, {pid, child});
  }

  /** Nor behind it. */
  lemma BehindStart(e: Sys, ms: Messages, c: nat, pid: nat, pc: Word, words: Word, child: nat, from: nat, m: AllHandled, a: AllHandled)
    requires StartsOne(e, ms, c, pid, pc, words) && IsDead(e, child) && c < from <= |ms|
    requires HandleCores(e, ms, from) == Done(m) && HandleCores(e, ms, |ms|) == Done(a)
    requires Unnamed(m.sys, pid) && Unnamed(m.sys, child)
    ensures Continues(m, a, {pid, child})
  {
    NobodyElse(e, c, pid, child);
    MessagesLeave(e, ms, from, m, |ms|, a, c, {pid, child});
  }

  lemma StillUnnamed(none: AllHandled, b: AllHandled, m: AllHandled, pid: nat, child: nat)
    requires Continues(none, b, {pid, child}) && b.sys.channels == m.sys.channels
    ensures Unnamed(m.sys, pid) && Unnamed(m.sys, child)
  {
    assert Leaves(none.sys, b.sys, pid) && Leaves(none.sys, b.sys, child);
  }

  /** All messages handled: parent and child have split the stack, whatever the others did. */
  lemma MessagesStart(e: Sys, ms: Messages, c: nat, pid: nat, pc: Word, words: Word, a: AllHandled) returns (child: nat)
    requires StartsOne(e, ms, c, pid, pc, words) && HandleCores(e, ms, |ms|) == Done(a)
    ensures FirstDead(e, child) && Schedule(child) in a.tasks && c < |a.replies| && a.replies[c] == Nobody
    ensures Divided(e, pid, child, pc, words, a.sys)
    ensures forall x | x in a.tasks && (x.pid == pid || x.pid == child) :: x == Schedule(child)
  {
    var none := HandleCores(e, ms, 0).value;
    var child', b, from, m := StartHandled(e, ms, c, pid, pc, words, a);
    child := child';
    BeforeStart(e, ms, c, pid, pc, words, child, none, b);
    StillUnnamed(none, b, m, pid, child);
    BehindStart(e, ms, c, pid, pc, words, child, from, m, a);
    DividedThrough(none, b, m, a, pid, child, pc, words);
    assert forall x | x in b.tasks :: x.pid !in {pid, child};
    forall x | x in a.tasks && (x.pid == pid || x.pid == child) ensures x == Schedule(child) { assert x in m.tasks; }
    assert m.tasks[|b.tasks|] == Schedule(child) && a.tasks[|b.tasks|] == m.tasks[|b.tasks|];
    assert m.replies[c] == a.replies[c];
  }

  lemma DividedThrough(none: AllHandled, b: AllHandled, m: AllHandled, a: AllHandled, pid: nat, child: nat, pc: Word, words: Word)
    requires pid < |b.sys.machines| && child < |b.sys.machines|
    requires Continues(none, b, {pid, child}) && Splits(b.sys, pid, child, pc, words, m.sys) && Continues(m, a, {pid, child})
    ensures Divided(none.sys, pid, child, pc, words, a.sys)
  {
    assert pid in {pid, child} && child in {pid, child};
    assert Leaves(none.sys, b.sys, pid) && Leaves(m.sys, a.sys, pid) && Leaves(m.sys, a.sys, child);
  }

  /** Parent and child hold what the parent held, the child on top; and the child has the next number. */
  ghost predicate Divided(s: Sys, pid: nat, child: nat, pc: Word, words: Word, r: Sys) {
    && pid < |s.machines| == |r.machines| && child < |s.machines| && child != pid
    && r.machines[child].pc == pc && r.machines[child].calls == [] && |r.machines[child].stack| == words
    && r.machines[child].stack + r.machines[pid].stack == s.machines[pid].stack
    && r.machines[pid] == s.machines[pid].(stack := r.machines[pid].stack)
    && child in r.numbers && r.numbers[child] == |s.numbers|
  }

  /**
   * A tick in which one process starts another: the first dead slot can run next, from the given
   * address and with the top of its parent's stack, and the parent goes on with the rest.
   */
  lemma TickStarts(s: Sys, run: CoreFunction, c: nat, pid: nat, pc: Word, words: Word, t: Sys) returns (e: Sys, child: nat)
    requires Agrees(s) && TickAll(s, run).Done? && TickAll(s, run).value.sys == t
    requires StartsOne(s, Rendezvous.Reported(s, run), c, pid, pc, words)
    ensures ExecuteCores(s, run, s.cores) == Done(Executed(e, Rendezvous.Reported(s, run)))
    ensures FirstDead(s, child) && child < |t.states| && Runnable(t.states[child]) && Divided(e, pid, child, pc, words, t)
    ensures pid < |t.states| && t.states[pid] == Running(c)
  {
    var ms := Rendezvous.Reported(s, run);
    var x, a, b := Rendezvous.TickParts(s, run, t);
    e := x;
    StillStartsOne(s, e, ms, c, pid, pc, words);
    child := MessagesStart(e, ms, c, pid, pc, words, a);
    SameSlot(s, e, child);
    AnswersDivide(e, a, b, c, pid, child, pc, words);
    TasksDecide(b, a.tasks, t);
    ChildRuns(b.states, a.tasks, child, t.states);
    ParentRuns(b.states[pid], a.tasks, pid, child, t.states[pid]);
  }

  lemma ParentRuns(before: ProcessState, tasks: seq<Task>, pid: nat, child: nat, after: ProcessState)
    requires pid != child && before.Running? && (forall x | x in tasks && x.pid == pid :: x == Schedule(child))
    requires Decided(before, tasks, pid, after)
    ensures after == before
  {
    NotMentioned(tasks, |tasks|, pid);
    assert forall j | 0 <= j < |tasks| :: tasks[j] in tasks;
  }

  lemma {:induction false} NotMentioned(tasks: seq<Task>, k: nat, pid: nat)
    requires k <= |tasks| && forall x | x in tasks :: x.pid != pid
    ensures TakenOff(tasks, k, pid) == Nobody
  {
    if k > 0 {
      assert tasks[k - 1] in tasks;
      NotMentioned(tasks, k - 1, pid);
    }
  }

  lemma StillStartsOne(s: Sys, e: Sys, ms: Messages, c: nat, pid: nat, pc: Word, words: Word)
    requires StartsOne(s, ms, c, pid, pc, words) && e == s.(registers := e.registers, machines := e.machines) && Agrees(e)
    ensures StartsOne(e, ms, c, pid, pc, words)
  {
    assert forall p :: IsDead(s, p) <==> IsDead(e, p);
    assert forall p :: Unnamed(s, p) <==> Unnamed(e, p);
  }

  lemma AnswersDivide(e: Sys, a: AllHandled, b: Sys, c: nat, pid: nat, child: nat, pc: Word, words: Word)
    requires Agrees(e) && On(e.running, pid, c) && IsDead(e, child) && Keeps(e, a.sys, a.tasks)
    requires |a.replies| == e.cores && (forall d | 0 <= d < e.cores :: a.replies[d].Just? ==> d in e.running)
    requires c < e.cores && a.replies[c] == Nobody && b == AnswerCores(a.sys, a.replies, e.cores)
    requires Divided(e, pid, child, pc, words, a.sys)
    ensures Divided(e, pid, child, pc, words, b)
  {
    NobodyElse(e, c, pid, child);
    AnswersLeave(a.sys, a.replies, e.cores, pid);
    AnswersLeave(a.sys, a.replies, e.cores, child);
  }

  lemma ChildRuns(before: seq<ProcessState>, tasks: seq<Task>, child: nat, after: seq<ProcessState>)
    requires Schedule(child) in tasks && child < |before| == |after|
    requires Decided(before[child], tasks, child, after[child])
    ensures Runnable(after[child])
  {
    var i :| 0 <= i < |tasks| && tasks[i] == Schedule(child);
    assert AskedFor(tasks, |tasks|, child);
  }
}
