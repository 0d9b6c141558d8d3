/**
 * The processor as it is changed: process states and channels in the bytes of the metadata cell, and
 * loops over cores and tasks. Every method is tied to the model's function of the same purpose.
 */
module ProcessorObject {
  import opened Wrappers
  import opened Isa
  import opened StackMachine
  import opened WordMemory
  import opened CellObject
  import opened Simulator
  import opened ProcessorModel
  import opened Metadata
  import Blocks = Heap
  import Scheduler

  /** What the processor keeps outside the metadata cell. */
  datatype Store = Store(
    registers: seq<Registers>, machines: seq<Machine>, running: map<nat, nat>,
    alternating: set<nat>, alternationReady: set<nat>,
    numbers: map<nat, nat>, finals: map<nat, seq<Word>>)

  function StoreOf(s: Sys): Store {
    Store(s.registers, s.machines, s.running, s.alternating, s.alternationReady, s.numbers, s.finals)
  }

  const RESET := Registers(Flags(false, false, false, false), false)

  /** Before any process runs. */
  function Off(cores: nat, cells: nat): Sys {
    Sys(cores, cells, seq(cores, _ => RESET), seq(cells, _ => Machine(0, [], [])), seq(cells, _ => Dead),
        map[], map[], Heap(cells, []), {}, {}, map[cores := 0], map[], map[])
  }

  /** What one core did. */
  ghost predicate ExecutedOne(s: Sys, run: CoreFunction, core: nat, ok: bool, message: Maybe<Message>, t: Sys) {
    && Shaped(s) && core < s.cores
    && if core !in s.running then ok && message == Nobody && t == s
       else
         var pid := s.running[core];
         match run(s.registers[core], s.machines[pid])
         case Failed => !ok
         case Did(r, m, x) =>
           ok && message == Just(x) && t == s.(registers := s.registers[core := r], machines := s.machines[pid := m])
  }

  ghost predicate ExecutedUpTo(s: Sys, run: CoreFunction, k: nat, t: Sys, messages: seq<Maybe<Message>>) {
    Shaped(s) && k <= s.cores && ExecuteCores(s, run, k) == Done(Executed(t, messages))
  }

  lemma NextExecuted(s: Sys, run: CoreFunction, k: nat, before: Sys, messages: seq<Maybe<Message>>, ok: bool, message: Maybe<Message>, after: Sys)
    requires ExecutedUpTo(s, run, k, before, messages) && k < s.cores && ExecutedOne(before, run, k, ok, message, after)
    ensures ok ==> ExecutedUpTo(s, run, k + 1, after, messages + [message])
    ensures !ok ==> ExecuteCores(s, run, s.cores).Fails?
  {
    if !ok { ExecutionStops(s, run, k + 1, s.cores); }
  }

  /** A message joins those of the cores before it. */
  lemma LastHeard(messages: seq<Maybe<Message>>, m: Maybe<Message>)
    ensures SendsOf(messages + [m]) ==
            if m.Just? && m.value.SendOn? then SendsOf(messages)[m.value.channel := m.value.value] else SendsOf(messages)
    ensures ListenersOf(messages + [m]) ==
            if m.Just? && m.value.ReceiveOn? then ListenersOf(messages) + {m.value.channel} else ListenersOf(messages)
  {
    assert (messages + [m])[..|messages|] == messages;
  }

  /** When a core fails, the cycle fails. */
  lemma {:induction false} ExecutionStops(s: Sys, run: CoreFunction, k: nat, n: nat)
    requires Shaped(s) && k <= n <= s.cores && !ExecuteCores(s, run, k).Done?
    ensures ExecuteCores(s, run, n) == ExecuteCores(s, run, k)
  {
    if k < n { ExecutionStops(s, run, k, n - 1); }
  }

  lemma {:induction false} HandlingStops(s: Sys, ms: seq<Maybe<Message>>, k: nat, n: nat)
    requires Shaped(s) && k <= n <= |ms| == s.cores && forall c | 0 <= c < |ms| :: ms[c].Just? <==> c in s.running
    ensures !HandleCores(s, ms, k).Done? ==> HandleCores(s, ms, n) == HandleCores(s, ms, k)
  {
    if k < n { HandlingStops(s, ms, k, n - 1); }
  }

  ghost predicate HandledUpTo(s: Sys, ms: seq<Maybe<Message>>, k: nat, t: Sys, tasks: seq<Task>, replies: seq<Maybe<Reply>>)
    requires Shaped(s) && k <= |ms| == s.cores && forall c | 0 <= c < |ms| :: ms[c].Just? <==> c in s.running
  {
    HandleCores(s, ms, k) == Done(AllHandled(t, tasks, replies))
  }

  /** One more message, after those of the cores before it. */
  lemma NextHandled(s: Sys, ms: seq<Maybe<Message>>, k: nat, a: AllHandled)
    requires Shaped(s) && k < |ms| == s.cores && forall c | 0 <= c < |ms| :: ms[c].Just? <==> c in s.running
    requires HandleCores(s, ms, k) == Done(a)
    ensures Keeps(s, a.sys, a.tasks)
    ensures ms[k] == Nobody ==> HandleCores(s, ms, k + 1) == Done(a.(replies := a.replies + [Nobody]))
    ensures ms[k].Just? ==>
              var h := Handle(a.sys, s.running[k], ms[k].value, SendsOf(ms), ListenersOf(ms));
              HandleCores(s, ms, k + 1) ==
              if h.Done? then Done(AllHandled(h.value.sys, a.tasks + h.value.tasks, a.replies + [h.value.reply]))
              else if h.Fails? then Fails else OffLimits
  {
  }

  function NowPlaced(s: Sys, idle: seq<nat>): Placed {
    Placed(s.states, s.running, idle)
  }

  predicate AllBelow(xs: seq<nat>, n: nat) {
    forall i | 0 <= i < |xs| :: xs[i] < n
  }

  /** Only cores are ever idle. */
  lemma FreedAreCores(s: Sys, tasks: seq<Task>, freed: seq<nat>)
    requires Scheduler.Agrees(s) && forall t | t in tasks :: IsPid(s, t.pid) && t.pid < |s.states|
    requires freed == RemoveTasks(NowPlaced(s, IdleCores(s.running, s.cores)), tasks, |tasks|).idle
    ensures AllBelow(freed, s.cores)
  {
    Scheduler.IdleIsListed(s.running, s.cores);
    Scheduler.RemovesAll(s.cores, NowPlaced(s, IdleCores(s.running, s.cores)), tasks, |tasks|);
  }

  /** The three passes in a row. */
  lemma PassesAre(s: Sys, tasks: seq<Task>, idle: seq<nat>, a: Sys, t: Sys, freed: seq<nat>, last: seq<nat>)
    requires Shaped(s) && idle == IdleCores(s.running, s.cores) && |a.states| == |t.states| == s.cells
    requires forall t | t in tasks :: IsPid(s, t.pid) && t.pid < |s.states| == |s.machines|
    requires NowPlaced(a, freed) == RemoveTasks(NowPlaced(s, idle), tasks, |tasks|)
    requires FinalStacks(s, tasks, |tasks|) == Done(a.finals)
    requires NowPlaced(t, last) == PlaceWaiting(PlaceTasks(NowPlaced(a, freed), tasks, |tasks|), s.cores, s.cells - 1)
    requires t == s.(states := t.states, running := t.running, finals := a.finals)
    ensures ScheduleAll(s, tasks) == Done(t)
  {
  }

  lemma {:induction false} FinalsStop(s: Sys, tasks: seq<Task>, k: nat, n: nat)
    requires k <= n <= |tasks| && forall t | t in tasks :: t.pid < |s.machines|
    ensures !FinalStacks(s, tasks, k).Done? ==> FinalStacks(s, tasks, n) == FinalStacks(s, tasks, k)
  {
    if k < n { FinalsStop(s, tasks, k, n - 1); }
  }

  /** Without an idle core, nobody who waits is placed. */
  lemma {:induction false} NobodyPlaced(p: Placed, first: nat, k: nat, n: nat)
    requires first <= k <= n <= |p.states| && PlaceWaiting(p, first, k).idle == []
    ensures PlaceWaiting(p, first, n) == PlaceWaiting(p, first, k)
  {
    if k < n { NobodyPlaced(p, first, k, n - 1); }
  }

  /** A send, once the value is logged and in the channel. */
  lemma SendAfterValue(s: Sys, ch: nat, v: Word, tx: nat, t: Sys)
    requires Shaped(s) && ch in s.channels && IsPid(s, tx)
    requires t == PutChannel(Gave(s, ch, v), ch, s.channels[ch].(value := v))
    ensures Shaped(t) && ch in t.channels
    ensures var c := s.channels[ch];
            SendWord(s, ch, v, tx) ==
            if c.pid == NO_PROCESS then Handled(PutChannel(t, ch, Channel(tx, false, v)), [Deschedule(tx)], Just(SaveToMemory))
            else if c.inAlternation then
              var p := PutChannel(t, ch, Channel(tx, true, v));
              if c.pid !in t.alternationReady then
                Handled(p.(alternationReady := p.alternationReady + {c.pid}), [Schedule(c.pid), Deschedule(tx)], Just(SaveToMemory))
              else Handled(p, [Deschedule(tx)], Just(SaveToMemory))
            else
              Handled(PutChannel(Deliver(t, ch, c.pid, v), ch, Channel(NO_PROCESS, false, v)), [Schedule(c.pid)], Just(SaveToMemory))
  {
    Overwritten(s.channels, ch, s.channels[ch].(value := v), Channel(tx, false, v));
    Overwritten(s.channels, ch, s.channels[ch].(value := v), Channel(tx, true, v));
    Overwritten(s.channels, ch, s.channels[ch].(value := v), Channel(NO_PROCESS, false, v));
  }

  lemma Overwritten(channels: map<nat, Channel>, ch: nat, a: Channel, b: Channel)
    ensures channels[ch := a][ch := b] == channels[ch := b]
  {
  }

  class Processor {
    const cores: nat
    const cells: nat
    const meta: MemoryCell
    const heap: Blocks.Allocator
    var store: Store
    ghost var abs: Sys

    ghost predicate Linked()
      reads this, heap, meta.memory
    {
      && Shaped(abs) && abs.cores == cores <= 64 && abs.cells == cells && cells % 2 == 0 && store == StoreOf(abs)
      && Represents(meta.memory[..], cells, abs.states, abs.channels)
      && heap.live == abs.channels.Keys && heap.listed == abs.heap.free
      && HeapOf(heap.fields, meta.memory[..], cells, abs.channels, abs.heap, heap.bumped)
    }

    /** A new processor with its instructions set: the first process runs on the first core. */
    constructor (coreCount: nat, cellCount: nat)
      requires 1 <= coreCount <= 64 && coreCount + 2 < cellCount < CELL_BYTES && cellCount % 2 == 0
      ensures Linked() && cores == coreCount && cells == cellCount && fresh(meta) && fresh(meta.memory) && fresh(heap)
      ensures abs == Scheduler.Initial(coreCount, cellCount, RESET, Machine(0, [], []))
    {
      cores, cells := coreCount, cellCount;
      var blank := new MemoryCell.Blank();
      meta := blank;
      heap := new Blocks.Allocator(cellCount, CELL_BYTES, CHANNEL_BYTES, blank);
      store := StoreOf(Off(coreCount, cellCount));
      abs := Off(coreCount, cellCount);
      new;
      var pid := cores + 1;
      while pid < cells - 1
        invariant Linked() && cores < pid <= cells - 1 && abs == Off(coreCount, cellCount)
      {
        WriteState(pid, Dead);
        assert abs.states == Off(coreCount, cellCount).states;
        pid := pid + 1;
      }
      WriteState(cores, Running(0));
      assert abs.states == Scheduler.Initial(coreCount, cellCount, RESET, Machine(0, [], [])).states;
    }

    method ReadState(pid: nat) returns (state: ProcessState)
      requires Linked() && pid < cells
      ensures state == abs.states[pid]
    {
      StateRead(meta.memory[..], cells, abs.states, abs.channels, pid);
      var byte := meta.ReadByte(pid);
      state := DecodeState(byte.value);
    }

    method WriteState(pid: nat, state: ProcessState)
      requires Linked() && IsPid(abs, pid) && (state.Running? ==> state.core < cores)
      modifies this`store, this`abs, meta.memory
      ensures Linked()
      ensures abs == old(abs).(states := old(abs).states[pid := state],
                               running := if state.Running? then old(abs).running[state.core := pid] else old(abs).running)
    {
      StateWritten(meta.memory[..], cells, abs.states, abs.channels, pid, state);
      ghost var m := meta.memory[..];
      var _ := meta.WriteByte(pid, EncodeState(state));
      HeapFrame(heap.fields, m, cells, abs.channels, abs.heap, heap.bumped, meta.memory[..]);
      if state.Running? {
        store := store.(running := store.running[state.core := pid]);
      }
      abs := abs.(states := abs.states[pid := state], running := store.running);
    }

    method ReadChannel(ch: Word) returns (c: Channel)
      requires Linked() && ch as nat in abs.channels
      ensures c == abs.channels[ch]
    {
      ChannelPlace(heap.fields, meta.memory[..], cells, abs.channels, abs.heap, heap.bumped, ch);
      ChannelRead(meta.memory[..], cells, abs.states, abs.channels, ch);
      var word := meta.ReadWord(ch);
      var value := meta.ReadWord(ch + 2);
      c := Channel(DecodePid(word.value), DecodeAlternation(word.value), value.value);
    }

    /** Writes a word of the metadata cell that makes the channels `next`. */
    method PutMeta(a: Word, w: Word, ghost next: map<nat, Channel>)
      requires Linked() && a % 2 == 0 && a + 1 < CELL_BYTES && next.Keys == abs.channels.Keys
      requires forall ch | ch in next :: next[ch].pid == NO_PROCESS || IsPid(abs, next[ch].pid)
      requires Represents(PutWord(meta.memory[..], a, w), cells, abs.states, next)
      requires HeapOf(heap.fields, PutWord(meta.memory[..], a, w), cells, next, abs.heap, heap.bumped)
      modifies this`abs, meta.memory
      ensures Linked() && abs == old(abs).(channels := next)
    {
      var _ := meta.WriteWord(a, w);
      abs := abs.(channels := next);
    }

    method WriteProcess(ch: Word, pid: nat, alternates: bool)
      requires Linked() && ch as nat in abs.channels && (pid == NO_PROCESS || IsPid(abs, pid))
      modifies this`abs, meta.memory
      ensures Linked()
      ensures abs == PutChannel(old(abs), ch, Channel(pid, alternates, old(abs).channels[ch].value))
    {
      ghost var next := abs.channels[ch as nat := Channel(pid, alternates, abs.channels[ch].value)];
      ChannelPlace(heap.fields, meta.memory[..], cells, abs.channels, abs.heap, heap.bumped, ch);
      ProcessWritten(meta.memory[..], cells, abs.states, abs.channels, ch, pid, alternates);
      HeapFrameWord(heap.fields, meta.memory[..], cells, abs.channels, abs.heap, heap.bumped, ch, ch, EncodeProcess(pid, alternates), next);
      PutMeta(ch, EncodeProcess(pid, alternates), next);
    }

    method WriteValue(ch: Word, v: Word)
      requires Linked() && ch as nat in abs.channels
      modifies this`abs, meta.memory
      ensures Linked()
      ensures abs == PutChannel(old(abs), ch, old(abs).channels[ch].(value := v))
    {
      ghost var next := abs.channels[ch as nat := abs.channels[ch].(value := v)];
      ChannelPlace(heap.fields, meta.memory[..], cells, abs.channels, abs.heap, heap.bumped, ch);
      assert abs.channels[ch].pid == NO_PROCESS || IsPid(abs, abs.channels[ch].pid);
      ValueWritten(meta.memory[..], cells, abs.states, abs.channels, ch, v);
      HeapFrameWord(heap.fields, meta.memory[..], cells, abs.channels, abs.heap, heap.bumped, ch, ch + 2, v, next);
      PutMeta(ch + 2, v, next);
    }

    /** The heap has handed out a block that is no channel yet. */
    ghost predicate Making(ch: nat, more: map<nat, Channel>)
      reads this, heap, meta.memory
    {
      && Shaped(abs) && abs.cores == cores <= 64 && abs.cells == cells && cells % 2 == 0 && store == StoreOf(abs)
      && Represents(meta.memory[..], cells, abs.states, abs.channels) && ch !in abs.channels
      && more == abs.channels[ch := Channel(NO_PROCESS, false, 0)] && heap.live == more.Keys
      && HeapOf(heap.fields, meta.memory[..], cells, more, Heap(heap.fields.end, heap.listed), heap.bumped)
    }

    method PutMaking(a: Word, w: Word, ch: Word, ghost more: map<nat, Channel>)
      requires Making(ch, more) && a % 2 == 0 && a + 1 < CELL_BYTES
      requires Represents(PutWord(meta.memory[..], a, w), cells, abs.states, abs.channels)
      requires HeapOf(heap.fields, PutWord(meta.memory[..], a, w), cells, more, Heap(heap.fields.end, heap.listed), heap.bumped)
      modifies meta.memory
      ensures Making(ch, more) && meta.memory[..] == PutWord(old(meta.memory[..]), a, w)
    {
      var _ := meta.WriteWord(a, w);
    }

    method PutMade(a: Word, w: Word, ch: Word, ghost more: map<nat, Channel>)
      requires Making(ch, more) && a % 2 == 0 && a + 1 < CELL_BYTES
      requires Represents(PutWord(meta.memory[..], a, w), cells, abs.states, more)
      requires HeapOf(heap.fields, PutWord(meta.memory[..], a, w), cells, more, Heap(heap.fields.end, heap.listed), heap.bumped)
      modifies this`abs, meta.memory
      ensures Linked()
      ensures abs == old(abs).(heap := Heap(heap.fields.end, heap.listed), channels := more,
                               history := old(abs).history[ch as nat := History([], [])])
    {
      var _ := meta.WriteWord(a, w);
      abs := abs.(heap := Heap(heap.fields.end, heap.listed), channels := more, history := abs.history[ch as nat := History([], [])]);
    }

    method ClearProcess(ch: Word, ghost more: map<nat, Channel>)
      requires Making(ch, more)
      modifies meta.memory
      ensures Making(ch, more) && ch + 1 < CELL_BYTES && WordAt(meta.memory[..], ch) == NO_PROCESS
    {
      ghost var h := Heap(heap.fields.end, heap.listed);
      HeapLays(heap.fields, meta.memory[..], cells, more, h, heap.bumped);
      ChannelPlace(heap.fields, meta.memory[..], cells, more, h, heap.bumped, ch);
      ProcessCleared(meta.memory[..], cells, abs.states, abs.channels, ch, more);
      HeapFrameWord(heap.fields, meta.memory[..], cells, more, h, heap.bumped, ch, ch, NO_PROCESS, more);
      PutMaking(ch, NO_PROCESS, ch, more);
    }

    method ClearValue(ch: Word, ghost more: map<nat, Channel>)
      requires Making(ch, more) && ch + 1 < CELL_BYTES && WordAt(meta.memory[..], ch) == NO_PROCESS
      modifies this`abs, meta.memory
      ensures Linked()
      ensures abs == old(abs).(heap := Heap(heap.fields.end, heap.listed), channels := more,
                               history := old(abs).history[ch as nat := History([], [])])
    {
      ghost var h := Heap(heap.fields.end, heap.listed);
      HeapLays(heap.fields, meta.memory[..], cells, more, h, heap.bumped);
      ChannelPlace(heap.fields, meta.memory[..], cells, more, h, heap.bumped, ch);
      ChannelMade(meta.memory[..], cells, abs.states, abs.channels, ch, more);
      HeapFrameWord(heap.fields, meta.memory[..], cells, more, h, heap.bumped, ch, ch + 2, 0, more);
      PutMade(ch + 2, 0, ch, more);
    }

    /** Asks the heap for a block. */
    method TakeBlock(ghost channels: map<nat, Channel>, ghost h: Heap) returns (r: Option<Word>)
      requires HeapOf(heap.fields, meta.memory[..], cells, channels, h, heap.bumped)
      requires heap.live == channels.Keys && heap.listed == h.free
      modifies heap
      ensures r.None? ==> Alloc(h).Fails? && heap.fields == old(heap.fields) && heap.live == old(heap.live) &&
                          heap.listed == old(heap.listed) && heap.bumped == old(heap.bumped)
      ensures r.Some? ==>
                var more := channels[r.value as nat := Channel(NO_PROCESS, false, 0)];
                && r.value as nat !in channels && heap.live == more.Keys
                && HeapOf(heap.fields, meta.memory[..], cells, more, Heap(heap.fields.end, heap.listed), heap.bumped)
                && Alloc(h) == Done((r.value as nat, Heap(heap.fields.end, heap.listed)))
    {
      ghost var before, n := heap.fields, heap.bumped;
      r := heap.Alloc(meta);
      AllocIs(before, meta.memory[..], cells, channels, h, n, r, heap.fields.end, heap.listed);
      if r.Some? {
        KeysGrow(channels, r.value, Channel(NO_PROCESS, false, 0));
      }
    }

    method CreateChannel() returns (r: Option<Word>)
      requires Linked()
      modifies this`abs, heap, meta.memory
      ensures Linked()
      ensures r.None? ==> MakeChannel(old(abs)).Fails? && abs == old(abs)
      ensures r.Some? ==> MakeChannel(old(abs)) == Done(Handled(abs, [], Just(CreatedChannel(r.value))))
    {
      r := TakeBlock(abs.channels, abs.heap);
      if r.Some? {
        ghost var more := abs.channels[r.value as nat := Channel(NO_PROCESS, false, 0)];
        MakingIs(abs, r.value, Heap(heap.fields.end, heap.listed));
        ClearProcess(r.value, more);
        ClearValue(r.value, more);
      }
    }

    method DeleteChannel(ch: Word)
      requires Linked() && ch as nat in abs.channels
      modifies this`abs, heap, meta.memory
      ensures Linked() && abs == FreeChannel(old(abs), ch).sys
    {
      ghost var m, head := meta.memory[..], heap.fields.head;
      ChannelPlace(heap.fields, meta.memory[..], cells, abs.channels, abs.heap, heap.bumped, ch);
      FreeKeeps(m, cells, abs.states, abs.channels, ch, head);
      FreeIs(heap.fields, m, cells, abs.channels, abs.heap, heap.bumped, ch);
      heap.Free(meta, ch);
      abs := FreeChannel(abs, ch).sys;
    }

    /** A value is pushed on a process's stack. */
    method PushOn(pid: nat, v: Word)
      requires Linked() && IsPid(abs, pid)
      modifies this`store, this`abs
      ensures Linked()
      ensures abs == old(abs).(machines := old(abs).machines[pid := Pushed(old(abs).machines[pid], v)])
    {
      store := store.(machines := store.machines[pid := Pushed(store.machines[pid], v)]);
      abs := abs.(machines := store.machines);
    }

    method MarkReady(pid: nat)
      requires Linked()
      modifies this`store, this`abs
      ensures Linked() && abs == old(abs).(alternationReady := old(abs).alternationReady + {pid})
    {
      store := store.(alternationReady := store.alternationReady + {pid});
      abs := abs.(alternationReady := store.alternationReady);
    }

    ghost method Log(next: map<nat, History>)
      requires Linked()
      modifies this`abs
      ensures Linked() && abs == old(abs).(history := next)
    {
      abs := abs.(history := next);
    }

    /** The value goes to the process that waits for it. */
    method HandOver(ch: Word, v: Word, rx: nat)
      requires Linked() && ch as nat in abs.channels && IsPid(abs, rx)
      modifies this`store, this`abs, meta.memory
      ensures Linked()
      ensures abs == PutChannel(Deliver(old(abs), ch, rx, v), ch, Channel(NO_PROCESS, false, old(abs).channels[ch].value))
    {
      PushOn(rx, v);
      Log(Took(abs, ch, v).history);
      WriteProcess(ch, NO_PROCESS, false);
    }

    /** The sender waits for a process in alternation, which is woken by the first of them. */
    method WakeAlternation(ch: Word, tx: nat, rx: nat) returns (tasks: seq<Task>)
      requires Linked() && ch as nat in abs.channels && IsPid(abs, tx) && IsPid(abs, rx)
      modifies this`store, this`abs, meta.memory
      ensures Linked()
      ensures var p := PutChannel(old(abs), ch, Channel(tx, true, old(abs).channels[ch].value));
              if rx !in old(abs).alternationReady then
                abs == p.(alternationReady := p.alternationReady + {rx}) && tasks == [Schedule(rx), Deschedule(tx)]
              else abs == p && tasks == [Deschedule(tx)]
    {
      WriteProcess(ch, tx, true);
      if rx !in store.alternationReady {
        MarkReady(rx);
        tasks := [Schedule(rx), Deschedule(tx)];
      } else {
        tasks := [Deschedule(tx)];
      }
    }

    method Send(ch: Word, v: Word, tx: nat) returns (tasks: seq<Task>)
      requires Linked() && ch as nat in abs.channels && IsPid(abs, tx)
      modifies this`store, this`abs, meta.memory
      ensures Linked() && SendWord(old(abs), ch, v, tx) == Handled(abs, tasks, Just(SaveToMemory))
    {
      Log(Gave(abs, ch, v).history);
      WriteValue(ch, v);
      var rx := ReadChannel(ch);
      SendAfterValue(old(abs), ch, v, tx, abs);
      if rx.pid == NO_PROCESS {
        WriteProcess(ch, tx, false);
        tasks := [Deschedule(tx)];
      } else if rx.inAlternation {
        tasks := WakeAlternation(ch, tx, rx.pid);
      } else {
        HandOver(ch, v, rx.pid);
        tasks := [Schedule(rx.pid)];
      }
    }

    method Receive(ch: Word, rx: nat) returns (task: Task)
      requires Linked() && ch as nat in abs.channels && IsPid(abs, rx)
      modifies this`store, this`abs, meta.memory
      ensures Linked() && ReceiveWord(old(abs), ch, rx) == Handled(abs, [task], Just(SaveToMemory))
    {
      var tx := ReadChannel(ch);
      if tx.pid == NO_PROCESS {
        WriteProcess(ch, rx, false);
        task := Deschedule(rx);
      } else {
        WriteProcess(ch, NO_PROCESS, false);
        PushOn(rx, tx.value);
        Log(Took(abs, ch, tx.value).history);
        task := Schedule(tx.pid);
      }
    }

    method EnableChannel(ch: Word, rx: nat)
      requires Linked() && ch as nat in abs.channels && IsPid(abs, rx)
      modifies this`store, this`abs, meta.memory
      ensures Linked() && EnableOn(old(abs), ch, rx) == Handled(abs, [], Nobody)
    {
      var tx := ReadChannel(ch);
      if tx.pid == NO_PROCESS {
        WriteProcess(ch, rx, true);
      } else {
        MarkReady(rx);
      }
    }

    method DisableChannel(ch: Word, rx: nat, hasValue: bool, ghost destination: Word) returns (task: Maybe<Task>)
      requires Linked() && ch as nat in abs.channels && IsPid(abs, rx)
      modifies this`store, this`abs, meta.memory
      ensures Linked()
      ensures DisableOn(old(abs), ch, rx, destination, hasValue) ==
              Handled(abs, if task.Just? then [task.value] else [], if task.Just? then Just(JumpTo(destination)) else Nobody)
    {
      task := Nobody;
      var tx := ReadChannel(ch);
      if tx.pid == NO_PROCESS {
      } else if tx.pid == rx {
        WriteProcess(ch, NO_PROCESS, false);
      } else if !hasValue {
        PushOn(rx, tx.value);
        Log(Took(abs, ch, tx.value).history);
        WriteProcess(ch, NO_PROCESS, false);
        task := Just(Schedule(tx.pid));
      }
    }

    /** The first process slot that is dead. */
    method FindDead() returns (r: Option<nat>)
      requires Linked()
      ensures if r.Some? then NewProcess(abs, cores) == Done(r.value) else NewProcess(abs, cores).Fails?
    {
      var pid := cores;
      while pid < cells - 1
        invariant cores <= pid <= cells - 1 && NewProcess(abs, cores) == NewProcess(abs, pid)
      {
        var state := ReadState(pid);
        if state == Dead {
          return Some(pid);
        }
        pid := pid + 1;
      }
      r := None;
    }

    /** The child takes the top words of its parent's stack. */
    method StartProcess(pid: nat, pc: Word, words: Word) returns (r: Option<Task>)
      requires Linked() && IsPid(abs, pid)
      modifies this`store, this`abs
      ensures Linked()
      ensures if r.Some? then ProcessorModel.StartChild(old(abs), pid, pc, words) == Done(Handled(abs, [r.value], Nobody))
              else ProcessorModel.StartChild(old(abs), pid, pc, words).Fails?
    {
      var child := FindDead();
      if child.None? || child.value == pid {
        return None;
      }
      var stack := store.machines[pid].stack;
      if words > |stack| {
        return None;
      }
      store := store.(machines := store.machines[child.value := Machine(pc, stack[..words], [])]
                                                [pid := store.machines[pid].(stack := stack[words..])],
                      numbers := store.numbers[child.value := |store.numbers|]);
      abs := abs.(machines := store.machines, numbers := store.numbers);
      r := Some(Schedule(child.value));
    }

    method HandleAlternation(pid: nat, m: Message, ghost sends: map<Word, Word>, ghost listeners: set<Word>) returns (tasks: seq<Task>)
      requires Linked() && IsPid(abs, pid) && (m.StartAlternation? || m.WaitAlternation? || m.EndAlternation?)
      modifies this`store, this`abs
      ensures Linked() && Handle(old(abs), pid, m, sends, listeners) == Done(Handled(abs, tasks, Nobody))
    {
      tasks := [];
      if m.StartAlternation? {
        store := store.(alternating := store.alternating + {pid});
      } else if m.WaitAlternation? {
        tasks := if pid !in store.alternationReady then [Deschedule(pid)] else [];
      } else {
        store := store.(alternating := store.alternating - {pid}, alternationReady := store.alternationReady - {pid});
      }
      abs := abs.(alternating := store.alternating, alternationReady := store.alternationReady);
    }

    /** Sends and receives: two cores that meet in a cycle need no slot. */
    method HandleExchange(pid: nat, m: Message, sends: map<Word, Word>, listeners: set<Word>) returns (tasks: seq<Task>, reply: Maybe<Reply>)
      requires Linked() && IsPid(abs, pid) && (m.SendOn? || m.ReceiveOn?) && m.channel as nat in abs.channels
      modifies this`store, this`abs, meta.memory
      ensures Linked() && Handle(old(abs), pid, m, sends, listeners) == Done(Handled(abs, tasks, reply))
    {
      tasks, reply := [], Nobody;
      if m.SendOn? {
        if m.channel in listeners {
          Log(Gave(abs, m.channel, m.value).history);
        } else {
          reply := Just(SaveToMemory);
          tasks := Send(m.channel, m.value, pid);
        }
      } else if m.channel in sends {
        Log(Took(abs, m.channel, sends[m.channel]).history);
        reply := Just(Received(m.channel, sends[m.channel]));
      } else {
        reply := Just(SaveToMemory);
        var task := Receive(m.channel, pid);
        tasks := [task];
      }
    }

    /** A guard that had a sender waiting jumps, and wakes it. */
    method HandleDisable(pid: nat, m: Message, ghost sends: map<Word, Word>, ghost listeners: set<Word>)
        returns (tasks: seq<Task>, reply: Maybe<Reply>)
      requires Linked() && IsPid(abs, pid) && m.Disable? && m.channel as nat in abs.channels
      modifies this`store, this`abs, meta.memory
      ensures Linked() && Handle(old(abs), pid, m, sends, listeners) == Done(Handled(abs, tasks, reply))
    {
      var task := DisableChannel(m.channel, pid, m.hasValue, m.destination);
      tasks := if task.Just? then [task.value] else [];
      reply := if task.Just? then Just(JumpTo(m.destination)) else Nobody;
    }

    method HandleMessage(pid: nat, m: Message, sends: map<Word, Word>, listeners: set<Word>)
        returns (ok: bool, tasks: seq<Task>, reply: Maybe<Reply>)
      requires Linked() && IsPid(abs, pid) && !Handle(abs, pid, m, sends, listeners).OffLimits?
      modifies this`store, this`abs, heap, meta.memory
      ensures Linked()
      ensures if ok then Handle(old(abs), pid, m, sends, listeners) == Done(Handled(abs, tasks, reply))
              else Handle(old(abs), pid, m, sends, listeners).Fails?
    {
      ok, tasks, reply := true, [], Nobody;
      if m.Nothing? {
      } else if m.Yielded? || m.Halt? {
        tasks := [if m.Halt? then Destroy(pid) else Deschedule(pid)];
        reply := Just(SaveToMemory);
      } else if m.StartProcess? {
        var task := StartProcess(pid, m.pc, m.words);
        if task.None? {
          return false, [], Nobody;
        }
        tasks := [task.value];
      } else if m.NewChannel? {
        var ch := CreateChannel();
        if ch.None? {
          return false, [], Nobody;
        }
        reply := Just(CreatedChannel(ch.value));
      } else if m.SendOn? || m.ReceiveOn? {
        tasks, reply := HandleExchange(pid, m, sends, listeners);
      } else if m.StartAlternation? || m.WaitAlternation? || m.EndAlternation? {
        tasks := HandleAlternation(pid, m, sends, listeners);
      } else if m.DeleteChannel? {
        DeleteChannel(m.channel);
      } else if m.Enable? {
        EnableChannel(m.channel, pid);
      } else {
        tasks, reply := HandleDisable(pid, m, sends, listeners);
      }
    }

    // ----- the tick -----

    /** One core executes an instruction of its process; nothing happens on a core without one. */
    method ExecuteOne(run: CoreFunction, core: nat) returns (ok: bool, message: Maybe<Message>)
      requires Linked() && core < cores
      modifies this`store, this`abs
      ensures Linked() && ExecutedOne(old(abs), run, core, ok, message, abs)
    {
      ok, message := true, Nobody;
      if core in store.running {
        var pid := store.running[core];
        match run(store.registers[core], store.machines[pid]) {
          case Failed => ok := false;
          case Did(registers, machine, m) =>
            store := store.(registers := store.registers[core := registers], machines := store.machines[pid := machine]);
            abs := abs.(registers := store.registers, machines := store.machines);
            message := Just(m);
        }
      }
    }

    /** Every core with a process executes an instruction. */
    method ExecuteAll(run: CoreFunction) returns (r: Option<seq<Maybe<Message>>>, sends: map<Word, Word>, listeners: set<Word>)
      requires Linked()
      modifies this`store, this`abs
      ensures Linked()
      ensures r.Some? ==> ExecuteCores(old(abs), run, cores) == Done(Executed(abs, r.value)) &&
                          sends == SendsOf(r.value) && listeners == ListenersOf(r.value)
      ensures r.None? ==> ExecuteCores(old(abs), run, cores).Fails?
    {
      ghost var s := abs;
      var messages: seq<Maybe<Message>> := [];
      sends, listeners := map[], {};
      var core := 0;
      while core < cores
        invariant Linked() && core <= cores
        invariant ExecutedUpTo(s, run, core, abs, messages)
        invariant sends == SendsOf(messages) && listeners == ListenersOf(messages)
      {
        ghost var before := abs;
        var ok, message := ExecuteOne(run, core);
        NextExecuted(s, run, core, before, messages, ok, message, abs);
        if !ok {
          return None, sends, listeners;
        }
        if message.Just? && message.value.SendOn? {
          sends := sends[message.value.channel := message.value.value];
        } else if message.Just? && message.value.ReceiveOn? {
          listeners := listeners + {message.value.channel};
        }
        LastHeard(messages, message);
        messages := messages + [message];
        core := core + 1;
      }
      r := Some(messages);
    }

    /** One core's message, after those of the cores before it. */
    method HandleCore(ghost s: Sys, messages: seq<Maybe<Message>>, core: nat, sends: map<Word, Word>, listeners: set<Word>,
                      tasks: seq<Task>, replies: seq<Maybe<Reply>>)
        returns (ok: bool, more: seq<Task>, answers: seq<Maybe<Reply>>)
      requires Linked() && core < |messages| == cores == s.cores && sends == SendsOf(messages) && listeners == ListenersOf(messages)
      requires Shaped(s) && forall c | 0 <= c < |messages| :: messages[c].Just? <==> c in s.running
      requires HandledUpTo(s, messages, core, abs, tasks, replies) && !HandleCores(s, messages, cores).OffLimits?
      modifies this`store, this`abs, heap, meta.memory
      ensures Linked()
      ensures if ok then HandledUpTo(s, messages, core + 1, abs, more, answers) else HandleCores(s, messages, cores).Fails?
    {
      HandlingStops(s, messages, core + 1, cores);
      NextHandled(s, messages, core, AllHandled(abs, tasks, replies));
      if messages[core] == Nobody {
        return true, tasks, replies + [Nobody];
      }
      var reply;
      ok, more, reply := HandleMessage(store.running[core], messages[core].value, sends, listeners);
      more, answers := tasks + more, replies + [reply];
    }

    /** The messages are dealt with in core order. */
    method HandleAll(messages: seq<Maybe<Message>>, sends: map<Word, Word>, listeners: set<Word>)
        returns (r: Option<seq<Maybe<Reply>>>, tasks: seq<Task>)
      requires Linked() && |messages| == cores && sends == SendsOf(messages) && listeners == ListenersOf(messages)
      requires forall c | 0 <= c < |messages| :: messages[c].Just? <==> c in abs.running
      requires !HandleCores(abs, messages, cores).OffLimits?
      modifies this`store, this`abs, heap, meta.memory
      ensures Linked()
      ensures r.Some? ==> HandleCores(old(abs), messages, cores) == Done(AllHandled(abs, tasks, r.value))
      ensures r.None? ==> HandleCores(old(abs), messages, cores).Fails?
    {
      ghost var s := abs;
      var replies: seq<Maybe<Reply>> := [];
      tasks := [];
      var core := 0;
      while core < cores
        invariant Linked() && core <= cores
        invariant HandledUpTo(s, messages, core, abs, tasks, replies)
      {
        var ok;
        ok, tasks, replies := HandleCore(s, messages, core, sends, listeners, tasks, replies);
        if !ok {
          return None, tasks;
        }
        core := core + 1;
      }
      r := Some(replies);
    }

    /** A core gets its answer. */
    method AnswerCore(core: nat, reply: Reply)
      requires Linked() && core in abs.running
      modifies this`store, this`abs
      ensures Linked() && abs == Answer(old(abs), core, reply)
    {
      var pid := store.running[core];
      match reply {
        case SaveToMemory =>
        case CreatedChannel(ch) => PushOn(pid, ch);
        case Received(_, v) =>
          PushOn(pid, v);
          store := store.(registers := store.registers[core := store.registers[core].(hasAlternationValue := true)]);
          abs := abs.(registers := store.registers);
        case JumpTo(pc) =>
          store := store.(machines := store.machines[pid := store.machines[pid].(pc := pc)]);
          abs := abs.(machines := store.machines);
      }
    }

    /** The cores get their answers. */
    method AnswerAll(replies: seq<Maybe<Reply>>)
      requires Linked() && |replies| == cores && forall c | 0 <= c < |replies| :: replies[c].Just? ==> c in abs.running
      modifies this`store, this`abs
      ensures Linked() && abs == AnswerCores(old(abs), replies, cores)
    {
      var core := 0;
      while core < cores
        invariant Linked() && core <= cores && abs == AnswerCores(old(abs), replies, core)
      {
        if replies[core].Just? {
          AnswerCore(core, replies[core].value);
        }
        core := core + 1;
      }
    }

    // ----- the scheduler -----

    /** Only the states, the cores and the final stacks differ. */
    ghost predicate Rescheduled(s: Sys)
      reads this
    {
      abs == s.(states := abs.states, running := abs.running, finals := abs.finals) && |abs.states| == |s.states|
    }

    method Unmap(core: nat)
      requires Linked()
      modifies this`store, this`abs
      ensures Linked() && abs == old(abs).(running := old(abs).running - {core})
    {
      store := store.(running := store.running - {core});
      abs := abs.(running := store.running);
    }

    method FindIdle() returns (idle: seq<nat>)
      requires Linked()
      ensures idle == IdleCores(abs.running, cores)
    {
      idle := [];
      var core := 0;
      while core < cores
        invariant core <= cores && idle == IdleCores(abs.running, core)
      {
        if core !in store.running {
          idle := idle + [core];
        }
        core := core + 1;
      }
    }

    /** Takes a process off its core, if it is on one. */
    method TakeOff(pid: nat, state: ProcessState, idle: seq<nat>) returns (freed: seq<nat>)
      requires Linked() && IsPid(abs, pid) && !state.Running?
      modifies this`store, this`abs, meta.memory
      ensures Linked() && Rescheduled(old(abs)) && abs.finals == old(abs).finals
      ensures NowPlaced(abs, freed) == Remove(NowPlaced(old(abs), idle), pid, state)
    {
      freed := idle;
      var before := ReadState(pid);
      if before.Running? {
        Unmap(before.core);
        freed := freed + [before.core];
      }
      WriteState(pid, state);
    }

    method RecordEnd(pid: nat) returns (ok: bool)
      requires Linked() && IsPid(abs, pid)
      modifies this`store, this`abs
      ensures Linked() && (ok <==> pid in old(abs).numbers)
      ensures abs == if ok then old(abs).(finals := old(abs).finals[old(abs).numbers[pid] := old(abs).machines[pid].stack]) else old(abs)
    {
      ok := pid in store.numbers;
      if ok {
        store := store.(finals := store.finals[store.numbers[pid] := store.machines[pid].stack]);
        abs := abs.(finals := store.finals);
      }
    }

    /** One task that stops a process. */
    method RemoveOne(t: Task, idle: seq<nat>) returns (ok: bool, freed: seq<nat>)
      requires Linked() && IsPid(abs, t.pid)
      modifies this`store, this`abs, meta.memory
      ensures Linked() && Rescheduled(old(abs)) && NowPlaced(abs, freed) == RemoveTask(NowPlaced(old(abs), idle), t)
      ensures ok <==> t.Destroy? ==> t.pid in old(abs).numbers
      ensures abs.finals == if ok && t.Destroy? then old(abs).finals[old(abs).numbers[t.pid] := old(abs).machines[t.pid].stack]
                            else old(abs).finals
    {
      ok, freed := true, idle;
      if !t.Schedule? {
        freed := TakeOff(t.pid, if t.Destroy? then Dead else Inactive, idle);
        if t.Destroy? {
          ok := RecordEnd(t.pid);
        }
      }
    }

    /** Gives a process the last idle core, or has it wait. */
    method PlaceOne(pid: nat, idle: seq<nat>) returns (rest: seq<nat>)
      requires Linked() && IsPid(abs, pid) && AllBelow(idle, cores)
      modifies this`store, this`abs, meta.memory
      ensures Linked() && Rescheduled(old(abs)) && abs.finals == old(abs).finals
      ensures NowPlaced(abs, rest) == Place(NowPlaced(old(abs), idle), pid)
    {
      rest := idle;
      if idle != [] {
        rest := idle[..|idle| - 1];
        WriteState(pid, Running(idle[|idle| - 1]));
      } else {
        WriteState(pid, Waiting);
      }
    }

    /** First pass: the processes that stop. */
    method RemoveAll(tasks: seq<Task>, idle: seq<nat>) returns (ok: bool, freed: seq<nat>)
      requires Linked() && forall t | t in tasks :: IsPid(abs, t.pid) && t.pid < |abs.states| == |abs.machines|
      modifies this`store, this`abs, meta.memory
      ensures Linked() && Rescheduled(old(abs))
      ensures ok ==> NowPlaced(abs, freed) == RemoveTasks(NowPlaced(old(abs), idle), tasks, |tasks|)
      ensures ok ==> FinalStacks(old(abs), tasks, |tasks|) == Done(abs.finals)
      ensures !ok ==> FinalStacks(old(abs), tasks, |tasks|).Fails?
    {
      ghost var s := abs;
      ok, freed := true, idle;
      var i := 0;
      while i < |tasks|
        invariant i <= |tasks| && Linked() && Rescheduled(s)
        invariant NowPlaced(abs, freed) == RemoveTasks(NowPlaced(s, idle), tasks, i)
        invariant FinalStacks(s, tasks, i) == Done(abs.finals)
      {
        assert IsPid(s, tasks[i].pid);
        FinalsStop(s, tasks, i + 1, |tasks|);
        ok, freed := RemoveOne(tasks[i], freed);
        if !ok {
          return;
        }
        i := i + 1;
      }
    }

    /** A task that asks for a process, unless it runs already. */
    method PlaceTask(t: Task, idle: seq<nat>) returns (rest: seq<nat>)
      requires Linked() && IsPid(abs, t.pid) && AllBelow(idle, cores)
      modifies this`store, this`abs, meta.memory
      ensures Linked() && Rescheduled(old(abs)) && abs.finals == old(abs).finals
      ensures NowPlaced(abs, rest) ==
              if t.Schedule? && !old(abs).states[t.pid].Running? then Place(NowPlaced(old(abs), idle), t.pid) else NowPlaced(old(abs), idle)
      ensures AllBelow(rest, cores)
    {
      rest := idle;
      if t.Schedule? {
        var state := ReadState(t.pid);
        if !state.Running? {
          rest := PlaceOne(t.pid, rest);
        }
      }
    }

    /** Second pass: the processes that are asked for and do not run. */
    method PlaceAll(tasks: seq<Task>, idle: seq<nat>) returns (rest: seq<nat>)
      requires Linked() && forall t | t in tasks :: IsPid(abs, t.pid) && t.pid < |abs.states| == |abs.machines|
      requires AllBelow(idle, cores)
      modifies this`store, this`abs, meta.memory
      ensures Linked() && Rescheduled(old(abs)) && abs.finals == old(abs).finals
      ensures NowPlaced(abs, rest) == PlaceTasks(NowPlaced(old(abs), idle), tasks, |tasks|)
      ensures AllBelow(rest, cores)
    {
      ghost var s := abs;
      rest := idle;
      var i := 0;
      while i < |tasks|
        invariant i <= |tasks| && Linked() && Rescheduled(s) && abs.finals == s.finals
        invariant NowPlaced(abs, rest) == PlaceTasks(NowPlaced(s, idle), tasks, i)
        invariant AllBelow(rest, cores)
      {
        assert IsPid(s, tasks[i].pid);
        rest := PlaceTask(tasks[i], rest);
        i := i + 1;
      }
    }

    method PlaceIfWaiting(pid: nat, idle: seq<nat>) returns (rest: seq<nat>)
      requires Linked() && IsPid(abs, pid) && AllBelow(idle, cores)
      modifies this`store, this`abs, meta.memory
      ensures Linked() && Rescheduled(old(abs)) && abs.finals == old(abs).finals && AllBelow(rest, cores)
      ensures NowPlaced(abs, rest) ==
              if old(abs).states[pid] == Waiting then Place(NowPlaced(old(abs), idle), pid) else NowPlaced(old(abs), idle)
    {
      rest := idle;
      var state := ReadState(pid);
      if state == Waiting {
        rest := PlaceOne(pid, rest);
      }
    }

    /** Third pass: while cores are idle, those that wait get them. */
    method PlaceTheWaiting(idle: seq<nat>) returns (rest: seq<nat>)
      requires Linked() && AllBelow(idle, cores)
      modifies this`store, this`abs, meta.memory
      ensures Linked() && Rescheduled(old(abs)) && abs.finals == old(abs).finals
      ensures NowPlaced(abs, rest) == PlaceWaiting(NowPlaced(old(abs), idle), cores, cells - 1)
    {
      ghost var s := abs;
      rest := idle;
      var pid := cores;
      while pid < cells - 1
        invariant cores <= pid <= cells - 1 && Linked() && Rescheduled(s) && abs.finals == s.finals
        invariant NowPlaced(abs, rest) == PlaceWaiting(NowPlaced(s, idle), cores, pid)
        invariant AllBelow(rest, cores)
      {
        if rest == [] {
          NobodyPlaced(NowPlaced(s, idle), cores, pid, cells - 1);
          return;
        }
        rest := PlaceIfWaiting(pid, rest);
        pid := pid + 1;
      }
    }

    /** The second and the third pass. */
    method PlaceEverybody(tasks: seq<Task>, idle: seq<nat>) returns (rest: seq<nat>)
      requires Linked() && forall t | t in tasks :: IsPid(abs, t.pid) && t.pid < |abs.states| == |abs.machines|
      requires AllBelow(idle, cores)
      modifies this`store, this`abs, meta.memory
      ensures Linked() && Rescheduled(old(abs)) && abs.finals == old(abs).finals
      ensures NowPlaced(abs, rest) == PlaceWaiting(PlaceTasks(NowPlaced(old(abs), idle), tasks, |tasks|), cores, cells - 1)
    {
      rest := PlaceAll(tasks, idle);
      rest := PlaceTheWaiting(rest);
    }

    /** The first pass, from the cores that are idle before it. */
    method StopAll(tasks: seq<Task>) returns (ok: bool, freed: seq<nat>)
      requires Linked() && forall t | t in tasks :: IsPid(abs, t.pid) && t.pid < |abs.states| == |abs.machines|
      requires AllBelow(RemoveTasks(NowPlaced(abs, IdleCores(abs.running, cores)), tasks, |tasks|).idle, cores)
      modifies this`store, this`abs, meta.memory
      ensures Linked() && Rescheduled(old(abs))
      ensures ok ==> NowPlaced(abs, freed) == RemoveTasks(NowPlaced(old(abs), IdleCores(old(abs).running, cores)), tasks, |tasks|) &&
                     FinalStacks(old(abs), tasks, |tasks|) == Done(abs.finals) && AllBelow(freed, cores)
      ensures !ok ==> FinalStacks(old(abs), tasks, |tasks|).Fails?
    {
      var idle := FindIdle();
      ok, freed := RemoveAll(tasks, idle);
      assert ok ==> freed == NowPlaced(abs, freed).idle;
    }

    method Reschedule(tasks: seq<Task>) returns (ok: bool)
      requires Linked() && forall t | t in tasks :: IsPid(abs, t.pid) && t.pid < |abs.states| == |abs.machines|
      requires AllBelow(RemoveTasks(NowPlaced(abs, IdleCores(abs.running, cores)), tasks, |tasks|).idle, cores)
      modifies this`store, this`abs, meta.memory
      ensures Linked()
      ensures if ok then ScheduleAll(old(abs), tasks) == Done(abs) else ScheduleAll(old(abs), tasks).Fails?
    {
      ghost var s := abs;
      var freed;
      ok, freed := StopAll(tasks);
      if !ok {
        return;
      }
      ghost var a := abs;
      var last := PlaceEverybody(tasks, freed);
      PassesAre(s, tasks, IdleCores(s.running, s.cores), a, abs, freed, last);
    }

    /** One cycle: `None` is an error; otherwise whether the processor has halted. */
    method Tick(run: CoreFunction) returns (r: Option<bool>)
      requires Linked() && Scheduler.Agrees(abs) && !TickAll(abs, run).OffLimits?
      modifies this`store, this`abs, heap, meta.memory
      ensures Linked()
      ensures if r.Some? then TickAll(old(abs), run) == Done(Cycle(abs, r.value)) else TickAll(old(abs), run).Fails?
    {
      ghost var s := abs;
      var messages, sends, listeners := ExecuteAll(run);
      if messages.None? {
        return None;
      }
      MessagesAreFromRunning(s, run, cores);
      ghost var e := abs;
      var replies, tasks := HandleAll(messages.value, sends, listeners);
      if replies.None? {
        return None;
      }
      RepliesAreFromRunning(e, messages.value, cores);
      AnswerAll(replies.value);
      FreedAreCores(abs, tasks, RemoveTasks(NowPlaced(abs, IdleCores(abs.running, cores)), tasks, |tasks|).idle);
      var ok := Reschedule(tasks);
      if !ok {
        return None;
      }
      r := Some(store.running == map[]);
    }
  }
}
