/**
 * The processor: cores, process cells, the states of processes, the channels, and one tick of all of
 * them. Process cells are the plain machines that `MemoryCells` shows their bytes to be; states and
 * channels are the maps that `Metadata` shows the last cell's bytes to be.
 */
module ProcessorModel {
  import opened Isa
  import opened StackMachine
  import opened Simulator

  const NO_PROCESS := 0
  const CELL_BYTES := 512
  const CHANNEL_BYTES := 4

  datatype ProcessState = Dead | Inactive | Running(core: nat) | Waiting

  /** A channel's slot: the process that waits in it, and the last value written to it. */
  datatype Channel = Channel(pid: nat, inAlternation: bool, value: Word)

  /** What has been sent on a channel and taken from it since it was made. */
  datatype History = History(sent: seq<Word>, received: seq<Word>)

  /** The allocator of channels: a bump pointer, and freed blocks, last freed first. */
  datatype Heap = Heap(end: nat, free: seq<nat>)

  datatype Sys = Sys(
    cores: nat, cells: nat,
    registers: seq<Registers>,
    machines: seq<Machine>,
    states: seq<ProcessState>,
    running: map<nat, nat>,
    channels: map<nat, Channel>,
    heap: Heap,
    alternating: set<nat>, alternationReady: set<nat>,
    numbers: map<nat, nat>, finals: map<nat, seq<Word>>,
    history: map<nat, History>)

  datatype Task = Schedule(pid: nat) | Deschedule(pid: nat) | Destroy(pid: nat)

  datatype Reply = SaveToMemory | CreatedChannel(channel: Word) | Received(channel: Word, value: Word) | JumpTo(pc: Word)

  datatype Maybe<+T> = Nobody | Just(value: T)

  /** `Fails` is an error or a panic; `OffLimits` is a use of a channel that is not allocated. */
  datatype Result<+T> = Done(value: T) | Fails | OffLimits {
    predicate IsFailure() {
      !Done?
    }

    function PropagateFailure<U>(): Result<U>
      requires !Done?
    {
      if Fails? then Fails else OffLimits
    }

    function Extract(): T
      requires Done?
    {
      value
    }
  }

  type CoreFunction = (Registers, Machine) -> Ticked

  /** Process cells lie between the instruction caches and the metadata cell. */
  predicate IsPid(s: Sys, p: nat) {
    s.cores <= p < s.cells - 1
  }

  predicate Shaped(s: Sys) {
    && 1 <= s.cores && s.cores + 2 < s.cells <= CELL_BYTES
    && |s.registers| == s.cores && |s.machines| == s.cells && |s.states| == s.cells
    && (forall c | c in s.running :: c < s.cores && IsPid(s, s.running[c]))
    && (forall ch | ch in s.channels :: s.channels[ch].pid == NO_PROCESS || IsPid(s, s.channels[ch].pid))
  }

  function Pushed(m: Machine, v: Word): Machine {
    m.(stack := [v] + m.stack)
  }

  // ----- the cores run -----

  datatype Executed = Executed(sys: Sys, messages: seq<Maybe<Message>>)

  function ExecuteCores(s: Sys, run: CoreFunction, k: nat): (r: Result<Executed>)
    requires Shaped(s) && k <= s.cores
    ensures r.Done? ==> |r.value.messages| == k && Shaped(r.value.sys) &&
                        r.value.sys == s.(registers := r.value.sys.registers, machines := r.value.sys.machines)
  {
    if k == 0 then Done(Executed(s, []))
    else
      var e :- ExecuteCores(s, run, k - 1);
      var core := k - 1;
      if core !in s.running then Done(Executed(e.sys, e.messages + [Nobody]))
      else
        var pid := s.running[core];
        match run(e.sys.registers[core], e.sys.machines[pid])
        case Failed => Fails
        case Did(r, m, message) =>
          Done(Executed(e.sys.(registers := e.sys.registers[core := r], machines := e.sys.machines[pid := m]),
                        e.messages + [Just(message)]))
  }

  /** The values sent in this cycle, by channel; a later core's replaces an earlier one's. */
  function SendsOf(ms: seq<Maybe<Message>>): map<Word, Word> {
    if ms == [] then map[]
    else
      var last, rest := ms[|ms| - 1], SendsOf(ms[..|ms| - 1]);
      if last.Just? && last.value.SendOn? then rest[last.value.channel := last.value.value] else rest
  }

  /** The channels received on in this cycle. */
  function ListenersOf(ms: seq<Maybe<Message>>): set<Word> {
    if ms == [] then {}
    else
      var last, rest := ms[|ms| - 1], ListenersOf(ms[..|ms| - 1]);
      if last.Just? && last.value.ReceiveOn? then rest + {last.value.channel} else rest
  }

  // ----- channels -----

  datatype Handled = Handled(sys: Sys, tasks: seq<Task>, reply: Maybe<Reply>)

  /** Handling a message moves no process and asks only for processes there are. */
  predicate Keeps(s: Sys, r: Sys, tasks: seq<Task>) {
    && Shaped(r) && r.running == s.running && r.states == s.states
    && r.cores == s.cores && r.cells == s.cells && r.registers == s.registers
    && forall t | t in tasks :: IsPid(s, t.pid)
  }

  function PutChannel(s: Sys, ch: nat, c: Channel): (r: Sys)
    ensures Shaped(s) && (c.pid == NO_PROCESS || IsPid(s, c.pid)) ==> Keeps(s, r, [])
  {
    s.(channels := s.channels[ch := c])
  }

  /** The value goes to the process: it is pushed, and recorded as received. */
  function Deliver(s: Sys, ch: nat, pid: nat, v: Word): (r: Sys)
    requires pid < |s.machines|
    ensures Shaped(s) ==> Keeps(s, r, [])
  {
    Took(s.(machines := s.machines[pid := Pushed(s.machines[pid], v)]), ch, v)
  }

  function Took(s: Sys, ch: nat, v: Word): (r: Sys)
    ensures Shaped(s) ==> Keeps(s, r, [])
  {
    if ch in s.history then
      s.(history := s.history[ch := s.history[ch].(received := s.history[ch].received + [v])])
    else s
  }

  function Gave(s: Sys, ch: nat, v: Word): (r: Sys)
    ensures Shaped(s) ==> Keeps(s, r, [])
  {
    if ch in s.history then
      s.(history := s.history[ch := s.history[ch].(sent := s.history[ch].sent + [v])])
    else s
  }

  function SendWord(s: Sys, ch: nat, v: Word, tx: nat): (h: Handled)
    requires Shaped(s) && ch in s.channels && IsPid(s, tx)
    ensures Keeps(s, h.sys, h.tasks)
  {
    var c, g := s.channels[ch], Gave(s, ch, v);
    if c.pid == NO_PROCESS then
      Handled(PutChannel(g, ch, Channel(tx, false, v)), [Deschedule(tx)], Just(SaveToMemory))
    else if c.inAlternation then
      var p := PutChannel(g, ch, Channel(tx, true, v));
      if c.pid !in s.alternationReady then
        Handled(p.(alternationReady := p.alternationReady + {c.pid}), [Schedule(c.pid), Deschedule(tx)], Just(SaveToMemory))
      else Handled(p, [Deschedule(tx)], Just(SaveToMemory))
    else
      Handled(PutChannel(Deliver(g, ch, c.pid, v), ch, Channel(NO_PROCESS, false, v)), [Schedule(c.pid)], Just(SaveToMemory))
  }

  function ReceiveWord(s: Sys, ch: nat, rx: nat): (h: Handled)
    requires Shaped(s) && ch in s.channels && IsPid(s, rx)
    ensures Keeps(s, h.sys, h.tasks)
  {
    var c := s.channels[ch];
    if c.pid == NO_PROCESS then
      Handled(PutChannel(s, ch, Channel(rx, false, c.value)), [Deschedule(rx)], Just(SaveToMemory))
    else
      Handled(PutChannel(Deliver(s, ch, rx, c.value), ch, Channel(NO_PROCESS, false, c.value)),
              [Schedule(c.pid)], Just(SaveToMemory))
  }

  function EnableOn(s: Sys, ch: nat, rx: nat): (h: Handled)
    requires Shaped(s) && ch in s.channels && IsPid(s, rx)
    ensures Keeps(s, h.sys, h.tasks)
  {
    var c := s.channels[ch];
    if c.pid == NO_PROCESS then Handled(PutChannel(s, ch, Channel(rx, true, c.value)), [], Nobody)
    else Handled(s.(alternationReady := s.alternationReady + {rx}), [], Nobody)
  }

  function DisableOn(s: Sys, ch: nat, rx: nat, destination: Word, hasValue: bool): (h: Handled)
    requires Shaped(s) && ch in s.channels && IsPid(s, rx)
    ensures Keeps(s, h.sys, h.tasks)
  {
    var c := s.channels[ch];
    if c.pid == NO_PROCESS then Handled(s, [], Nobody)
    else if c.pid == rx then Handled(PutChannel(s, ch, Channel(NO_PROCESS, false, c.value)), [], Nobody)
    else if !hasValue then
      Handled(PutChannel(Deliver(s, ch, rx, c.value), ch, Channel(NO_PROCESS, false, c.value)),
              [Schedule(c.pid)], Just(JumpTo(destination)))
    else Handled(s, [], Nobody)
  }

  /** Fresh blocks first, freed ones when there are no more. */
  function Alloc(h: Heap): Result<(nat, Heap)> {
    if h.end + CHANNEL_BYTES <= CELL_BYTES then Done((h.end, h.(end := h.end + CHANNEL_BYTES)))
    else if h.free != [] then Done((h.free[0], h.(free := h.free[1..])))
    else Fails
  }

  function MakeChannel(s: Sys): (r: Result<Handled>)
    requires Shaped(s)
    ensures r.Done? ==> Keeps(s, r.value.sys, r.value.tasks)
  {
    var (ch, h) :- Alloc(s.heap);
    if ch >= 0x1_0000 then Fails
    else
      Done(Handled(s.(heap := h, channels := s.channels[ch := Channel(NO_PROCESS, false, 0)],
                      history := s.history[ch := History([], [])]),
                   [], Just(CreatedChannel(ch))))
  }

  function FreeChannel(s: Sys, ch: nat): (h: Handled)
    requires Shaped(s)
    ensures Keeps(s, h.sys, h.tasks)
  {
    Handled(s.(channels := s.channels - {ch}, history := s.history - {ch}, heap := s.heap.(free := [ch] + s.heap.free)),
            [], Nobody)
  }

  // ----- processes -----

  /** The first dead process from `p` on. */
  function NewProcess(s: Sys, p: nat): (r: Result<nat>)
    requires Shaped(s) && s.cores <= p
    ensures r.Done? ==> IsPid(s, r.value) && s.states[r.value] == Dead && r.value >= p
    decreases s.cells - p
  {
    if p >= s.cells - 1 then Fails
    else if s.states[p] == Dead then Done(p)
    else NewProcess(s, p + 1)
  }

  function StartChild(s: Sys, pid: nat, pc: Word, words: Word): (r: Result<Handled>)
    requires Shaped(s) && IsPid(s, pid)
    ensures r.Done? ==> Keeps(s, r.value.sys, r.value.tasks)
  {
    var child :- NewProcess(s, s.cores);
    var stack := s.machines[pid].stack;
    if child == pid || words > |stack| then Fails
    else
      Done(Handled(s.(machines := s.machines[child := Machine(pc, stack[..words], [])]
                                            [pid := s.machines[pid].(stack := stack[words..])],
                      numbers := s.numbers[child := |s.numbers|]),
                   [Schedule(child)], Nobody))
  }

  // ----- the messages, core by core -----

  function Handle(s: Sys, pid: nat, m: Message, sends: map<Word, Word>, listeners: set<Word>): (r: Result<Handled>)
    requires Shaped(s) && IsPid(s, pid)
    ensures r.Done? ==> Keeps(s, r.value.sys, r.value.tasks)
  {
    match m
    case Nothing => Done(Handled(s, [], Nobody))
    case Yielded => Done(Handled(s, [Deschedule(pid)], Just(SaveToMemory)))
    case Halt => Done(Handled(s, [Destroy(pid)], Just(SaveToMemory)))
    case StartProcess(pc, words) => StartChild(s, pid, pc, words)
    case NewChannel => MakeChannel(s)
    case DeleteChannel(ch) => if ch in s.channels then Done(FreeChannel(s, ch)) else OffLimits
    case SendOn(ch, v) =>
      if ch !in s.channels then OffLimits
      else if ch in listeners then Done(Handled(Gave(s, ch, v), [], Nobody))
      else Done(SendWord(s, ch, v, pid))
    case ReceiveOn(ch) =>
      if ch !in s.channels then OffLimits
      else if ch in sends then Done(Handled(Took(s, ch, sends[ch]), [], Just(Received(ch, sends[ch]))))
      else Done(ReceiveWord(s, ch, pid))
    case StartAlternation => Done(Handled(s.(alternating := s.alternating + {pid}), [], Nobody))
    case WaitAlternation =>
      Done(Handled(s, if pid !in s.alternationReady then [Deschedule(pid)] else [], Nobody))
    case EndAlternation =>
      Done(Handled(s.(alternating := s.alternating - {pid}, alternationReady := s.alternationReady - {pid}), [], Nobody))
    case Enable(ch) => if ch in s.channels then Done(EnableOn(s, ch, pid)) else OffLimits
    case Disable(ch, destination, hasValue) =>
      if ch in s.channels then Done(DisableOn(s, ch, pid, destination, hasValue)) else OffLimits
  }

  datatype AllHandled = AllHandled(sys: Sys, tasks: seq<Task>, replies: seq<Maybe<Reply>>)

  function HandleCores(s: Sys, ms: seq<Maybe<Message>>, k: nat): (r: Result<AllHandled>)
    requires Shaped(s) && k <= |ms| == s.cores
    requires forall c | 0 <= c < |ms| :: ms[c].Just? <==> c in s.running
    ensures r.Done? ==> Keeps(s, r.value.sys, r.value.tasks) && |r.value.replies| == k
  {
    if k == 0 then Done(AllHandled(s, [], []))
    else
      var a :- HandleCores(s, ms, k - 1);
      if ms[k - 1] == Nobody then Done(a.(replies := a.replies + [Nobody]))
      else
        var h :- Handle(a.sys, s.running[k - 1], ms[k - 1].value, SendsOf(ms), ListenersOf(ms));
        Done(AllHandled(h.sys, a.tasks + h.tasks, a.replies + [h.reply]))
  }

  function Answer(s: Sys, core: nat, r: Reply): (t: Sys)
    requires Shaped(s) && core in s.running
    ensures Shaped(t) && t == s.(machines := t.machines, registers := t.registers)
  {
    var pid := s.running[core];
    match r
    case SaveToMemory => s
    case CreatedChannel(ch) => s.(machines := s.machines[pid := Pushed(s.machines[pid], ch)])
    case Received(_, v) =>
      s.(machines := s.machines[pid := Pushed(s.machines[pid], v)],
         registers := s.registers[core := s.registers[core].(hasAlternationValue := true)])
    case JumpTo(pc) => s.(machines := s.machines[pid := s.machines[pid].(pc := pc)])
  }

  function AnswerCores(s: Sys, replies: seq<Maybe<Reply>>, k: nat): (r: Sys)
    requires Shaped(s) && k <= |replies| == s.cores
    requires forall c | 0 <= c < |replies| :: replies[c].Just? ==> c in s.running
    ensures Shaped(r) && r == s.(machines := r.machines, registers := r.registers)
  {
    if k == 0 then s
    else
      var a := AnswerCores(s, replies, k - 1);
      if replies[k - 1] == Nobody then a else Answer(a, k - 1, replies[k - 1].value)
  }

  // ----- the scheduler -----

  /** What the scheduler changes; `idle` lists the cores without a process, last to be used first. */
  datatype Placed = Placed(states: seq<ProcessState>, running: map<nat, nat>, idle: seq<nat>)

  /** The cores without a process, in order. */
  function IdleCores(running: map<nat, nat>, k: nat): seq<nat> {
    if k == 0 then [] else IdleCores(running, k - 1) + (if k - 1 in running then [] else [k - 1])
  }

  function SetState(p: Placed, pid: nat, state: ProcessState): (q: Placed)
    requires pid < |p.states|
    ensures |q.states| == |p.states|
  {
    Placed(p.states[pid := state], if state.Running? then p.running[state.core := pid] else p.running, p.idle)
  }

  /** Takes the process off its core, if it is on one. */
  function Remove(p: Placed, pid: nat, state: ProcessState): (q: Placed)
    requires pid < |p.states|
    ensures |q.states| == |p.states|
  {
    var before := p.states[pid];
    if before.Running? then
      SetState(Placed(p.states, p.running - {before.core}, p.idle + [before.core]), pid, state)
    else SetState(p, pid, state)
  }

  function RemoveTask(p: Placed, t: Task): (q: Placed)
    requires t.pid < |p.states|
    ensures |q.states| == |p.states|
  {
    if t.Schedule? then p else Remove(p, t.pid, if t.Destroy? then Dead else Inactive)
  }

  function RemoveTasks(p: Placed, tasks: seq<Task>, k: nat): (r: Placed)
    requires k <= |tasks| && forall t | t in tasks :: t.pid < |p.states|
    ensures |r.states| == |p.states|
  {
    if k == 0 then p else RemoveTask(RemoveTasks(p, tasks, k - 1), tasks[k - 1])
  }

  /** The value stacks of the processes that end, by the order they were started in. */
  function FinalStacks(s: Sys, tasks: seq<Task>, k: nat): Result<map<nat, seq<Word>>>
    requires k <= |tasks| && forall t | t in tasks :: t.pid < |s.machines|
  {
    if k == 0 then Done(s.finals)
    else
      var finals :- FinalStacks(s, tasks, k - 1);
      var t := tasks[k - 1];
      if !t.Destroy? then Done(finals)
      else if t.pid !in s.numbers then Fails
      else Done(finals[s.numbers[t.pid] := s.machines[t.pid].stack])
  }

  /** Gives the process the last idle core, or has it wait. */
  function Place(p: Placed, pid: nat): (q: Placed)
    requires pid < |p.states|
    ensures |q.states| == |p.states|
  {
    if p.idle != [] then
      SetState(p.(idle := p.idle[..|p.idle| - 1]), pid, Running(p.idle[|p.idle| - 1]))
    else SetState(p, pid, Waiting)
  }

  function PlaceTasks(p: Placed, tasks: seq<Task>, k: nat): (r: Placed)
    requires k <= |tasks| && forall t | t in tasks :: t.pid < |p.states|
    ensures |r.states| == |p.states|
  {
    if k == 0 then p
    else
      var q := PlaceTasks(p, tasks, k - 1);
      if tasks[k - 1].Schedule? && !q.states[tasks[k - 1].pid].Running? then Place(q, tasks[k - 1].pid) else q
  }

  /** Idle cores take the processes from `first` to below `n` that still wait, in order. */
  function PlaceWaiting(p: Placed, first: nat, n: nat): (r: Placed)
    requires n <= |p.states|
    ensures |r.states| == |p.states|
  {
    if n <= first then p
    else
      var q := PlaceWaiting(p, first, n - 1);
      if q.idle != [] && q.states[n - 1] == Waiting then Place(q, n - 1) else q
  }

  // ----- the tick -----

  datatype Cycle = Cycle(sys: Sys, halted: bool)

  function Scheduled(p: Placed, tasks: seq<Task>, first: nat): Placed
    requires |p.states| >= 1 && forall t | t in tasks :: t.pid < |p.states|
  {
    PlaceWaiting(PlaceTasks(RemoveTasks(p, tasks, |tasks|), tasks, |tasks|), first, |p.states| - 1)
  }

  function ScheduleAll(s: Sys, tasks: seq<Task>): Result<Sys>
    requires Shaped(s) && forall t | t in tasks :: IsPid(s, t.pid)
  {
    assert forall t | t in tasks :: IsPid(s, t.pid) ==> t.pid < |s.states|;
    var finals :- FinalStacks(s, tasks, |tasks|);
    var p := Scheduled(Placed(s.states, s.running, IdleCores(s.running, s.cores)), tasks, s.cores);
    Done(s.(states := p.states, running := p.running, finals := finals))
  }

  function Exchange(s: Sys, ms: seq<Maybe<Message>>): (r: Result<AllHandled>)
    requires Shaped(s) && |ms| == s.cores
    requires forall c | 0 <= c < |ms| :: ms[c].Just? <==> c in s.running
    ensures r.Done? ==>
              && Shaped(r.value.sys) && r.value.sys.running == s.running && r.value.sys.states == s.states
              && r.value.sys.cores == s.cores && r.value.sys.cells == s.cells
              && forall t | t in r.value.tasks :: IsPid(r.value.sys, t.pid)
  {
    var a :- HandleCores(s, ms, s.cores);
    RepliesAreFromRunning(s, ms, s.cores);
    Done(a.(sys := AnswerCores(a.sys, a.replies, s.cores)))
  }

  lemma {:induction false} RepliesAreFromRunning(s: Sys, ms: seq<Maybe<Message>>, k: nat)
    requires Shaped(s) && k <= |ms| == s.cores
    requires forall c | 0 <= c < |ms| :: ms[c].Just? <==> c in s.running
    ensures var r := HandleCores(s, ms, k);
            r.Done? ==> forall c | 0 <= c < k :: r.value.replies[c].Just? ==> c in s.running
  {
    if k > 0 {
      RepliesAreFromRunning(s, ms, k - 1);
    }
  }

  lemma {:induction false} MessagesAreFromRunning(s: Sys, run: CoreFunction, k: nat)
    requires Shaped(s) && k <= s.cores
    ensures var r := ExecuteCores(s, run, k);
            r.Done? ==> forall c | 0 <= c < k :: r.value.messages[c].Just? <==> c in s.running
  {
    if k > 0 {
      MessagesAreFromRunning(s, run, k - 1);
    }
  }

  function TickAll(s: Sys, run: CoreFunction): Result<Cycle>
    requires Shaped(s)
  {
    var e :- ExecuteCores(s, run, s.cores);
    MessagesAreFromRunning(s, run, s.cores);
    var a :- Exchange(e.sys, e.messages);
    var t :- ScheduleAll(a.sys, a.tasks);
    Done(Cycle(t, t.running == map[]))
  }
}
