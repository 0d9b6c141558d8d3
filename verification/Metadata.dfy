/**
 * The last memory cell: a byte for the state of each process, then four bytes for each channel. The
 * bytes represent the two maps of the processor's model, each on its own.
 */
module Metadata {
  import opened Wrappers
  import opened Isa
  import opened WordMemory
  import opened ProcessorModel
  import Blocks = Heap

  // ----- the encodings -----

  function EncodeState(s: ProcessState): Byte {
    match s
    case Dead => 0
    case Inactive => 1
    case Running(core) => 4 * (core % 64) + 2
    case Waiting => 3
  }

  function DecodeState(b: Byte): ProcessState {
    if b % 4 == 0 then Dead
    else if b % 4 == 1 then Inactive
    else if b % 4 == 2 then Running(b / 4)
    else Waiting
  }

  /** Six bits hold the core, so a state survives its encoding exactly when its core is below 64. */
  lemma StateRoundTrip(s: ProcessState)
    ensures DecodeState(EncodeState(s)) == s <==> (s.Running? ==> s.core < 64)
    ensures s.Running? ==> DecodeState(EncodeState(s)) == Running(s.core % 64)
  {
  }

  /** The states by their bytes: memory full of zeros is a memory full of dead processes. */
  lemma StatesByByte(b: Byte)
    ensures DecodeState(b) == Dead <==> b % 4 == 0
    ensures DecodeState(b) == Inactive <==> b % 4 == 1
    ensures DecodeState(b).Running? <==> b % 4 == 2
    ensures DecodeState(b) == Waiting <==> b % 4 == 3
    ensures b % 4 == 2 ==> 4 * DecodeState(b).core + 2 == b && EncodeState(DecodeState(b)) == b
    ensures b < 4 ==> EncodeState(DecodeState(b)) == b
  {
  }

  /** The top bit of a channel's first word says that the process waits in alternation. */
  function EncodeProcess(pid: nat, inAlternation: bool): Word
    requires pid < 0x8000
  {
    if inAlternation then pid + 0x8000 else pid
  }

  function DecodePid(w: Word): nat {
    if w >= 0x8000 then w - 0x8000 else w
  }

  function DecodeAlternation(w: Word): bool {
    w >= 0x8000
  }

  lemma ProcessRoundTrip(pid: nat, inAlternation: bool)
    requires pid < 0x8000
    ensures DecodePid(EncodeProcess(pid, inAlternation)) == pid
    ensures DecodeAlternation(EncodeProcess(pid, inAlternation)) == inAlternation
  {
  }

  // ----- the two maps -----

  predicate Holds(m: Memory, ch: nat, c: Channel)
    requires ch + 3 < |m|
  {
    && DecodePid(WordAt(m, ch)) == c.pid && DecodeAlternation(WordAt(m, ch)) == c.inAlternation
    && WordAt(m, ch + 2) == c.value
  }

  /** Channels are four-byte blocks above the states, and do not overlap. */
  predicate Laid(cells: nat, channels: map<nat, Channel>) {
    && (forall ch | ch in channels :: cells <= ch && ch + CHANNEL_BYTES <= CELL_BYTES)
    && (forall a, b | a in channels && b in channels && a != b :: a + CHANNEL_BYTES <= b || b + CHANNEL_BYTES <= a)
  }

  ghost predicate Represents(m: Memory, cells: nat, states: seq<ProcessState>, channels: map<nat, Channel>) {
    && |m| == CELL_BYTES && cells % 2 == 0 && |states| == cells <= CELL_BYTES
    && (forall p | 0 <= p < cells :: DecodeState(m[p]) == states[p])
    && Laid(cells, channels) && forall ch | ch in channels :: Holds(m, ch, channels[ch])
  }

  /** Writing a state changes that state only: no other state, and no channel. */
  lemma StateWritten(m: Memory, cells: nat, states: seq<ProcessState>, channels: map<nat, Channel>, pid: nat, s: ProcessState)
    requires Represents(m, cells, states, channels) && pid < cells && (s.Running? ==> s.core < 64)
    ensures WriteByte(m, pid, EncodeState(s)) == Some(m[pid := EncodeState(s)])
    ensures Represents(m[pid := EncodeState(s)], cells, states[pid := s], channels)
  {
    EvenCells(cells, pid);
    WriteByteIsUpdate(m, pid, EncodeState(s));
    StateRoundTrip(s);
  }

  lemma EvenCells(cells: nat, pid: nat)
    requires cells % 2 == 0 && pid < cells <= CELL_BYTES
    ensures pid % 2 == 1 || pid + 1 < cells
  {
  }

  lemma StateRead(m: Memory, cells: nat, states: seq<ProcessState>, channels: map<nat, Channel>, pid: nat)
    requires Represents(m, cells, states, channels) && pid < cells
    ensures ReadByte(m, pid).Some? && DecodeState(ReadByte(m, pid).value) == states[pid]
  {
    ReadByteIsIndexing(m, pid);
  }

  /** A word of a channel's block, written. */
  lemma ChannelFrame(m: Memory, cells: nat, states: seq<ProcessState>, channels: map<nat, Channel>, ch: nat, a: nat, w: Word)
    requires Represents(m, cells, states, channels) && cells <= ch && ch + CHANNEL_BYTES <= CELL_BYTES
    requires a == ch || a == ch + 2
    requires forall x | x in channels && x != ch :: x + CHANNEL_BYTES <= ch || ch + CHANNEL_BYTES <= x
    ensures var r := PutWord(m, a, w);
            && Represents(r, cells, states, channels - {ch})
            && WordAt(r, ch) == (if a == ch then w else WordAt(m, ch))
            && WordAt(r, ch + 2) == (if a == ch then WordAt(m, ch + 2) else w)
  {
    var r := PutWord(m, a, w);
    forall x | x in channels && x != ch ensures Holds(r, x, channels[x]) {
      assert Holds(m, x, channels[x]);
      ApartFrame(m, a, w, x);
      ApartFrame(m, a, w, x + 2);
    }
    ReadBack(m, a, w);
    ApartFrame(m, a, w, if a == ch then ch + 2 else ch);
  }

  lemma KeysGrow(channels: map<nat, Channel>, ch: nat, c: Channel)
    ensures channels[ch := c].Keys == channels.Keys + {ch}
  {
  }

  lemma NothingRemoved(channels: map<nat, Channel>, ch: nat)
    requires ch !in channels
    ensures channels - {ch} == channels
  {
  }

  lemma ChannelAdded(r: Memory, cells: nat, states: seq<ProcessState>, rest: map<nat, Channel>, more: map<nat, Channel>, ch: nat)
    requires Represents(r, cells, states, rest) && Laid(cells, more) && ch + 3 < |r|
    requires ch in more && Holds(r, ch, more[ch]) && forall x | x in more && x != ch :: x in rest && rest[x] == more[x]
    ensures Represents(r, cells, states, more)
  {
    forall x | x in more ensures x + 3 < |r| && Holds(r, x, more[x]) {
      if x != ch { assert Holds(r, x, rest[x]); }
    }
  }

  /** Writing who waits in a channel changes that channel's process only. */
  lemma ProcessWritten(m: Memory, cells: nat, states: seq<ProcessState>, channels: map<nat, Channel>, ch: nat, pid: nat, alternates: bool)
    requires Represents(m, cells, states, channels) && ch in channels && pid < 0x8000
    ensures Represents(PutWord(m, ch, EncodeProcess(pid, alternates)), cells, states,
                       channels[ch := Channel(pid, alternates, channels[ch].value)])
  {
    assert Holds(m, ch, channels[ch]);
    ChannelFrame(m, cells, states, channels, ch, ch, EncodeProcess(pid, alternates));
    ProcessRoundTrip(pid, alternates);
    ChannelAdded(PutWord(m, ch, EncodeProcess(pid, alternates)), cells, states, channels - {ch},
                 channels[ch := Channel(pid, alternates, channels[ch].value)], ch);
  }

  /** Writing a channel's value changes that value only. */
  lemma ValueWritten(m: Memory, cells: nat, states: seq<ProcessState>, channels: map<nat, Channel>, ch: nat, v: Word)
    requires Represents(m, cells, states, channels) && ch in channels
    ensures Represents(PutWord(m, ch + 2, v), cells, states, channels[ch := channels[ch].(value := v)])
  {
    assert Holds(m, ch, channels[ch]);
    ChannelFrame(m, cells, states, channels, ch, ch + 2, v);
  }

  lemma ChannelRead(m: Memory, cells: nat, states: seq<ProcessState>, channels: map<nat, Channel>, ch: nat)
    requires Represents(m, cells, states, channels) && ch in channels && ch % 2 == 0
    ensures ReadWord(m, ch).Some? && ReadWord(m, ch + 2) == Some(channels[ch].value)
    ensures DecodePid(ReadWord(m, ch).value) == channels[ch].pid
    ensures DecodeAlternation(ReadWord(m, ch).value) == channels[ch].inAlternation
  {
    assert Holds(m, ch, channels[ch]);
  }

  // ----- with the heap -----

  /** The heap of the metadata cell: its live blocks are the channels, its list the model's list. */
  ghost predicate HeapOf(h: Blocks.Fields, m: Memory, cells: nat, channels: map<nat, Channel>, heap: Heap, n: nat) {
    && Blocks.Sound(h, m, channels.Keys, heap.free, n) && heap.end == h.end
    && h.base == cells < CELL_BYTES && h.max == CELL_BYTES && h.size == CHANNEL_BYTES
  }

  /** Channels stand at even addresses above the states. */
  lemma ChannelPlace(h: Blocks.Fields, m: Memory, cells: nat, channels: map<nat, Channel>, heap: Heap, n: nat, ch: nat)
    requires HeapOf(h, m, cells, channels, heap, n) && ch in channels
    ensures cells <= ch && ch % 2 == 0 && (ch + 2) % 2 == 0 && ch + CHANNEL_BYTES <= CELL_BYTES
  {
    Blocks.BlockBounds(h, n, ch);
    Blocks.BlockIn(h, n, ch);
    var i :| 0 <= i < n && ch == Blocks.Block(h, i);
    Blocks.BlocksEven(h, i);
  }

  /** The heap lays channels out as the representation demands. */
  lemma HeapLays(h: Blocks.Fields, m: Memory, cells: nat, channels: map<nat, Channel>, heap: Heap, n: nat)
    requires HeapOf(h, m, cells, channels, heap, n)
    ensures Laid(cells, channels)
  {
    forall ch | ch in channels ensures cells <= ch && ch + CHANNEL_BYTES <= CELL_BYTES {
      ChannelPlace(h, m, cells, channels, heap, n, ch);
    }
    forall a, b | a in channels && b in channels && a != b
      ensures a + CHANNEL_BYTES <= b || b + CHANNEL_BYTES <= a
    {
      Blocks.BlocksDisjoint(h, n, a, b);
    }
  }

  /** Writes to states and to channels leave the heap's list alone. */
  lemma HeapFrame(h: Blocks.Fields, m: Memory, cells: nat, channels: map<nat, Channel>, heap: Heap, n: nat, r: Memory)
    requires HeapOf(h, m, cells, channels, heap, n) && |r| == |m|
    requires forall x | 0 <= x < |m| && m[x] != r[x] :: x < cells || exists ch :: ch in channels && ch <= x < ch + CHANNEL_BYTES
    ensures HeapOf(h, r, cells, channels, heap, n)
  {
    Blocks.WritesKeepSound(h, m, channels.Keys, heap.free, n, r);
  }

  lemma HeapFrameWord(h: Blocks.Fields, m: Memory, cells: nat, channels: map<nat, Channel>, heap: Heap, n: nat, ch: nat, a: nat, w: Word, after: map<nat, Channel>)
    requires HeapOf(h, m, cells, channels, heap, n) && ch in channels && (a == ch || a == ch + 2) && a + 1 < |m|
    requires after.Keys == channels.Keys
    ensures HeapOf(h, PutWord(m, a, w), cells, after, heap, n)
  {
    var r := PutWord(m, a, w);
    forall x | 0 <= x < |m| && m[x] != r[x] ensures x < cells || exists b :: b in channels && b <= x < b + CHANNEL_BYTES {
      assert ch in channels && ch <= x < ch + CHANNEL_BYTES;
    }
    HeapFrame(h, m, cells, channels, heap, n, r);
  }

  /** The processor model's allocator is the heap's: same block, same failure. */
  lemma AllocAgrees(h: Blocks.Fields, m: Memory, cells: nat, channels: map<nat, Channel>, heap: Heap, n: nat)
      returns (rest: seq<nat>, k: nat)
    requires HeapOf(h, m, cells, channels, heap, n)
    ensures var a, b := Alloc(heap), Blocks.Allocated(h, m);
            && (a.Done? <==> b.Some?)
            && (a.Done? ==> a.value.0 == b.value.0 && a.value.0 !in channels && a.value.1.free == rest &&
                            a.value.1.end == b.value.1.end &&
                            Blocks.Sound(b.value.1, m, channels.Keys + {a.value.0}, rest, k))
  {
    rest, k := Blocks.AllocIsSound(h, m, channels.Keys, heap.free, n);
    Blocks.RoomExactly(h, n);
    Blocks.Counted(h, channels.Keys, heap.free, n);
  }

  /** Which block it is: a fresh one while there is room, then the last freed one. */
  lemma AllocIs(h: Blocks.Fields, m: Memory, cells: nat, channels: map<nat, Channel>, heap: Heap, n: nat, r: Option<Word>, end: nat, rest: seq<nat>)
    requires HeapOf(h, m, cells, channels, heap, n)
    requires r.None? <==> |channels.Keys| == Blocks.Capacity(h)
    requires r.Some? ==>
               if n < Blocks.Capacity(h) then r.value == h.end && rest == heap.free && end == h.end + h.size
               else heap.free != [] && r.value as nat == heap.free[0] && rest == heap.free[1..] && end == h.end
    ensures r.None? ==> Alloc(heap).Fails?
    ensures r.Some? ==> Alloc(heap) == Done((r.value as nat, Heap(end, rest)))
  {
    Blocks.RoomExactly(h, n);
    Blocks.Counted(h, channels.Keys, heap.free, n);
  }

  /** Every channel there can be is in use exactly when making another fails. */
  lemma MakingFailsWhenFull(h: Blocks.Fields, m: Memory, cells: nat, channels: map<nat, Channel>, heap: Heap, n: nat)
    requires HeapOf(h, m, cells, channels, heap, n)
    ensures Alloc(heap).Fails? <==> |channels| == (CELL_BYTES - cells) / CHANNEL_BYTES
  {
    var rest, k := Blocks.AllocIsSound(h, m, channels.Keys, heap.free, n);
    Blocks.RoomExactly(h, n);
    Blocks.Counted(h, channels.Keys, heap.free, n);
    assert |channels| == |channels.Keys|;
  }

  /** A block that is no channel yet: nobody waits in it. */
  lemma ProcessCleared(m: Memory, cells: nat, states: seq<ProcessState>, channels: map<nat, Channel>, ch: nat, more: map<nat, Channel>)
    requires Represents(m, cells, states, channels) && ch !in channels
    requires more == channels[ch := Channel(NO_PROCESS, false, 0)] && Laid(cells, more)
    ensures ch + 3 < |m| && WordAt(PutWord(m, ch, NO_PROCESS), ch) == NO_PROCESS
    ensures Represents(PutWord(m, ch, NO_PROCESS), cells, states, channels)
  {
    assert ch in more;
    NothingRemoved(channels, ch);
    forall x | x in channels ensures x + CHANNEL_BYTES <= ch || ch + CHANNEL_BYTES <= x {
      assert x in more;
    }
    ChannelFrame(m, cells, states, channels, ch, ch, NO_PROCESS);
  }

  lemma ValueCleared(m: Memory, cells: nat, states: seq<ProcessState>, channels: map<nat, Channel>, ch: nat)
    requires Represents(m, cells, states, channels) && ch !in channels && ch + 3 < |m| && WordAt(m, ch) == NO_PROCESS
    requires cells <= ch && ch + CHANNEL_BYTES <= CELL_BYTES
    requires forall x | x in channels && x != ch :: x + CHANNEL_BYTES <= ch || ch + CHANNEL_BYTES <= x
    ensures Represents(PutWord(m, ch + 2, 0), cells, states, channels)
    ensures WordAt(PutWord(m, ch + 2, 0), ch) == NO_PROCESS && WordAt(PutWord(m, ch + 2, 0), ch + 2) == 0
  {
    NothingRemoved(channels, ch);
    ChannelFrame(m, cells, states, channels, ch, ch + 2, 0);
  }

  /** And with its value cleared too, it is a channel. */
  lemma ChannelMade(m: Memory, cells: nat, states: seq<ProcessState>, channels: map<nat, Channel>, ch: nat, more: map<nat, Channel>)
    requires Represents(m, cells, states, channels) && ch !in channels && ch + 3 < |m| && WordAt(m, ch) == NO_PROCESS
    requires more == channels[ch := Channel(NO_PROCESS, false, 0)] && Laid(cells, more)
    ensures Represents(PutWord(m, ch + 2, 0), cells, states, more)
  {
    assert ch in more;
    forall x | x in channels ensures x + CHANNEL_BYTES <= ch || ch + CHANNEL_BYTES <= x {
      assert x in more;
    }
    ValueCleared(m, cells, states, channels, ch);
    ChannelAdded(PutWord(m, ch + 2, 0), cells, states, channels, more, ch);
  }

  /** What making a channel comes to, by what the heap hands out. */
  lemma MakingIs(s: Sys, ch: nat, heap: Heap)
    requires Shaped(s) && Alloc(s.heap) == Done((ch, heap)) && ch < 0x1_0000
    ensures MakeChannel(s) ==
            Done(Handled(s.(heap := heap, channels := s.channels[ch := Channel(NO_PROCESS, false, 0)],
                            history := s.history[ch := History([], [])]), [], Just(CreatedChannel(ch))))
  {
  }

  /** Freeing a channel writes the list's link in its first word. */
  lemma FreeKeeps(m: Memory, cells: nat, states: seq<ProcessState>, channels: map<nat, Channel>, ch: nat, head: Word)
    requires Represents(m, cells, states, channels) && ch in channels
    ensures ch + 3 < |m| && Represents(PutWord(m, ch, head), cells, states, channels - {ch})
  {
    ChannelFrame(m, cells, states, channels, ch, ch, head);
  }

  lemma FreeIs(h: Blocks.Fields, m: Memory, cells: nat, channels: map<nat, Channel>, heap: Heap, n: nat, ch: Word)
    requires HeapOf(h, m, cells, channels, heap, n) && ch as nat in channels
    ensures ch + 1 < |m|
    ensures HeapOf(h.(head := ch), PutWord(m, ch, h.head), cells, channels - {ch as nat}, heap.(free := [ch as nat] + heap.free), n)
  {
    Blocks.FreeIsSound(h, m, channels.Keys, heap.free, n, ch);
    KeysShrink(channels, ch);
  }

  /** Deleting a channel is freeing its block: the bytes with the link in them hold the channels that are left. */
  lemma DeletingFrees(s: Sys, ch: Word, h: Blocks.Fields, m: Memory, n: nat)
    requires Shaped(s) && ch as nat in s.channels
    requires Represents(m, s.cells, s.states, s.channels) && HeapOf(h, m, s.cells, s.channels, s.heap, n)
    ensures var t, freed := FreeChannel(s, ch).sys, Blocks.Freed(h, m, ch);
            && freed.Some? && t.states == s.states && t.machines == s.machines
            && Represents(freed.value.1, t.cells, t.states, t.channels)
            && HeapOf(freed.value.0, freed.value.1, t.cells, t.channels, t.heap, n)
  {
    FreeIs(h, m, s.cells, s.channels, s.heap, n, ch);
    FreeKeeps(m, s.cells, s.states, s.channels, ch, h.head);
    ChannelPlace(h, m, s.cells, s.channels, s.heap, n, ch);
  }

  lemma KeysShrink(channels: map<nat, Channel>, ch: nat)
    ensures (channels - {ch}).Keys == channels.Keys - {ch}
  {
  }
}
