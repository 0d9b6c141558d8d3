/**
 * The allocator of channels: blocks of one size, handed out by a bump pointer while there is room and
 * from a list threaded through the freed blocks after that.
 */
module Heap {
  import opened Wrappers
  import opened Isa
  import opened WordMemory
  import opened CellObject

  /** `head` is the last freed block, or 0. */
  datatype Fields = Fields(base: Word, end: Word, max: Word, head: Word, size: Word)

  function Unused(base: Word, max: Word, size: Word): Fields {
    Fields(base, base, max, 0, size)
  }

  /** The address handed out, and the fields after. */
  function Allocated(h: Fields, m: Memory): Option<(Word, Fields)>
    requires h.max + h.size < 0x1_0000 && h.end <= 0x1_0000 - 1 - h.size
  {
    if h.end + h.size <= h.max then Some((h.end, h.(end := h.end + h.size)))
    else if h.head != 0 then
      var next :- ReadWord(m, h.head);
      Some((h.head, h.(head := next)))
    else None
  }

  function Freed(h: Fields, m: Memory, a: Word): Option<(Fields, Memory)> {
    var written :- WriteWord(m, a, h.head);
    Some((h.(head := a), written))
  }

  // ----- blocks -----

  /** The address of the `i`-th block. */
  function Block(h: Fields, i: nat): nat {
    if i == 0 then h.base else Block(h, i - 1) + h.size
  }

  lemma {:induction false} BlockAt(h: Fields, i: nat)
    ensures Block(h, i) == h.base + i * h.size
  {
    if i > 0 {
      BlockAt(h, i - 1);
      assert i * h.size == (i - 1) * h.size + h.size;
    }
  }

  function Blocks(h: Fields, n: nat): set<nat> {
    if n == 0 then {} else Blocks(h, n - 1) + {Block(h, n - 1)}
  }

  /** How many blocks there can ever be. */
  function Capacity(h: Fields): nat
    requires h.size > 0
  {
    if h.base <= h.max then (h.max - h.base) / h.size else 0
  }

  lemma {:induction false} BlocksApart(h: Fields, i: nat, j: nat)
    requires i < j
    ensures Block(h, i) + h.size <= Block(h, j)
  {
    if i < j - 1 { BlocksApart(h, i, j - 1); }
  }

  lemma {:induction false} BlockIsIn(h: Fields, n: nat, i: nat)
    requires i < n
    ensures Block(h, i) in Blocks(h, n)
  {
    if i < n - 1 { BlockIsIn(h, n - 1, i); }
  }

  lemma {:induction false} WhichBlock(h: Fields, n: nat, a: nat) returns (i: nat)
    requires a in Blocks(h, n)
    ensures i < n && a == Block(h, i)
  {
    if a == Block(h, n - 1) {
      i := n - 1;
    } else {
      i := WhichBlock(h, n - 1, a);
    }
  }

  lemma BlockIn(h: Fields, n: nat, a: nat)
    requires h.size > 0
    ensures a in Blocks(h, n) <==> exists i :: 0 <= i < n && a == Block(h, i)
    ensures |Blocks(h, n)| == n
  {
    if a in Blocks(h, n) {
      var i := WhichBlock(h, n, a);
    }
    forall i | 0 <= i < n ensures Block(h, i) in Blocks(h, n) {
      BlockIsIn(h, n, i);
    }
    BlocksAreMany(h, n);
  }

  lemma {:induction false} BlocksAreMany(h: Fields, n: nat)
    requires h.size > 0
    ensures |Blocks(h, n)| == n
  {
    if n > 0 {
      BlocksAreMany(h, n - 1);
      if Block(h, n - 1) in Blocks(h, n - 1) {
        var i := WhichBlock(h, n - 1, Block(h, n - 1));
        BlocksApart(h, i, n - 1);
      }
    }
  }

  lemma {:induction false} BlocksEven(h: Fields, i: nat)
    requires h.base % 2 == 0 && h.size % 2 == 0
    ensures Block(h, i) % 2 == 0
  {
    if i > 0 {
      BlocksEven(h, i - 1);
      assert Block(h, i) == Block(h, i - 1) + h.size;
    }
  }

  /** Different blocks share no byte. */
  lemma BlocksDisjoint(h: Fields, n: nat, a: nat, b: nat)
    requires h.size > 0 && a in Blocks(h, n) && b in Blocks(h, n) && a != b
    ensures a + h.size <= b || b + h.size <= a
  {
    BlockIn(h, n, a);
    BlockIn(h, n, b);
    var i :| 0 <= i < n && a == Block(h, i);
    var j :| 0 <= j < n && b == Block(h, j);
    if i < j { BlocksApart(h, i, j); } else { BlocksApart(h, j, i); }
  }

  lemma BlockBounds(h: Fields, n: nat, a: nat)
    requires h.size > 0 && a in Blocks(h, n)
    ensures h.base <= a && a + h.size <= Block(h, n)
  {
    BlockIn(h, n, a);
    var i :| 0 <= i < n && a == Block(h, i);
    BlocksApart(h, i, n);
    if i > 0 { BlocksApart(h, 0, i); }
  }

  /** There is room for one more block exactly below capacity. */
  lemma RoomExactly(h: Fields, n: nat)
    requires h.size > 0 && (n == 0 || Block(h, n) <= h.max)
    ensures n <= Capacity(h) && (Block(h, n) + h.size <= h.max <==> n < Capacity(h))
  {
    BlockAt(h, n);
    if n > 0 { BlocksApart(h, 0, n); }
    if h.base <= h.max {
      var room: int := h.max - h.base;
      var q: int := room / h.size;
      assert room == q * h.size + room % h.size;
      if n > q {
        assert n * h.size >= (q + 1) * h.size by { Scales(h.size, q + 1, n); }
      }
      if n < q {
        assert (n + 1) * h.size <= q * h.size by { Scales(h.size, n + 1, q); }
      }
    }
  }

  lemma Scales(k: nat, a: nat, b: nat)
    requires a <= b
    ensures a * k <= b * k
  {
    assert b * k == a * k + (b - a) * k;
  }

  // ----- the list in the freed blocks -----

  /** Starting at `head`, the words in the listed blocks lead through them all and end with 0. */
  predicate Threads(m: Memory, head: Word, listed: seq<nat>)
    decreases |listed|
  {
    if listed == [] then head == 0
    else head == listed[0] && head != 0 && head % 2 == 0 && head + 1 < |m| && Threads(m, WordAt(m, head), listed[1..])
  }

  /** The list ends, so it has no cycle: no block is on it twice. */
  lemma {:induction false} ListHasNoCycle(m: Memory, head: Word, listed: seq<nat>, i: nat, j: nat)
    requires Threads(m, head, listed) && i < j < |listed|
    ensures listed[i] != listed[j]
    decreases |listed|
  {
    if listed[i] == listed[j] {
      SameTail(m, head, listed, i);
      SameTail(m, head, listed, j);
      SameList(m, WordAt(m, listed[i]), listed[i + 1..], listed[j + 1..]);
    }
  }

  lemma {:induction false} SameTail(m: Memory, head: Word, listed: seq<nat>, i: nat)
    requires Threads(m, head, listed) && i < |listed|
    ensures 0 < listed[i] < 0x1_0000 && listed[i] + 1 < |m| && Threads(m, WordAt(m, listed[i]), listed[i + 1..])
    ensures listed[i] % 2 == 0
    decreases |listed|
  {
    if i > 0 {
      SameTail(m, WordAt(m, head), listed[1..], i - 1);
      assert listed[1..][i - 1 + 1..] == listed[i + 1..];
    }
  }

  lemma {:induction false} SameList(m: Memory, head: Word, a: seq<nat>, b: seq<nat>)
    requires Threads(m, head, a) && Threads(m, head, b)
    ensures a == b
    decreases |a|
  {
    if a != [] {
      SameList(m, WordAt(m, head), a[1..], b[1..]);
      assert a == [a[0]] + a[1..] && b == [b[0]] + b[1..];
    }
  }

  /** Memory may change anywhere but in the listed words. */
  lemma {:induction false} ThreadFrame(m: Memory, r: Memory, head: Word, listed: seq<nat>)
    requires Threads(m, head, listed) && |r| == |m|
    requires forall a | a in listed && a + 1 < |m| :: m[a] == r[a] && m[a + 1] == r[a + 1]
    ensures Threads(r, head, listed)
    decreases |listed|
  {
    if listed != [] {
      assert listed[0] in listed && forall a | a in listed[1..] :: a in listed;
      ThreadFrame(m, r, WordAt(m, head), listed[1..]);
    }
  }

  // ----- what every run keeps -----

  /** What the constructor demands, with the arithmetic inside 16 bits. */
  predicate Proper(h: Fields, m: Memory) {
    && h.base != h.max && h.size >= 2 && h.max + h.size < 0x1_0000 && h.base + h.size < 0x1_0000
    && h.base != 0 && h.base % 2 == 0 && h.size % 2 == 0 && h.max <= |m|
  }

  function Elements(xs: seq<nat>): set<nat> {
    set x | x in xs
  }

  /** `n` blocks have been handed out by the bump pointer; each is live or listed, and none is both. */
  ghost predicate Sound(h: Fields, m: Memory, live: set<nat>, listed: seq<nat>, n: nat) {
    && Proper(h, m) && h.end == Block(h, n) && (n == 0 || h.end <= h.max)
    && Threads(m, h.head, listed)
    && live + Elements(listed) == Blocks(h, n) && live !! Elements(listed)
  }

  lemma UnusedIsSound(base: Word, max: Word, size: Word, m: Memory)
    requires Proper(Unused(base, max, size), m)
    ensures Sound(Unused(base, max, size), m, {}, [], 0)
  {
  }

  /** Live blocks lie in the heap and do not overlap; nor do they touch a listed block. */
  lemma LiveBlocks(h: Fields, m: Memory, live: set<nat>, listed: seq<nat>, n: nat, a: nat, b: nat)
    requires Sound(h, m, live, listed, n) && a in live && (b in live || b in listed) && a != b
    ensures h.base <= a && a + h.size <= h.end && (a + h.size <= b || b + h.size <= a)
  {
    assert b in Elements(listed) || b in live;
    BlockBounds(h, n, a);
    BlocksDisjoint(h, n, a, b);
  }

  /**
   * An allocation hands out a block that was not live. It fails exactly when all the blocks there can
   * be are live.
   */
  lemma AllocIsSound(h: Fields, m: Memory, live: set<nat>, listed: seq<nat>, n: nat)
      returns (rest: seq<nat>, k: nat)
    requires Sound(h, m, live, listed, n)
    ensures var r := Allocated(h, m);
            && (r.None? <==> |live| == Capacity(h))
            && (r.Some? ==> r.value.0 !in live && Sound(r.value.1, m, live + {r.value.0 as nat}, rest, k))
    ensures if n < Capacity(h) then k == n + 1 && rest == listed && Allocated(h, m) == Some((h.end, h.(end := h.end + h.size)))
            else k == n && (Allocated(h, m).Some? ==> listed != [] && rest == listed[1..] && Allocated(h, m).value.0 == listed[0])
  {
    if n < Capacity(h) {
      rest, k := listed, n + 1;
      AllocBumps(h, m, live, listed, n);
    } else {
      rest, k := if listed == [] then [] else listed[1..], n;
      AllocReuses(h, m, live, listed, n);
    }
  }

  lemma AllocBumps(h: Fields, m: Memory, live: set<nat>, listed: seq<nat>, n: nat)
    requires Sound(h, m, live, listed, n) && n < Capacity(h)
    ensures |live| < Capacity(h) && Allocated(h, m) == Some((h.end, h.(end := h.end + h.size)))
    ensures h.end as nat !in live && Sound(h.(end := h.end + h.size), m, live + {h.end as nat}, listed, n + 1)
  {
    RoomExactly(h, n);
    Counted(h, live, listed, n);
    BumpIsSound(h, m, live, listed, n);
  }

  lemma AllocReuses(h: Fields, m: Memory, live: set<nat>, listed: seq<nat>, n: nat)
    requires Sound(h, m, live, listed, n) && n >= Capacity(h)
    ensures n == Capacity(h) && (|live| == Capacity(h) <==> listed == [])
    ensures Allocated(h, m) == if listed == [] then None else Some((listed[0] as Word, h.(head := WordAt(m, h.head))))
    ensures listed != [] ==>
              listed[0] !in live && Sound(h.(head := WordAt(m, h.head)), m, live + {listed[0]}, listed[1..], n)
  {
    RoomExactly(h, n);
    Counted(h, live, listed, n);
    if listed != [] { ReuseIsSound(h, m, live, listed, n); }
  }

  lemma Counted(h: Fields, live: set<nat>, listed: seq<nat>, n: nat)
    requires h.size > 0 && live + Elements(listed) == Blocks(h, n) && live !! Elements(listed)
    ensures |live| <= n && (|live| == n <==> listed == [])
  {
    BlockIn(h, n, 0);
    assert |live + Elements(listed)| == |live| + |Elements(listed)|;
    if listed == [] {
      assert Elements(listed) == {};
    } else {
      assert listed[0] in Elements(listed);
    }
  }

  lemma BumpIsSound(h: Fields, m: Memory, live: set<nat>, listed: seq<nat>, n: nat)
    requires Sound(h, m, live, listed, n) && n < Capacity(h) && Block(h, n) + h.size <= h.max
    ensures h.end as nat !in live && Sound(h.(end := h.end + h.size), m, live + {h.end as nat}, listed, n + 1)
  {
    if h.end as nat in Blocks(h, n) { BlockBounds(h, n, h.end); }
    var r := h.(end := h.end + h.size);
    SameBlocks(h, r, n);
    assert Blocks(r, n + 1) == Blocks(r, n) + {h.end as nat};
    assert r.end == Block(r, n + 1);
  }

  lemma {:induction false} SameBlocks(h: Fields, r: Fields, n: nat)
    requires r.base == h.base && r.size == h.size
    ensures Blocks(h, n) == Blocks(r, n) && Block(h, n) == Block(r, n)
  {
    if n > 0 { SameBlocks(h, r, n - 1); }
  }

  lemma ReuseIsSound(h: Fields, m: Memory, live: set<nat>, listed: seq<nat>, n: nat)
    requires Sound(h, m, live, listed, n) && listed != []
    ensures h.head == listed[0] && listed[0] !in live && ReadWord(m, h.head) == Some(WordAt(m, h.head))
    ensures Sound(h.(head := WordAt(m, h.head)), m, live + {listed[0]}, listed[1..], n)
  {
    var r := h.(head := WordAt(m, h.head));
    SameBlocks(h, r, n);
    assert listed[0] in Elements(listed);
    forall x | x in listed[1..] ensures x != listed[0] {
      var i :| 0 <= i < |listed[1..]| && listed[1..][i] == x;
      ListHasNoCycle(m, h.head, listed, 0, i + 1);
    }
    assert Elements(listed) == Elements(listed[1..]) + {listed[0]} by {
      assert listed == [listed[0]] + listed[1..];
    }
  }

  /** Freeing a live block takes it off the live ones and puts it first on the list. */
  lemma FreeIsSound(h: Fields, m: Memory, live: set<nat>, listed: seq<nat>, n: nat, a: Word)
    requires Sound(h, m, live, listed, n) && a as nat in live
    ensures var r := Freed(h, m, a);
            r.Some? && r.value.1 == PutWord(m, a, h.head) && Sound(r.value.0, r.value.1, live - {a as nat}, [a as nat] + listed, n)
  {
    LiveIsEven(h, m, live, listed, n, a);
    SameBlocks(h, h.(head := a), n);
    FreedThread(h, m, live, listed, n, a);
    assert Elements([a as nat] + listed) == Elements(listed) + {a as nat};
  }

  lemma LiveIsEven(h: Fields, m: Memory, live: set<nat>, listed: seq<nat>, n: nat, a: nat)
    requires Sound(h, m, live, listed, n) && a in live
    ensures a % 2 == 0 && h.base <= a && a + h.size <= h.end <= h.max <= |m| && a !in listed
  {
    BlockBounds(h, n, a);
    BlockIn(h, n, a);
    var i :| 0 <= i < n && a == Block(h, i);
    BlocksEven(h, i);
    assert a in listed ==> a in Elements(listed);
  }

  /** The link goes into the freed block and touches none on the list. */
  lemma FreedThread(h: Fields, m: Memory, live: set<nat>, listed: seq<nat>, n: nat, a: Word)
    requires Sound(h, m, live, listed, n) && a as nat in live && a + 2 <= |m|
    ensures Threads(PutWord(m, a, h.head), a, [a as nat] + listed)
  {
    var w := PutWord(m, a, h.head);
    forall b | b in listed && b + 1 < |m| ensures m[b] == w[b] && m[b + 1] == w[b + 1] {
      assert b in Elements(listed);
      BlocksDisjoint(h, n, a, b);
    }
    ThreadFrame(m, w, h.head, listed);
    LiveIsEven(h, m, live, listed, n, a);
    JoinSplit(h.head);
    assert WordAt(w, a) == h.head;
    assert ([a as nat] + listed)[1..] == listed;
  }

  /** Whatever is written in the live blocks, or outside the heap, the heap stays sound. */
  lemma WritesKeepSound(h: Fields, m: Memory, live: set<nat>, listed: seq<nat>, n: nat, r: Memory)
    requires Sound(h, m, live, listed, n) && |r| == |m|
    requires forall x | 0 <= x < |m| && m[x] != r[x] ::
               !(h.base <= x < h.end) || exists a :: a in live && a <= x < a + h.size
    ensures Sound(h, r, live, listed, n)
  {
    forall b | b in listed && b + 1 < |m| ensures m[b] == r[b] && m[b + 1] == r[b + 1] {
      assert b in Elements(listed);
      BlockBounds(h, n, b);
      forall x | x == b || x == b + 1 ensures m[x] == r[x] {
        forall a | a in live ensures !(a <= x < a + h.size) {
          BlocksDisjoint(h, n, a, b);
        }
      }
    }
    ThreadFrame(m, r, h.head, listed);
  }

  // ----- the allocator as it is changed -----

  class Allocator {
    var fields: Fields
    ghost var live: set<nat>
    ghost var listed: seq<nat>
    ghost var bumped: nat

    ghost predicate Valid(memory: MemoryCell)
      reads this, memory.memory
    {
      Sound(fields, memory.memory[..], live, listed, bumped)
    }

    constructor (base: Word, max: Word, size: Word, memory: MemoryCell)
      requires Proper(Unused(base, max, size), memory.memory[..])
      ensures Valid(memory) && live == {} && fields == Unused(base, max, size)
    {
      fields := Fields(base, base, max, 0, size);
      live, listed, bumped := {}, [], 0;
      new;
      UnusedIsSound(base, max, size, memory.memory[..]);
    }

    /** Fresh blocks first, the last freed one when there are no more. */
    method Alloc(memory: MemoryCell) returns (r: Option<Word>)
      requires Valid(memory)
      modifies this
      ensures Valid(memory) && (r.None? <==> |old(live)| == Capacity(old(fields)))
      ensures r.Some? ==> r.value as nat !in old(live) && live == old(live) + {r.value as nat}
      ensures r.None? ==> live == old(live) && fields == old(fields) && listed == old(listed) && bumped == old(bumped)
      ensures r.Some? ==>
                if old(bumped) < Capacity(old(fields)) then
                  r.value == old(fields).end && listed == old(listed) && fields.end == old(fields).end + fields.size
                else
                  old(listed) != [] && r.value as nat == old(listed)[0] && listed == old(listed)[1..] && fields.end == old(fields).end
      ensures fields == old(fields).(end := fields.end, head := fields.head)
    {
      ghost var h, m := fields, memory.memory[..];
      ghost var rest, k := AllocIsSound(h, m, live, listed, bumped);
      if fields.end + fields.size <= fields.max {
        r := Some(fields.end);
        fields := fields.(end := fields.end + fields.size);
      } else if fields.head != 0 {
        SameTail(m, fields.head, listed, 0);
        r := Some(fields.head);
        var next := memory.ReadWord(fields.head);
        fields := fields.(head := next.value);
      } else {
        return None;
      }
      assert Allocated(h, m) == Some((r.value, fields));
      live, listed, bumped := live + {r.value as nat}, rest, k;
      RoomExactly(h, old(bumped));
    }

    method Free(memory: MemoryCell, address: Word)
      requires Valid(memory) && address as nat in live
      modifies this, memory.memory
      ensures Valid(memory) && live == old(live) - {address as nat} && listed == [address as nat] + old(listed)
      ensures bumped == old(bumped) && fields == old(fields).(head := address)
      ensures memory.memory[..] == PutWord(old(memory.memory[..]), address, old(fields).head)
    {
      FreeIsSound(fields, memory.memory[..], live, listed, bumped, address);
      BlockBounds(fields, bumped, address);
      var _ := memory.WriteWord(address, fields.head);
      fields := fields.(head := address);
      live, listed := live - {address as nat}, [address as nat] + listed;
    }
  }
}
