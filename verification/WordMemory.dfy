/**
 * Byte memory addressed in big-endian words, and byte access by reading and rewriting a word.
 */
module WordMemory {
  import opened Wrappers
  import opened Isa

  type Memory = seq<Byte>

  function Join(high: Byte, low: Byte): Word {
    var h: int := high;
    256 * h + low
  }

  lemma JoinHalves(high: Byte, low: Byte)
    ensures Join(high, low) / 256 == high && Join(high, low) % 256 == low
  {
  }

  /** Odd addresses are errors; the last byte of an odd-sized memory reads as the high half of a word. */
  function ReadWord(m: Memory, a: nat): Option<Word> {
    if a % 2 == 1 then None
    else if a + 1 < |m| then Some(Join(m[a], m[a + 1]))
    else if a < |m| then Some(Join(m[a], 0))
    else None
  }

  function WriteWord(m: Memory, a: nat, w: Word): Option<Memory> {
    if a % 2 == 0 && a + 1 < |m| then Some(m[a := w / 256][a + 1 := w % 256]) else None
  }

  function ReadByte(m: Memory, a: nat): Option<Byte> {
    var word :- ReadWord(m, a - a % 2);
    Some(if a % 2 == 1 then word % 256 else word / 256)
  }

  function WriteByte(m: Memory, a: nat, b: Byte): Option<Memory> {
    var word :- ReadWord(m, a - a % 2);
    WriteWord(m, a - a % 2, if a % 2 == 1 then Join(word / 256, b) else Join(b, word % 256))
  }

  /** Only even addresses have words, which are two bytes with the high one first. */
  lemma WordsAreTwoBytes(m: Memory, a: nat, w: Word)
    ensures ReadWord(m, a).Some? <==> a % 2 == 0 && a < |m|
    ensures ReadWord(m, a).Some? ==>
              ReadWord(m, a).value / 256 == m[a] && ReadWord(m, a).value % 256 == if a + 1 < |m| then m[a + 1] else 0
    ensures WriteWord(m, a, w).Some? <==> a % 2 == 0 && a + 1 < |m|
    ensures WriteWord(m, a, w).Some? ==> ReadWord(WriteWord(m, a, w).value, a) == Some(w)
  {
    JoinSplit(w);
    if a < |m| { JoinHalves(m[a], if a + 1 < |m| then m[a + 1] else 0); }
  }

  /** The word at an even address inside the memory. */
  function WordAt(m: Memory, a: nat): Word
    requires a + 1 < |m|
  {
    Join(m[a], m[a + 1])
  }

  function PutWord(m: Memory, a: nat, w: Word): (r: Memory)
    requires a + 1 < |m|
    ensures |r| == |m|
  {
    m[a := w / 256][a + 1 := w % 256]
  }

  /** A read returns the last write, and a write to one word leaves every other word alone. */
  lemma WordFrame(m: Memory, a: nat, w: Word, b: nat)
    requires a % 2 == 0 && b % 2 == 0 && a + 1 < |m| && b + 1 < |m|
    ensures WordAt(PutWord(m, a, w), b) == if a == b then w else WordAt(m, b)
  {
    JoinSplit(w);
    if a != b {
      EvensApart(a, b);
    }
  }

  /** Words that do not overlap do not disturb each other. */
  lemma ApartFrame(m: Memory, a: nat, w: Word, b: nat)
    requires a + 1 < |m| && b + 1 < |m| && (a + 1 < b || b + 1 < a)
    ensures WordAt(PutWord(m, a, w), b) == WordAt(m, b)
  {
  }

  lemma ReadBack(m: Memory, a: nat, w: Word)
    requires a + 1 < |m|
    ensures WordAt(PutWord(m, a, w), a) == w
  {
    JoinSplit(w);
  }

  lemma JoinSplit(w: Word)
    ensures Join(w / 256, w % 256) == w
  {
  }

  lemma EvensApart(a: nat, b: nat)
    requires a % 2 == 0 && b % 2 == 0 && a != b
    ensures a + 1 < b || b + 1 < a
  {
  }

  lemma EvenBelow(a: nat)
    ensures (a - a % 2) % 2 == 0
  {
  }

  /** Byte reads through words are plain reads; one byte past an odd-sized memory reads as zero. */
  lemma ReadByteIsIndexing(m: Memory, a: nat)
    ensures ReadByte(m, a) == if a < |m| then Some(m[a]) else if a == |m| && a % 2 == 1 then Some(0) else None
  {
    EvenBelow(a);
    var e := a - a % 2;
    if e + 1 < |m| {
      JoinHalves(m[e], m[e + 1]);
    } else if e < |m| {
      JoinHalves(m[e], 0);
    }
  }

  /** But the last byte of an odd-sized memory cannot be written. */
  lemma WriteByteIsUpdate(m: Memory, a: nat, b: Byte)
    ensures WriteByte(m, a, b) == if a < |m| && (a % 2 == 1 || a + 1 < |m|) then Some(m[a := b]) else None
  {
    EvenBelow(a);
    if a % 2 == 1 && a < |m| {
      JoinHalves(m[a - 1], m[a]);
      JoinHalves(m[a - 1], b);
      assert m[a - 1 := m[a - 1]][a := b] == m[a := b];
    } else if a % 2 == 0 && a + 1 < |m| {
      JoinHalves(m[a], m[a + 1]);
      JoinHalves(b, m[a + 1]);
      assert m[a := b][a + 1 := m[a + 1]] == m[a := b];
    }
  }
}
