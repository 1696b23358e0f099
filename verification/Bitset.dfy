/** Sets of small numbers packed into 64-bit words. */
module Bitset {

  /** A 64-bit word, as its bits from the lowest to the highest. */
  type Word = w: seq<bool> | |w| == 64 witness Zero

  const Zero: seq<bool> := seq(64, _ => false)

  type Words = seq<Word>

  /** How many words it takes to hold `bits` bits. */
  function Chunks(bits: nat): (r: nat)
    ensures bits <= 64 * r < bits + 64
  {
    bits / 64 + (if bits % 64 != 0 then 1 else 0)
  }

  predicate Get(b: Words, pos: nat)
    requires pos < 64 * |b|
  {
    b[pos / 64][pos % 64]
  }

  function Put(b: Words, pos: nat, value: bool): Words
    requires pos < 64 * |b|
  {
    b[pos / 64 := b[pos / 64][pos % 64 := value]]
  }

  /** The numbers that the words hold. */
  ghost function Numbers(b: Words): set<nat> {
    set p: nat | p < 64 * |b| && Get(b, p)
  }

  lemma PutRefines(b: Words, pos: nat)
    requires pos < 64 * |b|
    ensures Numbers(Put(b, pos, true)) == Numbers(b) + {pos}
    ensures Numbers(Put(b, pos, false)) == Numbers(b) - {pos}
  {
    forall p: nat, value | p < 64 * |b|
      ensures Get(Put(b, pos, value), p) <==> if p == pos then value else Get(b, p)
    {
      assert p != pos ==> p / 64 != pos / 64 || p % 64 != pos % 64;
    }
  }

  /** Equal words mean equal sets, and the other way round. */
  lemma EqualsIffSameSet(b: Words, c: Words)
    requires |b| == |c|
    ensures b == c <==> Numbers(b) == Numbers(c)
  {
    if Numbers(b) == Numbers(c) {
      forall k | 0 <= k < |b|
        ensures b[k] == c[k]
      {
        forall i | 0 <= i < 64
          ensures b[k][i] == c[k][i]
        {
          WordIndex(k, i);
          assert 64 * k + i in Numbers(b) <==> 64 * k + i in Numbers(c);
          assert Get(b, 64 * k + i) <==> Get(c, 64 * k + i);
        }
      }
    }
  }

  lemma WordIndex(k: nat, i: nat)
    requires i < 64
    ensures (64 * k + i) / 64 == k && (64 * k + i) % 64 == i
  {
  }

  // ---------- Hashing

  function Ones(w: seq<bool>): nat {
    if w == [] then 0 else Ones(w[..|w| - 1]) + (if w[|w| - 1] then 1 else 0)
  }

  function PopCount(b: Words): nat {
    if b == [] then 0 else PopCount(b[..|b| - 1]) + Ones(b[|b| - 1])
  }

  /** The numbers from `base` on that a word holds. */
  ghost function Held(w: seq<bool>, base: nat): set<nat> {
    set p: nat | p < base + |w| && Bit(w, base, p)
  }

  ghost predicate Bit(w: seq<bool>, base: nat, p: nat) {
    base <= p < base + |w| && w[p - base]
  }

  lemma {:induction false} OnesIsSize(w: seq<bool>, base: nat)
    ensures Ones(w) == |Held(w, base)|
  {
    if w != [] {
      var k := |w| - 1;
      OnesIsSize(w[..k], base);
      assert Held(w, base) == Held(w[..k], base) + (if w[k] then {base + k} else {});
    }
  }

  /** The population count is the size of the set. */
  lemma {:induction false} PopCountIsSize(b: Words)
    ensures PopCount(b) == |Numbers(b)|
  {
    if b != [] {
      var k := |b| - 1;
      var front, last := b[..k], Held(b[k], 64 * k);
      PopCountIsSize(front);
      OnesIsSize(b[k], 64 * k);
      forall p: nat
        ensures p in Numbers(b) <==> p in Numbers(front) || p in last
      {
        if p < 64 * k {
          assert p / 64 < k;
        } else if p < 64 * |b| {
          WordIndex(k, p - 64 * k);
        }
      }
      assert Numbers(b) == Numbers(front) + last;
      assert Numbers(front) * last == {};
    }
  }

  function Power(k: nat): (r: nat)
    ensures r > 0
  {
    if k == 0 then 1 else 2 * Power(k - 1)
  }

  /** A number cut to 64 bits. */
  function ToWord(n: nat): Word {
    seq(64, k requires 0 <= k < 64 => n / Power(k) % 2 == 1)
  }

  function Xor(a: Word, b: Word): Word {
    seq(64, k requires 0 <= k < 64 => a[k] != b[k])
  }

  function XorAll(h: Word, b: Words): Word {
    if b == [] then h else Xor(XorAll(h, b[..|b| - 1]), b[|b| - 1])
  }

  function Hash(b: Words): Word {
    XorAll(ToWord(PopCount(b)), b)
  }

  /** The bit set a search updates in place. */
  class BitSet {
    const words: array<Word>

    constructor (bits: nat)
      ensures words.Length == Chunks(bits) && fresh(words)
      ensures Numbers(words[..]) == {}
    {
      words := new Word[Chunks(bits)](_ => Zero);
    }

    constructor Clone(b: BitSet)
      ensures fresh(words) && words[..] == b.words[..]
    {
      words := new Word[b.words.Length];
      new;
      forall i | 0 <= i < words.Length {
        words[i] := b.words[i];
      }
    }

    method Set(pos: nat)
      requires pos < 64 * words.Length
      modifies words
      ensures words[..] == Put(old(words[..]), pos, true)
    {
      var major, minor := pos / 64, pos % 64;
      words[major] := words[major][minor := true];
    }

    method Clear(pos: nat)
      requires pos < 64 * words.Length
      modifies words
      ensures words[..] == Put(old(words[..]), pos, false)
    {
      var major, minor := pos / 64, pos % 64;
      words[major] := words[major][minor := false];
    }
  }

  method HashCode(words: Words) returns (hash: Word)
    ensures hash == Hash(words)
  {
    var total := 0;
    for i := 0 to |words|
      invariant total == PopCount(words[..i])
    {
      total := total + Ones(words[i]);
      assert words[..i + 1][..i] == words[..i];
    }
    assert words[..|words|] == words;
    hash := ToWord(total);
    ghost var start := hash;
    for i := 0 to |words|
      invariant hash == XorAll(start, words[..i])
    {
      hash := Xor(hash, words[i]);
      assert words[..i + 1][..i] == words[..i];
    }
  }

  method Equals(b: Words, c: Words) returns (same: bool)
    ensures same <==> b == c
  {
    if |b| != |c| {
      return false;
    }
    for i := 0 to |b|
      invariant b[..i] == c[..i]
    {
      if b[i] != c[i] {
        return false;
      }
    }
    return true;
  }
}
