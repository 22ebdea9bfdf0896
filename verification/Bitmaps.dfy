/** The active-set bitmap: an array of 32-bit words standing for a set of vertex ids. */
module Bitmaps {
  /** Bit `k` of a word. */
  predicate Bit(word: nat, k: nat) {
    if k == 0 then word % 2 == 1 else Bit(word / 2, k - 1)
  }

  /** `1 << k`. */
  function Mask(k: nat): (m: nat)
    ensures m >= 1
  {
    if k == 0 then 1 else 2 * Mask(k - 1)
  }

  /** The bitwise or of two words. */
  function Or(a: nat, b: nat): nat
    decreases a + b
  {
    if a == 0 && b == 0 then 0
    else 2 * Or(a / 2, b / 2) + (if a % 2 == 1 || b % 2 == 1 then 1 else 0)
  }

  /** The bitwise and of two words. */
  function And(a: nat, b: nat): nat
    decreases a + b
  {
    if a == 0 && b == 0 then 0
    else 2 * And(a / 2, b / 2) + (if a % 2 == 1 && b % 2 == 1 then 1 else 0)
  }

  lemma {:induction false} ZeroHasNoBit(k: nat)
    ensures !Bit(0, k)
  {
    if k > 0 { ZeroHasNoBit(k - 1); }
  }

  lemma {:induction false} OrBits(a: nat, b: nat, k: nat)
    ensures Bit(Or(a, b), k) <==> Bit(a, k) || Bit(b, k)
    decreases k
  {
    if a == 0 && b == 0 {
      ZeroHasNoBit(k);
    } else {
      assert Or(a, b) / 2 == Or(a / 2, b / 2);
      if k > 0 { OrBits(a / 2, b / 2, k - 1); }
    }
  }

  lemma {:induction false} AndBits(a: nat, b: nat, k: nat)
    ensures Bit(And(a, b), k) <==> Bit(a, k) && Bit(b, k)
    decreases k
  {
    if a == 0 && b == 0 {
      ZeroHasNoBit(k);
    } else {
      assert And(a, b) / 2 == And(a / 2, b / 2);
      if k > 0 { AndBits(a / 2, b / 2, k - 1); }
    }
  }

  lemma {:induction false} MaskBits(j: nat, k: nat)
    ensures Bit(Mask(j), k) <==> j == k
    decreases k
  {
    if j == 0 {
      if k > 0 { ZeroHasNoBit(k - 1); }
    } else if k > 0 {
      MaskBits(j - 1, k - 1);
    }
  }

  /** A nonzero word below `2^k` has a bit below `k`. */
  lemma {:induction false} FindBit(word: nat, k: nat) returns (i: nat)
    requires 0 < word < Mask(k)
    ensures i < k && Bit(word, i)
  {
    if word % 2 == 1 {
      i := 0;
    } else {
      i := FindBit(word / 2, k - 1);
      i := i + 1;
    }
  }

  lemma {:induction false} OrBelow(a: nat, b: nat, k: nat)
    requires a < Mask(k) && b < Mask(k)
    ensures Or(a, b) < Mask(k)
  {
    if k > 0 && (a != 0 || b != 0) { OrBelow(a / 2, b / 2, k - 1); }
  }

  lemma {:induction false} AndZero(word: nat)
    ensures And(word, 0) == 0
  {
    if word > 0 { AndZero(word / 2); }
  }

  /** `word & (1 << k) > 0` tests bit `k`. */
  lemma {:induction false} MaskTests(word: nat, k: nat)
    ensures And(word, Mask(k)) > 0 <==> Bit(word, k)
    decreases k
  {
    if k > 0 {
      assert Mask(k) / 2 == Mask(k - 1);
      MaskTests(word / 2, k - 1);
    } else {
      AndZero(word / 2);
    }
  }

  lemma {:induction false} MaskBelow(j: nat, k: nat)
    requires j < k
    ensures Mask(j) < Mask(k)
  {
    assert Mask(k) == 2 * Mask(k - 1);
    if j + 1 < k { MaskBelow(j, k - 1); }
  }

  /** The word with the low `k` bits set. */
  lemma {:induction false} OnesHaveBits(i: nat, k: nat)
    requires i < k
    ensures Bit(Mask(k) - 1, i)
  {
    if i > 0 { OnesHaveBits(i - 1, k - 1); }
  }

  lemma WordSize()
    ensures Mask(32) == 0x1_0000_0000
  {
    assert Mask(4) == 0x10;
    assert Mask(8) == 0x100;
    assert Mask(12) == 0x1000;
    assert Mask(16) == 0x1_0000;
    assert Mask(20) == 0x10_0000;
    assert Mask(24) == 0x100_0000;
    assert Mask(28) == 0x1000_0000;
  }

  class Bitmap {
    const words: array<nat>

    ghost predicate Has(v: nat)
      reads words
    {
      v < 32 * words.Length && Bit(words[v / 32], v % 32)
    }

    /** Every word is a uint32. */
    ghost predicate Valid()
      reads words
    {
      forall i :: 0 <= i < words.Length ==> words[i] < Mask(32)
    }

    /** The set the bitmap stands for. */
    ghost function Contents(): (s: set<nat>)
      reads words
      ensures forall v: nat :: v in s <==> Has(v)
    {
      set v: nat | v < 32 * words.Length && Has(v)
    }

    constructor (size: nat)
      ensures words.Length == size / 32 + 1 && fresh(words)
      ensures Valid() && Contents() == {}
    {
      words := new nat[size / 32 + 1](_ => 0);
      new;
      forall v: nat
        ensures !Has(v)
      {
        ZeroHasNoBit(v % 32);
      }
    }

    /** Every bit of every word, including those past the last vertex. */
    constructor WithAll(size: nat)
      ensures words.Length == size / 32 + 1 && fresh(words)
      ensures Valid() && forall v: nat :: v in Contents() <==> v < 32 * words.Length
    {
      words := new nat[size / 32 + 1](_ => 0xffff_ffff);
      new;
      WordSize();
      forall v: nat | v < 32 * words.Length
        ensures Has(v)
      {
        OnesHaveBits(v % 32, 32);
      }
    }

    method Add(v: nat)
      requires Valid() && v < 32 * words.Length
      modifies words
      ensures Valid() && Contents() == old(Contents()) + {v}
    {
      MaskBelow(v % 32, 32);
      OrBelow(words[v / 32], Mask(v % 32), 32);
      words[v / 32] := Or(words[v / 32], Mask(v % 32));
      forall u: nat
        ensures Has(u) <==> u == v || old(Has(u))
      {
        if u < 32 * words.Length && u / 32 == v / 32 {
          OrBits(old(words[v / 32]), Mask(v % 32), u % 32);
          MaskBits(v % 32, u % 32);
        }
      }
    }

    method Get(v: nat) returns (b: bool)
      requires Valid() && v < 32 * words.Length
      ensures b <==> v in Contents()
    {
      MaskTests(words[v / 32], v % 32);
      b := And(words[v / 32], Mask(v % 32)) > 0;
    }

    method OrWith(c: Bitmap)
      requires Valid() && c.Valid() && c.words.Length == words.Length && c.words != words
      modifies words
      ensures Valid() && Contents() == old(Contents()) + c.Contents()
    {
      for i := 0 to words.Length
        invariant Valid()
        invariant forall j :: i <= j < words.Length ==> words[j] == old(words[j])
        invariant forall j :: 0 <= j < i ==> words[j] == Or(old(words[j]), c.words[j])
      {
        OrBelow(words[i], c.words[i], 32);
        words[i] := Or(words[i], c.words[i]);
      }
      forall u: nat
        ensures Has(u) <==> old(Has(u)) || c.Has(u)
      {
        if u < 32 * words.Length { OrBits(old(words[u / 32]), c.words[u / 32], u % 32); }
      }
    }

    method Empty() returns (b: bool)
      requires Valid()
      ensures b <==> Contents() == {}
    {
      for i := 0 to words.Length
        invariant forall j :: 0 <= j < i ==> words[j] == 0
      {
        if words[i] > 0 {
          var k := FindBit(words[i], 32);
          assert Has(32 * i + k);
          return false;
        }
      }
      forall v: nat
        ensures !Has(v)
      {
        ZeroHasNoBit(v % 32);
      }
      return true;
    }
  }
}
