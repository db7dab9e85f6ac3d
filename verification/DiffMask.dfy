/** The bit mask that marks the differing columns of one row, in 64-bit words, and the list of the
    words that are not zero, so that clearing the mask touches only those. */
module DiffMask {

  // ----- One word -----

  const TWO_TO_64: int := 0x1_0000_0000_0000_0000

  type Word = x: int | 0 <= x < 0x1_0000_0000_0000_0000

  function Pow2(b: nat): nat {
    if b == 0 then 1 else 2 * Pow2(b - 1)
  }

  /** x & (1 << b) != 0, digit by binary digit. */
  predicate HasBit(x: nat, b: nat) {
    if b == 0 then x % 2 == 1 else HasBit(x / 2, b - 1)
  }

  /** x | (1 << b), digit by binary digit. */
  function OrBit(x: nat, b: nat): nat {
    if b == 0 then x - x % 2 + 1 else 2 * OrBit(x / 2, b - 1) + x % 2
  }

  /** The value of the or: the power of two is added if its digit was 0. */
  lemma {:induction false} OrAddsPower(x: nat, b: nat)
    ensures OrBit(x, b) == if HasBit(x, b) then x else x + Pow2(b)
  {
    if b > 0 {
      OrAddsPower(x / 2, b - 1);
    }
  }

  lemma {:induction false} OrFits(x: nat, b: nat, n: nat)
    requires b < n && x < Pow2(n)
    ensures OrBit(x, b) < Pow2(n)
  {
    if b == 0 {
      EvenPower(n, x);
    } else {
      var half: nat := x / 2;
      assert Pow2(n) == 2 * Pow2(n - 1) && half < Pow2(n - 1);
      OrFits(half, b - 1, n - 1);
      assert OrBit(x, b) == 2 * OrBit(half, b - 1) + x % 2;
    }
  }

  /** The word with its lowest digit set is still below the power. */
  lemma EvenPower(n: nat, x: nat)
    requires 0 < n && x < Pow2(n)
    ensures x - x % 2 + 1 < Pow2(n)
  {
    var half := Pow2(n - 1);
    assert Pow2(n) == 2 * half && x == 2 * (x / 2) + x % 2 && x / 2 < half;
  }

  /** Or-ing in bit `b` sets that bit, keeps every other, and leaves no zero word. */
  lemma {:induction false} OrSetsOneBit(x: nat, b: nat, c: nat)
    ensures HasBit(OrBit(x, b), c) <==> b == c || HasBit(x, c)
    ensures OrBit(x, b) != 0
  {
    if b > 0 {
      OrSetsOneBit(x / 2, b - 1, if c > 0 then c - 1 else 0);
      assert OrBit(x, b) / 2 == OrBit(x / 2, b - 1) && OrBit(x, b) % 2 == x % 2;
    } else if c > 0 {
      assert OrBit(x, b) / 2 == x / 2;
    }
  }

  lemma {:induction false} ZeroHasNoBit(b: nat)
    ensures !HasBit(0, b)
  {
    if b > 0 {
      ZeroHasNoBit(b - 1);
    }
  }

  lemma Pow2Next8(b: nat)
    ensures Pow2(b + 8) == 256 * Pow2(b)
  {
    assert Pow2(b + 4) == 16 * Pow2(b) by {
      assert Pow2(b + 2) == 4 * Pow2(b);
    }
    assert Pow2(b + 8) == 16 * Pow2(b + 4) by {
      assert Pow2(b + 6) == 4 * Pow2(b + 4);
    }
  }

  lemma WordSize()
    ensures Pow2(64) == TWO_TO_64
  {
    Pow2Next8(0);
    Pow2Next8(8);
    Pow2Next8(16);
    Pow2Next8(24);
    Pow2Next8(32);
    Pow2Next8(40);
    Pow2Next8(48);
    Pow2Next8(56);
  }

  /** The or of a 64-bit word with one of its bits. */
  function SetBit(x: Word, b: nat): Word
    requires b < 64
  {
    WordSize();
    OrFits(x, b, 64);
    OrBit(x, b)
  }

  // ----- A mask of words -----

  /** diffMaskWords. */
  function Words(nCols: int): nat {
    if nCols <= 0 then 0 else (nCols + 63) / 64
  }

  /** diffMaskGet. */
  predicate Get(mask: seq<Word>, i: int) {
    i >= 0 && i / 64 < |mask| && HasBit(mask[i / 64], i % 64)
  }

  /** diffMaskSet. */
  function With(mask: seq<Word>, i: int): seq<Word> {
    if i < 0 || i / 64 >= |mask| then mask else mask[i / 64 := SetBit(mask[i / 64], i % 64)]
  }

  /** Setting a bit sets that bit and leaves every other as it was. */
  lemma WithSetsOneBit(mask: seq<Word>, i: int, j: int)
    ensures Get(With(mask, i), j) <==> (j == i && 0 <= i && i / 64 < |mask|) || Get(mask, j)
  {
    if 0 <= i && i / 64 < |mask| && 0 <= j && j / 64 == i / 64 {
      OrSetsOneBit(mask[i / 64], i % 64, j % 64);
      assert j == i <==> j % 64 == i % 64;
    }
  }

  lemma ZeroMaskIsEmpty(mask: seq<Word>)
    requires forall w :: 0 <= w < |mask| ==> mask[w] == 0
    ensures forall i :: !Get(mask, i)
  {
    forall i: int
      ensures !Get(mask, i)
    {
      if i >= 0 && i / 64 < |mask| {
        ZeroHasNoBit(i % 64);
      }
    }
  }

  /** The mask with its dirty list. */
  class Mask {
    const mask: array<Word>
    var dirty: seq<nat>

    /** The dirty list holds exactly the words that are not zero, each once. */
    ghost predicate Valid()
      reads this, mask
    {
      && (forall w :: w in dirty <==> 0 <= w < mask.Length && mask[w] != 0)
      && forall i, j :: 0 <= i < j < |dirty| ==> dirty[i] != dirty[j]
    }

    constructor (nCols: int)
      ensures Valid() && fresh(mask) && mask.Length == Words(nCols)
      ensures forall i :: !Get(mask[..], i)
    {
      mask, dirty := new Word[Words(nCols)](_ => 0), [];
      new;
      ZeroMaskIsEmpty(mask[..]);
    }

    method Set(i: int)
      requires Valid()
      modifies this, mask
      ensures Valid() && mask[..] == With(old(mask[..]), i)
    {
      if i < 0 {
        return;
      }
      var w := i / 64;
      if w >= mask.Length {
        return;
      }
      var before := mask[w];
      OrSetsOneBit(before, i % 64, i % 64);
      mask[w] := SetBit(before, i % 64);
      if before == 0 {
        dirty := dirty + [w];
      }
    }

    /** Clears the mask by way of the dirty list: no word is forgotten. */
    method Reset()
      requires Valid()
      modifies this, mask
      ensures Valid() && dirty == []
      ensures forall i :: !Get(mask[..], i)
    {
      for n := 0 to |dirty|
        invariant dirty == old(dirty)
        invariant forall w :: 0 <= w < mask.Length && mask[w] != 0 ==> w in dirty[n..]
      {
        assert dirty[n] in dirty;
        mask[dirty[n]] := 0;
      }
      dirty := [];
      ZeroMaskIsEmpty(mask[..]);
    }
  }
}
