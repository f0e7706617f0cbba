/**
 * The three string-hash families the repository tries, as mathematics.
 *
 * Every hash in the repository is the same loop: start from a seed `h`, and
 * for each character `c` replace `h` by `b*h + c`. `Fold` is that loop over
 * unbounded integers (what the Python scripts compute); the C versions compute
 * the same fold reduced modulo 2^32 or 2^64, which `FoldCongruent` and
 * `FoldStepMod` relate to it.
 */
module Hashes {
  import opened CStrings

  /** Horner evaluation of the character codes of `s` in base `b`, starting from `h`. */
  function Fold(h: int, b: int, s: seq<char>): int
    decreases s
  {
    if |s| == 0 then h else Fold(b * h + s[0] as int, b, s[1..])
  }

  /** The additive hash: seed 0, `h := h + c`. */
  function SumHash(s: seq<char>): int {
    Fold(0, 1, s)
  }

  /** The `h := 3*h + c` hash (written `h += (h << 1) + c` in the source), seed 0. */
  function TripleHash(s: seq<char>): int {
    Fold(0, 3, s)
  }

  const DJB2_SEED: int := 5381

  /** djb2: `h := 33*h + c` (written `((h << 5) + h) + c`), seed 5381. */
  function Djb2(s: seq<char>): int {
    Fold(DJB2_SEED, 33, s)
  }

  /** Reference definition of "the sum of the character codes". */
  function CodeSum(s: seq<char>): int {
    if s == [] then 0 else s[0] as int + CodeSum(s[1..])
  }

  function Pow(b: int, n: nat): int {
    if n == 0 then 1 else b * Pow(b, n - 1)
  }

  // ---------------------------------------------------------------------------
  // The fold, one character at a time
  // ---------------------------------------------------------------------------

  /** Appending a character performs one more step: hash(s·c) = b*hash(s) + c. */
  lemma {:induction false} FoldSnoc(h: int, b: int, s: seq<char>, c: char)
    ensures Fold(h, b, s + [c]) == b * Fold(h, b, s) + c as int
    decreases s
  {
    if s != [] {
      assert (s + [c])[1..] == s[1..] + [c];
      FoldSnoc(b * h + s[0] as int, b, s[1..], c);
    }
  }

  /** Hashing a concatenation is hashing the second part from the first part's hash. */
  lemma {:induction false} FoldAppend(h: int, b: int, s: seq<char>, t: seq<char>)
    ensures Fold(h, b, s + t) == Fold(Fold(h, b, s), b, t)
    decreases s
  {
    if s != [] {
      assert (s + t)[0] == s[0] && (s + t)[1..] == s[1..] + t;
      FoldAppend(b * h + s[0] as int, b, s[1..], t);
    } else {
      assert s + t == t;
    }
  }

  /** The additive fold adds the character codes to its seed. */
  lemma {:induction false} FoldSumIsCodeSum(h: int, s: seq<char>)
    ensures Fold(h, 1, s) == h + CodeSum(s)
    decreases s
  {
    if s != [] {
      FoldSumIsCodeSum(h + s[0] as int, s[1..]);
    }
  }

  /** The additive hash is the sum of the character codes; the empty string hashes to 0. */
  lemma SumHashIsCodeSum(s: seq<char>)
    ensures SumHash(s) == CodeSum(s)
    ensures s == [] ==> SumHash(s) == 0
  {
    FoldSumIsCodeSum(0, s);
  }

  lemma {:induction false} CodeSumAppend(s: seq<char>, t: seq<char>)
    ensures CodeSum(s + t) == CodeSum(s) + CodeSum(t)
    decreases s
  {
    if s != [] {
      assert (s + t)[0] == s[0] && (s + t)[1..] == s[1..] + t;
      CodeSumAppend(s[1..], t);
    } else {
      assert s + t == t;
    }
  }

  /** The code sum depends only on which characters occur, not on their order. */
  lemma {:induction false} CodeSumPermutation(s: seq<char>, t: seq<char>)
    requires multiset(s) == multiset(t)
    ensures CodeSum(s) == CodeSum(t)
    decreases |s|
  {
    if s == [] {
      assert |t| == |multiset(t)| == 0;
    } else {
      var x := s[0];
      assert x in multiset(t);
      var k :| 0 <= k < |t| && t[k] == x;
      var rest := t[..k] + t[k + 1..];
      assert t == t[..k] + [x] + t[k + 1..];
      assert s == [x] + s[1..];
      assert multiset(rest) == multiset(t) - multiset{x};
      assert multiset(s[1..]) == multiset(s) - multiset{x};
      CodeSumPermutation(s[1..], rest);
      CodeSumAppend(t[..k] + [x], t[k + 1..]);
      CodeSumAppend(t[..k], [x]);
      CodeSumAppend(t[..k], t[k + 1..]);
    }
  }

  /** Two strings that are permutations of each other have the same additive hash. */
  lemma SumHashPermutation(s: seq<char>, t: seq<char>)
    requires multiset(s) == multiset(t)
    ensures SumHash(s) == SumHash(t)
  {
    SumHashIsCodeSum(s);
    SumHashIsCodeSum(t);
    CodeSumPermutation(s, t);
  }

  /** Two characters in swapped order: the additive hash cannot tell, the 3h+c hash always can. */
  lemma OrderSensitivity(a: char, c: char)
    requires a != c
    ensures SumHash([a, c]) == SumHash([c, a])
    ensures TripleHash([a, c]) != TripleHash([c, a])
    ensures a as int < 128 && c as int < 128 ==> TripleHash([a, c]) % U32 != TripleHash([c, a]) % U32
  {
    FoldPair(0, 1, a, c);
    FoldPair(0, 1, c, a);
    FoldPair(0, 3, a, c);
    FoldPair(0, 3, c, a);
  }

  lemma FoldPair(h: int, b: int, x: char, y: char)
    ensures Fold(h, b, [x, y]) == b * (b * h + x as int) + y as int
  {
    assert [x, y][1..] == [y] && [y][1..] == [];
    assert Fold(h, b, [x, y]) == Fold(b * h + x as int, b, [y]);
    assert Fold(b * h + x as int, b, [y]) == Fold(b * (b * h + x as int) + y as int, b, []);
  }

  /** Names that differ only in a last character one code apart hash one apart (`debye_1`..`debye_4`). */
  lemma SumHashLastCharStep(p: seq<char>, c: char, d: char)
    requires d as int == c as int + 1
    ensures SumHash(p + [d]) == SumHash(p + [c]) + 1
  {
    FoldSnoc(0, 1, p, c);
    FoldSnoc(0, 1, p, d);
  }

  /** Two strings sharing a prefix collide under the additive hash when their suffixes have equal code sums. */
  lemma SumHashCommonPrefix(p: seq<char>, x: seq<char>, y: seq<char>)
    requires CodeSum(x) == CodeSum(y)
    ensures SumHash(p + x) == SumHash(p + y)
  {
    SumHashIsCodeSum(p + x);
    SumHashIsCodeSum(p + y);
    CodeSumAppend(p, x);
    CodeSumAppend(p, y);
  }

  // ---------------------------------------------------------------------------
  // Arithmetic modulo 2^k, for the C versions
  // ---------------------------------------------------------------------------

  /** Adding a multiple of the modulus does not change the remainder. */
  lemma ModMultiple(q: int, r: int, m: int)
    requires m > 0
    ensures (m * q + r) % m == r % m
  {
    var x := m * q + r;
    var k := q + r / m - x / m;
    assert m * k == m * q + m * (r / m) - m * (x / m);
    assert m * k == x % m - r % m;
  }

  /** Reducing a summand first does not change the sum's remainder. */
  lemma AddMod(a: int, c: int, m: int)
    requires m > 0
    ensures (a + c % m) % m == (a + c) % m
  {
    var q, r := c / m, c % m;
    assert c == m * q + r;
    assert a + c == m * q + (a + r);
    ModMultiple(q, a + r, m);
  }

  /** One step of the fold respects congruence modulo `m`. */
  lemma StepCongruent(h1: int, h2: int, b: int, c: int, m: int)
    requires m > 0 && h1 % m == h2 % m
    ensures (b * h1 + c) % m == (b * h2 + c) % m
  {
    var r := h1 % m;
    assert h1 == m * (h1 / m) + r && h2 == m * (h2 / m) + r;
    assert b * h1 + c == m * (b * (h1 / m)) + (b * r + c) by {
      assert b * h1 == b * (m * (h1 / m)) + b * r;
    }
    assert b * h2 + c == m * (b * (h2 / m)) + (b * r + c) by {
      assert b * h2 == b * (m * (h2 / m)) + b * r;
    }
    ModMultiple(b * (h1 / m), b * r + c, m);
    ModMultiple(b * (h2 / m), b * r + c, m);
  }

  /** Folding from congruent seeds gives congruent hashes: wrapping early or late agrees. */
  lemma {:induction false} FoldCongruent(h1: int, h2: int, b: int, s: seq<char>, m: int)
    requires m > 0 && h1 % m == h2 % m
    ensures Fold(h1, b, s) % m == Fold(h2, b, s) % m
    decreases s
  {
    if s != [] {
      StepCongruent(h1, h2, b, s[0] as int, m);
      FoldCongruent(b * h1 + s[0] as int, b * h2 + s[0] as int, b, s[1..], m);
    }
  }

  /**
   * The step a C loop takes: if the new accumulator is congruent to `b*h + s[0]`,
   * folding the rest of `s` from it gives the hash of all of `s` from `h`, modulo `m`.
   */
  lemma FoldStepMod(h: int, h': int, b: int, s: seq<char>, m: int)
    requires m > 0 && s != []
    requires h' % m == (b * h + s[0] as int) % m
    ensures Fold(h', b, s[1..]) % m == Fold(h, b, s) % m
  {
    FoldCongruent(h', b * h + s[0] as int, b, s[1..], m);
  }

  /** The wrapped recurrence: hash(s·c) mod m == (b*(hash(s) mod m) + c) mod m. */
  lemma WrappedSnoc(h: int, b: int, s: seq<char>, c: char, m: int)
    requires m > 0
    ensures Fold(h, b, s + [c]) % m == (b * (Fold(h, b, s) % m) + c as int) % m
  {
    var x := Fold(h, b, s);
    var r := x % m;
    FoldSnoc(h, b, s, c);
    assert 0 <= r < m;
    ModMultiple(0, r, m);
    StepCongruent(x, r, b, c as int, m);
  }

  // ---------------------------------------------------------------------------
  // Bounds: when the C accumulator never wraps
  // ---------------------------------------------------------------------------

  lemma {:induction false} CodeSumBound(s: seq<char>)
    requires IsAscii(s)
    ensures 0 <= CodeSum(s) <= 127 * |s|
    decreases s
  {
    if s != [] {
      assert IsAscii(s[1..]) by {
        forall k | 0 <= k < |s| - 1 ensures s[1..][k] as int < 128 {
          assert s[1..][k] == s[k + 1];
        }
      }
      CodeSumBound(s[1..]);
    }
  }

  /** On short seven-bit strings the 32-bit additive hash never wraps. */
  lemma SumHashFitsU32(s: seq<char>)
    requires IsAscii(s) && |s| <= 0x100_0000
    ensures 0 <= SumHash(s) < U32
  {
    SumHashIsCodeSum(s);
    CodeSumBound(s);
  }

  lemma {:induction false} PowMono(b: int, n: nat, k: nat)
    requires b >= 1 && n <= k
    ensures 1 <= Pow(b, n) <= Pow(b, k)
    decreases k
  {
    if k > 0 {
      if n < k {
        PowMono(b, n, k - 1);
      } else {
        PowMono(b, n - 1, k - 1);
      }
      assert Pow(b, k) == b * Pow(b, k - 1);
      assert b * Pow(b, k - 1) >= 1 * Pow(b, k - 1);
    }
  }

  /** A base-`b` fold over seven-bit codes grows at most by the factor `b` per character. */
  lemma {:induction false} FoldBound(h: int, b: int, s: seq<char>)
    requires b >= 2 && h >= 0 && IsAscii(s)
    ensures 0 <= Fold(h, b, s)
    ensures (b - 1) * Fold(h, b, s) + 127 <= ((b - 1) * h + 127) * Pow(b, |s|)
    decreases s
  {
    if s != [] {
      var c := s[0] as int;
      var h1 := b * h + c;
      assert IsAscii(s[1..]) by {
        forall k | 0 <= k < |s| - 1 ensures s[1..][k] as int < 128 {
          assert s[1..][k] == s[k + 1];
        }
      }
      FoldBoundStep(h, b, c);
      FoldBound(h1, b, s[1..]);
      var p := Pow(b, |s| - 1);
      PowMono(b, 0, |s| - 1);
      MulMono((b - 1) * h1 + 127, ((b - 1) * h + 127) * b, p);
      assert ((b - 1) * h + 127) * b * p == ((b - 1) * h + 127) * Pow(b, |s|);
    }
  }

  /** One character multiplies the bound by at most `b`. */
  lemma FoldBoundStep(h: int, b: int, c: int)
    requires b >= 2 && h >= 0 && 0 <= c < 128
    ensures b * h + c >= 0
    ensures (b - 1) * (b * h + c) + 127 <= ((b - 1) * h + 127) * b
  {
    var d, bh := b - 1, b * h;
    assert bh >= 0;
    assert d * (bh + c) == d * bh + d * c;
    assert (d * h + 127) * b == d * h * b + 127 * b;
    assert d * h * b == d * bh;
    MulMono(c, 127, d);
    assert c * d == d * c && 127 * d == d * 127;
  }

  lemma MulMono(x: int, y: int, p: int)
    requires x <= y && p >= 0
    ensures x * p <= y * p
  {
    assert (y - x) * p >= 0;
  }

  /** On seven-bit strings of at most 16 characters the 32-bit 3h+c hash never wraps. */
  lemma TripleHashFitsU32(s: seq<char>)
    requires IsAscii(s) && |s| <= 16
    ensures 0 <= TripleHash(s) < U32
  {
    FoldBound(0, 3, s);
    PowMono(3, |s|, 16);
    assert Pow(3, 14) == 4782969;
  }

  /** On seven-bit strings of at most 10 characters the 64-bit djb2 hash never wraps. */
  lemma Djb2FitsU64(s: seq<char>)
    requires IsAscii(s) && |s| <= 10
    ensures 0 <= Djb2(s) < U64
  {
    FoldBound(DJB2_SEED, 33, s);
    PowMono(33, |s|, 10);
    assert Pow(33, 10) == 1531578985264449;
  }

  // ---------------------------------------------------------------------------
  // Documented values
  // ---------------------------------------------------------------------------

  /** The usage example at the head of scripts/hash-functions.c (whose first line belongs to hash0). */
  lemma SamExample()
    ensures SumHash("sam") == 321
    ensures TripleHash("sam") == 1435
    ensures Djb2("sam") == 193505542
  {
  }
}
