/**
 * tests/demo.c: a stand-alone rehearsal of the psl dispatch. `hash2` is the
 * additive hash in an `unsigned int`, and `dispatch` switches on it against
 * the same BESSEL and DAWSON constants as psl.c, printing the branch taken.
 */
module Demo {
  import opened CStrings
  import opened Hashes
  import Psl

  /** The line `dispatch` prints: which branch of its switch was taken. */
  datatype Branch = BesselBranch | DawsonBranch | DefaultBranch

  /** hash2: `hash += c` in an `unsigned int`, up to the first NUL. */
  method Hash2(str: array<char>) returns (h: int)
    requires IsAsciiCString(str[..])
    ensures 0 <= h < U32
    ensures h == SumHash(CStr(str[..])) % U32
  {
    ghost var n := CLen(str[..]);
    h := 0;
    var i := 0;
    while str[i] != NUL
      invariant 0 <= i <= n
      invariant 0 <= h < U32
      invariant Fold(h, 1, str[i..n]) % U32 == SumHash(str[..n]) % U32
      decreases n - i
    {
      var c := str[i] as int;
      ghost var h0, rest := h, str[i..n];
      h := (h + c) % U32;
      FoldStepMod(h0, h, 1, rest, U32);
      assert rest[1..] == str[i + 1..n];
      i := i + 1;
    }
  }

  /** The switch in `dispatch`: exactly one branch is taken for every hash value. */
  function Select(h: int): (b: Branch)
    ensures b == BesselBranch <==> h == Psl.BESSEL
    ensures b == DawsonBranch <==> h == Psl.DAWSON
    ensures b == DefaultBranch <==> h != Psl.BESSEL && h != Psl.DAWSON
  {
    if h == Psl.BESSEL then BesselBranch
    else if h == Psl.DAWSON then DawsonBranch
    else DefaultBranch
  }

  /** dispatch: hash the string, then take the branch of the switch. */
  method Dispatch(str: array<char>) returns (b: Branch)
    requires IsAsciiCString(str[..])
    ensures b == Select(SumHash(CStr(str[..])) % U32)
    ensures b == DefaultBranch <==> Psl.Resolve(CStr(str[..])) == Psl.Bessel && SumHash(CStr(str[..])) % U32 != Psl.BESSEL
  {
    var h := Hash2(str);
    b := Select(h);
  }

  /** The values `main` prints, and the branch `dispatch("bessel")` takes. */
  lemma MainRun()
    ensures SumHash("bessel") == 638 == Psl.BESSEL
    ensures SumHash("dawson") == 652 == Psl.DAWSON
    ensures SumHash("coulombe") == 854
    ensures Select(SumHash("bessel") % U32) == BesselBranch
    ensures Select(SumHash("coulombe") % U32) == DefaultBranch
  {
  }
}
