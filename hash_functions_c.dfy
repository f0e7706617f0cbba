/**
 * scripts/hash-functions.c: the three hash loops in C.
 *
 * Each walks a NUL-terminated `char *` one character at a time, stops at the
 * first NUL, and keeps its accumulator in a fixed-width unsigned integer, so
 * every addition and shift wraps. Each method is proved to return the
 * unbounded hash of the string reduced modulo the accumulator's width.
 */
module HashFunctionsC {
  import opened CStrings
  import opened Hashes

  /** hash0: `h += c` in an `unsigned int`. */
  method Hash0(str: array<char>) returns (h: int)
    requires IsAsciiCString(str[..])
    ensures 0 <= h < U32
    ensures h == SumHash(CStr(str[..])) % U32
  {
    ghost var n := CLen(str[..]);
    h := 0;
    var i := 0;
    while str[i] != NUL
      invariant 0 <= i <= n
      invariant 0 <= h < U32
      invariant Fold(h, 1, str[i..n]) % U32 == SumHash(str[..n]) % U32
      decreases n - i
    {
      var c := str[i] as int;
      ghost var h0, rest := h, str[i..n];
      h := (h + c) % U32;
      FoldStepMod(h0, h, 1, rest, U32);
      assert rest[1..] == str[i + 1..n];
      i := i + 1;
    }
  }

  /** hash1: `h += (h << 1) + c` in an `unsigned int`, that is h := 3h + c modulo 2^32. */
  method Hash1(str: array<char>) returns (h: int)
    requires IsAsciiCString(str[..])
    ensures 0 <= h < U32
    ensures h == TripleHash(CStr(str[..])) % U32
  {
    ghost var n := CLen(str[..]);
    h := 0;
    var i := 0;
    while str[i] != NUL
      invariant 0 <= i <= n
      invariant 0 <= h < U32
      invariant Fold(h, 3, str[i..n]) % U32 == TripleHash(str[..n]) % U32
      decreases n - i
    {
      var c := str[i] as int;
      ghost var h0, rest := h, str[i..n];
      var shifted := (h * 2) % U32;
      h := (h + (shifted + c) % U32) % U32;
      TripleStepWraps(h0, c);
      FoldStepMod(h0, h, 3, rest, U32);
      assert rest[1..] == str[i + 1..n];
      i := i + 1;
    }
  }

  /** hash2: djb2, `h = ((h << 5) + h) + c` in a 64-bit `unsigned long`, seeded with 5381. */
  method Hash2(str: array<char>) returns (h: int)
    requires IsAsciiCString(str[..])
    ensures 0 <= h < U64
    ensures h == Djb2(CStr(str[..])) % U64
  {
    ghost var n := CLen(str[..]);
    h := 5381;
    var i := 0;
    while str[i] != NUL
      invariant 0 <= i <= n
      invariant 0 <= h < U64
      invariant Fold(h, 33, str[i..n]) % U64 == Djb2(str[..n]) % U64
      decreases n - i
    {
      var c := str[i] as int;
      ghost var h0, rest := h, str[i..n];
      var shifted := (h * 32) % U64;
      h := ((shifted + h) % U64 + c) % U64;
      Djb2StepWraps(h0, c);
      FoldStepMod(h0, h, 33, rest, U64);
      assert rest[1..] == str[i + 1..n];
      i := i + 1;
    }
  }

  /** The wrapped shift-and-add of hash1 is 3h + c modulo 2^32. */
  lemma TripleStepWraps(h: int, c: int)
    ensures (h + ((h * 2) % U32 + c) % U32) % U32 == (3 * h + c) % U32
  {
    AddMod(h, (h * 2) % U32 + c, U32);
    AddMod(h + c, h * 2, U32);
    assert h + ((h * 2) % U32 + c) == (h + c) + (h * 2) % U32;
  }

  /** The wrapped shift-and-add of hash2 is 33h + c modulo 2^64. */
  lemma Djb2StepWraps(h: int, c: int)
    ensures (((h * 32) % U64 + h) % U64 + c) % U64 == (33 * h + c) % U64
  {
    var x := (h * 32) % U64 + h;
    AddMod(c, x, U64);
    AddMod(h, h * 32, U64);
    assert h + (h * 32) % U64 == x;
    AddMod(c, h * 32 + h, U64);
    assert c + x % U64 == (x % U64 + c) && c + x == x + c;
  }
}
