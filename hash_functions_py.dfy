/**
 * scripts/hash-functions.py: the same three hash families over Python's
 * unbounded integers, the reference the C loops are compared with.
 */
module HashFunctionsPy {
  import opened Hashes

  /** hash1: `h += ord(c)`, the sum of the character codes. */
  method Hash1(str: string) returns (h: int)
    ensures h == SumHash(str)
  {
    h := 0;
    for i := 0 to |str|
      invariant Fold(h, 1, str[i..]) == SumHash(str)
    {
      assert str[i..][1..] == str[i + 1..];
      h := h + str[i] as int;
    }
  }

  /** hash2: `h += (h << 1) + ord(c)`, that is h := 3h + c. */
  method Hash2(str: string) returns (h: int)
    ensures h == TripleHash(str)
  {
    h := 0;
    for i := 0 to |str|
      invariant Fold(h, 3, str[i..]) == TripleHash(str)
    {
      assert str[i..][1..] == str[i + 1..];
      h := h + (h * 2 + str[i] as int);
    }
  }

  /** hash3: djb2, `h = ((h << 5) + h) + ord(c)` from 5381. */
  method Hash3(str: string) returns (h: int)
    ensures h == Djb2(str)
  {
    h := 5381;
    for i := 0 to |str|
      invariant Fold(h, 33, str[i..]) == Djb2(str)
    {
      assert str[i..][1..] == str[i + 1..];
      h := (h * 32 + h) + str[i] as int;
    }
  }
}
