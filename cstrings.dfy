/**
 * NUL-terminated C strings and the fixed widths of C's unsigned integers.
 *
 * A C string is modelled as the characters of a `char` buffer up to its first
 * NUL; every C hash loop in the repository reads exactly that prefix.
 */
module CStrings {

  const NUL: char := 0 as char

  /** 2^32: the modulus of a 32-bit `unsigned int`. */
  const U32: int := 0x1_0000_0000

  /** 2^64: the modulus of a 64-bit `unsigned long` (an LP64 platform). */
  const U64: int := 0x1_0000_0000_0000_0000

  /** A buffer that holds a C string: it contains a NUL somewhere. */
  predicate IsCString(s: seq<char>) {
    exists k :: 0 <= k < |s| && s[k] == NUL
  }

  /** `strlen`: the index of the first NUL. */
  function CLen(s: seq<char>): (n: nat)
    requires IsCString(s)
    ensures n < |s| && s[n] == NUL
    ensures forall k :: 0 <= k < n ==> s[k] != NUL
  {
    if s[0] == NUL then 0
    else
      assert IsCString(s[1..]) by {
        var k :| 0 <= k < |s| && s[k] == NUL;
        assert s[1..][k - 1] == NUL;
      }
      1 + CLen(s[1..])
  }

  /** The characters a C string denotes: everything before the first NUL. */
  function CStr(s: seq<char>): (r: seq<char>)
    requires IsCString(s)
    ensures NUL !in r
    ensures r + [NUL] <= s
  {
    s[..CLen(s)]
  }

  /** Seven-bit characters: the ones a C `char` holds with the same value whether it is signed or not. */
  predicate IsAscii(s: seq<char>) {
    forall k :: 0 <= k < |s| ==> s[k] as int < 128
  }

  /** A C string whose characters are all seven-bit. */
  predicate IsAsciiCString(s: seq<char>) {
    IsCString(s) && IsAscii(CStr(s))
  }

  /** The buffer `cs` followed by its terminating NUL is a C string denoting `cs`. */
  lemma {:induction false} Terminated(cs: seq<char>)
    requires NUL !in cs
    ensures IsCString(cs + [NUL]) && CStr(cs + [NUL]) == cs
  {
    assert (cs + [NUL])[|cs|] == NUL;
  }
}
