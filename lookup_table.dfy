/**
 * scripts/mk_lookup_table.py: the generator of the FUNC enum and of the
 * `select_default_function` switch.
 *
 * For each catalogue name the template emits an enumerator `NAME = hash(name)`
 * and a `case NAME:` that binds `psl_<name>` to the function slot; a symbol
 * whose hash matches no case leaves the slot as it was. The hash is the
 * additive one of psl.c.
 */
module LookupTable {
  import opened CStrings
  import opened Hashes
  import Psl

  /** The `names` list, in the order the template emits it. */
  const Names: seq<string> := [
    "rando", "airy_ai", "bessel", "clausen", "dawson",
    "debye_1", "debye_2", "debye_3", "debye_4"]

  /** The generator's `hash`: `h += ord(c)` over the characters. */
  method Hash(str: string) returns (h: int)
    ensures h == SumHash(str)
  {
    h := 0;
    for i := 0 to |str|
      invariant Fold(h, 1, str[i..]) == SumHash(str)
    {
      assert str[i..][1..] == str[i + 1..];
      h := h + str[i] as int;
    }
  }

  // ---------------------------------------------------------------------------
  // Python's str.upper() on ASCII text
  // ---------------------------------------------------------------------------

  predicate IsLowerLetter(c: char) {
    'a' <= c <= 'z'
  }

  predicate IsUpperLetter(c: char) {
    'A' <= c <= 'Z'
  }

  /** Upper-casing one ASCII character: lower-case letters move up by 32, the rest stay. */
  function UpperChar(c: char): (u: char)
    ensures !IsLowerLetter(u)
    ensures IsLowerLetter(c) ==> IsUpperLetter(u)
    ensures !IsLowerLetter(c) ==> u == c
  {
    if IsLowerLetter(c) then (c as int - 32) as char else c
  }

  /** `s.upper()` for ASCII `s`. */
  function Upper(s: string): (r: string)
    ensures |r| == |s|
    ensures forall k :: 0 <= k < |s| ==> r[k] == UpperChar(s[k])
  {
    if |s| == 0 then [] else [UpperChar(s[0])] + Upper(s[1..])
  }

  /** Upper-casing twice is upper-casing once. */
  lemma UpperIdempotent(s: string)
    ensures Upper(Upper(s)) == Upper(s)
  {
    assert forall k :: 0 <= k < |s| ==> Upper(Upper(s))[k] == Upper(s)[k];
  }

  lemma UpperCharInjective(c: char, d: char)
    requires !IsUpperLetter(c) && !IsUpperLetter(d)
    requires UpperChar(c) == UpperChar(d)
    ensures c == d
  {
    if IsLowerLetter(c) && IsLowerLetter(d) {
      assert c as int - 32 == d as int - 32;
    }
  }

  /** Strings without upper-case letters keep their identity under upper-casing. */
  lemma UpperInjective(s: string, t: string)
    requires forall k :: 0 <= k < |s| ==> !IsUpperLetter(s[k])
    requires forall k :: 0 <= k < |t| ==> !IsUpperLetter(t[k])
    requires Upper(s) == Upper(t)
    ensures s == t
  {
    forall k | 0 <= k < |s|
      ensures s[k] == t[k]
    {
      assert Upper(s)[k] == Upper(t)[k];
      UpperCharInjective(s[k], t[k]);
    }
  }

  // ---------------------------------------------------------------------------
  // The generated enum and switch
  // ---------------------------------------------------------------------------

  /** One line `NAME = value,` of the generated `enum FUNC`. */
  datatype Enumerator = Enumerator(ident: string, value: int)

  /** The body of the generated enum: one enumerator per name, in order. */
  function EnumBody(names: seq<string>): (r: seq<Enumerator>)
    ensures |r| == |names|
    ensures forall i :: 0 <= i < |names| ==> r[i].ident == Upper(names[i]) && r[i].value == SumHash(names[i])
  {
    if |names| == 0 then []
    else [Enumerator(Upper(names[0]), SumHash(names[0]))] + EnumBody(names[1..])
  }

  /** No two names share a hash: the switch's case labels are then all different. */
  predicate HashesDistinct(names: seq<string>) {
    forall i, j :: 0 <= i < j < |names| ==> SumHash(names[i]) != SumHash(names[j])
  }

  /**
   * What the generated switch leaves in the function slot when the symbol's
   * hash is `h` and the slot held `slot`: `psl_<name>` for the case whose
   * enumerator equals `h`, and `slot` unchanged through the empty default.
   */
  function SelectDefault(names: seq<string>, h: int, slot: string): (r: string)
    ensures (forall i :: 0 <= i < |names| ==> SumHash(names[i]) != h) ==> r == slot
    ensures r == slot || exists i :: 0 <= i < |names| && SumHash(names[i]) == h && r == "psl_" + names[i]
  {
    if |names| == 0 then slot
    else if SumHash(names[0]) == h then "psl_" + names[0]
    else
      var r := SelectDefault(names[1..], h, slot);
      assert r != slot ==> exists i :: 1 <= i < |names| && SumHash(names[i]) == h && r == "psl_" + names[i] by {
        if r != slot {
          var i :| 0 <= i < |names[1..]| && SumHash(names[1..][i]) == h && r == "psl_" + names[1..][i];
          assert names[1..][i] == names[i + 1];
        }
      }
      r
  }

  /** With distinct case labels, the hash of a listed name selects exactly that name's function. */
  lemma {:induction false} SelectFindsName(names: seq<string>, i: int, slot: string)
    requires HashesDistinct(names)
    requires 0 <= i < |names|
    ensures SelectDefault(names, SumHash(names[i]), slot) == "psl_" + names[i]
    decreases i
  {
    if i > 0 {
      assert SumHash(names[0]) != SumHash(names[i]);
      assert HashesDistinct(names[1..]) by {
        forall a, b | 0 <= a < b < |names[1..]|
          ensures SumHash(names[1..][a]) != SumHash(names[1..][b])
        {
          assert names[1..][a] == names[a + 1] && names[1..][b] == names[b + 1];
        }
      }
      SelectFindsName(names[1..], i - 1, slot);
      assert names[1..][i - 1] == names[i];
    }
  }

  // ---------------------------------------------------------------------------
  // The `names` catalogue
  // ---------------------------------------------------------------------------

  /** The hash of each catalogue name, in catalogue order. */
  const NameHashes: seq<int> := [532, 734, 638, 747, 652, 665, 666, 667, 668]

  /** Each generated enumerator's value is the hash of its name, and all of them are below 1000. */
  lemma NameHashTable(k: int)
    requires 0 <= k < |Names|
    ensures SumHash(Names[k]) == NameHashes[k]
    ensures 0 <= NameHashes[k] < 1000
  {
  }

  /** `debye_1` .. `debye_4` differ only in the last digit, so their hashes are consecutive. */
  lemma DebyeConsecutive()
    ensures forall k :: 5 <= k < 8 ==> SumHash(Names[k + 1]) == SumHash(Names[k]) + 1
  {
  }

  lemma NameHashesAllDifferent()
    ensures forall i, j :: 0 <= i < j < |NameHashes| ==> NameHashes[i] != NameHashes[j]
  {
  }

  /** The names hash to pairwise distinct values, so the generated switch is well formed. */
  lemma NamesHashesDistinct()
    ensures HashesDistinct(Names)
  {
    NameHashesAllDifferent();
    forall i, j | 0 <= i < j < |Names|
      ensures SumHash(Names[i]) != SumHash(Names[j])
    {
      NameHashTable(i);
      NameHashTable(j);
    }
  }

  lemma UpperSelectors()
    ensures Upper(Names[2]) == "BESSEL" && Upper(Names[4]) == "DAWSON"
  {
    assert Names[2] == "bessel" && Names[4] == "dawson";
  }

  lemma NamesHaveNoCapitals()
    ensures forall k, n :: 0 <= k < |Names| && 0 <= n < |Names[k]| ==> !IsUpperLetter(Names[k][n])
  {
  }

  /** The generated enumerator identifiers are pairwise distinct, so the enum declares no name twice. */
  lemma EnumIdentsDistinct()
    ensures forall i, j :: 0 <= i < j < |Names| ==> EnumBody(Names)[i].ident != EnumBody(Names)[j].ident
  {
    NamesHashesDistinct();
    NamesHaveNoCapitals();
    var e := EnumBody(Names);
    forall i, j | 0 <= i < j < |Names|
      ensures e[i].ident != e[j].ident
    {
      if Upper(Names[i]) == Upper(Names[j]) {
        UpperInjective(Names[i], Names[j]);
        assert false;
      }
    }
  }

  /** The generated BESSEL and DAWSON enumerators carry the values hard-coded in psl.c. */
  lemma EnumAgreesWithPsl()
    ensures EnumBody(Names)[2] == Enumerator("BESSEL", Psl.BESSEL)
    ensures EnumBody(Names)[4] == Enumerator("DAWSON", Psl.DAWSON)
  {
    var e := EnumBody(Names);
    NameHashTable(2);
    NameHashTable(4);
    UpperSelectors();
  }

  /**
   * Run on the 32-bit hash of a catalogue name, as the generated C switch
   * computes it, the switch binds that name's function whatever the slot held.
   */
  lemma SwitchBindsEachName(k: int, slot: string)
    requires 0 <= k < |Names|
    ensures SelectDefault(Names, SumHash(Names[k]) % U32, slot) == "psl_" + Names[k]
  {
    NameHashTable(k);
    var h := SumHash(Names[k]);
    assert h % U32 == h;
    NamesHashesDistinct();
    SelectFindsName(Names, k, slot);
  }
}
