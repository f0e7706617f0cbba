/**
 * scripts/render.py: the operation catalogue the C source is generated from.
 *
 * Each entry gives an operation's arity (`nargs`), its Pd name and, when it
 * differs, the GSL function it wraps. The script hashes names with the 3h+c
 * hash; the lemmas below show why the additive hash of psl.c would not do for
 * this catalogue and the 3h+c hash does.
 */
module Render {
  import opened Wrappers
  import opened CStrings
  import opened Hashes

  /** SKIP_FUNCS */
  const SkipFuncs: seq<string> := ["rando", "airy_ai", "airy_bi", "add"]

  /** A `Func`: what its `__init__` stores. `funcName` is None for Python's `None`. */
  datatype Func = Func(nargs: int, name: string, funcName: Option<string>) {

    /** Func.hashed: the 3h+c hash of the entry's name. */
    method Hashed() returns (h: int)
      ensures h == TripleHash(name)
    {
      h := 0;
      for i := 0 to |name|
        invariant Fold(h, 3, name[i..]) == TripleHash(name)
      {
        assert name[i..][1..] == name[i + 1..];
        h := h + (h * 2 + name[i] as int);
      }
    }

    /** Func.ftype: the Pd function type for the arity; any other arity raises KeyError (None). */
    function Ftype(): (r: Option<string>)
      ensures r.Some? <==> 1 <= nargs <= 3
      ensures r.Some? ==> |r.value| == 5 && r.value[1..] == "func"
    {
      if nargs == 1 then Some("ufunc")
      else if nargs == 2 then Some("bfunc")
      else if nargs == 3 then Some("tfunc")
      else None
    }

    /** Func.slots: `nargs` copies of "A_DEFFLOAT" joined by ", ". */
    function Slots(): (r: string)
      ensures nargs <= 0 ==> r == ""
    {
      Join(Repeat("A_DEFFLOAT", nargs), ", ")
    }

    /** Func.fullname: the GSL name when one is given and non-empty (truthy), else the Pd name. */
    function Fullname(): (r: string)
      ensures funcName.Some? && funcName.value != "" ==> r == funcName.value
      ensures funcName.None? || funcName.value == "" ==> r == name
    {
      match funcName
      case Some(fn) => if fn != "" then fn else name
      case None => name
    }
  }

  /** Different arities get different function types, so `ftype` can be read back as the arity. */
  lemma FtypeDeterminesArity(f: Func, g: Func)
    requires f.Ftype().Some? && g.Ftype().Some?
    ensures f.Ftype() == g.Ftype() <==> f.nargs == g.nargs
  {
    if f.nargs != g.nargs {
      assert f.Ftype().value[0] != g.Ftype().value[0];
    }
  }

  /** `[x] * n` */
  function Repeat(x: string, n: int): (r: seq<string>)
    ensures |r| == if n <= 0 then 0 else n
    ensures forall k :: 0 <= k < |r| ==> r[k] == x
    decreases if n <= 0 then 0 else n
  {
    if n <= 0 then [] else [x] + Repeat(x, n - 1)
  }

  /** `sep.join(parts)`: empty for no parts, otherwise opened by the first part. */
  function Join(parts: seq<string>, sep: string): (r: string)
    ensures parts == [] ==> r == ""
    ensures |parts| >= 1 ==> parts[0] <= r
  {
    if parts == [] then ""
    else if |parts| == 1 then parts[0]
    else parts[0] + sep + Join(parts[1..], sep)
  }

  /** The number of times `c` occurs in `s`. */
  function Count(s: string, c: char): nat {
    if s == [] then 0 else (if s[0] == c then 1 else 0) + Count(s[1..], c)
  }

  lemma {:induction false} CountAppend(s: string, t: string, c: char)
    ensures Count(s + t, c) == Count(s, c) + Count(t, c)
    decreases s
  {
    if s == [] {
      assert s + t == t;
    } else {
      assert (s + t)[0] == s[0] && (s + t)[1..] == s[1..] + t;
      CountAppend(s[1..], t, c);
    }
  }

  /** The total number of occurrences of `c` over all of `parts`. */
  function SumCount(parts: seq<string>, c: char): nat {
    if parts == [] then 0 else Count(parts[0], c) + SumCount(parts[1..], c)
  }

  /** The total length of all of `parts`. */
  function SumLength(parts: seq<string>): nat {
    if parts == [] then 0 else |parts[0]| + SumLength(parts[1..])
  }

  /**
   * Joining `k >= 1` parts puts `k - 1` separators between them: the joined
   * string holds each part's characters and `k - 1` copies of the separator's.
   */
  lemma {:induction false} JoinShape(parts: seq<string>, sep: string, c: char)
    requires |parts| >= 1
    ensures Count(Join(parts, sep), c) == SumCount(parts, c) + (|parts| - 1) * Count(sep, c)
    ensures |Join(parts, sep)| == SumLength(parts) + (|parts| - 1) * |sep|
    decreases |parts|
  {
    if |parts| > 1 {
      var tail := parts[1..];
      var rest := Join(tail, sep);
      assert Join(parts, sep) == parts[0] + sep + rest;
      JoinShape(tail, sep, c);
      CountAppend(parts[0] + sep, rest, c);
      CountAppend(parts[0], sep, c);
      MulPred(|tail|, Count(sep, c));
      MulPred(|tail|, |sep|);
    }
  }

  /** `n` copies of `x` hold `n` times the characters of `x`. */
  lemma {:induction false} RepeatSums(x: string, n: int, c: char)
    requires n >= 0
    ensures SumCount(Repeat(x, n), c) == n * Count(x, c)
    ensures SumLength(Repeat(x, n)) == n * |x|
    decreases n
  {
    if n > 0 {
      var r := Repeat(x, n);
      assert r[0] == x && r[1..] == Repeat(x, n - 1);
      RepeatSums(x, n - 1, c);
      MulPred(n, Count(x, c));
      MulPred(n, |x|);
    }
  }

  lemma MulPred(n: int, k: int)
    ensures n * k == k + (n - 1) * k
  {
  }

  /** The slot list of an arity-`n` entry has `n - 1` separators and `12n - 2` characters. */
  lemma SlotsShape(f: Func)
    requires f.nargs >= 1
    ensures Count(f.Slots(), ',') == f.nargs - 1
    ensures |f.Slots()| == 12 * f.nargs - 2
  {
    var n, x, sep := f.nargs, "A_DEFFLOAT", ", ";
    var parts := Repeat(x, n);
    assert f.Slots() == Join(parts, sep);
    SlotLiterals();
    JoinShape(parts, sep, ',');
    RepeatSums(x, n, ',');
  }

  lemma SlotLiterals()
    ensures Count("A_DEFFLOAT", ',') == 0 && |"A_DEFFLOAT"| == 10
    ensures Count(", ", ',') == 1 && |", "| == 2
  {
  }

  /** render.py's module-level `hash`: `h += (h << 1) + ord(c)`. */
  method Hash(str: string) returns (h: int)
    ensures h == TripleHash(str)
  {
    h := 0;
    for i := 0 to |str|
      invariant Fold(h, 3, str[i..]) == TripleHash(str)
    {
      assert str[i..][1..] == str[i + 1..];
      h := h + (h * 2 + str[i] as int);
    }
  }

  /** items */
  const Items: seq<Func> := [
    Func(2, "add", None),
    Func(1, "log1p", None),
    Func(1, "expm1", None),
    Func(2, "hypot", None),
    Func(3, "hypot3", None),
    Func(1, "acosh", None),
    Func(1, "asinh", None),
    Func(1, "atanh", None),
    Func(2, "ldexp", None),
    Func(2, "pow_int", None),
    Func(1, "pow_2", None),
    Func(1, "pow_3", None),
    Func(1, "pow_4", None),
    Func(1, "pow_5", None),
    Func(1, "pow_6", None),
    Func(1, "pow_7", None),
    Func(1, "pow_8", None),
    Func(1, "pow_9", None),
    Func(2, "rando", None),
    Func(3, "fcmp", None),
    Func(1, "airy_ai", Some("sf_airy_Ai")),
    Func(1, "airy_bi", Some("sf_airy_Bi")),
    Func(1, "bessel_j0", Some("sf_bessel_J0")),
    Func(1, "bessel_j1", Some("sf_bessel_J1")),
    Func(2, "bessel_jn", Some("sf_bessel_Jn")),
    Func(1, "bessel_y0", Some("sf_bessel_Y0")),
    Func(1, "bessel_y1", Some("sf_bessel_Y1")),
    Func(2, "bessel_yn", Some("sf_bessel_Yn")),
    Func(1, "bessel_i0", Some("sf_bessel_I0")),
    Func(1, "bessel_i1", Some("sf_bessel_I1")),
    Func(2, "bessel_in", Some("sf_bessel_In")),
    Func(1, "clausen", Some("sf_clausen")),
    Func(1, "dawson", Some("sf_dawson")),
    Func(1, "debye_1", Some("sf_debye_1")),
    Func(1, "debye_2", Some("sf_debye_2")),
    Func(1, "debye_3", Some("sf_debye_3")),
    Func(1, "debye_4", Some("sf_debye_4"))
  ]

  // ---------------------------------------------------------------------------
  // Properties of the catalogue
  // ---------------------------------------------------------------------------

  /** Every entry has an arity in {1, 2, 3}, so `ftype` is defined on the whole catalogue. */
  lemma ItemsHaveFtype()
    ensures forall i :: 0 <= i < |Items| ==> 1 <= Items[i].nargs <= 3 && Items[i].Ftype().Some?
  {
  }

  /** Every skipped name is a catalogue entry. */
  lemma SkipFuncsListed()
    ensures forall k :: 0 <= k < |SkipFuncs| ==> exists i :: 0 <= i < |Items| && Items[i].name == SkipFuncs[k]
  {
    assert Items[18].name == SkipFuncs[0];
    assert Items[20].name == SkipFuncs[1];
    assert Items[21].name == SkipFuncs[2];
    assert Items[0].name == SkipFuncs[3];
  }

  /**
   * The name column of the catalogue, in catalogue order. It repeats `Items`
   * only to keep the distinctness proofs cheap: indexing a list of strings costs
   * the solver far less than indexing the list of records. `ItemNamesColumn`
   * ties the two together.
   */
  const ItemNames: seq<string> := [
    "add", "log1p", "expm1", "hypot", "hypot3", "acosh",
    "asinh", "atanh", "ldexp", "pow_int", "pow_2", "pow_3",
    "pow_4", "pow_5", "pow_6", "pow_7", "pow_8", "pow_9",
    "rando", "fcmp", "airy_ai", "airy_bi", "bessel_j0", "bessel_j1",
    "bessel_jn", "bessel_y0", "bessel_y1", "bessel_yn", "bessel_i0", "bessel_i1",
    "bessel_in", "clausen", "dawson", "debye_1", "debye_2", "debye_3",
    "debye_4"]

  lemma ItemNamesColumn()
    ensures |ItemNames| == |Items|
    ensures forall i :: 0 <= i < |Items| ==> Items[i].name == ItemNames[i]
  {
  }

  lemma NamesDistinctFrom0()
    ensures forall i, j :: 0 <= i < 2 && i < j < |ItemNames| ==> ItemNames[i] != ItemNames[j]
  {
  }

  lemma NamesDistinctFrom2()
    ensures forall i, j :: 2 <= i < 4 && i < j < |ItemNames| ==> ItemNames[i] != ItemNames[j]
  {
  }

  lemma NamesDistinctFrom4()
    ensures forall i, j :: 4 <= i < 7 && i < j < |ItemNames| ==> ItemNames[i] != ItemNames[j]
  {
  }

  lemma NamesDistinctFrom7()
    ensures forall i, j :: 7 <= i < 10 && i < j < |ItemNames| ==> ItemNames[i] != ItemNames[j]
  {
  }

  lemma NamesDistinctFrom10()
    ensures forall i, j :: 10 <= i < 14 && i < j < |ItemNames| ==> ItemNames[i] != ItemNames[j]
  {
  }

  lemma NamesDistinctFrom14()
    ensures forall i, j :: 14 <= i < 21 && i < j < |ItemNames| ==> ItemNames[i] != ItemNames[j]
  {
  }

  lemma NamesDistinctFrom21()
    ensures forall i, j :: 21 <= i < j < |ItemNames| ==> ItemNames[i] != ItemNames[j]
  {
  }

  lemma ItemNamesLiteralDistinct()
    ensures forall i, j :: 0 <= i < j < |ItemNames| ==> ItemNames[i] != ItemNames[j]
  {
    NamesDistinctFrom0();
    NamesDistinctFrom2();
    NamesDistinctFrom4();
    NamesDistinctFrom7();
    NamesDistinctFrom10();
    NamesDistinctFrom14();
    NamesDistinctFrom21();
  }

  /** The names in the catalogue are pairwise distinct. */
  lemma ItemNamesDistinct()
    ensures forall i, j :: 0 <= i < j < |Items| ==> Items[i].name != Items[j].name
  {
    ItemNamesColumn();
    ItemNamesLiteralDistinct();
  }

  /** The 3h+c hash of each catalogue name, in catalogue order. */
  const ItemHashes: seq<int> := [
    1273, 12931, 12805, 13148, 39495, 11978, 12341, 12296,
    12829, 122216, 13475, 13476, 13477, 13478, 13479, 13480,
    13481, 13482, 13254, 4084, 109980, 109983, 987963, 987964,
    988025, 988008, 988009, 988070, 987960, 987961, 988022, 110879,
    36848, 109891, 109892, 109893, 109894]

  // One row of the hash table per lemma; `ItemHashTable` dispatches on the row.
  lemma ItemHash0()
    ensures TripleHash(ItemNames[0]) == ItemHashes[0]
  {
    assert ItemNames[0] == "add";
    assert TripleHash("add") == 1273;
  }

  lemma ItemHash1()
    ensures TripleHash(ItemNames[1]) == ItemHashes[1]
  {
    assert ItemNames[1] == "log1p";
    assert TripleHash("log1p") == 12931;
  }

  lemma ItemHash2()
    ensures TripleHash(ItemNames[2]) == ItemHashes[2]
  {
    assert ItemNames[2] == "expm1";
    assert TripleHash("expm1") == 12805;
  }

  lemma ItemHash3()
    ensures TripleHash(ItemNames[3]) == ItemHashes[3]
  {
    assert ItemNames[3] == "hypot";
    assert TripleHash("hypot") == 13148;
  }

  lemma ItemHash4()
    ensures TripleHash(ItemNames[4]) == ItemHashes[4]
  {
    assert ItemNames[4] == "hypot3";
    assert TripleHash("hypot3") == 39495;
  }

  lemma ItemHash5()
    ensures TripleHash(ItemNames[5]) == ItemHashes[5]
  {
    assert ItemNames[5] == "acosh";
    assert TripleHash("acosh") == 11978;
  }

  lemma ItemHash6()
    ensures TripleHash(ItemNames[6]) == ItemHashes[6]
  {
    assert ItemNames[6] == "asinh";
    assert TripleHash("asinh") == 12341;
  }

  lemma ItemHash7()
    ensures TripleHash(ItemNames[7]) == ItemHashes[7]
  {
    assert ItemNames[7] == "atanh";
    assert TripleHash("atanh") == 12296;
  }

  lemma ItemHash8()
    ensures TripleHash(ItemNames[8]) == ItemHashes[8]
  {
    assert ItemNames[8] == "ldexp";
    assert TripleHash("ldexp") == 12829;
  }

  lemma ItemHash9()
    ensures TripleHash(ItemNames[9]) == ItemHashes[9]
  {
    assert ItemNames[9] == "pow_int";
    assert TripleHash("pow_int") == 122216;
  }

  lemma ItemHash10()
    ensures TripleHash(ItemNames[10]) == ItemHashes[10]
  {
    assert ItemNames[10] == "pow_2";
    assert TripleHash("pow_2") == 13475;
  }

  lemma ItemHash11()
    ensures TripleHash(ItemNames[11]) == ItemHashes[11]
  {
    assert ItemNames[11] == "pow_3";
    assert TripleHash("pow_3") == 13476;
  }

  lemma ItemHash12()
    ensures TripleHash(ItemNames[12]) == ItemHashes[12]
  {
    assert ItemNames[12] == "pow_4";
    assert TripleHash("pow_4") == 13477;
  }

  lemma ItemHash13()
    ensures TripleHash(ItemNames[13]) == ItemHashes[13]
  {
    assert ItemNames[13] == "pow_5";
    assert TripleHash("pow_5") == 13478;
  }

  lemma ItemHash14()
    ensures TripleHash(ItemNames[14]) == ItemHashes[14]
  {
    assert ItemNames[14] == "pow_6";
    assert TripleHash("pow_6") == 13479;
  }

  lemma ItemHash15()
    ensures TripleHash(ItemNames[15]) == ItemHashes[15]
  {
    assert ItemNames[15] == "pow_7";
    assert TripleHash("pow_7") == 13480;
  }

  lemma ItemHash16()
    ensures TripleHash(ItemNames[16]) == ItemHashes[16]
  {
    assert ItemNames[16] == "pow_8";
    assert TripleHash("pow_8") == 13481;
  }

  lemma ItemHash17()
    ensures TripleHash(ItemNames[17]) == ItemHashes[17]
  {
    assert ItemNames[17] == "pow_9";
    assert TripleHash("pow_9") == 13482;
  }

  lemma ItemHash18()
    ensures TripleHash(ItemNames[18]) == ItemHashes[18]
  {
    assert ItemNames[18] == "rando";
    assert TripleHash("rando") == 13254;
  }

  lemma ItemHash19()
    ensures TripleHash(ItemNames[19]) == ItemHashes[19]
  {
    assert ItemNames[19] == "fcmp";
    assert TripleHash("fcmp") == 4084;
  }

  lemma ItemHash20()
    ensures TripleHash(ItemNames[20]) == ItemHashes[20]
  {
    assert ItemNames[20] == "airy_ai";
    assert TripleHash("airy_ai") == 109980;
  }

  lemma ItemHash21()
    ensures TripleHash(ItemNames[21]) == ItemHashes[21]
  {
    assert ItemNames[21] == "airy_bi";
    assert TripleHash("airy_bi") == 109983;
  }

  lemma ItemHash22()
    ensures TripleHash(ItemNames[22]) == ItemHashes[22]
  {
    assert ItemNames[22] == "bessel_j0";
    assert TripleHash("bessel_j0") == 987963;
  }

  lemma ItemHash23()
    ensures TripleHash(ItemNames[23]) == ItemHashes[23]
  {
    assert ItemNames[23] == "bessel_j1";
    assert TripleHash("bessel_j1") == 987964;
  }

  lemma ItemHash24()
    ensures TripleHash(ItemNames[24]) == ItemHashes[24]
  {
    assert ItemNames[24] == "bessel_jn";
    assert TripleHash("bessel_jn") == 988025;
  }

  lemma ItemHash25()
    ensures TripleHash(ItemNames[25]) == ItemHashes[25]
  {
    assert ItemNames[25] == "bessel_y0";
    assert TripleHash("bessel_y0") == 988008;
  }

  lemma ItemHash26()
    ensures TripleHash(ItemNames[26]) == ItemHashes[26]
  {
    assert ItemNames[26] == "bessel_y1";
    assert TripleHash("bessel_y1") == 988009;
  }

  lemma ItemHash27()
    ensures TripleHash(ItemNames[27]) == ItemHashes[27]
  {
    assert ItemNames[27] == "bessel_yn";
    assert TripleHash("bessel_yn") == 988070;
  }

  lemma ItemHash28()
    ensures TripleHash(ItemNames[28]) == ItemHashes[28]
  {
    assert ItemNames[28] == "bessel_i0";
    assert TripleHash("bessel_i0") == 987960;
  }

  lemma ItemHash29()
    ensures TripleHash(ItemNames[29]) == ItemHashes[29]
  {
    assert ItemNames[29] == "bessel_i1";
    assert TripleHash("bessel_i1") == 987961;
  }

  lemma ItemHash30()
    ensures TripleHash(ItemNames[30]) == ItemHashes[30]
  {
    assert ItemNames[30] == "bessel_in";
    assert TripleHash("bessel_in") == 988022;
  }

  lemma ItemHash31()
    ensures TripleHash(ItemNames[31]) == ItemHashes[31]
  {
    assert ItemNames[31] == "clausen";
    assert TripleHash("clausen") == 110879;
  }

  lemma ItemHash32()
    ensures TripleHash(ItemNames[32]) == ItemHashes[32]
  {
    assert ItemNames[32] == "dawson";
    assert TripleHash("dawson") == 36848;
  }

  lemma ItemHash33()
    ensures TripleHash(ItemNames[33]) == ItemHashes[33]
  {
    assert ItemNames[33] == "debye_1";
    assert TripleHash("debye_1") == 109891;
  }

  lemma ItemHash34()
    ensures TripleHash(ItemNames[34]) == ItemHashes[34]
  {
    assert ItemNames[34] == "debye_2";
    assert TripleHash("debye_2") == 109892;
  }

  lemma ItemHash35()
    ensures TripleHash(ItemNames[35]) == ItemHashes[35]
  {
    assert ItemNames[35] == "debye_3";
    assert TripleHash("debye_3") == 109893;
  }

  lemma ItemHash36()
    ensures TripleHash(ItemNames[36]) == ItemHashes[36]
  {
    assert ItemNames[36] == "debye_4";
    assert TripleHash("debye_4") == 109894;
  }

  /** The table holds no value twice (proved in blocks of rows). */
  lemma HashesDistinctFrom0()
    ensures forall i, j :: 0 <= i < 2 && i < j < |ItemHashes| ==> ItemHashes[i] != ItemHashes[j]
  {
  }

  lemma HashesDistinctFrom2()
    ensures forall i, j :: 2 <= i < 4 && i < j < |ItemHashes| ==> ItemHashes[i] != ItemHashes[j]
  {
  }

  lemma HashesDistinctFrom4()
    ensures forall i, j :: 4 <= i < 8 && i < j < |ItemHashes| ==> ItemHashes[i] != ItemHashes[j]
  {
  }

  lemma HashesDistinctFrom8()
    ensures forall i, j :: 8 <= i < 13 && i < j < |ItemHashes| ==> ItemHashes[i] != ItemHashes[j]
  {
  }

  lemma HashesDistinctFrom13()
    ensures forall i, j :: 13 <= i < 19 && i < j < |ItemHashes| ==> ItemHashes[i] != ItemHashes[j]
  {
  }

  lemma HashesDistinctFrom19()
    ensures forall i, j :: 19 <= i < 26 && i < j < |ItemHashes| ==> ItemHashes[i] != ItemHashes[j]
  {
  }

  lemma HashesDistinctFrom26()
    ensures forall i, j :: 26 <= i < j < |ItemHashes| ==> ItemHashes[i] != ItemHashes[j]
  {
  }

  /**
   * Looks up one row of the hash table. The rows are split into one lemma each
   * (`ItemHash0` .. `ItemHash36`) so that the solver evaluates one literal hash
   * at a time: evaluating several in one proof is far more expensive.
   */
  lemma ItemHashTable(k: int)
    requires 0 <= k < |ItemNames|
    ensures TripleHash(ItemNames[k]) == ItemHashes[k]
  {
    if k == 0 {
      ItemHash0();
    } else if k == 1 {
      ItemHash1();
    } else if k == 2 {
      ItemHash2();
    } else if k == 3 {
      ItemHash3();
    } else if k == 4 {
      ItemHash4();
    } else if k == 5 {
      ItemHash5();
    } else if k == 6 {
      ItemHash6();
    } else if k == 7 {
      ItemHash7();
    } else if k == 8 {
      ItemHash8();
    } else if k == 9 {
      ItemHash9();
    } else if k == 10 {
      ItemHash10();
    } else if k == 11 {
      ItemHash11();
    } else if k == 12 {
      ItemHash12();
    } else if k == 13 {
      ItemHash13();
    } else if k == 14 {
      ItemHash14();
    } else if k == 15 {
      ItemHash15();
    } else if k == 16 {
      ItemHash16();
    } else if k == 17 {
      ItemHash17();
    } else if k == 18 {
      ItemHash18();
    } else if k == 19 {
      ItemHash19();
    } else if k == 20 {
      ItemHash20();
    } else if k == 21 {
      ItemHash21();
    } else if k == 22 {
      ItemHash22();
    } else if k == 23 {
      ItemHash23();
    } else if k == 24 {
      ItemHash24();
    } else if k == 25 {
      ItemHash25();
    } else if k == 26 {
      ItemHash26();
    } else if k == 27 {
      ItemHash27();
    } else if k == 28 {
      ItemHash28();
    } else if k == 29 {
      ItemHash29();
    } else if k == 30 {
      ItemHash30();
    } else if k == 31 {
      ItemHash31();
    } else if k == 32 {
      ItemHash32();
    } else if k == 33 {
      ItemHash33();
    } else if k == 34 {
      ItemHash34();
    } else if k == 35 {
      ItemHash35();
    } else {
      ItemHash36();
    }
  }

  /**
   * The 3h+c hashes of the catalogue names are pairwise distinct, so the `switch`
   * generated from them has no duplicate case label.
   */
  lemma ItemHashesDistinct()
    ensures forall i, j :: 0 <= i < j < |Items| ==> TripleHash(Items[i].name) != TripleHash(Items[j].name)
  {
    ItemNamesColumn();
    HashesDistinctFrom0();
    HashesDistinctFrom2();
    HashesDistinctFrom4();
    HashesDistinctFrom8();
    HashesDistinctFrom13();
    HashesDistinctFrom19();
    HashesDistinctFrom26();
    forall i, j | 0 <= i < j < |Items|
      ensures TripleHash(Items[i].name) != TripleHash(Items[j].name)
    {
      ItemHashTable(i);
      ItemHashTable(j);
    }
  }

  /** "expm1" and "pow_6" have the same additive hash. */
  lemma ExpmPowCollide()
    ensures SumHash("expm1") == SumHash("pow_6") == 491
  {
  }

  /** "bessel_j0" and "bessel_i1" have the same additive hash: 'j' + '0' == 'i' + '1'. */
  lemma BesselCollide()
    ensures SumHash("bessel_j0") == SumHash("bessel_i1")
  {
    assert CodeSum("j0") == CodeSum("i1");
    SumHashCommonPrefix("bessel_", "j0", "i1");
    assert "bessel_" + "j0" == "bessel_j0" && "bessel_" + "i1" == "bessel_i1";
  }

  lemma CollidingEntries()
    ensures ItemNames[2] == "expm1" && ItemNames[14] == "pow_6"
    ensures ItemNames[22] == "bessel_j0" && ItemNames[29] == "bessel_i1"
  {
  }

  /**
   * The additive hash of psl.c collides on this catalogue (two pairs of distinct entries),
   * so a switch on it would carry duplicate cases.
   */
  lemma AdditiveHashCollides()
    ensures ItemNames[2] != ItemNames[14] && SumHash(ItemNames[2]) == SumHash(ItemNames[14])
    ensures ItemNames[22] != ItemNames[29] && SumHash(ItemNames[22]) == SumHash(ItemNames[29])
  {
    CollidingEntries();
    ExpmPowCollide();
    BesselCollide();
  }
}
