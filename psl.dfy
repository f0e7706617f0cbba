/**
 * psl.c: the Pure Data external `psl`.
 *
 * At creation the object hashes its creation symbol with the additive hash and
 * binds one function to its function slot; every incoming float is then sent
 * through that function and the result goes out of the float outlet. The
 * special functions and the Mersenne Twister come from GSL, which is foreign
 * code: the model receives them as a `Gsl` record of functions.
 */
module Psl {
  import opened CStrings
  import opened Hashes

  /** The enum FUNC constants: the additive hashes of "bessel" and "dawson". */
  const BESSEL: int := 638
  const DAWSON: int := 652

  /** The targets a `simplefunc` slot can hold: psl_airy_ai .. psl_debye_4. */
  datatype SimpleFunc = AiryAi | AiryBi | Bessel | Clausen | Dawson | Debye1 | Debye2 | Debye3 | Debye4

  /**
   * The GSL routines the object calls. `uniform(seed, k)` is the k-th value
   * (counting from 0) drawn from a freshly allocated MT19937 generator that
   * was seeded with `seed`.
   */
  datatype Gsl = Gsl(
    airyAi: real -> real,
    airyBi: real -> real,
    besselJ0: real -> real,
    clausen: real -> real,
    dawson: real -> real,
    debye1: real -> real,
    debye2: real -> real,
    debye3: real -> real,
    debye4: real -> real,
    uniform: (real, nat) -> real)

  /** The value each psl_<name> function sends out for input `f`. */
  function Eval(lib: Gsl, fn: SimpleFunc, f: real): real {
    match fn
    case AiryAi => lib.airyAi(f)
    case AiryBi => lib.airyBi(f)
    case Bessel => lib.besselJ0(f)
    case Clausen => lib.clausen(f)
    case Dawson => lib.dawson(f)
    case Debye1 => lib.debye1(f)
    case Debye2 => lib.debye2(f)
    case Debye3 => lib.debye3(f)
    case Debye4 => lib.debye4(f)
  }

  /** Pd atoms, the elements of a list message. */
  datatype Atom = FloatAtom(f: real) | SymbolAtom(name: string)

  /**
   * The function slot psl_new binds for a creation symbol: the switch on the
   * 32-bit additive hash, with psl_bessel as both the BESSEL case and the default.
   */
  function Resolve(name: string): (r: SimpleFunc)
    ensures r == Bessel || r == Dawson
    ensures r == Dawson <==> SumHash(name) % U32 == DAWSON
  {
    var h := SumHash(name) % U32;
    if h == BESSEL then Bessel
    else if h == DAWSON then Dawson
    else Bessel
  }

  /** How many times `for (int i = 0; i < n; i++)` runs for a float bound `n`. */
  function LoopCount(n: real): (k: nat)
    ensures k as real >= n
    ensures k == 0 || ((k - 1) as real) < n
  {
    if n <= 0.0 then 0
    else if n.Floor as real == n then n.Floor
    else n.Floor + 1
  }

  /** The first `k` values of the generator seeded with `seed`, in the order drawn. */
  function Draws(lib: Gsl, seed: real, k: nat): (r: seq<real>)
    ensures |r| == k
    ensures forall j :: 0 <= j < k ==> r[j] == lib.uniform(seed, j)
  {
    if k == 0 then [] else Draws(lib, seed, k - 1) + [lib.uniform(seed, k - 1)]
  }

  /** The utility `hash`: `hash += c` in an `unsigned int`, up to the first NUL. */
  method Hash(str: array<char>) returns (h: int)
    requires IsAsciiCString(str[..])
    ensures 0 <= h < U32
    ensures h == SumHash(CStr(str[..])) % U32
  {
    ghost var n := CLen(str[..]);
    h := 0;
    var i := 0;
    while str[i] != NUL
      invariant 0 <= i <= n
      invariant 0 <= h < U32
      invariant Fold(h, 1, str[i..n]) % U32 == SumHash(str[..n]) % U32
      decreases n - i
    {
      var c := str[i] as int;
      ghost var h0, rest := h, str[i..n];
      h := (h + c) % U32;
      FoldStepMod(h0, h, 1, rest, U32);
      assert rest[1..] == str[i + 1..n];
      i := i + 1;
    }
  }

  /** A float outlet: the values sent through it, in order. */
  class Outlet {
    var sent: seq<real>

    constructor ()
      ensures sent == []
    {
      sent := [];
    }

    /** outlet_float */
    method Float(x: real)
      modifies this
      ensures sent == old(sent) + [x]
    {
      sent := sent + [x];
    }
  }

  /** The t_psl object: its `result` parameter, its function slot and its float outlet. */
  class Psl {
    var result: real
    var func: SimpleFunc
    var outF: Outlet

    /** psl_new: zero `result`, bind the slot from the creation symbol, create the outlet. */
    constructor (s: array<char>, f: real)
      requires IsAsciiCString(s[..])
      ensures result == 0.0
      ensures func == Resolve(CStr(s[..]))
      ensures func == Dawson <==> SumHash(CStr(s[..])) % U32 == DAWSON
      ensures fresh(outF) && outF.sent == []
    {
      result := 0.0;
      func := Bessel;
      var h := Hash(s);
      if h == BESSEL {
        func := Bessel;
      } else if h == DAWSON {
        func := Dawson;
      }
      outF := new Outlet();
    }

    /** psl_airy_ai .. psl_debye_4: send the chosen GSL function of `f` to the outlet. */
    method Call(lib: Gsl, fn: SimpleFunc, f: real)
      modifies outF
      ensures outF.sent == old(outF.sent) + [Eval(lib, fn, f)]
    {
      outF.Float(Eval(lib, fn, f));
    }

    /** psl_float: call the bound slot once with the incoming value; only the outlet changes. */
    method Float(lib: Gsl, f: real)
      modifies outF
      ensures outF.sent == old(outF.sent) + [Eval(lib, func, f)]
    {
      Call(lib, func, f);
    }

    /**
     * psl_rando: seed a fresh generator with `seed` and send as many uniform
     * draws as the loop `i < n` runs, in the order drawn.
     */
    method Rando(lib: Gsl, n: real, seed: real)
      modifies outF
      ensures outF.sent == old(outF.sent) + Draws(lib, seed, LoopCount(n))
    {
      var i := 0;
      while (i as real) < n
        invariant 0 <= i <= LoopCount(n)
        invariant outF.sent == old(outF.sent) + Draws(lib, seed, i)
        decreases LoopCount(n) - i
      {
        outF.Float(lib.uniform(seed, i));
        i := i + 1;
      }
    }

    /** psl_bang: posts a notice to the Pd console and changes nothing. */
    method Bang()
      ensures unchanged(this, outF)
    {
    }

    /** psl_list: posts a notice and ignores its arguments. */
    method List(selector: string, argv: seq<Atom>)
      ensures unchanged(this, outF)
    {
    }
  }

  /**
   * psl_new as Pd calls it: the creation symbol's name reaches the constructor
   * as a NUL-terminated buffer, and the slot is bound from that name.
   */
  method Create(name: string, f: real) returns (p: Psl)
    requires NUL !in name && IsAscii(name)
    ensures fresh(p) && fresh(p.outF)
    ensures p.result == 0.0 && p.func == Resolve(name) && p.outF.sent == []
  {
    var s := new char[|name| + 1](i requires 0 <= i <= |name| => if i < |name| then name[i] else NUL);
    assert s[..] == name + [NUL];
    Terminated(name);
    p := new Psl(s, f);
  }

  /** Creating the object as `[psl dawson]` binds psl_dawson. */
  method CreateDawson() returns (p: Psl)
    ensures p.func == Dawson && p.result == 0.0 && p.outF.sent == []
  {
    p := Create("dawson", 0.0);
    EnumConstants();
  }

  // ---------------------------------------------------------------------------
  // Properties of the dispatch
  // ---------------------------------------------------------------------------

  /** The enum constants are the hashes of the names they stand for, and resolve to them. */
  lemma EnumConstants()
    ensures SumHash("bessel") == BESSEL && SumHash("dawson") == DAWSON
    ensures Resolve("bessel") == Bessel && Resolve("dawson") == Dawson
  {
  }

  /** Resolution sees only which characters the symbol has, not their order. */
  lemma ResolveIgnoresOrder(a: string, b: string)
    requires multiset(a) == multiset(b)
    ensures Resolve(a) == Resolve(b)
  {
    SumHashPermutation(a, b);
  }

  /** An anagram of "dawson" selects psl_dawson. */
  lemma AnagramSelectsDawson()
    ensures Resolve("nosdaw") == Dawson
  {
    assert SumHash("nosdaw") == DAWSON;
  }

  /**
   * Every symbol other than those hashing to DAWSON falls back to psl_bessel, with no
   * error, including selectors of the other message methods.
   */
  lemma OtherSelectorsFallBack(name: string)
    requires SumHash(name) % U32 != DAWSON
    ensures Resolve(name) == Bessel
  {
  }

  /** The selectors of the other one-argument methods all fall back to psl_bessel. */
  lemma ClausenFallsBack()
    ensures Resolve("clausen") == Bessel
  {
    assert SumHash("clausen") == 747;
  }

  lemma AiryAiFallsBack()
    ensures Resolve("airy_ai") == Bessel
  {
    assert SumHash("airy_ai") == 734;
  }

  lemma DebyeFallsBack()
    ensures Resolve("debye_1") == Bessel
  {
    assert SumHash("debye_1") == 665;
  }

  /** The rando loop emits `n` values for a whole `n >= 0`, none for `n <= 0`, and rounds a fraction up. */
  lemma LoopCountCases(n: real, k: nat)
    ensures n <= 0.0 ==> LoopCount(n) == 0
    ensures LoopCount(k as real) == k
    ensures LoopCount(2.5) == 3
  {
  }
}
