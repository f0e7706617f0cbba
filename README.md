# psl: selector dispatch and string hashes, in Dafny

`psl` is a Pure Data external that exposes GNU Scientific Library functions
as Pd messages. When an object is created, `psl_new` hashes the creation
symbol with an additive character-sum hash and switches on the result
against two enum constants, `BESSEL = 638` and `DAWSON = 652`. The switch
binds one function slot; every symbol that matches neither case silently
falls back to `psl_bessel`. `psl_float` then runs the bound function once
per incoming float and sends the result out of the float outlet. `psl_rando`
draws uniform values from a freshly seeded MT19937 generator.

Around the external, the repository tries three string-hash families:

| family | recurrence | C source | Python source |
|---|---|---|---|
| additive sum | `h + c` | `hash` in psl.c, `hash0`, demo `hash2` | `hash1`, mk_lookup_table `hash` |
| 3h+c | `h += (h << 1) + c` | `hash1` | `hash2`, render `hash` / `Func.hashed` |
| djb2 | `33h + c`, seed 5381 | `hash2` | `hash3` |

In C, each family runs in a fixed-width unsigned accumulator. In Python,
integers are unbounded.

Two generators carry the operation catalogue:
- `scripts/render.py` holds 37 entries with their arity, name and optional GSL name.
- `scripts/mk_lookup_table.py` holds 9 names, and emits an enum of their hashes and the matching switch.

## Modules

| file | module | what it holds |
|---|---|---|
| `cstrings.dfy` | `CStrings` | NUL-terminated C strings as character sequences, and the 2^32 and 2^64 moduli. |
| `hashes.dfy` | `Hashes` | One Horner fold `Fold(h, b, s)` and its three instances: `SumHash` (0, 1), `TripleHash` (0, 3) and `Djb2` (5381, 33). These serve as the unbounded reference for every loop. Also: the permutation, order, congruence and no-overflow lemmas. |
| `hash_functions_c.dfy` | `HashFunctionsC` | The three C loops, as methods over a `char` array, proved equal to the reference modulo 2^32 or 2^64. |
| `hash_functions_py.dfy` | `HashFunctionsPy` | The three Python loops, proved equal to the reference. |
| `psl.dfy` | `Psl` | The external. Its hash, the enum, the resolution function `Resolve`, and the class `Psl` with fields `result`, `func` and `outF`, where `outF` is an `Outlet` that records the floats sent. |
| `demo.dfy` | `Demo` | The demo's additive hash and its three-way `dispatch`. |
| `render.dfy` | `Render` | The `Func` record with `hashed`, `ftype`, `slots` and `fullname`, the `items` catalogue and `SKIP_FUNCS`, and the catalogue lemmas. |
| `lookup_table.dfy` | `LookupTable` | The generator's hash, its `names`, the generated enum and the generated switch. |

Conventions:
- C `char` is restricted to 0..127 (`IsAsciiCString`).
- `unsigned long` is taken to be 64 bits wide.
- A C string is an `array<char>` holding a NUL; its contents are `CStr(a[..])`.
- The GSL routines and the generator reach the model as a `Gsl` record of functions. `uniform(seed, k)` is the k-th draw of a generator seeded with `seed`.

## Model

| member | source | states |
|---|---|---|
| `CStrings.CLen` | psl.c:38-39 | The loop `while (c = *str++)` stops at the first NUL. The length it walks is the index of that NUL, and no earlier character is NUL. |
| `Hashes.FoldSnoc` | scripts/hash-functions.py:7-17 | Appending a character performs one more step of the recurrence: `hash(s·c) = b·hash(s) + ord(c)`. This covers `hash2("") = 0`, `hash3("") = 5381` and their step rules. |
| `Hashes.FoldAppend` | scripts/hash-functions.py:7-17 | Hashing `s + t` is hashing `t` starting from the hash of `s`. |
| `Hashes.SumHashIsCodeSum` | scripts/hash-functions.py:1-5 | The additive hash is the sum of the character codes, and 0 on the empty string. |
| `Hashes.SumHashPermutation` | psl.c:38-39 | Two strings with the same multiset of characters have the same additive hash. |
| `Hashes.OrderSensitivity` | scripts/hash-functions.c:24-32 | For `a ≠ c`, "ac" and "ca" hash the same under the additive hash but differently under 3h+c. For ASCII characters they also differ after the 2^32 wrap-around. |
| `Hashes.SumHashLastCharStep` | scripts/mk_lookup_table.py:15-19 | Raising a string's last character by one raises its additive hash by one. |
| `Hashes.SumHashCommonPrefix` | psl.c:33-42 | Strings sharing a prefix collide under the additive hash when their suffixes have equal code sums. |
| `Hashes.FoldCongruent` | scripts/hash-functions.c:28-29 | Seeds congruent modulo m give folds congruent modulo m. This is why reducing the accumulator at each step does not change the final residue. |
| `Hashes.WrappedSnoc` | scripts/hash-functions.c:24-46 | The wrapped recurrence: `hash(s·c) mod m = (b·(hash(s) mod m) + c) mod m`. |
| `Hashes.SumHashFitsU32` | psl.c:33-42 | For ASCII strings of up to 2^24 characters, the additive hash is below 2^32, so the `unsigned int` never wraps. |
| `Hashes.TripleHashFitsU32` | scripts/hash-functions.c:24-32 | For ASCII strings of up to 16 characters, the 3h+c hash stays below 2^32. |
| `Hashes.Djb2FitsU64` | scripts/hash-functions.c:37-46 | For ASCII strings of up to 10 characters, djb2 stays below 2^64. |
| `Hashes.SamExample` | scripts/hash-functions.c:1-8 | "sam" hashes to 321, 1435 and 193505542 under the three families. |
| `HashFunctionsC.Hash0` | scripts/hash-functions.c:13-20 | The loop returns the additive hash of the characters before the first NUL, reduced mod 2^32. |
| `HashFunctionsC.Hash1` | scripts/hash-functions.c:24-32 | The loop returns the 3h+c hash of the string, reduced mod 2^32. |
| `HashFunctionsC.Hash2` | scripts/hash-functions.c:37-46 | The loop returns the djb2 hash of the string, reduced mod 2^64. |
| `HashFunctionsC.TripleStepWraps` | scripts/hash-functions.c:29 | In 32-bit arithmetic, `h += (h << 1) + c` is `(3h + c) mod 2^32`. |
| `HashFunctionsC.Djb2StepWraps` | scripts/hash-functions.c:43 | In 64-bit arithmetic, `h = ((h << 5) + h) + c` is `(33h + c) mod 2^64`. |
| `HashFunctionsPy.Hash1` | scripts/hash-functions.py:1-5 | The loop returns the unbounded additive hash. |
| `HashFunctionsPy.Hash2` | scripts/hash-functions.py:7-11 | The loop returns the unbounded 3h+c hash, the same function as render.py's `hash`. |
| `HashFunctionsPy.Hash3` | scripts/hash-functions.py:13-17 | The loop returns the unbounded djb2 hash with seed 5381. |
| `Psl.Hash` | psl.c:33-42 | The `unsigned int` accumulator returns the additive hash of the characters before the first NUL, mod 2^32. |
| `Psl.Resolve` | psl.c:185-196 | The slot is `psl_dawson` exactly when the 32-bit hash is DAWSON. It is `psl_bessel` otherwise, and never anything else. |
| `Psl.LoopCount` | psl.c:117 | The number of iterations of `for (int i = 0; i < n; i++)` with a float `n` is the least natural number that is at least `n`, compared over the reals (exact for `n ≤ 2^24`; see Left out). |
| `Psl.Draws` | psl.c:110-122 | The first `k` draws of the freshly seeded generator, in order. |
| `Psl.Psl.constructor` | psl.c:178-206 | `psl_new` sets `result` to 0 and binds `func` to `Resolve` of the creation symbol: Dawson exactly when the hash is DAWSON. The outlet is fresh and empty. |
| `Psl.Psl.Call` | psl.c:124-168 | Each `psl_<name>` sends exactly one value, the named GSL function of its input, to the outlet. |
| `Psl.Psl.Float` | psl.c:98-101 | `psl_float` runs the bound slot once on the incoming value. Only the outlet changes, by that one value. |
| `Psl.Psl.Rando` | psl.c:110-122 | `psl_rando` appends exactly `LoopCount(n)` draws of a generator seeded afresh with `seed`, in order. Only the outlet changes. |
| `Psl.Psl.Bang` | psl.c:92-95 | `psl_bang` changes neither the object nor its outlet. |
| `Psl.Create` | psl.c:178-206 | Creating the object from a symbol name, passed as the NUL-terminated buffer `s->s_name`, zeroes `result`, binds `Resolve(name)` and gives an empty outlet. |
| `Psl.CreateDawson` | psl.c:185-193 | `[psl dawson]` binds `psl_dawson`. |
| `Psl.Psl.List` | psl.c:103-106 | `psl_list` changes neither the object nor its outlet. |
| `Psl.EnumConstants` | psl.c:44-47 | `BESSEL = hash("bessel") = 638` and `DAWSON = hash("dawson") = 652`, and these two symbols resolve to their own functions. |
| `Psl.ResolveIgnoresOrder` | psl.c:185-196 | Symbols that are permutations of each other bind the same function. |
| `Psl.AnagramSelectsDawson` | psl.c:185-196 | The anagram "nosdaw" binds `psl_dawson`. |
| `Psl.OtherSelectorsFallBack` | psl.c:194-195 | Every symbol whose hash is not DAWSON binds `psl_bessel`, with no error. |
| `Psl.ClausenFallsBack` | psl.c:185-196 | Creating the object with "clausen", a selector of another method, binds `psl_bessel`. |
| `Psl.AiryAiFallsBack` | psl.c:185-196 | Creating the object with "airy_ai" binds `psl_bessel`. |
| `Psl.DebyeFallsBack` | psl.c:185-196 | Creating the object with "debye_1" binds `psl_bessel`. |
| `Psl.LoopCountCases` | psl.c:117 | `n ≤ 0` gives no draws, a whole `n` gives exactly `n`, and 2.5 gives 3. |
| `Demo.Hash2` | tests/demo.c:15-24 | The loop returns the additive hash mod 2^32. |
| `Demo.Select` | tests/demo.c:65-75 | Exactly one branch is taken: bessel iff the hash is 638, dawson iff it is 652, and default otherwise. |
| `Demo.Dispatch` | tests/demo.c:58-76 | `dispatch` takes the branch `Select` gives for the 32-bit hash. It takes the default branch exactly when psl.c's switch would also reach its `default`: the symbol binds `psl_bessel` and its hash is not BESSEL. |
| `Demo.MainRun` | tests/demo.c:78-84 | `hash2` of "bessel", "dawson" and "coulombe" is 638, 652 and 854, and `dispatch("bessel")` takes the bessel branch. |
| `Render.Func.Hashed` | scripts/render.py:82-87 | `Func.hashed` is the 3h+c hash of the entry's name, the same value as the module-level `hash(name)`. |
| `Render.Hash` | scripts/render.py:69-73 | The module-level `hash` is the unbounded 3h+c hash. |
| `Render.Func.Ftype` | scripts/render.py:96-102 | `ftype` is defined exactly for arities 1, 2 and 3, and is then a five-letter `?func` name. Any other arity is the KeyError case (`None`). |
| `Render.FtypeDeterminesArity` | scripts/render.py:96-102 | Two entries with a defined `ftype` have the same `ftype` iff they have the same arity. |
| `Render.Func.Slots` | scripts/render.py:104-107 | A non-positive arity gives the empty slot list. |
| `Render.SlotsShape` | scripts/render.py:104-107 | For an arity `n ≥ 1`, the slot list has exactly `n - 1` commas and `12n - 2` characters. |
| `Render.Func.Fullname` | scripts/render.py:109-114 | `fullname` is `func_name` when it is given and non-empty, and the entry's name otherwise. |
| `Render.Join` | scripts/render.py:107 | `sep.join(parts)` is empty for no parts and otherwise starts with the first part; its character counts and length are stated by `Render.JoinShape`. |
| `Render.JoinShape` | scripts/render.py:107 | `", ".join(parts)` of `k ≥ 1` parts has each part's characters plus `k - 1` separators, both in its count of any character and in its length. |
| `Render.RepeatSums` | scripts/render.py:106 | `n` copies of `x` hold `n` times the characters of `x`. |
| `Render.Repeat` | scripts/render.py:106 | `[x] * n` has `max(n, 0)` elements, all equal to `x`. |
| `Render.ItemsHaveFtype` | scripts/render.py:13-53 | Every catalogue entry has an arity in {1, 2, 3}, so `ftype` is defined on the whole catalogue. |
| `Render.SkipFuncsListed` | scripts/render.py:5-10 | Every name in `SKIP_FUNCS` is the name of a catalogue entry. |
| `Render.ItemNamesColumn` | scripts/render.py:13-53 | `ItemNames` is exactly the name column of `items`, in order. |
| `Render.ItemNamesDistinct` | scripts/render.py:13-53 | The catalogue names are pairwise distinct. |
| `Render.ItemHashesDistinct` | scripts/render.py:13-53 | The 3h+c hashes of the 37 catalogue names are pairwise distinct, so a switch on them has no repeated case. |
| `Render.AdditiveHashCollides` | scripts/render.py:13-53 | Under psl.c's additive hash the catalogue has colliding pairs of distinct names: "expm1"/"pow_6" and "bessel_j0"/"bessel_i1". |
| `LookupTable.Hash` | scripts/mk_lookup_table.py:15-19 | The generator's `hash` is the unbounded additive hash. |
| `LookupTable.UpperChar` | scripts/mk_lookup_table.py:31 | Upper-casing one ASCII character yields no lower-case letter. It maps letters to letters and leaves everything else alone. |
| `LookupTable.Upper` | scripts/mk_lookup_table.py:31 | `upper()` keeps the length and upper-cases character by character. |
| `LookupTable.UpperIdempotent` | scripts/mk_lookup_table.py:31 | Upper-casing twice is upper-casing once. |
| `LookupTable.UpperInjective` | scripts/mk_lookup_table.py:31 | On strings without capitals, equal upper-cased forms mean equal strings. |
| `LookupTable.EnumBody` | scripts/mk_lookup_table.py:29-33 | The enum has one enumerator per name, in order. Each is `NAME = hash(name)`. |
| `LookupTable.SelectDefault` | scripts/mk_lookup_table.py:37-48 | A hash that matches no name leaves the slot unchanged. Any other result is `psl_<name>` for a name whose hash matches. |
| `LookupTable.SelectFindsName` | scripts/mk_lookup_table.py:37-48 | With pairwise distinct hashes, the hash of a listed name binds exactly `psl_<that name>`. |
| `LookupTable.NameHashTable` | scripts/mk_lookup_table.py:3-13 | The nine names hash to 532, 734, 638, 747, 652, 665, 666, 667 and 668. |
| `LookupTable.DebyeConsecutive` | scripts/mk_lookup_table.py:9-12 | `debye_1` .. `debye_4` have consecutive hashes. |
| `LookupTable.NamesHashesDistinct` | scripts/mk_lookup_table.py:39-44 | The nine hashes are pairwise distinct, so the generated case labels are distinct. |
| `LookupTable.EnumIdentsDistinct` | scripts/mk_lookup_table.py:29-33 | The generated enumerator identifiers are pairwise distinct. |
| `LookupTable.EnumAgreesWithPsl` | scripts/mk_lookup_table.py:29-33 | The generated `BESSEL` and `DAWSON` enumerators carry psl.c's values 638 and 652. |
| `LookupTable.SwitchBindsEachName` | scripts/mk_lookup_table.py:37-48 | A symbol's C hash (mod 2^32) selects `psl_<name>` for every catalogue name, whatever the slot held before. |

Notes on the source:
- The usage comment at the top of scripts/hash-functions.c labels the first value (321) as `hash1`. It is the output of `hash0`; `Hashes.SamExample` states the three values against the functions that produce them.
- In psl.c, selectors of the other message methods ("clausen", "airy_ai", "debye_1", ...) used as creation arguments do not bind their own function. They fall back to `psl_bessel`, because only BESSEL and DAWSON are cases of the switch.
- The code shown has only the single-input variant: one function slot, no argument buffer. The model follows the code.
- Python's `Func` objects are never changed after `__init__`, so `Func` is a datatype.

## Left out

- GSL numerics: the special functions and MT19937 are foreign floating-point code. They are parameters (`Gsl`), and only the order and number of their calls is modelled.
- The float-to-`unsigned long` conversion of the seed in `gsl_rng_set` is folded into `uniform`.
- Pd host plumbing (`pd_new`, `class_new`, `class_add*`, `outlet_new`, `post`, `class_sethelpsymbol`, `psl_setup`) is host API. `post` has no modelled effect, and `outlet_float` is `Outlet.Float`, an append.
- `Psl.LoopCount`: Pd's `t_float` (32-bit by default) is modelled as `real`. C converts `i` to `float` for the comparison `i < n`, so the count is exact only for `n ≤ 2^24`. Above 2^24, `(float)i` rounds to the nearest float (ties to even), so the loop can stop up to half a float spacing before `n`: 16777220.0 gives 16777219 draws, 33554440.0 gives 33554438, and 1073741952.0 gives 1073741889. NaN and ±infinity are not represented; the source sends no draws for a NaN `n`.
- `Psl.Psl.Rando`: appends `LoopCount(n)` draws, which is guaranteed to match the source only for `n ≤ 2^24`, as explained for `Psl.LoopCount`. Overflow of `int i` is not modelled either.
- `Psl.LoopCountCases`: "a whole `n` gives exactly `n`" is guaranteed in the source only for `n ≤ 2^24`; above that some whole `n` still give exactly `n` (16777218.0 does) and others do not, for the rounding reason given for `Psl.LoopCount`.
- `Psl.Psl.constructor`: the creation float `f` is accepted and unused, as in the source.
- Non-ASCII characters are excluded. C `char` may be signed, so codes above 127 would be added as negative numbers on some platforms.
- `unsigned long` is taken as 64 bits (LP64). On a 32-bit `long`, `hash2` in scripts/hash-functions.c would wrap at 2^32.
- The signed-`int` djb2 `hash` in tests/demo.c:26-35 is left out. It overflows a signed `int`, which is undefined behaviour in C, already on "bessel".
- `main`, `print_hash` and `printf` output in scripts/hash-functions.c and tests/demo.c are I/O drivers. Their printed values appear as `Hashes.SamExample` and `Demo.MainRun`.
- tests/test3.c only drives GSL's generator and prints; it is not part of this model.
- The mako rendering (`render`, `main` in scripts/render.py; `render`/`print` in scripts/mk_lookup_table.py) is text templating. templates/psl.c.mako is not part of this model. The template of scripts/mk_lookup_table.py is modelled by what it emits: `EnumBody` and `SelectDefault`.
- The generated `select_default_function` writes to an `x` it does not declare. The slot is a parameter and result of `SelectDefault`.
- Unicode case mapping: `Upper` handles ASCII only, which covers every name in the catalogue.
- The multi-input machinery (psl.c:199-200) is commented out, so it is not modelled.
