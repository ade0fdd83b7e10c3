/** Seeded persona generation: the generator, the shuffle, and the distinct candidates. */
module Persona {
  import opened Basics

  const WORD: int := 0x1_0000_0000
  const MULTIPLIER: int := 1664525
  const INCREMENT: int := 1013904223
  const MAX_CANDIDATES: nat := 64

  // ---------------------------------------------------------------------------
  // The generator
  // ---------------------------------------------------------------------------

  newtype Int32 = i: int | -0x8000_0000 <= i < 0x8000_0000

  /** JavaScript's `| 0`: the low 32 bits, signed. */
  function ToInt32(n: int): Int32 {
    var u := n % WORD;
    if u >= 0x8000_0000 then (u - WORD) as Int32 else u as Int32
  }

  /** JavaScript's `>>> 0`: the same bits, unsigned. */
  function ToUint32(s: Int32): (u: int)
    ensures 0 <= u < WORD && (u == s as int || u == s as int + WORD)
  {
    if s as int < 0 then s as int + WORD else s as int
  }

  function NextState(s: Int32): Int32 {
    ToInt32(ToInt32(s as int * MULTIPLIER) as int + INCREMENT)
  }

  /** Multiplying by this undoes the multiplier modulo 2^32. */
  const INVERSE: int := 4276115653

  function PreviousState(s: Int32): Int32 {
    ToInt32((s as int - INCREMENT) * INVERSE)
  }

  lemma ToInt32Wraps(s: Int32, turns: int)
    ensures ToInt32(s as int + WORD * turns) == s
  {
    assert (s as int + WORD * turns) % WORD == s as int % WORD;
  }

  lemma ToInt32Is(n: int) returns (turns: int)
    ensures n == ToInt32(n) as int + WORD * turns
  {
    turns := if n % WORD >= 0x8000_0000 then n / WORD + 1 else n / WORD;
  }

  lemma InverseIs()
    ensures MULTIPLIER * INVERSE == 1 + 1657219 * WORD
  {
  }

  lemma NextStateIs(s: Int32) returns (turns: int)
    ensures s as int * MULTIPLIER + INCREMENT == NextState(s) as int + WORD * turns
  {
    var a := ToInt32Is(s as int * MULTIPLIER);
    var b := ToInt32Is(ToInt32(s as int * MULTIPLIER) as int + INCREMENT);
    turns := a + b;
  }

  /** The step is a bijection on 32-bit states, so the generator visits no state twice before it returns. */
  lemma StepIsBijection(s: Int32)
    ensures PreviousState(NextState(s)) == s && NextState(PreviousState(s)) == s
  {
    InverseIs();
    var k := NextStateIs(s);
    var n := s as int;
    assert (NextState(s) as int - INCREMENT) * INVERSE == (n * MULTIPLIER - WORD * k) * INVERSE
      == n * (MULTIPLIER * INVERSE) - WORD * (k * INVERSE) == n + WORD * (n * 1657219 - k * INVERSE);
    ToInt32Wraps(s, n * 1657219 - k * INVERSE);

    var p := PreviousState(s);
    var j := ToInt32Is((n - INCREMENT) * INVERSE);
    var l := NextStateIs(p);
    assert p as int == (n - INCREMENT) * INVERSE - WORD * j;
    assert p as int * MULTIPLIER == (n - INCREMENT) * (INVERSE * MULTIPLIER) - WORD * (j * MULTIPLIER)
      == n - INCREMENT + WORD * ((n - INCREMENT) * 1657219 - j * MULTIPLIER);
    assert NextState(p) as int == n + WORD * ((n - INCREMENT) * 1657219 - j * MULTIPLIER - l);
    var q := NextState(p);
    ToInt32Wraps(s, (n - INCREMENT) * 1657219 - j * MULTIPLIER - l);
    ToInt32Wraps(q, 0);
  }

  /** floor(next() * n), with the quotient kept exact. */
  function Draw(s: Int32, n: nat): (i: nat)
    ensures n > 0 ==> i < n
    ensures i * WORD <= ToUint32(s) * n < (i + 1) * WORD
  {
    DrawBelow(ToUint32(s), n);
    ToUint32(s) * n / WORD
  }

  lemma DrawBelow(u: nat, n: nat)
    requires u < WORD
    ensures 0 <= u * n / WORD && (n > 0 ==> u * n / WORD < n)
  {
    MulBelow(u, WORD, n);
    DivBelow(u * n, n);
  }

  lemma DivBelow(a: nat, n: nat)
    ensures 0 <= a / WORD && (a < WORD * n ==> a / WORD < n)
  {
  }

  class Lcg {
    var s: Int32

    constructor (seed: int)
      ensures s == ToInt32(seed)
    {
      s := ToInt32(seed);
    }

    /** Draws below `n` from the next state. */
    method NextBelow(n: nat) returns (i: nat)
      modifies this
      ensures s == NextState(old(s)) && i == Draw(s, n)
    {
      s := NextState(s);
      i := Draw(s, n);
    }
  }

  // ---------------------------------------------------------------------------
  // The shuffle
  // ---------------------------------------------------------------------------

  function Swap<T>(a: seq<T>, i: nat, j: nat): seq<T>
    requires i < |a| && j < |a|
  {
    a[i := a[j]][j := a[i]]
  }

  /** Fisher-Yates from position `i` down, and the state it ends in. */
  function ShuffleFrom<T>(a: seq<T>, s: Int32, i: nat): (r: (seq<T>, Int32))
    requires i < |a| || i == 0
    ensures |r.0| == |a|
    decreases i
  {
    if i == 0 then (a, s)
    else
      var s' := NextState(s);
      ShuffleFrom(Swap(a, i, Draw(s', i + 1)), s', i - 1)
  }

  function Shuffle<T>(a: seq<T>, s: Int32): (seq<T>, Int32) {
    if a == [] then (a, s) else ShuffleFrom(a, s, |a| - 1)
  }

  lemma SwapIs<T>(a: seq<T>, i: nat, j: nat)
    requires i < |a| && j < |a|
    ensures var b := Swap(a, i, j);
      |b| == |a| && b[i] == a[j] && b[j] == a[i] && forall k | 0 <= k < |a| && k != i && k != j :: b[k] == a[k]
  {
  }

  lemma SwapPermutes<T>(a: seq<T>, i: nat, j: nat)
    requires i < |a| && j < |a|
    ensures multiset(Swap(a, i, j)) == multiset(a)
  {
  }

  lemma {:induction false} ShufflePermutes<T>(a: seq<T>, s: Int32, i: nat)
    requires i < |a| || i == 0
    ensures multiset(ShuffleFrom(a, s, i).0) == multiset(a)
    decreases i
  {
    if i > 0 {
      var s' := NextState(s);
      var j := Draw(s', i + 1);
      SwapPermutes(a, i, j);
      ShufflePermutes(Swap(a, i, j), s', i - 1);
    }
  }

  lemma ShuffleUnfolds<T>(a: seq<T>, s: Int32, i: nat)
    requires i < |a|
    ensures i == 0 ==> ShuffleFrom(a, s, i) == (a, s)
    ensures i > 0 ==>
      ShuffleFrom(a, s, i) == ShuffleFrom(Swap(a, i, Draw(NextState(s), i + 1)), NextState(s), i - 1)
  {
  }

  /** Places above the one the shuffle starts from are left alone. */
  lemma {:induction false} ShuffleSparesRest<T>(a: seq<T>, s: Int32, i: nat, n: nat)
    requires i < n <= |a|
    ensures ShuffleFrom(a, s, i).0 == ShuffleFrom(a[..n], s, i).0 + a[n..]
    ensures ShuffleFrom(a, s, i).1 == ShuffleFrom(a[..n], s, i).1
    decreases i
  {
    if i > 0 {
      var j := Draw(NextState(s), i + 1);
      var b := Swap(a, i, j);
      assert b[..n] == Swap(a[..n], i, j) && b[n..] == a[n..];
      ShuffleSparesRest(b, NextState(s), i - 1, n);
    }
  }

  /**
   * The first draw fills the last place, from all places; the element that stood there takes the drawn one's,
   * and the places before it are shuffled on.
   */
  lemma ShuffleLast<T>(a: seq<T>, s: Int32)
    requires |a| > 1
    ensures var n := |a| - 1;
      var j := Draw(NextState(s), n + 1);
      var rest := Shuffle(if j == n then a[..n] else a[..n][j := a[n]], NextState(s));
      Shuffle(a, s) == (rest.0 + [a[j]], rest.1)
  {
    var n := |a| - 1;
    var j := Draw(NextState(s), n + 1);
    var b := Swap(a, n, j);
    assert b[..n] == if j == n then a[..n] else a[..n][j := a[n]];
    assert b[n..] == [a[j]];
    ShuffleSparesRest(b, NextState(s), n - 1, n);
  }

  /** In place; the array ends as a permutation of what it held. */
  method SeededShuffle<T>(arr: array<T>, prng: Lcg)
    modifies arr, prng
    ensures (arr[..], prng.s) == Shuffle(old(arr[..]), old(prng.s))
    ensures multiset(arr[..]) == multiset(old(arr[..]))
  {
    if arr.Length == 0 { return; }
    ghost var (before, seed) := (arr[..], prng.s);
    ghost var last: nat := arr.Length - 1;
    ShufflePermutes(before, seed, last);
    assert Shuffle(before, seed) == ShuffleFrom(before, seed, last);
    hide NextState, Draw, ShuffleFrom, Shuffle;
    var i := arr.Length - 1;
    while i > 0
      invariant 0 <= i < arr.Length
      invariant ShuffleFrom(arr[..], prng.s, i) == ShuffleFrom(before, seed, last)
    {
      ghost var was := arr[..];
      ShuffleUnfolds(was, prng.s, i);
      var j := prng.NextBelow(i + 1);
      arr[i], arr[j] := arr[j], arr[i];
      assert arr[..] == Swap(was, i, j);
      i := i - 1;
    }
    ShuffleUnfolds(arr[..], prng.s, 0);
  }

  // ---------------------------------------------------------------------------
  // Candidates
  // ---------------------------------------------------------------------------

  function Djb2(str: string, hash: Int32): Int32 {
    if str == [] then hash else Djb2(str[1..], ToInt32(ToInt32(hash as int * 32) as int - hash as int + str[0] as int))
  }

  function Seed(str: string): Int32 { Djb2(str, 5381) }

  /** The hash without wrapping around. */
  function Unwrapped(str: string, hash: int): int {
    if str == [] then hash else Unwrapped(str[1..], 31 * hash + str[0] as int)
  }

  /** The hash is the low 32 bits of the polynomial in 31. */
  lemma {:induction false} HashIsPolynomial(str: string, hash: Int32, whole: int)
    requires ToInt32(whole) == hash
    ensures Djb2(str, hash) == ToInt32(Unwrapped(str, whole))
    decreases |str|
  {
    if str != [] {
      var shifted := ToInt32(hash as int * 32);
      var next := ToInt32(shifted as int - hash as int + str[0] as int);
      var k := ToInt32Is(whole);
      var l := ToInt32Is(hash as int * 32);
      var j := ToInt32Is(shifted as int - hash as int + str[0] as int);
      var whole' := 31 * whole + str[0] as int;
      assert whole' == next as int + WORD * (j + l + 31 * k);
      ToInt32Wraps(next, j + l + 31 * k);
      HashIsPolynomial(str[1..], next, whole');
    }
  }

  lemma SeedIs(str: string)
    ensures Seed(str) == ToInt32(Unwrapped(str, 5381))
  {
    ToInt32Wraps(5381, 0);
    HashIsPolynomial(str, 5381, 5381);
  }

  datatype Pool = Pool(firstNames: seq<string>, lastNames: seq<string>, bios: seq<string>, profilePics: seq<string>)
  datatype Combo = Combo(firstName: string, lastName: string, bio: string)
  datatype Candidate = Candidate(combo: Combo, profilePics: seq<string>)

  function SelectPics(mobile: string, pics: seq<string>): seq<string> {
    var shuffled := Shuffle(pics, Seed(mobile + ":photos")).0;
    if |shuffled| <= 3 then shuffled else shuffled[..3]
  }

  method SelectAssignedProfilePics(mobile: string, profilePics: seq<string>) returns (selected: seq<string>)
    ensures selected == SelectPics(mobile, profilePics)
    ensures selected <= Shuffle(profilePics, Seed(mobile + ":photos")).0
    ensures multiset(selected) <= multiset(profilePics) && |selected| == if |profilePics| < 3 then |profilePics| else 3
  {
    if profilePics == [] { return []; }
    var prng := new Lcg(Seed(mobile + ":photos") as int);
    ToInt32Wraps(Seed(mobile + ":photos"), 0);
    var arr := new string[|profilePics|](i requires 0 <= i < |profilePics| => profilePics[i]);
    assert arr[..] == profilePics;
    SeededShuffle(arr, prng);
    var n := if arr.Length < 3 then arr.Length else 3;
    assert arr[..] == arr[..n] + arr[n..];
    selected := arr[..n];
  }

  function CandidateFor(mobile: string, pics: seq<string>, c: Combo): Candidate {
    Candidate(c, SelectPics(mobile + ":" + c.firstName + ":" + c.lastName, pics))
  }

  /** The canonical key: the order of the pictures does not matter. */
  function PersonaKey(c: Candidate): (Combo, multiset<string>) {
    (c.combo, multiset(c.profilePics))
  }

  /** Combinations in the order the loops visit them, the first name varying fastest. */
  function OfLast(bio: string, last: string, firsts: seq<string>): seq<Combo> {
    if firsts == [] then [] else OfLast(bio, last, firsts[..|firsts| - 1]) + [Combo(firsts[|firsts| - 1], last, bio)]
  }

  function OfBio(bio: string, lasts: seq<string>, firsts: seq<string>): seq<Combo> {
    if lasts == [] then [] else OfBio(bio, lasts[..|lasts| - 1], firsts) + OfLast(bio, lasts[|lasts| - 1], firsts)
  }

  function Combos(bios: seq<string>, lasts: seq<string>, firsts: seq<string>): seq<Combo> {
    if bios == [] then [] else Combos(bios[..|bios| - 1], lasts, firsts) + OfBio(bios[|bios| - 1], lasts, firsts)
  }

  lemma {:induction false} LastAt(bio: string, last: string, firsts: seq<string>, f: nat)
    requires f < |firsts|
    ensures |OfLast(bio, last, firsts)| == |firsts| && OfLast(bio, last, firsts)[f] == Combo(firsts[f], last, bio)
    decreases |firsts|
  {
    if f < |firsts| - 1 {
      LastAt(bio, last, firsts[..|firsts| - 1], f);
    } else if f > 0 {
      LastAt(bio, last, firsts[..|firsts| - 1], 0);
    } else {
      assert OfLast(bio, last, firsts[..0]) == [];
    }
  }

  lemma {:induction false} BioSize(bio: string, lasts: seq<string>, firsts: seq<string>)
    requires firsts != []
    ensures |OfBio(bio, lasts, firsts)| == |lasts| * |firsts|
  {
    if lasts != [] {
      BioSize(bio, lasts[..|lasts| - 1], firsts);
      LastAt(bio, lasts[|lasts| - 1], firsts, 0);
      OneRowMore(|lasts| - 1, |firsts|);
    }
  }

  lemma {:induction false} BioAt(bio: string, lasts: seq<string>, firsts: seq<string>, l: nat, f: nat)
    requires l < |lasts| && f < |firsts|
    ensures l * |firsts| + f < |OfBio(bio, lasts, firsts)|
    ensures OfBio(bio, lasts, firsts)[l * |firsts| + f] == Combo(firsts[f], lasts[l], bio)
    decreases |lasts|
  {
    var init := lasts[..|lasts| - 1];
    BioSize(bio, init, firsts);
    LastAt(bio, lasts[|lasts| - 1], firsts, f);
    if l < |lasts| - 1 {
      BioAt(bio, init, firsts, l, f);
    }
  }

  lemma {:induction false} CombosSize(bios: seq<string>, lasts: seq<string>, firsts: seq<string>)
    requires firsts != []
    ensures |Combos(bios, lasts, firsts)| == |bios| * (|lasts| * |firsts|)
  {
    if bios != [] {
      CombosSize(bios[..|bios| - 1], lasts, firsts);
      BioSize(bios[|bios| - 1], lasts, firsts);
      OneRowMore(|bios| - 1, |lasts| * |firsts|);
    }
  }

  lemma {:induction false} SheetAt(bios: seq<string>, lasts: seq<string>, firsts: seq<string>,
                                   b: nat, i: nat, size: nat, at: nat)
    requires b < |bios| && firsts != [] && size == |lasts| * |firsts| && i < size && at == b * size + i
    ensures |OfBio(bios[b], lasts, firsts)| == size
    ensures at < |Combos(bios, lasts, firsts)| && Combos(bios, lasts, firsts)[at] == OfBio(bios[b], lasts, firsts)[i]
    decreases |bios|
  {
    hide OfBio;
    var init := bios[..|bios| - 1];
    CombosSize(init, lasts, firsts);
    BioSize(bios[|bios| - 1], lasts, firsts);
    if b < |bios| - 1 {
      SheetAt(init, lasts, firsts, b, i, size, at);
    } else {
      assert |Combos(init, lasts, firsts)| == b * size;
    }
  }

  /** The visiting order: bios outermost, then last names, first names innermost. */
  lemma ComboAt(bios: seq<string>, lasts: seq<string>, firsts: seq<string>, b: nat, l: nat, f: nat)
    requires b < |bios| && l < |lasts| && f < |firsts|
    ensures b * (|lasts| * |firsts|) + (l * |firsts| + f) < |Combos(bios, lasts, firsts)|
    ensures Combos(bios, lasts, firsts)[b * (|lasts| * |firsts|) + (l * |firsts| + f)] == Combo(firsts[f], lasts[l], bios[b])
  {
    hide Combos, OfBio;
    BioAt(bios[b], lasts, firsts, l, f);
    BioSize(bios[b], lasts, firsts);
    SheetAt(bios, lasts, firsts, b, l * |firsts| + f, |lasts| * |firsts|, b * (|lasts| * |firsts|) + (l * |firsts| + f));
  }

  function FirstSeen(cs: seq<Combo>): seq<Combo> {
    if cs == [] then []
    else
      var before := FirstSeen(cs[..|cs| - 1]);
      if cs[|cs| - 1] in before then before else before + [cs[|cs| - 1]]
  }

  function AtMost(cs: seq<Combo>): seq<Combo> {
    if |cs| <= MAX_CANDIDATES then cs else cs[..MAX_CANDIDATES]
  }

  lemma {:induction false} FirstSeenIs(cs: seq<Combo>)
    ensures forall c :: c in FirstSeen(cs) <==> c in cs
    ensures forall i, j | 0 <= i < j < |FirstSeen(cs)| :: FirstSeen(cs)[i] != FirstSeen(cs)[j]
    ensures |FirstSeen(cs)| == |set c | c in cs|
  {
    if cs == [] {
      assert (set c | c in cs) == {};
    } else {
      var init := cs[..|cs| - 1];
      FirstSeenIs(init);
      assert cs == init + [cs[|cs| - 1]];
      assert (set c | c in cs) == (set c | c in init) + {cs[|cs| - 1]};
    }
  }

  lemma {:induction false} FirstSeenGrows(cs: seq<Combo>, more: seq<Combo>)
    ensures FirstSeen(cs) <= FirstSeen(cs + more)
    decreases |more|
  {
    if more == [] {
      assert cs + more == cs;
    } else {
      assert (cs + more)[..|cs + more| - 1] == cs + more[..|more| - 1];
      FirstSeenGrows(cs, more[..|more| - 1]);
    }
  }

  function Elements(s: seq<string>): set<string> { set x | x in s }

  lemma {:induction false} MembersOfLast(bio: string, last: string, firsts: seq<string>, c: Combo)
    ensures c in OfLast(bio, last, firsts) <==> c.bio == bio && c.lastName == last && c.firstName in firsts
  {
    if firsts != [] {
      MembersOfLast(bio, last, firsts[..|firsts| - 1], c);
      assert firsts == firsts[..|firsts| - 1] + [firsts[|firsts| - 1]];
    }
  }

  lemma {:induction false} MembersOfBio(bio: string, lasts: seq<string>, firsts: seq<string>, c: Combo)
    ensures c in OfBio(bio, lasts, firsts) <==> c.bio == bio && c.lastName in lasts && c.firstName in firsts
  {
    if lasts != [] {
      MembersOfBio(bio, lasts[..|lasts| - 1], firsts, c);
      MembersOfLast(bio, lasts[|lasts| - 1], firsts, c);
      assert lasts == lasts[..|lasts| - 1] + [lasts[|lasts| - 1]];
    }
  }

  lemma {:induction false} MembersOfCombos(bios: seq<string>, lasts: seq<string>, firsts: seq<string>, c: Combo)
    ensures c in Combos(bios, lasts, firsts) <==> c.bio in bios && c.lastName in lasts && c.firstName in firsts
  {
    if bios != [] {
      MembersOfCombos(bios[..|bios| - 1], lasts, firsts, c);
      MembersOfBio(bios[|bios| - 1], lasts, firsts, c);
      assert bios == bios[..|bios| - 1] + [bios[|bios| - 1]];
    }
  }

  function Line(first: string, last: string, bios: set<string>): set<Combo> {
    set b | b in bios :: Combo(first, last, b)
  }

  function Sheet(first: string, lasts: set<string>, bios: set<string>): set<Combo> {
    set l, b | l in lasts && b in bios :: Combo(first, l, b)
  }

  function Box(firsts: set<string>, lasts: set<string>, bios: set<string>): set<Combo> {
    set f, l, b | f in firsts && l in lasts && b in bios :: Combo(f, l, b)
  }

  lemma {:induction false} LineSize(first: string, last: string, bios: set<string>)
    ensures |Line(first, last, bios)| == |bios|
    decreases |bios|
  {
    if bios != {} {
      var b :| b in bios;
      LineSize(first, last, bios - {b});
      assert Line(first, last, bios) == Line(first, last, bios - {b}) + {Combo(first, last, b)};
    }
  }

  lemma {:induction false} SheetSize(first: string, lasts: set<string>, bios: set<string>)
    ensures |Sheet(first, lasts, bios)| == |lasts| * |bios|
    decreases |lasts|
  {
    if lasts != {} {
      var l :| l in lasts;
      SheetSize(first, lasts - {l}, bios);
      LineSize(first, l, bios);
      assert Sheet(first, lasts, bios) == Sheet(first, lasts - {l}, bios) + Line(first, l, bios);
      assert Sheet(first, lasts - {l}, bios) !! Line(first, l, bios);
      OneRowMore(|lasts - {l}|, |bios|);
    }
  }

  lemma BoxStep(firsts: set<string>, lasts: set<string>, bios: set<string>, f: string)
    requires f in firsts
    ensures Box(firsts, lasts, bios) == Box(firsts - {f}, lasts, bios) + Sheet(f, lasts, bios)
    ensures Box(firsts - {f}, lasts, bios) !! Sheet(f, lasts, bios)
  {
  }

  lemma BoxEmpty(lasts: set<string>, bios: set<string>)
    ensures Box({}, lasts, bios) == {}
  {
  }

  lemma {:induction false} BoxSize(firsts: set<string>, lasts: set<string>, bios: set<string>, sheet: nat)
    requires forall f | f in firsts :: |Sheet(f, lasts, bios)| == sheet
    ensures |Box(firsts, lasts, bios)| == |firsts| * sheet
    decreases |firsts|
  {
    hide Box, Sheet;
    if firsts == {} {
      BoxEmpty(lasts, bios);
    } else {
      var f :| f in firsts;
      BoxSize(firsts - {f}, lasts, bios, sheet);
      BoxStep(firsts, lasts, bios, f);
      UnionSize(Box(firsts - {f}, lasts, bios), Sheet(f, lasts, bios));
      OneRowMore(|firsts - {f}|, sheet);
    }
  }

  lemma UnionSize(a: set<Combo>, b: set<Combo>)
    requires a !! b
    ensures |a + b| == |a| + |b|
  {
  }

  lemma OneRowMore(rows: nat, width: nat)
    ensures (rows + 1) * width == rows * width + width
  {
  }

  /** There are as many distinct combinations as the distinct names and bios allow. */
  lemma DistinctCombos(bios: seq<string>, lasts: seq<string>, firsts: seq<string>)
    ensures |FirstSeen(Combos(bios, lasts, firsts))| == |Elements(firsts)| * (|Elements(lasts)| * |Elements(bios)|)
  {
    hide Box, Combos, FirstSeen;
    FirstSeenIs(Combos(bios, lasts, firsts));
    CombosAreBox(bios, lasts, firsts);
    forall f {
      SheetSize(f, Elements(lasts), Elements(bios));
    }
    BoxSize(Elements(firsts), Elements(lasts), Elements(bios), |Elements(lasts)| * |Elements(bios)|);
  }

  lemma CombosAreBox(bios: seq<string>, lasts: seq<string>, firsts: seq<string>)
    ensures (set c | c in Combos(bios, lasts, firsts)) == Box(Elements(firsts), Elements(lasts), Elements(bios))
  {
    hide Combos;
    var cs := Combos(bios, lasts, firsts);
    forall c
      ensures c in cs <==> c in Box(Elements(firsts), Elements(lasts), Elements(bios))
    {
      MembersOfCombos(bios, lasts, firsts, c);
    }
  }

  function OrBlank(names: seq<string>): seq<string> {
    if |names| > 0 then names else [""]
  }

  /** The pools as the three shuffles leave them, each going on from the state of the one before. */
  function ShuffledPools(pool: Pool, mobile: string): (seq<string>, seq<string>, seq<string>) {
    var (firsts, s1) := Shuffle(OrBlank(pool.firstNames), Seed(mobile));
    var (lasts, s2) := Shuffle(OrBlank(pool.lastNames), s1);
    var (bios, s3) := Shuffle(OrBlank(pool.bios), s2);
    (firsts, lasts, bios)
  }

  method ShuffleNames(names: seq<string>, prng: Lcg) returns (shuffled: seq<string>)
    modifies prng
    ensures (shuffled, prng.s) == Shuffle(OrBlank(names), old(prng.s))
  {
    var source := OrBlank(names);
    var arr := new string[|source|](i requires 0 <= i < |source| => source[i]);
    assert arr[..] == source;
    SeededShuffle(arr, prng);
    shuffled := arr[..];
  }

  function Keys(results: seq<Candidate>): seq<Combo> {
    seq(|results|, i requires 0 <= i < |results| => results[i].combo)
  }

  /** What the loops hold after visiting `visited`: the first distinct combinations, at most the limit. */
  ghost predicate Collected(results: seq<Candidate>, visited: seq<Combo>, mobile: string, pics: seq<string>) {
    && Keys(results) == AtMost(FirstSeen(visited))
    && forall i | 0 <= i < |results| :: results[i] == CandidateFor(mobile, pics, results[i].combo)
  }

  method GenerateCandidateCombinations(pool: Pool, mobile: string) returns (results: seq<Candidate>)
    ensures var (firsts, lasts, bios) := ShuffledPools(pool, mobile);
      Collected(results, Combos(bios, lasts, firsts), mobile, pool.profilePics)
    ensures forall c | c in results ::
      c.profilePics == SelectPics(mobile + ":" + c.combo.firstName + ":" + c.combo.lastName, pool.profilePics)
  {
    hide Shuffle, FirstSeen, Seed, CandidateFor, OfLast, OfBio, Combos;
    var prng := new Lcg(Seed(mobile) as int);
    SeedIsState(mobile);
    var firstNames := ShuffleNames(pool.firstNames, prng);
    var lastNames := ShuffleNames(pool.lastNames, prng);
    var bios := ShuffleNames(pool.bios, prng);
    results := [];
    NothingVisited("", "", lastNames, firstNames);
    for b := 0 to |bios|
      invariant Collected(results, Combos(bios[..b], lastNames, firstNames), mobile, pool.profilePics)
    {
      ghost var visitedB := Combos(bios[..b], lastNames, firstNames);
      NothingVisited(bios[b], "", lastNames, firstNames);
      assert visitedB + [] == visitedB;
      for l := 0 to |lastNames|
        invariant Collected(results, visitedB + OfBio(bios[b], lastNames[..l], firstNames), mobile, pool.profilePics)
      {
        ghost var visitedL := visitedB + OfBio(bios[b], lastNames[..l], firstNames);
        NothingVisited(bios[b], lastNames[l], lastNames, firstNames);
        assert visitedL + [] == visitedL;
        for f := 0 to |firstNames|
          invariant Collected(results, visitedL + OfLast(bios[b], lastNames[l], firstNames[..f]), mobile, pool.profilePics)
        {
          results := VisitOne(results, Combo(firstNames[f], lastNames[l], bios[b]), mobile, pool.profilePics,
                              visitedL + OfLast(bios[b], lastNames[l], firstNames[..f]));
          NextOfLast(bios[b], lastNames[l], firstNames, f);
          assert visitedL + (OfLast(bios[b], lastNames[l], firstNames[..f]) + [Combo(firstNames[f], lastNames[l], bios[b])])
            == (visitedL + OfLast(bios[b], lastNames[l], firstNames[..f])) + [Combo(firstNames[f], lastNames[l], bios[b])];
        }
        NextOfBio(bios[b], lastNames, firstNames, l);
        assert firstNames[..|firstNames|] == firstNames;
        assert visitedB + (OfBio(bios[b], lastNames[..l], firstNames) + OfLast(bios[b], lastNames[l], firstNames))
          == visitedL + OfLast(bios[b], lastNames[l], firstNames);
      }
      NextOfCombos(bios, lastNames, firstNames, b);
      assert lastNames[..|lastNames|] == lastNames;
    }
    assert bios[..|bios|] == bios;
    forall c | c in results
      ensures c.profilePics == SelectPics(mobile + ":" + c.combo.firstName + ":" + c.combo.lastName, pool.profilePics)
    {
      CandidateIs(mobile, pool.profilePics, c.combo);
    }
  }

  /** One visit: nothing once the limit is reached, or when the key was seen. */
  method VisitOne(results: seq<Candidate>, c: Combo, mobile: string, pics: seq<string>, ghost visited: seq<Combo>)
    returns (results': seq<Candidate>)
    requires Collected(results, visited, mobile, pics)
    ensures Collected(results', visited + [c], mobile, pics)
  {
    hide CandidateFor, SelectPics;
    assert (visited + [c])[..|visited|] == visited;
    results' := results;
    if |results| >= MAX_CANDIDATES { return; }
    assert FirstSeen(visited) == Keys(results);
    var selected := SelectAssignedProfilePics(mobile + ":" + c.firstName + ":" + c.lastName, pics);
    var candidate := Candidate(c, selected);
    CandidateIs(mobile, pics, c);
    KeySeenIff(results, mobile, pics, c);
    if forall r | r in results :: PersonaKey(r) != PersonaKey(candidate) {
      results' := results + [candidate];
      assert Keys(results') == Keys(results) + [c];
    }
  }

  lemma CandidateIs(mobile: string, pics: seq<string>, c: Combo)
    ensures CandidateFor(mobile, pics, c)
         == Candidate(c, SelectPics(mobile + ":" + c.firstName + ":" + c.lastName, pics))
  {
  }

  /** The pictures follow from the names, so keys are equal exactly when the combinations are. */
  lemma KeySeenIff(results: seq<Candidate>, mobile: string, pics: seq<string>, c: Combo)
    requires forall i | 0 <= i < |results| :: results[i] == CandidateFor(mobile, pics, results[i].combo)
    ensures c in Keys(results) <==> exists r | r in results :: PersonaKey(r) == PersonaKey(CandidateFor(mobile, pics, c))
  {
    if c in Keys(results) {
      var i :| 0 <= i < |results| && results[i].combo == c;
      assert results[i] in results;
    }
    if r :| r in results && PersonaKey(r) == PersonaKey(CandidateFor(mobile, pics, c)) {
      var i :| 0 <= i < |results| && results[i] == r;
      assert Keys(results)[i] == c;
    }
  }

  lemma SeedIsState(mobile: string)
    ensures ToInt32(Seed(mobile) as int) == Seed(mobile)
  {
    ToInt32Wraps(Seed(mobile), 0);
  }

  lemma NothingVisited(bio: string, last: string, lasts: seq<string>, firsts: seq<string>)
    ensures OfLast(bio, last, firsts[..0]) == [] && OfBio(bio, lasts[..0], firsts) == [] && Combos([], lasts, firsts) == []
    ensures FirstSeen([]) == []
  {
  }

  lemma NextOfLast(bio: string, last: string, firsts: seq<string>, f: nat)
    requires f < |firsts|
    ensures OfLast(bio, last, firsts[..f + 1]) == OfLast(bio, last, firsts[..f]) + [Combo(firsts[f], last, bio)]
  {
    assert firsts[..f + 1][..f] == firsts[..f];
  }

  lemma NextOfBio(bio: string, lasts: seq<string>, firsts: seq<string>, l: nat)
    requires l < |lasts|
    ensures OfBio(bio, lasts[..l + 1], firsts) == OfBio(bio, lasts[..l], firsts) + OfLast(bio, lasts[l], firsts)
  {
    assert lasts[..l + 1][..l] == lasts[..l];
  }

  lemma NextOfCombos(bios: seq<string>, lasts: seq<string>, firsts: seq<string>, b: nat)
    requires b < |bios|
    ensures Combos(bios[..b + 1], lasts, firsts) == Combos(bios[..b], lasts, firsts) + OfBio(bios[b], lasts, firsts)
  {
    assert bios[..b + 1][..b] == bios[..b];
  }

  lemma ShuffleKeepsElements(names: seq<string>, s: Int32)
    ensures Elements(Shuffle(names, s).0) == Elements(names)
  {
    if names != [] {
      ShufflePermutes(names, s, |names| - 1);
      var shuffled := Shuffle(names, s).0;
      forall x
        ensures x in shuffled <==> x in names
      {
        assert x in shuffled <==> x in multiset(shuffled);
        assert x in names <==> x in multiset(names);
      }
    }
  }

  /** The pools go through the generator one after the other; an empty one holds the empty name. */
  lemma PoolsAre(pool: Pool, mobile: string)
    ensures var (firsts, lasts, bios) := ShuffledPools(pool, mobile);
      var names := Shuffle(if pool.firstNames == [] then [""] else pool.firstNames, Seed(mobile));
      var surnames := Shuffle(if pool.lastNames == [] then [""] else pool.lastNames, names.1);
      firsts == names.0 && lasts == surnames.0 && bios == Shuffle(if pool.bios == [] then [""] else pool.bios, surnames.1).0
  {
  }

  /** Where a combination is first met: after as many others as come before it in the result. */
  lemma {:induction false} FirstMet(cs: seq<Combo>, i: nat) returns (k: nat)
    requires i < |FirstSeen(cs)|
    ensures k < |cs| && cs[k] == FirstSeen(cs)[i] && cs[k] !in cs[..k]
    ensures |set c | c in cs[..k]| == i
  {
    k := |cs| - 1;
    var init := cs[..k];
    FirstSeenIs(init);
    if i < |FirstSeen(init)| {
      k := FirstMet(init, i);
      assert cs[..k] == init[..k];
    }
  }

  /** Candidate `i` is the first combination met after `i` others, in visiting order. */
  lemma CandidatesInOrder(cs: seq<Combo>, results: seq<Candidate>, mobile: string, pics: seq<string>, i: nat) returns (k: nat)
    requires Collected(results, cs, mobile, pics) && i < |results|
    ensures k < |cs| && cs[k] == results[i].combo && cs[k] !in cs[..k]
    ensures |set c | c in cs[..k]| == i
    ensures |results| <= 64
  {
    assert Keys(results)[i] == FirstSeen(cs)[i];
    k := FirstMet(cs, i);
  }

  /** The candidates have distinct keys, and there are as many as the distinct names and bios allow, up to the limit. */
  lemma CandidatesAreExact(pool: Pool, mobile: string, results: seq<Candidate>)
    requires var (firsts, lasts, bios) := ShuffledPools(pool, mobile);
      Collected(results, Combos(bios, lasts, firsts), mobile, pool.profilePics)
    ensures forall i, j | 0 <= i < j < |results| :: PersonaKey(results[i]) != PersonaKey(results[j])
    ensures var n := |Elements(OrBlank(pool.firstNames))| * (|Elements(OrBlank(pool.lastNames))| * |Elements(OrBlank(pool.bios))|);
      |results| == if n < MAX_CANDIDATES then n else MAX_CANDIDATES
    ensures forall r | r in results ::
      && r.combo.firstName in OrBlank(pool.firstNames)
      && r.combo.lastName in OrBlank(pool.lastNames)
      && r.combo.bio in OrBlank(pool.bios)
  {
    hide Shuffle, FirstSeen, Combos, CandidateFor;
    var (firsts, lasts, bios) := ShuffledPools(pool, mobile);
    var (f, s1) := Shuffle(OrBlank(pool.firstNames), Seed(mobile));
    var (l, s2) := Shuffle(OrBlank(pool.lastNames), s1);
    ShuffleKeepsElements(OrBlank(pool.firstNames), Seed(mobile));
    ShuffleKeepsElements(OrBlank(pool.lastNames), s1);
    ShuffleKeepsElements(OrBlank(pool.bios), s2);
    var cs := Combos(bios, lasts, firsts);
    DistinctCombos(bios, lasts, firsts);
    FirstSeenIs(cs);
    assert |Keys(results)| == |results|;
    forall i, j | 0 <= i < j < |results|
      ensures PersonaKey(results[i]) != PersonaKey(results[j])
    {
      assert Keys(results)[i] == FirstSeen(cs)[i] && Keys(results)[j] == FirstSeen(cs)[j];
    }
    forall r | r in results
      ensures r.combo.firstName in Elements(firsts) && r.combo.lastName in Elements(lasts) && r.combo.bio in Elements(bios)
    {
      var i :| 0 <= i < |results| && results[i] == r;
      assert Keys(results)[i] == r.combo && r.combo in FirstSeen(cs);
      MembersOfCombos(bios, lasts, firsts, r.combo);
    }
  }
}
