/** Seeded substitution of letters by homoglyphs, and the normaliser that undoes it. */
module Homoglyph {
  import opened Basics
  import opened HomoglyphTable

  // ---------------------------------------------------------------------------
  // The generator
  // ---------------------------------------------------------------------------

  const MODULUS: int := 2147483647
  const MULTIPLIER: int := 16807
  const INVERSE: int := 1407677000

  predicate IsSeed(s: int) { 1 <= s < MODULUS }

  function Step(s: int): int { s * MULTIPLIER % MODULUS }

  /** The multiplier is invertible, so the state never becomes zero and no two seeds share a successor. */
  lemma StepKeepsSeed(s: int)
    requires IsSeed(s)
    ensures IsSeed(Step(s)) && Step(s) * INVERSE % MODULUS == s
  {
    var q := s * MULTIPLIER / MODULUS;
    assert MULTIPLIER * INVERSE == 1 + 11017 * MODULUS;
    assert Step(s) == s * MULTIPLIER - q * MODULUS;
    assert Step(s) * INVERSE == s * (MULTIPLIER * INVERSE) - q * MODULUS * INVERSE == s + MODULUS * (s * 11017 - q * INVERSE);
    Wraps(s, s * 11017 - q * INVERSE);
  }

  lemma Wraps(s: int, turns: int)
    requires 0 <= s < MODULUS
    ensures (s + MODULUS * turns) % MODULUS == s
  {
  }

  /** floor(next() * n), with the quotient kept exact. */
  function Pick(s: int, n: nat): int { s * n / MODULUS }

  lemma PickInRange(s: int, n: nat)
    requires IsSeed(s) && n > 0
    ensures 0 <= Pick(s, n) < n
  {
    MulBelow(s, MODULUS, n);
    Quotient(s * n, n);
  }

  lemma Quotient(a: nat, n: nat)
    ensures 0 <= a / MODULUS && (a < MODULUS * n ==> a / MODULUS < n)
  {
  }

  class SeededRandom {
    var current: int

    ghost predicate Valid() reads this { IsSeed(current) }

    constructor (seed: int)
      requires IsSeed(seed)
      ensures Valid() && current == seed
    {
      current := seed;
    }

    method Chance(probability: real) returns (b: bool)
      requires Valid()
      modifies this
      ensures Valid() && current == Step(old(current)) && b == Likely(current, probability)
    {
      StepKeepsSeed(current);
      current := Step(current);
      b := current as real / MODULUS as real < probability;
    }

    method Choice(options: string) returns (c: char)
      requires Valid() && options != ""
      modifies this
      ensures Valid() && current == Step(old(current))
      ensures 0 <= Pick(current, |options|) < |options| && c == options[Pick(current, |options|)]
    {
      StepKeepsSeed(current);
      current := Step(current);
      PickInRange(current, |options|);
      c := options[Pick(current, |options|)];
    }
  }

  predicate Likely(s: int, probability: real) { s as real / MODULUS as real < probability }

  // ---------------------------------------------------------------------------
  // Substitution
  // ---------------------------------------------------------------------------

  predicate IsUpper(c: char) { 'A' <= c <= 'Z' }

  predicate IsLetter(c: char) { IsUpper(c) || 'a' <= c <= 'z' }

  function LowerChar(c: char): char {
    if IsUpper(c) then (c as int + 32) as char else c
  }

  function Lower(s: string): string {
    if s == "" then "" else Lower(s[..|s| - 1]) + [LowerChar(s[|s| - 1])]
  }

  lemma {:induction false} LowerIs(s: string)
    ensures |Lower(s)| == |s|
    ensures forall i | 0 <= i < |s| :: Lower(s)[i] == if 'A' <= s[i] <= 'Z' then (s[i] as int + 32) as char else s[i]
  {
    if s != "" {
      LowerIs(s[..|s| - 1]);
    }
  }

  predicate Ascii(s: string) { forall i | 0 <= i < |s| :: s[i] <= '\U{007F}' }

  /** `upper` is the upper case of a glyph, which may be several characters. */
  datatype Settings = Settings(rate: real, preserveCase: bool, upper: char -> string)

  /** A substitute as it is written for the letter `c`. */
  function Written(c: char, glyph: char, st: Settings): string {
    if st.preserveCase && IsUpper(c) then st.upper(glyph) else [glyph]
  }

  function EmitOne(c: char, s: int, st: Settings): (r: (string, int))
    requires IsSeed(s)
    ensures IsSeed(r.1)
  {
    var glyphs := Glyphs(LowerChar(c));
    if !IsLetter(c) || glyphs == "" then ([c], s)
    else
      StepKeepsSeed(s);
      var s1 := Step(s);
      if !Likely(s1, st.rate) then ([c], s1)
      else
        StepKeepsSeed(s1);
        var s2 := Step(s1);
        PickInRange(s2, |glyphs|);
        (Written(c, glyphs[Pick(s2, |glyphs|)], st), s2)
  }

  /** One character from the draws: a first one decides whether it is substituted, a second one by what. */
  lemma LetterEmitted(c: char, s: int, st: Settings)
    requires IsSeed(s)
    ensures var s1 := s * 16807 % 2147483647;
      var s2 := s1 * 16807 % 2147483647;
      var glyphs := Glyphs(if 'A' <= c <= 'Z' then (c as int + 32) as char else c);
      var e := EmitOne(c, s, st);
      if !('A' <= c <= 'Z' || 'a' <= c <= 'z') then e == ([c], s)
      else if s1 as real >= st.rate * 2147483647.0 then e == ([c], s1)
      else exists i | 0 <= i < |glyphs| ::
        && i * 2147483647 <= s2 * |glyphs| < (i + 1) * 2147483647
        && e == (if st.preserveCase && 'A' <= c <= 'Z' then st.upper(glyphs[i]) else [glyphs[i]], s2)
  {
    var (s1, l) := (Step(s), LowerChar(c));
    assert s1 as real / MODULUS as real * MODULUS as real == s1 as real;
    if IsLetter(c) && Likely(s1, st.rate) {
      assert Glyphs(l) != "";
      StepKeepsSeed(s);
      StepKeepsSeed(s1);
      PickInRange(Step(s1), |Glyphs(l)|);
      var i := Pick(Step(s1), |Glyphs(l)|);
      assert i * 2147483647 <= Step(s1) * |Glyphs(l)| < (i + 1) * 2147483647;
    }
  }

  /** The line with its letters substituted, and the state of the generator after it. */
  function Emit(line: string, s: int, st: Settings): (r: (string, int))
    requires IsSeed(s)
    ensures IsSeed(r.1)
  {
    if line == "" then ("", s)
    else
      var (before, s1) := Emit(line[..|line| - 1], s, st);
      var (piece, s2) := EmitOne(line[|line| - 1], s1, st);
      (before + piece, s2)
  }

  /** The per-character loop with only letters substituted. */
  method ObfuscateLine(line: string, st: Settings, random: SeededRandom) returns (newLine: string)
    requires random.Valid()
    modifies random
    ensures random.Valid() && (newLine, random.current) == Emit(line, old(random.current), st)
  {
    newLine := "";
    for i := 0 to |line|
      invariant random.Valid() && (newLine, random.current) == Emit(line[..i], old(random.current), st)
    {
      hide Glyphs, Step, Likely, Pick, Written;
      assert line[..i + 1][..i] == line[..i];
      var c := line[i];
      var glyphs := Glyphs(LowerChar(c));
      ghost var before := random.current;
      var substitute := false;
      if IsLetter(c) && glyphs != "" {
        substitute := random.Chance(st.rate);
      }
      if substitute {
        var glyph := random.Choice(glyphs);
        newLine := newLine + Written(c, glyph, st);
      } else {
        newLine := newLine + [c];
      }
    }
    assert line[..|line|] == line;
  }

  // ---------------------------------------------------------------------------
  // Normalisation
  // ---------------------------------------------------------------------------

  ghost predicate IsReverse(m: map<char, char>) {
    && (forall l, i | 0 <= i < |Glyphs(l)| :: Glyphs(l)[i] in m && m[Glyphs(l)[i]] == l)
    && (forall g | g in m :: g > '\U{007F}' && g in Glyphs(m[g]))
  }

  /** Every entry leads back, and the glyphs of the first `n` letters have one. */
  ghost predicate ReverseSoFar(m: map<char, char>, n: nat)
    requires n <= |LETTERS|
  {
    && (forall j | 0 <= j < n :: AllIn(m, LETTERS[j], |Glyphs(LETTERS[j])|))
    && OnlyGlyphs(m)
  }

  ghost predicate AllIn(m: map<char, char>, l: char, n: nat)
    requires n <= |Glyphs(l)|
  {
    forall i | 0 <= i < n :: Glyphs(l)[i] in m && m[Glyphs(l)[i]] == l
  }

  ghost predicate OnlyGlyphs(m: map<char, char>) {
    forall g | g in m :: g > '\U{007F}' && g in Glyphs(m[g]) && LetterOf(g) == Some(m[g])
  }

  /** No entry is overwritten by another letter's. */
  method AddGlyphs(before: map<char, char>, ascii: char) returns (m: map<char, char>)
    requires OnlyGlyphs(before)
    ensures OnlyGlyphs(m) && AllIn(m, ascii, |Glyphs(ascii)|)
    ensures forall g | g in before :: g in m && m[g] == before[g]
  {
    hide Glyphs, LetterOf;
    m := before;
    for n := 0 to |Glyphs(ascii)|
      invariant OnlyGlyphs(m) && AllIn(m, ascii, n)
      invariant forall g | g in before :: g in m && m[g] == before[g]
    {
      GlyphsLeadBack(ascii, n);
      m := m[Glyphs(ascii)[n] := ascii];
    }
  }

  method BuildReverseMap() returns (m: map<char, char>)
    ensures IsReverse(m)
  {
    hide Glyphs, LetterOf;
    m := map[];
    for k := 0 to |LETTERS|
      invariant ReverseSoFar(m, k)
    {
      m := AddGlyphs(m, LETTERS[k]);
    }
    forall l, i | 0 <= i < |Glyphs(l)|
      ensures Glyphs(l)[i] in m && m[Glyphs(l)[i]] == l
    {
      OnlyLettersHaveGlyphs(l);
      LettersInOrder(l);
      var j :| 0 <= j < |LETTERS| && LETTERS[j] == l;
      assert AllIn(m, LETTERS[j], |Glyphs(LETTERS[j])|);
    }
  }

  lemma OnlyLettersHaveGlyphs(l: char)
    requires Glyphs(l) != ""
    ensures 'a' <= l <= 'z'
  {
  }

  lemma LettersInOrder(l: char)
    requires 'a' <= l <= 'z'
    ensures l in LETTERS
  {
    assert LETTERS[l as int - 'a' as int] == l;
  }

  function NormalChar(m: map<char, char>, c: char): char {
    if c in m then m[c] else c
  }

  function Normal(m: map<char, char>, text: string): string {
    if text == "" then "" else Normal(m, text[..|text| - 1]) + [NormalChar(m, text[|text| - 1])]
  }

  method NormalizeHomoglyphs(reverseMap: map<char, char>, text: string) returns (result: string)
    ensures result == Normal(reverseMap, text)
    ensures |result| == |text| && forall i | 0 <= i < |text| ::
      result[i] == if text[i] in reverseMap then reverseMap[text[i]] else text[i]
  {
    result := "";
    for i := 0 to |text|
      invariant result == Normal(reverseMap, text[..i])
      invariant |result| == i && forall k | 0 <= k < i ::
        result[k] == if text[k] in reverseMap then reverseMap[text[k]] else text[k]
    {
      assert text[..i + 1][..i] == text[..i];
      result := result + [if text[i] in reverseMap then reverseMap[text[i]] else text[i]];
    }
    assert text[..|text|] == text;
  }

  // ---------------------------------------------------------------------------
  // The round trip
  // ---------------------------------------------------------------------------

  /** What is compared in the end: normalised and lower-cased. */
  function Plain(m: map<char, char>, text: string): string { Lower(Normal(m, text)) }

  lemma {:induction false} PlainJoin(m: map<char, char>, a: string, b: string)
    ensures Plain(m, a + b) == Plain(m, a) + Plain(m, b)
    decreases |b|
  {
    if b == "" {
      assert a + b == a;
    } else {
      var b0 := b[..|b| - 1];
      assert (a + b)[..|a + b| - 1] == a + b0;
      PlainJoin(m, a, b0);
      PlainLast(m, a + b);
      PlainLast(m, b);
    }
  }

  lemma PlainLast(m: map<char, char>, a: string)
    requires a != ""
    ensures Plain(m, a) == Plain(m, a[..|a| - 1]) + [LowerChar(NormalChar(m, a[|a| - 1]))]
  {
    var n := Normal(m, a);
    assert n[..|n| - 1] == Normal(m, a[..|a| - 1]);
  }

  lemma PlainNone(m: map<char, char>)
    ensures Plain(m, "") == ""
  {
  }

  lemma PlainOne(m: map<char, char>, c: char)
    ensures Plain(m, [c]) == [LowerChar(NormalChar(m, c))]
  {
    PlainLast(m, [c]);
    assert Plain(m, "") == "";
  }

  // ---------------------------------------------------------------------------
  // Whatever the generator draws
  // ---------------------------------------------------------------------------

  ghost predicate MayEmit(c: char, piece: string, st: Settings) {
    piece == [c] ||
    (IsLetter(c) && exists i | 0 <= i < |Glyphs(LowerChar(c))| :: piece == Written(c, Glyphs(LowerChar(c))[i], st))
  }

  /** Some choice of letters and substitutes turns the line into `out`. */
  ghost predicate MayBecome(line: string, out: string, st: Settings) {
    if line == "" then out == ""
    else exists before, piece ::
      out == before + piece && MayBecome(line[..|line| - 1], before, st) && MayEmit(line[|line| - 1], piece, st)
  }

  lemma EmitOneMay(c: char, s: int, st: Settings)
    requires IsSeed(s)
    ensures MayEmit(c, EmitOne(c, s, st).0, st)
  {
    hide Glyphs, Step, Pick, Likely, Written;
    if IsLetter(c) && Glyphs(LowerChar(c)) != "" {
      StepKeepsSeed(s);
      StepKeepsSeed(Step(s));
      PickInRange(Step(Step(s)), |Glyphs(LowerChar(c))|);
    }
  }

  /** What the generator makes of a line is one of the things the line may become. */
  lemma {:induction false} EmitMay(line: string, s: int, st: Settings)
    requires IsSeed(s)
    ensures MayBecome(line, Emit(line, s, st).0, st)
  {
    hide EmitOne, MayEmit;
    if line != "" {
      var init := line[..|line| - 1];
      EmitMay(init, s, st);
      var (before, s1) := Emit(init, s, st);
      EmitOneMay(line[|line| - 1], s1, st);
      assert Emit(line, s, st).0 == before + EmitOne(line[|line| - 1], s1, st).0;
    }
  }

  predicate HasUpper(line: string) { exists k | 0 <= k < |line| :: IsUpper(line[k]) }

  /** No substitute is written in upper case. */
  predicate KeepsGlyphs(line: string, st: Settings) { !st.preserveCase || !HasUpper(line) }

  lemma PieceReturns(m: map<char, char>, c: char, piece: string, st: Settings)
    requires IsReverse(m) && c <= '\U{007F}' && MayEmit(c, piece, st) && (!st.preserveCase || !IsUpper(c))
    ensures Plain(m, piece) == [LowerChar(c)]
  {
    hide Glyphs, Plain;
    PlainOne(m, c);
    if piece != [c] {
      var i :| 0 <= i < |Glyphs(LowerChar(c))| && piece == Written(c, Glyphs(LowerChar(c))[i], st);
      PlainOne(m, Glyphs(LowerChar(c))[i]);
    }
  }

  lemma {:induction false} LineReturns(m: map<char, char>, line: string, out: string, st: Settings)
    requires IsReverse(m) && Ascii(line) && KeepsGlyphs(line, st) && MayBecome(line, out, st)
    ensures Plain(m, out) == Lower(line)
  {
    hide Plain, MayEmit;
    if line == "" {
      PlainNone(m);
    } else {
      var last := line[|line| - 1];
      var before, piece :| out == before + piece && MayBecome(line[..|line| - 1], before, st) && MayEmit(last, piece, st);
      LineReturns(m, line[..|line| - 1], before, st);
      PlainJoin(m, before, piece);
      PieceReturns(m, last, piece, st);
    }
  }

  /**
   * Without case preservation, the default, every ASCII line comes back, whatever the seed and the rate,
   * and whatever the generator draws.
   */
  lemma RoundTrip(m: map<char, char>, line: string, s: int, st: Settings)
    requires IsReverse(m) && Ascii(line) && !st.preserveCase
    ensures IsSeed(s) ==> Plain(m, Emit(line, s, st).0) == Lower(line)
    ensures forall out | MayBecome(line, out, st) :: Plain(m, out) == Lower(line)
  {
    hide Plain, Lower, Emit, MayBecome;
    forall out | MayBecome(line, out, st)
      ensures Plain(m, out) == Lower(line)
    {
      LineReturns(m, line, out, st);
    }
    if IsSeed(s) {
      EmitMay(line, s, st);
    }
  }

  // ---------------------------------------------------------------------------
  // With case preservation
  // ---------------------------------------------------------------------------

  /** For each letter, the place of a substitute whose upper case is not in the table, and that upper case. */
  function Escape(letter: char): (nat, char) {
    match letter
    case 'a' => (0, '\U{0410}')
    case 'b' => (2, '\U{0412}')
    case 'c' => (0, '\U{03F9}')
    case 'd' => (0, '\U{0500}')
    case 'e' => (0, '\U{0415}')
    case 'f' => (0, '\U{0492}')
    case 'g' => (0, '\U{A7AC}')
    case 'h' => (0, '\U{04BA}')
    case 'i' => (0, '\U{0406}')
    case 'j' => (0, '\U{0408}')
    case 'k' => (0, '\U{039A}')
    case 'l' => (0, '\U{216C}')
    case 'm' => (0, '\U{041C}')
    case 'n' => (0, '\U{0548}')
    case 'o' => (0, '\U{041E}')
    case 'p' => (0, '\U{0420}')
    case 'q' => (0, '\U{051A}')
    case 'r' => (0, '\U{0413}')
    case 's' => (0, '\U{0405}')
    case 't' => (0, '\U{0422}')
    case 'u' => (0, '\U{03A5}')
    case 'v' => (0, '\U{0474}')
    case 'w' => (0, '\U{051C}')
    case 'x' => (0, '\U{0425}')
    case 'y' => (0, '\U{0423}')
    case 'z' => (3, '\U{01B7}')
    case _ => (0, letter)
  }

  /** These upper cases are those of the Unicode character database. */
  ghost predicate UpperCases(upper: char -> string) {
    && (forall l | 'a' <= l <= 'z' :: Escape(l).0 < |Glyphs(l)| && upper(Glyphs(l)[Escape(l).0]) == [Escape(l).1])
    && (forall i | 0 <= i < Escape('b').0 :: upper(Glyphs('b')[i]) == [Glyphs('b')[i]])
    && (forall i | 0 <= i < Escape('z').0 :: upper(Glyphs('z')[i]) == [Glyphs('z')[i]])
  }

  lemma EarlyEscapeIsForeign(l: char)
    requires 'a' <= l <= 'm'
    ensures LetterOf(Escape(l).1) == None && Escape(l).1 > '\U{007F}'
  {
  }

  lemma LateEscapeIsForeign(l: char)
    requires 'm' < l <= 'z'
    ensures LetterOf(Escape(l).1) == None && Escape(l).1 > '\U{007F}'
  {
  }

  lemma EscapeIsForeign(l: char)
    requires 'a' <= l <= 'z'
    ensures LetterOf(Escape(l).1) == None && Escape(l).1 > '\U{007F}'
  {
    hide LetterOf, Escape;
    if l <= 'm' {
      EarlyEscapeIsForeign(l);
    } else {
      LateEscapeIsForeign(l);
    }
  }

  lemma NotReversed(m: map<char, char>, g: char)
    requires IsReverse(m) && LetterOf(g) == None
    ensures g !in m
  {
    hide LetterOf, Glyphs;
    if g in m {
      var i :| 0 <= i < |Glyphs(m[g])| && Glyphs(m[g])[i] == g;
      GlyphsLeadBack(m[g], i);
    }
  }

  lemma {:induction false} ForeignShows(m: map<char, char>, out: string, g: char)
    requires g !in m && g > '\U{007F}' && g in out
    ensures g in Plain(m, out)
  {
    hide Plain;
    var init := out[..|out| - 1];
    PlainLast(m, out);
    assert out == init + [out[|out| - 1]];
    if out[|out| - 1] != g {
      ForeignShows(m, init, g);
    }
  }

  lemma {:induction false} LowerIsAscii(line: string)
    requires Ascii(line)
    ensures Ascii(Lower(line))
  {
    if line != "" {
      LowerIsAscii(line[..|line| - 1]);
    }
  }

  /** An upper-case substitute in the output is not undone. */
  lemma EscapeShows(m: map<char, char>, line: string, out: string, l: char)
    requires IsReverse(m) && Ascii(line) && 'a' <= l <= 'z' && Escape(l).1 in out
    ensures Plain(m, out) != Lower(line)
  {
    hide Plain, Lower, LetterOf, Escape;
    EscapeIsForeign(l);
    NotReversed(m, Escape(l).1);
    ForeignShows(m, out, Escape(l).1);
    LowerIsAscii(line);
  }

  lemma {:induction false} MayStay(line: string, st: Settings)
    ensures MayBecome(line, line, st)
  {
    if line != "" {
      MayStay(line[..|line| - 1], st);
      assert line == line[..|line| - 1] + [line[|line| - 1]];
      assert MayEmit(line[|line| - 1], [line[|line| - 1]], st);
    }
  }

  /** One letter substituted, all others left. */
  lemma {:induction false} MayChangeOne(line: string, k: nat, piece: string, st: Settings)
    requires k < |line| && MayEmit(line[k], piece, st)
    ensures MayBecome(line, line[..k] + piece + line[k + 1..], st)
  {
    hide MayEmit;
    var init := line[..|line| - 1];
    if k == |line| - 1 {
      MayStay(init, st);
      assert line[..k] + piece + line[k + 1..] == init + piece;
    } else {
      MayChangeOne(init, k, piece, st);
      MayEmitSelf(line[|line| - 1], st);
      assert line[..k] + piece + line[k + 1..] == (init[..k] + piece + init[k + 1..]) + [line[|line| - 1]];
    }
  }

  lemma MayEmitSelf(c: char, st: Settings)
    ensures MayEmit(c, [c], st)
  {
  }

  /**
   * Over all draws, and for every rate: a line comes back whatever is substituted by whatever, if and only
   * if case is not preserved or the line has no upper-case letter.
   */
  lemma RoundTripIffNoUpper(m: map<char, char>, line: string, st: Settings)
    requires IsReverse(m) && Ascii(line) && UpperCases(st.upper)
    ensures (forall out | MayBecome(line, out, st) :: Plain(m, out) == Lower(line)) <==> !st.preserveCase || !HasUpper(line)
  {
    hide Plain, Lower, Glyphs, MayBecome, Escape;
    if KeepsGlyphs(line, st) {
      forall out | MayBecome(line, out, st)
        ensures Plain(m, out) == Lower(line)
      {
        LineReturns(m, line, out, st);
      }
    } else {
      var k :| 0 <= k < |line| && IsUpper(line[k]);
      var l := LowerChar(line[k]);
      var piece := Written(line[k], Glyphs(l)[Escape(l).0], st);
      assert piece == [Escape(l).1];
      MayChangeOne(line, k, piece, st);
      var out := line[..k] + piece + line[k + 1..];
      assert out[k] == Escape(l).1;
      EscapeShows(m, line, out, l);
    }
  }

  // ---------------------------------------------------------------------------
  // With case preservation, over seeds
  // ---------------------------------------------------------------------------

  /** The state before `s`. */
  function Back(s: int): int { s * INVERSE % MODULUS }

  lemma BackIsSeed(s: int)
    requires IsSeed(s)
    ensures IsSeed(Back(s)) && Step(Back(s)) == s
  {
    var q := s * INVERSE / MODULUS;
    assert MULTIPLIER * INVERSE == 1 + 11017 * MODULUS;
    assert Back(s) == s * INVERSE - q * MODULUS;
    assert Back(s) * MULTIPLIER == s * (MULTIPLIER * INVERSE) - q * MODULUS * MULTIPLIER == s + MODULUS * (s * 11017 - q * MULTIPLIER);
    Wraps(s, s * 11017 - q * MULTIPLIER);
  }

  /** The least state whose successor picks the substitute with the foreign upper case. */
  function LeastState(l: char): int {
    if l == 'b' then 51110 else if l == 'z' then 95830 else 1
  }

  /** At this rate some draws turn the upper-case letter into a character that is not undone. */
  predicate MayEscape(c: char, rate: real) {
    IsUpper(c) && rate * MODULUS as real > LeastState(LowerChar(c)) as real
  }

  predicate HasEscaping(line: string, rate: real) { exists k | 0 <= k < |line| :: MayEscape(line[k], rate) }

  lemma LikelyIs(s: int, rate: real)
    ensures Likely(s, rate) <==> s as real < rate * MODULUS as real
  {
    assert s as real / MODULUS as real * MODULUS as real == s as real;
  }

  /** Above one draw in twenty-two thousand every upper-case letter may escape. */
  lemma AnyUpperEscapes(line: string, rate: real)
    requires rate > 0.000045
    ensures HasEscaping(line, rate) <==> HasUpper(line)
  {
    if HasUpper(line) {
      var k :| 0 <= k < |line| && IsUpper(line[k]);
      assert rate * MODULUS as real > 95830.0;
      assert MayEscape(line[k], rate);
    }
  }

  // ---------------------------------------------------------------------------
  // Lines that come back
  // ---------------------------------------------------------------------------

  /** Draws that substitute so rarely are too small to pick a substitute with a foreign upper case. */
  lemma SmallDraws(c: char, s: int, st: Settings)
    requires IsSeed(s) && IsUpper(c) && !MayEscape(c, st.rate) && Likely(Step(s), st.rate)
    ensures var l := LowerChar(c); (l == 'b' || l == 'z') && 0 <= Pick(Step(Step(s)), |Glyphs(l)|) < Escape(l).0 < |Glyphs(l)|
  {
    StepKeepsSeed(s);
    LikelyIs(Step(s), st.rate);
    var s1 := Step(s);
    assert 1 <= s1 < LeastState(LowerChar(c));
    assert Step(s1) == s1 * MULTIPLIER;
  }

  lemma PieceIsSafe(m: map<char, char>, c: char, s: int, st: Settings)
    requires IsReverse(m) && c <= '\U{007F}' && IsSeed(s) && UpperCases(st.upper)
    requires !st.preserveCase || !MayEscape(c, st.rate)
    ensures Plain(m, EmitOne(c, s, st).0) == [LowerChar(c)]
  {
    hide Plain, Step, Likely, Pick, MayEscape, Escape;
    PlainOne(m, c);
    if !st.preserveCase || !IsUpper(c) {
      hide EmitOne;
      EmitOneMay(c, s, st);
      PieceReturns(m, c, EmitOne(c, s, st).0, st);
    } else if EmitOne(c, s, st).0 != [c] {
      SmallDraws(c, s, st);
      var l := LowerChar(c);
      PlainOne(m, Glyphs(l)[Pick(Step(Step(s)), |Glyphs(l)|)]);
    }
  }

  lemma {:induction false} LineIsSafe(m: map<char, char>, line: string, s: int, st: Settings)
    requires IsReverse(m) && Ascii(line) && IsSeed(s) && UpperCases(st.upper)
    requires !st.preserveCase || !HasEscaping(line, st.rate)
    ensures Plain(m, Emit(line, s, st).0) == Lower(line)
  {
    hide Plain, EmitOne, MayEscape, UpperCases;
    if line == "" {
      PlainNone(m);
    } else {
      var init := line[..|line| - 1];
      LineIsSafe(m, init, s, st);
      var (before, s1) := Emit(init, s, st);
      PlainJoin(m, before, EmitOne(line[|line| - 1], s1, st).0);
      PieceIsSafe(m, line[|line| - 1], s1, st);
    }
  }

  // ---------------------------------------------------------------------------
  // Leading the generator to a state
  // ---------------------------------------------------------------------------

  /** The state after a letter: one draw when it stays, two when it is substituted. */
  function Turn(s: int, rate: real): int {
    if Likely(Step(s), rate) then Step(Step(s)) else Step(s)
  }

  function Turns(s: int, n: nat, rate: real): int {
    if n == 0 then s else Turn(Turns(s, n - 1, rate), rate)
  }

  function Letters(line: string): nat {
    if line == "" then 0 else Letters(line[..|line| - 1]) + (if IsLetter(line[|line| - 1]) then 1 else 0)
  }

  lemma TurnIsSeed(s: int, rate: real)
    requires IsSeed(s)
    ensures IsSeed(Turn(s, rate))
  {
    hide Step;
    StepKeepsSeed(s);
    StepKeepsSeed(Step(s));
  }

  lemma {:induction false} TurnsAreSeeds(s: int, n: nat, rate: real)
    requires IsSeed(s)
    ensures IsSeed(Turns(s, n, rate))
  {
    hide Turn;
    if n > 0 {
      TurnsAreSeeds(s, n - 1, rate);
      TurnIsSeed(Turns(s, n - 1, rate), rate);
    }
  }

  lemma {:induction false} TurnsJoin(s: int, a: nat, b: nat, rate: real)
    ensures Turns(Turns(s, a, rate), b, rate) == Turns(s, a + b, rate)
  {
    hide Turn;
    if b > 0 {
      TurnsJoin(s, a, b - 1, rate);
    }
  }

  lemma EmitOneTurns(c: char, s: int, st: Settings)
    requires IsSeed(s)
    ensures EmitOne(c, s, st).1 == if IsLetter(c) then Turn(s, st.rate) else s
  {
    assert IsLetter(c) ==> Glyphs(LowerChar(c)) != "";
    hide Glyphs, Step, Likely, Pick, Written;
  }

  lemma {:induction false} EmitTurns(line: string, s: int, st: Settings)
    requires IsSeed(s)
    ensures Emit(line, s, st).1 == Turns(s, Letters(line), st.rate)
  {
    hide EmitOne, Turn;
    if line != "" {
      EmitTurns(line[..|line| - 1], s, st);
      EmitOneTurns(line[|line| - 1], Emit(line[..|line| - 1], s, st).1, st);
    }
  }

  /** The state `d` draws before `u`. */
  function BackBy(u: int, d: nat): int {
    if d == 0 then u else Back(BackBy(u, d - 1))
  }

  lemma {:induction false} BackByIsSeed(u: int, d: nat)
    requires IsSeed(u)
    ensures IsSeed(BackBy(u, d)) && (d > 0 ==> Step(BackBy(u, d)) == BackBy(u, d - 1))
  {
    hide Back, Step;
    if d > 0 {
      BackByIsSeed(u, d - 1);
      BackIsSeed(BackBy(u, d - 1));
    }
  }

  /** No walk jumps over the state, or every walk goes two draws at a time. */
  predicate IsAnchor(u: int, rate: real) {
    IsSeed(u) && (!Likely(u, rate) || Likely(MODULUS - 1, rate))
  }

  /** However many draws before it one starts, an anchor is met. */
  lemma {:induction false} WalkMeets(u: int, d: nat, rate: real) returns (n: nat)
    requires IsAnchor(u, rate) && (Likely(u, rate) ==> d % 2 == 0)
    ensures d <= 2 * n && Turns(BackBy(u, d), n, rate) == u
    decreases d
  {
    hide Step, Back;
    if d == 0 {
      n := 0;
    } else {
      var s := BackBy(u, d);
      BackByIsSeed(u, d);
      BackByIsSeed(u, d - 1);
      var next := BackBy(u, d - 1);
      if Likely(next, rate) {
        n := WalkMeets(u, d - 2, rate);
      } else {
        LikelyIs(next, rate);
        LikelyIs(MODULUS - 1, rate);
        n := WalkMeets(u, d - 1, rate);
      }
      TurnsJoin(s, 1, n, rate);
      assert Turns(s, 1, rate) == Turn(Turns(s, 0, rate), rate) == Turn(s, rate);
      n := n + 1;
    }
  }

  /** So some seed leads to the anchor after any given number of letters. */
  lemma SeedTurning(u: int, n: nat, rate: real) returns (seed: int)
    requires IsAnchor(u, rate)
    ensures IsSeed(seed) && Turns(seed, n, rate) == u
  {
    var walk := WalkMeets(u, 2 * n, rate);
    BackByIsSeed(u, 2 * n);
    seed := Turns(BackBy(u, 2 * n), walk - n, rate);
    TurnsAreSeeds(BackBy(u, 2 * n), walk - n, rate);
    TurnsJoin(BackBy(u, 2 * n), walk - n, n, rate);
  }

  // ---------------------------------------------------------------------------
  // Lines that do not come back
  // ---------------------------------------------------------------------------

  /** The next two draws substitute the letter by the substitute with the foreign upper case. */
  predicate Escapes(t: int, l: char, rate: real) {
    Likely(Step(t), rate) && Pick(Step(Step(t)), |Glyphs(l)|) == Escape(l).0
  }

  predicate PicksEscape(l: char, s: int) {
    if l == 'b' then 2 * MODULUS <= 5 * s < 3 * MODULUS
    else if l == 'z' then 3 * MODULUS <= 4 * s < 4 * MODULUS
    else 0 <= 6 * s < MODULUS
  }

  lemma GlyphCounts(l: char)
    requires 'a' <= l <= 'z'
    ensures |Glyphs('b')| == 5 && |Glyphs('z')| == 4 && 0 < |Glyphs(l)| <= 6
    ensures Escape(l).0 == if l == 'b' then 2 else if l == 'z' then 3 else 0
  {
  }

  lemma PickEscape(l: char, s: int)
    requires 'a' <= l <= 'z' && IsSeed(s) && PicksEscape(l, s)
    ensures Pick(s, |Glyphs(l)|) == Escape(l).0
  {
    GlyphCounts(l);
    hide Glyphs, Escape;
    if l != 'b' && l != 'z' {
      var n := |Glyphs(l)|;
      assert n == 1 || n == 2 || n == 3 || n == 4 || n == 5 || n == 6;
    }
  }

  lemma EscapesAt(t: int, l: char, rate: real)
    requires 'a' <= l <= 'z' && IsSeed(t) && Likely(Step(t), rate) && PicksEscape(l, Step(Step(t)))
    ensures Escapes(t, l, rate)
  {
    hide Step, Glyphs, Escape, Pick, Likely, PicksEscape;
    StepKeepsSeed(t);
    StepKeepsSeed(Step(t));
    PickEscape(l, Step(Step(t)));
  }

  lemma LowSteps()
    ensures Step(1407677000) == 1 && Step(1) == 16807
    ensures Step(1374328206) == 51110 && Step(51110) == 859005770
    ensures Step(1354140048) == 95830 && Step(95830) == 1610614810
  {
  }

  /** For rates of at most 0.6. */
  lemma LowRate(l: char, rate: real) returns (u: int)
    requires 'a' <= l <= 'z' && LeastState(l) as real < rate * MODULUS as real && rate <= 0.6
    ensures IsAnchor(u, rate) && Escapes(u, l, rate)
  {
    hide Step;
    LowSteps();
    u := if l == 'b' then 1374328206 else if l == 'z' then 1354140048 else 1407677000;
    hide Likely, Escapes;
    LikelyIs(u, rate);
    LikelyIs(Step(u), rate);
    EscapesAt(u, l, rate);
  }

  lemma MiddleSteps()
    ensures Step(2147355874) == 2836 && Step(2836) == 47664652
    ensures Step(2147355877) == 53257 && Step(53257) == 895090399
    ensures Step(2147355880) == 103678 && Step(103678) == 1742516146
  {
  }

  /** For rates up to 0.9999, and those at which every draw substitutes. */
  lemma MiddleRate(l: char, rate: real) returns (u: int)
    requires 'a' <= l <= 'z' && 0.6 < rate && (rate <= 0.9999 || Likely(MODULUS - 1, rate))
    ensures IsAnchor(u, rate) && Escapes(u, l, rate)
  {
    hide Step;
    MiddleSteps();
    u := if l == 'b' then 2147355877 else if l == 'z' then 2147355880 else 2147355874;
    hide Likely, Escapes;
    LikelyIs(u, rate);
    LikelyIs(Step(u), rate);
    EscapesAt(u, l, rate);
  }

  lemma HighSteps()
    ensures Step(MODULUS - 15) == 2147231542 && Step(2147231542) == 57838559
    ensures Step(MODULUS - 19) == 2147164314 && Step(2147164314) == 1075421210
    ensures Step(MODULUS - 16) == 2147214735 && Step(2147214735) == 1922846957
  {
  }

  /** For rates so high that only a few states do not substitute. */
  lemma HighRate(l: char, rate: real) returns (u: int)
    requires 'a' <= l <= 'z' && 0.9999 < rate && !Likely(MODULUS - 19, rate)
    ensures IsAnchor(u, rate) && Escapes(u, l, rate)
  {
    hide Step;
    HighSteps();
    LikelyIs(MODULUS - 19, rate);
    u := if l == 'b' then MODULUS - 19 else if l == 'z' then MODULUS - 16 else MODULUS - 15;
    hide Likely, Escapes;
    LikelyIs(u, rate);
    LikelyIs(Step(u), rate);
    EscapesAt(u, l, rate);
  }

  lemma StepsFromLast()
    ensures Step(MODULUS - 1) == 2147466840 && Step(2147466840) == 1865008398
    ensures Step(1865008398) == 524833574 && Step(524833574) == 1162539989
    ensures Step(1162539989) == 1003374717 && Step(1003374717) == 1677272375
    ensures Step(1677272375) == 2046456103 && Step(2046456103) == 689632769
    ensures Step(689632769) == 688705724 && Step(688705724) == 140245938
  {
  }

  /** For rates at which the last state, and perhaps a few before it, are the only ones that do not substitute. */
  lemma HighestRate(l: char, rate: real) returns (n: nat)
    requires 'a' <= l <= 'z' && Likely(MODULUS - 19, rate) && !Likely(MODULUS - 1, rate)
    ensures IsAnchor(MODULUS - 1, rate) && Escapes(Turns(MODULUS - 1, n, rate), l, rate)
  {
    hide Step;
    var s2, s4, s6, s8 := 1865008398, 1162539989, 1677272375, 689632769;
    StepsFromLast();
    LikelyIs(MODULUS - 19, rate);
    LikelyIs(2147466840, rate);
    LikelyIs(524833574, rate);
    LikelyIs(1003374717, rate);
    LikelyIs(2046456103, rate);
    LikelyIs(688705724, rate);
    hide Likely, Escapes;
    assert Turns(MODULUS - 1, 0, rate) == MODULUS - 1;
    assert Turns(MODULUS - 1, 1, rate) == s2;
    assert Turns(MODULUS - 1, 2, rate) == s4;
    assert Turns(MODULUS - 1, 3, rate) == s6;
    assert Turns(MODULUS - 1, 4, rate) == s8;
    n := if l == 'b' then 1 else if l == 'z' then 0 else 4;
    EscapesAt(Turns(MODULUS - 1, n, rate), l, rate);
  }

  /** A state from which the letter escapes, to be reached after any number of letters. */
  lemma EscapeTarget(l: char, rate: real) returns (u: int, n: nat)
    requires 'a' <= l <= 'z' && LeastState(l) as real < rate * MODULUS as real
    ensures IsAnchor(u, rate) && Escapes(Turns(u, n, rate), l, rate)
  {
    hide Escapes, Likely;
    n := 0;
    if rate <= 0.6 {
      u := LowRate(l, rate);
    } else if rate <= 0.9999 || Likely(MODULUS - 1, rate) {
      u := MiddleRate(l, rate);
    } else if !Likely(MODULUS - 19, rate) {
      u := HighRate(l, rate);
    } else {
      u := MODULUS - 1;
      n := HighestRate(l, rate);
    }
  }

  lemma EscapeWritten(c: char, t: int, st: Settings)
    requires UpperCases(st.upper) && st.preserveCase && IsUpper(c) && IsSeed(t) && Escapes(t, LowerChar(c), st.rate)
    ensures EmitOne(c, t, st).0 == [Escape(LowerChar(c)).1]
  {
    assert Glyphs(LowerChar(c)) != "";
    hide Glyphs, Step, Likely, Pick, Escape;
  }

  /** A seed at which the upper-case letter at `k` becomes a character that is not undone. */
  lemma {:induction false} FailingSeed(line: string, k: nat, st: Settings) returns (seed: int)
    requires UpperCases(st.upper) && st.preserveCase && k < |line| && MayEscape(line[k], st.rate)
    ensures IsSeed(seed) && Escape(LowerChar(line[k])).1 in Emit(line, seed, st).0
    decreases |line|
  {
    hide Escape, EmitOne, Escapes, UpperCases;
    var init := line[..|line| - 1];
    if k == |line| - 1 {
      var rate := st.rate;
      var u, n := EscapeTarget(LowerChar(line[k]), rate);
      var start := SeedTurning(u, Letters(init), rate);
      seed := Turns(start, n, rate);
      TurnsAreSeeds(start, n, rate);
      TurnsJoin(start, n, Letters(init), rate);
      TurnsJoin(start, Letters(init), n, rate);
      EmitTurns(init, seed, st);
      TurnsAreSeeds(u, n, rate);
      EscapeWritten(line[k], Turns(u, n, rate), st);
    } else {
      seed := FailingSeed(init, k, st);
    }
  }

  /**
   * Over all seeds and for every rate: a line comes back if and only if case is not preserved or none of its
   * upper-case letters may escape at the rate; above 0.000045 each of them may.
   */
  lemma SeedsRoundTripIffNoneEscapes(m: map<char, char>, line: string, st: Settings)
    requires IsReverse(m) && Ascii(line) && UpperCases(st.upper)
    ensures (forall s | IsSeed(s) :: Plain(m, Emit(line, s, st).0) == Lower(line))
      <==> !st.preserveCase || !HasEscaping(line, st.rate)
    ensures st.rate > 0.000045 ==> (HasEscaping(line, st.rate) <==> HasUpper(line))
  {
    hide Plain, Lower, Emit, MayEscape, Escape, UpperCases;
    if st.rate > 0.000045 {
      AnyUpperEscapes(line, st.rate);
    }
    if !st.preserveCase || !HasEscaping(line, st.rate) {
      forall s | IsSeed(s)
        ensures Plain(m, Emit(line, s, st).0) == Lower(line)
      {
        LineIsSafe(m, line, s, st);
      }
    } else {
      var k :| 0 <= k < |line| && MayEscape(line[k], st.rate);
      var seed := FailingSeed(line, k, st);
      EscapedLetter(line[k], st.rate);
      EscapeShows(m, line, Emit(line, seed, st).0, LowerChar(line[k]));
    }
  }

  lemma EscapedLetter(c: char, rate: real)
    requires MayEscape(c, rate)
    ensures 'a' <= LowerChar(c) <= 'z'
  {
  }

  /** One seed at which "A" becomes a Cyrillic capital for almost any rate, the default of 0.4 included. */
  lemma CaseNotSafe(m: map<char, char>, st: Settings)
    requires IsReverse(m) && st.preserveCase && st.upper('\U{0430}') == "\U{0410}" && st.rate > 0.000000001
    ensures IsSeed(INVERSE) && Emit("A", INVERSE, st).0 == "\U{0410}"
    ensures Plain(m, Emit("A", INVERSE, st).0) != Lower("A")
  {
    assert Step(INVERSE) == 1 && Step(1) == MULTIPLIER && Pick(MULTIPLIER, 5) == 0;
    assert Likely(1, st.rate);
    assert EmitOne('A', INVERSE, st).0 == "\U{0410}";
    assert "A"[..0] == "";
    EscapeShows(m, "A", "\U{0410}", 'a');
  }
}
