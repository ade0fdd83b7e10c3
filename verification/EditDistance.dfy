/** Tolerant text matching: edit distance by dynamic programming and the window search built on it. */
module EditDistance {
  import opened Basics

  // A JavaScript string is a sequence of UTF-16 code units.
  type CodeUnit = u: nat | u < 0x1_0000
  type Text = seq<CodeUnit>

  // ---------------------------------------------------------------------------
  // Edit scripts: the independent meaning of "distance"
  // ---------------------------------------------------------------------------

  /** One edit of a text, at a position counted in the text it is applied to. */
  datatype Edit = Insert(at: nat, unit: CodeUnit) | Delete(at: nat) | Substitute(at: nat, unit: CodeUnit)

  predicate Applies(e: Edit, s: Text) {
    if e.Insert? then e.at <= |s| else e.at < |s|
  }

  function ApplyOne(e: Edit, s: Text): Text
    requires Applies(e, s)
  {
    match e
    case Insert(at, unit) => s[..at] + [unit] + s[at..]
    case Delete(at) => s[..at] + s[at + 1..]
    case Substitute(at, unit) => s[..at] + [unit] + s[at + 1..]
  }

  /** Whether the edits, made one after the other, turn `s` into `t`. */
  predicate Turns(script: seq<Edit>, s: Text, t: Text) {
    if script == [] then s == t
    else Applies(script[0], s) && Turns(script[1..], ApplyOne(script[0], s), t)
  }

  /** `d` is the length of a shortest edit script from `s` to `t`. */
  ghost predicate IsDistance(d: nat, s: Text, t: Text) {
    && (exists script :: |script| == d && Turns(script, s, t))
    && (forall script :: Turns(script, s, t) ==> d <= |script|)
  }

  // ---------------------------------------------------------------------------
  // The recurrence the matrix tabulates
  // ---------------------------------------------------------------------------

  /** The last edit drops a unit of the first text, adds one of the second, or matches the two. */
  function Cheapest(drop: nat, add: nat, match': nat, cost: nat): nat {
    Min(Min(drop + 1, add + 1), match' + cost)
  }

  function Cost(a: CodeUnit, b: CodeUnit): nat { if a == b then 0 else 1 }

  function Init(s: Text): Text
    requires s != []
  {
    s[..|s| - 1]
  }

  function Last(s: Text): CodeUnit
    requires s != []
  {
    s[|s| - 1]
  }

  function Lev(s: Text, t: Text): nat
    decreases |s| + |t|
  {
    if s == [] then |t|
    else if t == [] then |s|
    else Cheapest(Lev(Init(s), t), Lev(s, Init(t)), Lev(Init(s), Init(t)), Cost(Last(s), Last(t)))
  }

  lemma LevUnfolds(s: Text, t: Text)
    requires s != [] && t != []
    ensures Lev(s, t) == Cheapest(Lev(Init(s), t), Lev(s, Init(t)), Lev(Init(s), Init(t)), Cost(Last(s), Last(t)))
  {
  }

  lemma {:induction false} LevBounds(s: Text, t: Text)
    ensures |s| - |t| <= Lev(s, t)
    ensures |t| - |s| <= Lev(s, t)
    ensures Lev(s, t) <= |s| + |t|
    decreases |s| + |t|
  {
    if s != [] && t != [] {
      LevBounds(Init(s), t);
      LevBounds(s, Init(t));
      LevBounds(Init(s), Init(t));
    }
  }

  lemma {:induction false} LevZero(s: Text, t: Text)
    requires Lev(s, t) == 0
    ensures s == t
    decreases |s| + |t|
  {
    if s != [] && t != [] {
      LevZero(Init(s), Init(t));
      assert s == Init(s) + [Last(s)] && t == Init(t) + [Last(t)];
    }
  }

  lemma {:induction false} LevSymmetric(s: Text, t: Text)
    ensures Lev(s, t) == Lev(t, s)
    decreases |s| + |t|
  {
    if s != [] && t != [] {
      LevSymmetric(Init(s), t);
      LevSymmetric(s, Init(t));
      LevSymmetric(Init(s), Init(t));
    }
  }

  lemma {:induction false} LevTriangle(s: Text, t: Text, u: Text)
    ensures Lev(s, u) <= Lev(s, t) + Lev(t, u)
    decreases |s| + |t| + |u|
  {
    hide Lev;
    LevBounds(s, t);
    LevBounds(t, u);
    LevBounds(s, u);
    if s != [] && t != [] && u != [] {
      LevUnfolds(s, t);
      LevUnfolds(t, u);
      LevUnfolds(s, u);
      LevTriangle(Init(s), t, u);
      LevTriangle(s, t, Init(u));
      LevTriangle(s, Init(t), u);
      LevTriangle(s, Init(t), Init(u));
      LevTriangle(Init(s), Init(t), u);
      LevTriangle(Init(s), Init(t), Init(u));
    }
  }

  lemma {:induction false} LevSelf(s: Text)
    ensures Lev(s, s) == 0
    decreases |s|
  {
    if s != [] {
      LevSelf(Init(s));
    }
  }

  /** A common suffix never adds to the distance. */
  lemma {:induction false} LevSuffix(a: Text, b: Text, suffix: Text)
    ensures Lev(a + suffix, b + suffix) <= Lev(a, b)
    decreases |suffix|
  {
    if suffix == [] {
      assert a + suffix == a && b + suffix == b;
    } else {
      LevSuffix(a, b, Init(suffix));
      assert Init(a + suffix) == a + Init(suffix);
      assert Init(b + suffix) == b + Init(suffix);
    }
  }

  lemma LevOneMore(a: Text, x: CodeUnit, y: CodeUnit)
    ensures Lev(a, a + [x]) <= 1 && Lev(a + [x], a) <= 1 && Lev(a + [x], a + [y]) <= 1
  {
    hide Lev;
    LevSelf(a);
    LevBounds(a, a + [x]);
    LevBounds(a + [x], a);
    LevUnfolds(a + [x], a + [y]);
    assert Init(a + [x]) == a && Init(a + [y]) == a;
    if a != [] {
      LevUnfolds(a, a + [x]);
      LevUnfolds(a + [x], a);
    }
  }

  lemma LevOneEdit(e: Edit, s: Text)
    requires Applies(e, s)
    ensures Lev(s, ApplyOne(e, s)) <= 1
  {
    hide Lev;
    var a := s[..e.at];
    if e.Insert? {
      assert s == a + s[e.at..];
      LevSuffix(a, a + [e.unit], s[e.at..]);
      LevOneMore(a, e.unit, e.unit);
    } else {
      var x := s[e.at];
      assert s == a + [x] + s[e.at + 1..];
      if e.Delete? {
        LevSuffix(a + [x], a, s[e.at + 1..]);
        LevOneMore(a, x, x);
      } else {
        LevSuffix(a + [x], a + [e.unit], s[e.at + 1..]);
        LevOneMore(a, x, e.unit);
      }
    }
  }

  /** No script is shorter than the recurrence. */
  lemma {:induction false} LevLowerBound(script: seq<Edit>, s: Text, t: Text)
    requires Turns(script, s, t)
    ensures Lev(s, t) <= |script|
    decreases |script|
  {
    if script == [] {
      LevSelf(s);
    } else {
      var s' := ApplyOne(script[0], s);
      LevLowerBound(script[1..], s', t);
      LevOneEdit(script[0], s);
      LevTriangle(s, s', t);
    }
  }

  /** A script made on a prefix does the same with one more unit after it. */
  lemma {:induction false} TurnsWithTail(script: seq<Edit>, s: Text, t: Text, x: CodeUnit)
    requires Turns(script, s, t)
    ensures Turns(script, s + [x], t + [x])
    decreases |script|
  {
    if script != [] {
      var e := script[0];
      assert ApplyOne(e, s + [x]) == ApplyOne(e, s) + [x];
      TurnsWithTail(script[1..], ApplyOne(e, s), t, x);
    }
  }

  lemma {:induction false} TurnsThen(script: seq<Edit>, s: Text, t: Text, e: Edit)
    requires Turns(script, s, t) && Applies(e, t)
    ensures Turns(script + [e], s, ApplyOne(e, t))
    decreases |script|
  {
    if script == [] {
      assert ([e])[1..] == [];
    } else {
      TurnsThen(script[1..], ApplyOne(script[0], s), t, e);
      assert (script + [e])[1..] == script[1..] + [e];
    }
  }

  /** Some script is as short as the recurrence. */
  lemma {:induction false} LevScript(s: Text, t: Text) returns (script: seq<Edit>)
    ensures |script| == Lev(s, t) && Turns(script, s, t)
    decreases |s| + |t|
  {
    if s == [] && t == [] {
      script := [];
    } else if s == [] || (t != [] && Lev(s, t) == Lev(s, Init(t)) + 1) {
      script := LevScript(s, Init(t));
      script := ThenInsert(script, s, t);
    } else if t == [] || Lev(s, t) == Lev(Init(s), t) + 1 {
      script := LevScript(Init(s), t);
      script := ThenDelete(script, s, t);
    } else {
      script := LevScript(Init(s), Init(t));
      script := ThenMatch(script, s, t);
    }
  }

  lemma ThenInsert(script: seq<Edit>, s: Text, t: Text) returns (longer: seq<Edit>)
    requires t != [] && Turns(script, s, Init(t))
    ensures |longer| == |script| + 1 && Turns(longer, s, t)
  {
    var e := Insert(|t| - 1, Last(t));
    TurnsThen(script, s, Init(t), e);
    assert ApplyOne(e, Init(t)) == t;
    longer := script + [e];
  }

  lemma ThenDelete(script: seq<Edit>, s: Text, t: Text) returns (longer: seq<Edit>)
    requires s != [] && Turns(script, Init(s), t)
    ensures |longer| == |script| + 1 && Turns(longer, s, t)
  {
    assert s == Init(s) + [Last(s)];
    TurnsWithTail(script, Init(s), t, Last(s));
    var e := Delete(|t|);
    TurnsThen(script, s, t + [Last(s)], e);
    assert ApplyOne(e, t + [Last(s)]) == t;
    longer := script + [e];
  }

  lemma ThenMatch(script: seq<Edit>, s: Text, t: Text) returns (longer: seq<Edit>)
    requires s != [] && t != [] && Turns(script, Init(s), Init(t))
    ensures |longer| == |script| + Cost(Last(s), Last(t)) && Turns(longer, s, t)
  {
    assert s == Init(s) + [Last(s)] && t == Init(t) + [Last(t)];
    TurnsWithTail(script, Init(s), Init(t), Last(s));
    longer := script;
    if Last(s) != Last(t) {
      var e := Substitute(|t| - 1, Last(t));
      TurnsThen(script, s, Init(t) + [Last(s)], e);
      assert ApplyOne(e, Init(t) + [Last(s)]) == t;
      longer := script + [e];
    }
  }

  /** The recurrence is the least number of edits. */
  lemma LevIsDistance(s: Text, t: Text)
    ensures IsDistance(Lev(s, t), s, t)
  {
    var witness' := LevScript(s, t);
    forall script | Turns(script, s, t)
      ensures Lev(s, t) <= |script|
    {
      LevLowerBound(script, s, t);
    }
  }

  /** The distance is a metric, and at least the difference of the lengths. */
  lemma LevIsMetric(s: Text, t: Text, u: Text)
    ensures Lev(s, t) == 0 <==> s == t
    ensures Lev(s, t) == Lev(t, s)
    ensures Lev(s, u) <= Lev(s, t) + Lev(t, u)
    ensures |s| - |t| <= Lev(s, t) && |t| - |s| <= Lev(s, t)
  {
    hide Lev;
    LevSelf(s);
    LevSymmetric(s, t);
    LevTriangle(s, t, u);
    LevBounds(s, t);
    if Lev(s, t) == 0 {
      LevZero(s, t);
    }
  }

  lemma DistanceIsLev(d: nat, s: Text, t: Text)
    requires IsDistance(d, s, t)
    ensures d == Lev(s, t)
  {
    var script :| |script| == d && Turns(script, s, t);
    LevLowerBound(script, s, t);
    var shortest := LevScript(s, t);
  }

  // ---------------------------------------------------------------------------
  // The matrix
  // ---------------------------------------------------------------------------

  lemma LevCell(str1: Text, str2: Text, i: nat, j: nat)
    requires 0 < i <= |str1| && 0 < j <= |str2|
    ensures Lev(str1[..i], str2[..j])
         == Cheapest(Lev(str1[..i - 1], str2[..j]), Lev(str1[..i], str2[..j - 1]), Lev(str1[..i - 1], str2[..j - 1]),
                     Cost(str1[i - 1], str2[j - 1]))
  {
    hide Lev;
    LevUnfolds(str1[..i], str2[..j]);
    assert Init(str1[..i]) == str1[..i - 1] && Init(str2[..j]) == str2[..j - 1];
  }

  lemma LevBorder(str1: Text, str2: Text)
    ensures forall l | 0 <= l <= |str1| :: Lev(str1[..l], str2[..0]) == l
    ensures forall k | 0 <= k <= |str2| :: Lev(str1[..0], str2[..k]) == k
  {
  }

  /** Row j of the matrix holds the distances from each prefix of `str1` to the first j units of `str2`. */
  method LevenshteinDistance(str1: Text, str2: Text) returns (d: nat)
    ensures IsDistance(d, str1, str2) && d == Lev(str1, str2)
  {
    hide Lev, IsDistance;
    var matrix := new nat[|str2| + 1, |str1| + 1]((_, _) => 0);
    for i := 0 to |str1| + 1
      invariant forall k :: 0 <= k < i ==> matrix[0, k] == k
    {
      matrix[0, i] := i;
    }
    for j := 0 to |str2| + 1
      invariant forall k :: 0 <= k <= |str1| ==> matrix[0, k] == k
      invariant forall k :: 0 <= k < j ==> matrix[k, 0] == k
    {
      matrix[j, 0] := j;
    }
    LevBorder(str1, str2);
    for j := 1 to |str2| + 1
      invariant forall k :: 0 <= k <= |str2| ==> matrix[k, 0] == k
      invariant forall k, l :: 0 <= k < j && 0 <= l <= |str1| ==> matrix[k, l] == Lev(str1[..l], str2[..k])
    {
      for i := 1 to |str1| + 1
        invariant forall k :: 0 <= k <= |str2| ==> matrix[k, 0] == k
        invariant forall k, l :: 0 <= k < j && 0 <= l <= |str1| ==> matrix[k, l] == Lev(str1[..l], str2[..k])
        invariant forall l :: 0 <= l < i ==> matrix[j, l] == Lev(str1[..l], str2[..j])
      {
        var cost := if str1[i - 1] == str2[j - 1] then 0 else 1;
        LevCell(str1, str2, i, j);
        matrix[j, i] := Min(Min(matrix[j, i - 1] + 1, matrix[j - 1, i] + 1), matrix[j - 1, i - 1] + cost);
      }
    }
    assert str1[..|str1|] == str1 && str2[..|str2|] == str2;
    d := matrix[|str2|, |str1|];
    LevIsDistance(str1, str2);
  }

  // ---------------------------------------------------------------------------
  // Tolerant substring search
  // ---------------------------------------------------------------------------

  predicate OccursAt(s: Text, part: Text, i: int) {
    0 <= i <= |s| - |part| && s[i..i + |part|] == part
  }

  predicate Includes(s: Text, part: Text) {
    exists i | 0 <= i <= |s| :: OccursAt(s, part, i)
  }

  /** Some non-empty part of `s`, of any length, is within `maxDiff` edits of `t`. */
  ghost predicate HasNear(s: Text, t: Text, maxDiff: int) {
    exists i, j, d: nat :: 0 <= i < j <= |s| && IsDistance(d, s[i..j], t) && d <= maxDiff
  }

  lemma NearWindow(s: Text, t: Text, maxDiff: int, i: nat, j: nat)
    requires i < j <= |s|
    ensures Lev(s[i..j], t) <= maxDiff ==> HasNear(s, t, maxDiff)
  {
    LevIsDistance(s[i..j], t);
  }

  /** Windows outside the tried lengths are too far by their length alone. */
  lemma NoneNear(s: Text, t: Text, maxDiff: int)
    requires forall i, j | 0 <= i < j <= |s| && |t| - maxDiff <= j - i <= |t| + maxDiff :: Lev(s[i..j], t) > maxDiff
    ensures !HasNear(s, t, maxDiff)
  {
    forall i, j, d: nat | 0 <= i < j <= |s| && IsDistance(d, s[i..j], t)
      ensures d > maxDiff
    {
      DistanceIsLev(d, s[i..j], t);
      LevBounds(s[i..j], t);
    }
  }

  /**
   * `normalize` stands for the Unicode clean-up done first. Only windows of lengths within `maxDiff` of
   * the expected length are measured, yet nothing within tolerance is missed, whatever the tolerance.
   */
  method IsIncludedWithTolerance(normalize: Text -> Text, actual: Text, expected: Text, maxDiff: int)
    returns (found: bool)
    ensures found <==>
      || expected == []
      || (actual != [] && (Includes(normalize(actual), normalize(expected))
                           || HasNear(normalize(actual), normalize(expected), maxDiff)))
  {
    hide Lev, IsDistance, HasNear;
    if expected == [] { return true; }
    if actual == [] { return false; }
    var normActual := normalize(actual);
    var normExpected := normalize(expected);
    if Includes(normActual, normExpected) { return true; }
    var minLen := if |normExpected| - maxDiff > 1 then |normExpected| - maxDiff else 1;
    var maxLen := |normExpected| + maxDiff;
    var len := minLen;
    while len <= maxLen
      invariant 1 <= minLen <= len
      invariant forall i, j | 0 <= i < j <= |normActual| && minLen <= j - i < len ::
          Lev(normActual[i..j], normExpected) > maxDiff
      decreases maxLen - len
    {
      var i := 0;
      while i <= |normActual| - len
        invariant 0 <= i
        invariant forall k, j | 0 <= k < i && k < j <= |normActual| && j - k == len ::
            Lev(normActual[k..j], normExpected) > maxDiff
        decreases |normActual| - len - i
      {
        var substring := normActual[i..i + len];
        var d := LevenshteinDistance(substring, normExpected);
        if d <= maxDiff {
          NearWindow(normActual, normExpected, maxDiff, i, i + len);
          return true;
        }
        i := i + 1;
      }
      len := len + 1;
    }
    NoneNear(normActual, normExpected, maxDiff);
    return false;
  }

  /** With a tolerance of zero or more the plain inclusion test is only a short cut. */
  lemma IncludesIsNear(s: Text, t: Text, maxDiff: nat)
    requires t != [] && Includes(s, t)
    ensures HasNear(s, t, maxDiff)
  {
    var i :| 0 <= i <= |s| && OccursAt(s, t, i);
    LevSelf(t);
    NearWindow(s, t, maxDiff, i, i + |t|);
  }
}
