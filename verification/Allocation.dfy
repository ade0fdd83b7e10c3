/**
 * Sharing a constrained enrolment budget by need: slots go one at a time to the client with the largest
 * remaining deficit as a share of its target. Shares are exact quotients.
 */
module Allocation {
  import opened Basics

  datatype NeedEntry = NeedEntry(clientId: string, need: int, target: int)

  /** An entry that still wants something, with the target floored at one. */
  datatype Want = Want(clientId: string, need: nat, target: nat) {
    predicate Valid() { need > 0 && target > 0 }
  }

  function Wanting(entries: seq<NeedEntry>): (ws: seq<Want>)
    ensures AllValid(ws)
  {
    if entries == [] then []
    else
      var e := entries[0];
      (if e.need > 0 then [Want(e.clientId, e.need, if e.target > 1 then e.target else 1)] else []) + Wanting(entries[1..])
  }

  predicate AllValid(ws: seq<Want>) {
    forall i | 0 <= i < |ws| :: ws[i].Valid()
  }

  /** How many of each client's wants are still unmet. */
  predicate IsLeft(ws: seq<Want>, left: seq<nat>) {
    |left| == |ws| && forall i | 0 <= i < |ws| :: left[i] <= ws[i].need
  }

  // ---------------------------------------------------------------------------
  // Who comes first
  // ---------------------------------------------------------------------------

  /** Order of strings by code unit. */
  predicate Less(a: string, b: string) {
    b != [] && (a == [] || a[0] < b[0] || (a[0] == b[0] && Less(a[1..], b[1..])))
  }

  lemma {:induction false} LessTransitive(a: string, b: string, c: string)
    requires Less(a, b) && Less(b, c)
    ensures Less(a, c)
  {
    if a != [] && a[0] == b[0] == c[0] {
      LessTransitive(a[1..], b[1..], c[1..]);
    }
  }

  lemma {:induction false} LessTotal(a: string, b: string)
    ensures Less(a, b) || Less(b, a) || a == b
  {
    if a != [] && b != [] && a[0] == b[0] {
      LessTotal(a[1..], b[1..]);
      assert a == [a[0]] + a[1..] && b == [b[0]] + b[1..];
    }
  }

  lemma {:induction false} LessIrreflexive(a: string)
    ensures !Less(a, a)
  {
    if a != [] {
      LessIrreflexive(a[1..]);
    }
  }

  /** The first string is a proper beginning of the second, or smaller where they first differ. */
  lemma {:induction false} LessIs(a: string, b: string)
    ensures Less(a, b) <==> exists k ::
      && 0 <= k <= |a| && k < |b| && a[..k] == b[..k] && (k < |a| ==> a[k] < b[k])
  {
    if b != [] && a != [] && a[0] == b[0] {
      LessIs(a[1..], b[1..]);
      if k :| 0 <= k <= |a[1..]| && k < |b[1..]| && a[1..][..k] == b[1..][..k] && (k < |a[1..]| ==> a[1..][k] < b[1..][k]) {
        assert a[..k + 1] == [a[0]] + a[1..][..k] && b[..k + 1] == [b[0]] + b[1..][..k];
      }
      if k :| 0 <= k <= |a| && k < |b| && a[..k] == b[..k] && (k < |a| ==> a[k] < b[k]) {
        assert k > 0;
        assert a[1..][..k - 1] == a[..k][1..] && b[1..][..k - 1] == b[..k][1..];
        assert k - 1 < |a[1..]| ==> a[1..][k - 1] < b[1..][k - 1];
      }
    } else {
      assert a[..0] == b[..0] == [];
      if k :| 0 <= k <= |a| && k < |b| && a[..k] == b[..k] && (k < |a| ==> a[k] < b[k]) {
        assert k > 0 ==> a[..k][0] == b[..k][0];
      }
    }
  }

  function Share(left: int, w: Want): real
    requires w.Valid()
  {
    left as real / w.target as real
  }

  predicate Beats(w: Want, left: int, best: Want, bestLeft: int)
    requires w.Valid() && best.Valid()
  {
    var a := Share(left, w);
    var b := Share(bestLeft, best);
    a > b || (a == b && (left > bestLeft || (left == bestLeft && Less(w.clientId, best.clientId))))
  }

  /** Without quotients: a larger unmet part of the target, then more unmet, then the smaller identifier. */
  lemma BeatsIs(w: Want, left: nat, best: Want, bestLeft: nat)
    requires w.Valid() && best.Valid()
    ensures Beats(w, left, best, bestLeft) <==>
      || left * best.target > bestLeft * w.target
      || (left * best.target == bestLeft * w.target
          && (left > bestLeft || (left == bestLeft && Less(w.clientId, best.clientId))))
  {
    SharesCompare(left, w, bestLeft, best);
    SharesCompare(bestLeft, best, left, w);
  }

  lemma SharesCompare(a: nat, v: Want, b: nat, w: Want)
    requires v.Valid() && w.Valid()
    ensures Share(a, v) <= Share(b, w) <==> a * w.target <= b * v.target
  {
    var (x, y) := (Share(a, v), Share(b, w));
    var (p, q) := (v.target as real, w.target as real);
    assert x * p == a as real && y * q == b as real;
    assert a as real * q == x * (p * q) && b as real * p == y * (p * q);
    assert p * q > 0.0;
    Scaled(x, y, p * q);
    assert (a * w.target) as real == a as real * q && (b * v.target) as real == b as real * p;
  }

  lemma Scaled(x: real, y: real, k: real)
    requires k > 0.0
    ensures x <= y <==> x * k <= y * k
  {
  }

  lemma BeatsTransitive(u: Want, l: int, v: Want, m: int, w: Want, n: int)
    requires u.Valid() && v.Valid() && w.Valid()
    requires Beats(u, l, v, m) && Beats(v, m, w, n)
    ensures Beats(u, l, w, n)
  {
    if Less(u.clientId, v.clientId) && Less(v.clientId, w.clientId) {
      LessTransitive(u.clientId, v.clientId, w.clientId);
    }
  }

  lemma ShareMonotone(w: Want, a: int, b: int)
    requires w.Valid()
    ensures a <= b <==> Share(a, w) <= Share(b, w)
  {
    var t := w.target as real;
    assert Share(a, w) * t == a as real;
    assert Share(b, w) * t == b as real;
  }

  /** The scan over the first `n` entries. */
  function Pick(ws: seq<Want>, left: seq<nat>, n: nat): (best: Option<nat>)
    requires AllValid(ws) && IsLeft(ws, left) && n <= |ws|
    ensures best.Some? ==> best.value < n && left[best.value] > 0
  {
    if n == 0 then None
    else
      var best := Pick(ws, left, n - 1);
      if left[n - 1] == 0 then best
      else if best.None? || Beats(ws[n - 1], left[n - 1], ws[best.value], left[best.value]) then Some(n - 1)
      else best
  }

  lemma {:induction false} PickIsBest(ws: seq<Want>, left: seq<nat>, n: nat)
    requires AllValid(ws) && IsLeft(ws, left) && n <= |ws|
    ensures Pick(ws, left, n).None? <==> forall i | 0 <= i < n :: left[i] == 0
    ensures var best := Pick(ws, left, n);
      best.Some? ==> forall i | 0 <= i < n && left[i] > 0 :: !Beats(ws[i], left[i], ws[best.value], left[best.value])
  {
    if n > 0 {
      PickIsBest(ws, left, n - 1);
      LessIrreflexive(ws[n - 1].clientId);
      var old' := Pick(ws, left, n - 1);
      if old'.Some? && left[n - 1] > 0 && Beats(ws[n - 1], left[n - 1], ws[old'.value], left[old'.value]) {
        forall i | 0 <= i < n - 1 && left[i] > 0
          ensures !Beats(ws[i], left[i], ws[n - 1], left[n - 1])
        {
          if Beats(ws[i], left[i], ws[n - 1], left[n - 1]) {
            BeatsTransitive(ws[i], left[i], ws[n - 1], left[n - 1], ws[old'.value], left[old'.value]);
          }
        }
      }
    }
  }

  // ---------------------------------------------------------------------------
  // Slot by slot
  // ---------------------------------------------------------------------------

  function Needs(ws: seq<Want>): seq<nat> {
    seq(|ws|, i requires 0 <= i < |ws| => ws[i].need)
  }

  /** What is left unmet after `slots` slots. */
  function Left(ws: seq<Want>, slots: nat): (left: seq<nat>)
    requires AllValid(ws)
    ensures IsLeft(ws, left)
    decreases slots
  {
    if slots == 0 then Needs(ws)
    else
      var left := Left(ws, slots - 1);
      var best := Pick(ws, left, |ws|);
      if best.None? then left else left[best.value := left[best.value] - 1]
  }

  function Sum(s: seq<nat>): nat {
    if s == [] then 0 else s[0] + Sum(s[1..])
  }

  lemma {:induction false} SumUpdate(s: seq<nat>, i: nat, v: nat)
    requires i < |s|
    ensures Sum(s[i := v]) + s[i] == Sum(s) + v
  {
    if i == 0 {
      assert s[0 := v][1..] == s[1..];
    } else {
      SumUpdate(s[1..], i - 1, v);
      assert s[i := v][1..] == s[1..][i - 1 := v];
    }
  }

  lemma {:induction false} SumZero(s: seq<nat>)
    ensures Sum(s) == 0 <==> forall i | 0 <= i < |s| :: s[i] == 0
  {
    if s != [] {
      SumZero(s[1..]);
      assert s == [s[0]] + s[1..];
    }
  }

  /** Slots handed out are exactly the budget, or everything anyone wanted. */
  lemma {:induction false} Conserved(ws: seq<Want>, slots: nat)
    requires AllValid(ws)
    ensures Sum(Left(ws, slots)) + Min(slots, Sum(Needs(ws))) == Sum(Needs(ws))
    decreases slots
  {
    if slots > 0 {
      Conserved(ws, slots - 1);
      var left := Left(ws, slots - 1);
      var best := Pick(ws, left, |ws|);
      PickIsBest(ws, left, |ws|);
      SumZero(left);
      if best.Some? {
        SumUpdate(left, best.value, left[best.value] - 1);
        SumZero(left);
      }
    }
  }

  /** One more slot goes to one client that still wants one, and takes none away. */
  lemma OneMoreSlot(ws: seq<Want>, slots: nat)
    requires AllValid(ws)
    ensures slots >= Sum(Needs(ws)) ==> Left(ws, slots + 1) == Left(ws, slots)
    ensures slots < Sum(Needs(ws)) ==>
      exists i | 0 <= i < |ws| :: Left(ws, slots)[i] > 0 && Left(ws, slots + 1) == Left(ws, slots)[i := Left(ws, slots)[i] - 1]
  {
    Conserved(ws, slots);
    SumZero(Left(ws, slots));
    PickIsBest(ws, Left(ws, slots), |ws|);
  }

  // ---------------------------------------------------------------------------
  // Fairness
  // ---------------------------------------------------------------------------

  /** Before its last slot, a served client was behind nobody as they are now. */
  ghost predicate ServedFirst(ws: seq<Want>, left: seq<nat>)
    requires AllValid(ws) && IsLeft(ws, left)
  {
    forall i, j | 0 <= i < |ws| && 0 <= j < |ws| && left[j] < ws[j].need :: !Beats(ws[i], left[i], ws[j], left[j] + 1)
  }

  lemma BeatsGrows(w: Want, left: nat, more: nat, best: Want, bestLeft: nat)
    requires w.Valid() && best.Valid() && left <= more && Beats(w, left, best, bestLeft)
    ensures Beats(w, more, best, bestLeft)
  {
    ShareMonotone(w, left, more);
    ShareMonotone(w, more, left);
  }

  lemma NobodyWithNothingBeats(w: Want, best: Want, bestLeft: nat)
    requires w.Valid() && best.Valid() && bestLeft > 0
    ensures !Beats(w, 0, best, bestLeft)
  {
    ShareMonotone(best, bestLeft, 0);
    assert Share(0, w) == 0.0 == Share(0, best);
  }

  lemma LessLeftIsBehind(w: Want, left: nat)
    requires w.Valid()
    ensures !Beats(w, left, w, left + 1)
  {
    ShareMonotone(w, left, left + 1);
  }

  lemma {:induction false} AlwaysServedFirst(ws: seq<Want>, slots: nat)
    requires AllValid(ws)
    ensures ServedFirst(ws, Left(ws, slots))
    decreases slots
  {
    hide Share, Beats;
    if slots > 0 {
      AlwaysServedFirst(ws, slots - 1);
      var left := Left(ws, slots - 1);
      var best := Pick(ws, left, |ws|);
      PickIsBest(ws, left, |ws|);
      if best.Some? {
        PickedKeepsOrder(ws, left, best.value);
      }
    }
  }

  lemma PickedKeepsOrder(ws: seq<Want>, left: seq<nat>, p: nat)
    requires AllValid(ws) && IsLeft(ws, left) && ServedFirst(ws, left)
    requires p < |ws| && left[p] > 0
    requires forall i | 0 <= i < |ws| && left[i] > 0 :: !Beats(ws[i], left[i], ws[p], left[p])
    ensures ServedFirst(ws, left[p := left[p] - 1])
  {
    hide Beats;
    var left' := left[p := left[p] - 1];
    forall i, j | 0 <= i < |ws| && 0 <= j < |ws| && left'[j] < ws[j].need
      ensures !Beats(ws[i], left'[i], ws[j], left'[j] + 1)
    {
      if i == p == j {
        LessLeftIsBehind(ws[p], left'[p]);
      } else if j == p && left[i] == 0 {
        NobodyWithNothingBeats(ws[i], ws[p], left[p]);
      } else if i == p && Beats(ws[p], left'[p], ws[j], left[j] + 1) {
        BeatsGrows(ws[p], left'[p], left[p], ws[j], left[j] + 1);
      }
    }
  }

  /** The largest unmet share; zero when nobody wants anything. */
  function Worst(ws: seq<Want>, left: seq<nat>): real
    requires AllValid(ws) && IsLeft(ws, left)
  {
    if ws == [] then 0.0
    else
      var rest := Worst(ws[1..], left[1..]);
      if Share(left[0], ws[0]) > rest then Share(left[0], ws[0]) else rest
  }

  lemma {:induction false} WorstIsLargest(ws: seq<Want>, left: seq<nat>)
    requires AllValid(ws) && IsLeft(ws, left)
    ensures Worst(ws, left) >= 0.0
    ensures forall i | 0 <= i < |ws| :: Share(left[i], ws[i]) <= Worst(ws, left)
    ensures Worst(ws, left) > 0.0 ==> exists i | 0 <= i < |ws| :: Share(left[i], ws[i]) == Worst(ws, left) && left[i] > 0
  {
    if ws != [] {
      WorstIsLargest(ws[1..], left[1..]);
      ShareMonotone(ws[0], 0, left[0]);
      ShareMonotone(ws[0], left[0], 0);
      assert ws == [ws[0]] + ws[1..] && left == [left[0]] + left[1..];
      var rest := Worst(ws[1..], left[1..]);
      if rest > 0.0 {
        var i :| 0 <= i < |ws[1..]| && Share(left[1..][i], ws[1..][i]) == rest && left[1..][i] > 0;
        assert ws[1..][i] == ws[i + 1] && left[1..][i] == left[i + 1];
      }
    }
  }

  /** Any other way to hand out at most `slots` slots, told by what it leaves unmet. */
  ghost predicate CouldLeave(ws: seq<Want>, left: seq<nat>, slots: nat) {
    IsLeft(ws, left) && Sum(Needs(ws)) <= Sum(left) + slots
  }

  lemma {:induction false} SumsDiffer(a: seq<nat>, b: seq<nat>, i: nat)
    requires |a| == |b| && i < |a| && a[i] < b[i] && Sum(b) <= Sum(a)
    ensures exists j | 0 <= j < |a| :: b[j] < a[j]
  {
    if forall j | 0 <= j < |a| :: a[j] <= b[j] {
      SumsOrdered(a, b, i);
    }
  }

  lemma {:induction false} SumsOrdered(a: seq<nat>, b: seq<nat>, i: nat)
    requires |a| == |b| && forall j | 0 <= j < |a| :: a[j] <= b[j]
    ensures Sum(a) <= Sum(b) && (i < |a| && a[i] < b[i] ==> Sum(a) < Sum(b))
  {
    if a != [] {
      SumsOrdered(a[1..], b[1..], if i > 0 then i - 1 else |a|);
    }
  }

  /** No way to hand out the slots leaves everyone better off than the worst-off client here. */
  lemma MinMaxFair(ws: seq<Want>, slots: nat, other: seq<nat>)
    requires AllValid(ws) && CouldLeave(ws, other, slots)
    ensures Worst(ws, Left(ws, slots)) <= Worst(ws, other)
  {
    hide Share, Beats, Worst, Left, Sum;
    var left := Left(ws, slots);
    WorstIsLargest(ws, left);
    WorstIsLargest(ws, other);
    if Worst(ws, left) > Worst(ws, other) {
      var a :| 0 <= a < |ws| && Share(left[a], ws[a]) == Worst(ws, left) && left[a] > 0;
      var j := SomebodyWorse(ws, slots, other, a);
      SharesCompare(left[a], ws[a], other[j], ws[j]);
    }
  }

  /** Without quotients: whoever is unmet here, any other way leaves somebody at least as badly off. */
  lemma SomebodyWorse(ws: seq<Want>, slots: nat, other: seq<nat>, a: nat) returns (j: nat)
    requires AllValid(ws) && CouldLeave(ws, other, slots) && a < |ws| && Left(ws, slots)[a] > 0
    ensures j < |ws| && Left(ws, slots)[a] * ws[j].target <= other[j] * ws[a].target
  {
    hide Beats, Left, Sum;
    var left := Left(ws, slots);
    if left[a] <= other[a] {
      j := a;
      MoreTimes(left[a], other[a], ws[a].target);
    } else {
      Conserved(ws, slots);
      SumZero(left);
      SumsDiffer(other, left, a);
      j :| 0 <= j < |ws| && left[j] < other[j];
      AlwaysServedFirst(ws, slots);
      BeatsIs(ws[a], left[a], ws[j], left[j] + 1);
      MoreTimes(left[j] + 1, other[j], ws[a].target);
    }
  }

  lemma MoreTimes(x: nat, y: nat, k: nat)
    requires x <= y
    ensures x * k <= y * k
  {
  }

  // ---------------------------------------------------------------------------
  // The order of the entries does not matter
  // ---------------------------------------------------------------------------

  ghost predicate DistinctClients(ws: seq<Want>) {
    forall i, j | 0 <= i < j < |ws| :: ws[i].clientId != ws[j].clientId
  }

  ghost predicate SameWants(ws: seq<Want>, vs: seq<Want>) {
    forall w :: w in ws <==> w in vs
  }

  ghost predicate SameLeft(ws: seq<Want>, left: seq<nat>, vs: seq<Want>, left': seq<nat>)
    requires |left| == |ws| && |left'| == |vs|
  {
    forall i, j | 0 <= i < |ws| && 0 <= j < |vs| && ws[i].clientId == vs[j].clientId :: left[i] == left'[j]
  }

  lemma SameClientSameWant(ws: seq<Want>, vs: seq<Want>, i: nat, j: nat)
    requires SameWants(ws, vs) && DistinctClients(vs)
    requires i < |ws| && j < |vs| && ws[i].clientId == vs[j].clientId
    ensures ws[i] == vs[j]
  {
    assert ws[i] in vs;
    var k :| 0 <= k < |vs| && vs[k] == ws[i];
  }

  lemma SamePick(ws: seq<Want>, left: seq<nat>, vs: seq<Want>, left': seq<nat>)
    requires AllValid(ws) && AllValid(vs) && IsLeft(ws, left) && IsLeft(vs, left')
    requires DistinctClients(ws) && DistinctClients(vs) && SameWants(ws, vs) && SameLeft(ws, left, vs, left')
    ensures var (b, c) := (Pick(ws, left, |ws|), Pick(vs, left', |vs|));
      (b.None? <==> c.None?) && (b.Some? ==> ws[b.value].clientId == vs[c.value].clientId)
  {
    PickIsBest(ws, left, |ws|);
    PickIsBest(vs, left', |vs|);
    var (b, c) := (Pick(ws, left, |ws|), Pick(vs, left', |vs|));
    if b.Some? {
      assert ws[b.value] in vs;
      var j :| 0 <= j < |vs| && vs[j] == ws[b.value];
      assert left'[j] == left[b.value];
    }
    if c.Some? {
      assert vs[c.value] in ws;
      var i :| 0 <= i < |ws| && ws[i] == vs[c.value];
      assert left[i] == left'[c.value];
    }
    if b.Some? && c.Some? {
      LessTotal(ws[b.value].clientId, vs[c.value].clientId);
    }
  }

  lemma {:induction false} OrderFree(ws: seq<Want>, vs: seq<Want>, slots: nat)
    requires AllValid(ws) && AllValid(vs)
    requires DistinctClients(ws) && DistinctClients(vs) && SameWants(ws, vs)
    ensures SameLeft(ws, Left(ws, slots), vs, Left(vs, slots))
    decreases slots
  {
    if slots == 0 {
      forall i, j | 0 <= i < |ws| && 0 <= j < |vs| && ws[i].clientId == vs[j].clientId
        ensures Left(ws, 0)[i] == Left(vs, 0)[j]
      {
        SameClientSameWant(ws, vs, i, j);
      }
    } else {
      OrderFree(ws, vs, slots - 1);
      SamePick(ws, Left(ws, slots - 1), vs, Left(vs, slots - 1));
    }
  }

  // ---------------------------------------------------------------------------
  // The allocation
  // ---------------------------------------------------------------------------

  function Granted(ws: seq<Want>, left: seq<nat>, c: string): nat
    requires IsLeft(ws, left)
  {
    if ws == [] then 0
    else (if ws[0].clientId == c then ws[0].need - left[0] else 0) + Granted(ws[1..], left[1..], c)
  }

  function Slots(budget: int): nat { if budget > 0 then budget else 0 }

  /** What a client is allotted: a client listed twice gets the slots of both entries. */
  function Allotted(entries: seq<NeedEntry>, budget: int, c: string): nat {
    Granted(Wanting(entries), Left(Wanting(entries), Slots(budget)), c)
  }

  lemma {:induction false} GrantedNone(ws: seq<Want>, c: string)
    requires IsLeft(ws, Needs(ws))
    ensures Granted(ws, Needs(ws), c) == 0
  {
    if ws != [] {
      assert Needs(ws)[1..] == Needs(ws[1..]);
      GrantedNone(ws[1..], c);
    }
  }

  lemma {:induction false} GrantedOneMore(ws: seq<Want>, left: seq<nat>, p: nat, c: string)
    requires IsLeft(ws, left) && p < |ws| && left[p] > 0
    ensures Granted(ws, left[p := left[p] - 1], c) == Granted(ws, left, c) + (if ws[p].clientId == c then 1 else 0)
  {
    if p == 0 {
      assert left[p := left[p] - 1][1..] == left[1..];
    } else {
      assert left[p := left[p] - 1][1..] == left[1..][p - 1 := left[p] - 1];
      GrantedOneMore(ws[1..], left[1..], p - 1, c);
    }
  }

  method AllocateByNeed(entries: seq<NeedEntry>, budget: int) returns (allocation: map<string, nat>)
    ensures forall c :: c in allocation <==> Allotted(entries, budget, c) > 0
    ensures forall c | c in allocation :: allocation[c] == Allotted(entries, budget, c)
    ensures OnePerClient(entries) ==> Spends(entries, budget, allocation) && ServesByNeed(entries, allocation)
  {
    hide Wanting, Granted, Pick, Left, Beats, Needs;
    allocation := map[];
    var remaining := Wanting(entries);
    var left := new nat[|remaining|](i requires 0 <= i < |remaining| => remaining[i].need);
    var slots := Slots(budget);
    ghost var used: nat := 0;
    LeftUnfolds(remaining, 0);
    forall c {
      GrantedNone(remaining, c);
    }
    while slots > 0
      invariant used + slots == Slots(budget)
      invariant left[..] == Left(remaining, used)
      invariant forall c :: c in allocation <==> Granted(remaining, left[..], c) > 0
      invariant forall c | c in allocation :: allocation[c] == Granted(remaining, left[..], c)
    {
      ghost var before := left[..];
      var best: Option<nat> := None;
      PickUnfolds(remaining, before, 0);
      for i := 0 to |remaining|
        invariant left[..] == before
        invariant best == Pick(remaining, before, i)
      {
        PickUnfolds(remaining, before, i + 1);
        if left[i] == 0 {
          continue;
        }
        if best.None? || Beats(remaining[i], left[i], remaining[best.value], left[best.value]) {
          best := Some(i);
        }
      }
      LeftUnfolds(remaining, used + 1);
      if best.None? {
        LeftStays(remaining, used, Slots(budget));
        break;
      }
      var p := best.value;
      var c := remaining[p].clientId;
      left[p] := left[p] - 1;
      forall c' {
        GrantedOneMore(remaining, before, p, c');
      }
      assert left[..] == before[p := before[p] - 1];
      allocation := allocation[c := (if c in allocation then allocation[c] else 0) + 1];
      slots := slots - 1;
      used := used + 1;
    }
    hide OnePerClient, Spends, ServesByNeed;
    AllocationIsFair(entries, budget, allocation);
  }

  lemma LeftUnfolds(ws: seq<Want>, slots: nat)
    requires AllValid(ws)
    ensures slots == 0 ==> Left(ws, slots) == Needs(ws) == seq(|ws|, i requires 0 <= i < |ws| => ws[i].need)
    ensures slots > 0 ==>
      var left := Left(ws, slots - 1);
      var best := Pick(ws, left, |ws|);
      Left(ws, slots) == if best.None? then left else left[best.value := left[best.value] - 1]
  {
  }

  lemma PickUnfolds(ws: seq<Want>, left: seq<nat>, n: nat)
    requires AllValid(ws) && IsLeft(ws, left) && n <= |ws|
    ensures n == 0 ==> Pick(ws, left, n) == None
    ensures n > 0 ==>
      var best := Pick(ws, left, n - 1);
      Pick(ws, left, n) ==
        if left[n - 1] == 0 then best
        else if best.None? || Beats(ws[n - 1], left[n - 1], ws[best.value], left[best.value]) then Some(n - 1)
        else best
  {
  }

  lemma {:induction false} LeftStays(ws: seq<Want>, slots: nat, more: nat)
    requires AllValid(ws) && slots <= more && Pick(ws, Left(ws, slots), |ws|).None?
    ensures Left(ws, more) == Left(ws, slots)
    decreases more - slots
  {
    if slots < more {
      LeftStays(ws, slots + 1, more);
    }
  }

  lemma {:induction false} GrantedOwn(ws: seq<Want>, left: seq<nat>, i: nat)
    requires IsLeft(ws, left) && DistinctClients(ws) && i < |ws|
    ensures Granted(ws, left, ws[i].clientId) == ws[i].need - left[i]
  {
    if i == 0 {
      GrantedNobody(ws[1..], left[1..], ws[0].clientId);
    } else {
      GrantedOwn(ws[1..], left[1..], i - 1);
    }
  }

  lemma {:induction false} GrantedNobody(ws: seq<Want>, left: seq<nat>, c: string)
    requires IsLeft(ws, left) && forall i | 0 <= i < |ws| :: ws[i].clientId != c
    ensures Granted(ws, left, c) == 0
  {
    if ws != [] {
      GrantedNobody(ws[1..], left[1..], c);
    }
  }

  ghost predicate OnePerClient(entries: seq<NeedEntry>) {
    forall i, j | 0 <= i < j < |entries| :: entries[i].clientId != entries[j].clientId
  }

  lemma {:induction false} WantingIs(entries: seq<NeedEntry>)
    ensures forall w :: w in Wanting(entries) <==>
      exists e :: e in entries && e.need > 0 && w == Want(e.clientId, e.need, if e.target > 1 then e.target else 1)
  {
    if entries != [] {
      WantingIs(entries[1..]);
      assert entries == [entries[0]] + entries[1..];
    }
  }

  lemma {:induction false} WantingDistinct(entries: seq<NeedEntry>)
    requires OnePerClient(entries)
    ensures DistinctClients(Wanting(entries))
  {
    if entries != [] {
      WantingDistinct(entries[1..]);
      WantingIs(entries[1..]);
      forall w | w in Wanting(entries[1..])
        ensures w.clientId != entries[0].clientId
      {
        var e :| e in entries[1..] && e.clientId == w.clientId;
      }
    }
  }

  /** The allotment depends on the entries, not on their order. */
  lemma AllotmentIsOrderFree(entries: seq<NeedEntry>, entries': seq<NeedEntry>, budget: int, c: string)
    requires OnePerClient(entries) && OnePerClient(entries')
    requires forall e :: e in entries <==> e in entries'
    ensures Allotted(entries, budget, c) == Allotted(entries', budget, c)
  {
    var (ws, vs) := (Wanting(entries), Wanting(entries'));
    WantingIs(entries);
    WantingIs(entries');
    WantingDistinct(entries);
    WantingDistinct(entries');
    OrderFree(ws, vs, Slots(budget));
    if i :| 0 <= i < |ws| && ws[i].clientId == c {
      assert ws[i] in vs;
      var j :| 0 <= j < |vs| && vs[j] == ws[i];
      GrantedOwn(ws, Left(ws, Slots(budget)), i);
      GrantedOwn(vs, Left(vs, Slots(budget)), j);
    } else {
      assert forall j | 0 <= j < |vs| :: vs[j] in ws;
      GrantedNobody(ws, Left(ws, Slots(budget)), c);
      GrantedNobody(vs, Left(vs, Slots(budget)), c);
    }
  }

  /** A client with one entry is never allotted more than its need. */
  lemma AllottedAtMostNeed(entries: seq<NeedEntry>, budget: int, e: NeedEntry)
    requires OnePerClient(entries) && e in entries
    ensures Allotted(entries, budget, e.clientId) <= if e.need > 0 then e.need else 0
  {
    var ws := Wanting(entries);
    WantingIs(entries);
    WantingDistinct(entries);
    if i :| 0 <= i < |ws| && ws[i].clientId == e.clientId {
      GrantedOwn(ws, Left(ws, Slots(budget)), i);
      assert ws[i] in ws;
      var e' :| e' in entries && e'.need > 0 && ws[i] == Want(e'.clientId, e'.need, if e'.target > 1 then e'.target else 1);
    } else {
      GrantedNobody(ws, Left(ws, Slots(budget)), e.clientId);
    }
  }

  function AllottedTotal(entries: seq<NeedEntry>, budget: int, clients: seq<string>): nat {
    if clients == [] then 0
    else Allotted(entries, budget, clients[0]) + AllottedTotal(entries, budget, clients[1..])
  }

  function GrantedTotal(ws: seq<Want>, left: seq<nat>, clients: seq<string>): nat
    requires IsLeft(ws, left)
  {
    if clients == [] then 0 else Granted(ws, left, clients[0]) + GrantedTotal(ws, left, clients[1..])
  }

  function Times(clients: seq<string>, c: string): nat {
    if clients == [] then 0 else (if clients[0] == c then 1 else 0) + Times(clients[1..], c)
  }

  lemma {:induction false} TimesDistinct(clients: seq<string>, c: string)
    requires forall i, j | 0 <= i < j < |clients| :: clients[i] != clients[j]
    ensures Times(clients, c) == if c in clients then 1 else 0
  {
    if clients != [] {
      TimesDistinct(clients[1..], c);
    }
  }

  lemma {:induction false} GrantedTotalStep(ws: seq<Want>, left: seq<nat>, clients: seq<string>)
    requires IsLeft(ws, left) && ws != []
    ensures GrantedTotal(ws, left, clients)
         == (ws[0].need - left[0]) * Times(clients, ws[0].clientId) + GrantedTotal(ws[1..], left[1..], clients)
  {
    if clients != [] {
      GrantedTotalStep(ws, left, clients[1..]);
      var (granted, times) := (ws[0].need - left[0], Times(clients[1..], ws[0].clientId));
      assert granted * (1 + times) == granted + granted * times;
    }
  }

  lemma {:induction false} GrantedTotalNothing(clients: seq<string>)
    ensures GrantedTotal([], [], clients) == 0
  {
    if clients != [] {
      GrantedTotalNothing(clients[1..]);
    }
  }

  lemma {:induction false} GrantedTotalBound(ws: seq<Want>, left: seq<nat>, clients: seq<string>)
    requires IsLeft(ws, left) && forall i, j | 0 <= i < j < |clients| :: clients[i] != clients[j]
    ensures GrantedTotal(ws, left, clients) + Sum(left) <= Sum(Needs(ws))
    ensures (forall i | 0 <= i < |ws| :: ws[i].clientId in clients) ==>
      GrantedTotal(ws, left, clients) + Sum(left) == Sum(Needs(ws))
  {
    if ws == [] {
      GrantedTotalNothing(clients);
    } else {
      GrantedTotalStep(ws, left, clients);
      TimesDistinct(clients, ws[0].clientId);
      GrantedTotalBound(ws[1..], left[1..], clients);
      assert Needs(ws)[1..] == Needs(ws[1..]);
    }
  }

  lemma {:induction false} AllottedTotalIs(entries: seq<NeedEntry>, budget: int, clients: seq<string>)
    ensures AllottedTotal(entries, budget, clients)
         == GrantedTotal(Wanting(entries), Left(Wanting(entries), Slots(budget)), clients)
  {
    if clients != [] {
      AllottedTotalIs(entries, budget, clients[1..]);
    }
  }

  function TotalNeed(entries: seq<NeedEntry>): nat { Sum(Needs(Wanting(entries))) }

  function ClientIds(entries: seq<NeedEntry>): seq<string> {
    seq(|entries|, i requires 0 <= i < |entries| => entries[i].clientId)
  }

  /** All clients together get exactly the budget, or everything they need. */
  lemma AllotmentIsConserved(entries: seq<NeedEntry>, budget: int)
    requires OnePerClient(entries)
    ensures AllottedTotal(entries, budget, ClientIds(entries)) == Min(Slots(budget), TotalNeed(entries))
  {
    var ws := Wanting(entries);
    var ids := ClientIds(entries);
    WantingIs(entries);
    AllottedTotalIs(entries, budget, ids);
    forall i | 0 <= i < |ws|
      ensures ws[i].clientId in ids
    {
      assert ws[i] in ws;
      var e :| e in entries && ws[i].clientId == e.clientId;
      var j :| 0 <= j < |entries| && entries[j] == e;
      assert ids[j] == e.clientId;
    }
    GrantedTotalBound(ws, Left(ws, Slots(budget)), ids);
    Conserved(ws, Slots(budget));
  }

  // ---------------------------------------------------------------------------
  // What the allocation means, in terms of the entries
  // ---------------------------------------------------------------------------

  function Given(allocation: map<string, nat>, c: string): nat {
    if c in allocation then allocation[c] else 0
  }

  function NeedOf(entries: seq<NeedEntry>): seq<nat> {
    seq(|entries|, i requires 0 <= i < |entries| => if entries[i].need > 0 then entries[i].need else 0)
  }

  function GivenOf(entries: seq<NeedEntry>, allocation: map<string, nat>): seq<nat> {
    seq(|entries|, i requires 0 <= i < |entries| => Given(allocation, entries[i].clientId))
  }

  /** Nobody gets more than it needs, and all together the budget or everything needed. */
  ghost predicate Spends(entries: seq<NeedEntry>, budget: int, allocation: map<string, nat>) {
    var (need, given) := (NeedOf(entries), GivenOf(entries, allocation));
    && (forall i | 0 <= i < |entries| :: given[i] <= need[i])
    && Sum(given) == Min(if budget > 0 then budget else 0, Sum(need))
  }

  /**
   * A client with `x` unmet of its target is not ahead of one with `y`: not a larger part of the target; if equal
   * parts, not more unmet; if equal that too, not the smaller identifier.
   */
  predicate NotAhead(e: NeedEntry, x: nat, f: NeedEntry, y: nat) {
    var (te, tf) := (if e.target > 1 then e.target else 1, if f.target > 1 then f.target else 1);
    || x * tf < y * te
    || (x * tf == y * te && (x < y || (x == y && !Less(e.clientId, f.clientId))))
  }

  /** Nobody is ahead of what a served client was before its last slot. */
  ghost predicate ServesByNeed(entries: seq<NeedEntry>, allocation: map<string, nat>) {
    var (need, given) := (NeedOf(entries), GivenOf(entries, allocation));
    forall i, j | 0 <= i < |entries| && 0 <= j < |entries| && given[i] <= need[i] && 0 < given[j] <= need[j] ::
      NotAhead(entries[i], need[i] - given[i], entries[j], need[j] - given[j] + 1)
  }

  lemma {:induction false} WantingSum(entries: seq<NeedEntry>)
    ensures Sum(Needs(Wanting(entries))) == Sum(NeedOf(entries))
  {
    if entries != [] {
      WantingSum(entries[1..]);
      var ws := Wanting(entries);
      assert NeedOf(entries)[1..] == NeedOf(entries[1..]);
      if entries[0].need > 0 {
        assert ws[1..] == Wanting(entries[1..]) && Needs(ws)[1..] == Needs(ws[1..]);
      } else {
        assert ws == Wanting(entries[1..]);
      }
    }
  }

  lemma {:induction false} GivenSum(entries: seq<NeedEntry>, all: seq<NeedEntry>, budget: int, allocation: map<string, nat>)
    requires forall c :: Given(allocation, c) == Allotted(all, budget, c)
    ensures Sum(GivenOf(entries, allocation)) == AllottedTotal(all, budget, ClientIds(entries))
  {
    hide Allotted;
    if entries != [] {
      GivenSum(entries[1..], all, budget, allocation);
      assert GivenOf(entries, allocation)[1..] == GivenOf(entries[1..], allocation);
      assert ClientIds(entries)[1..] == ClientIds(entries[1..]);
    }
  }

  lemma AllotmentSpends(entries: seq<NeedEntry>, budget: int, allocation: map<string, nat>)
    requires OnePerClient(entries) && forall c :: Given(allocation, c) == Allotted(entries, budget, c)
    ensures Spends(entries, budget, allocation)
  {
    WantingSum(entries);
    GivenSum(entries, entries, budget, allocation);
    AllotmentIsConserved(entries, budget);
    hide Allotted;
    forall i | 0 <= i < |entries|
      ensures GivenOf(entries, allocation)[i] <= NeedOf(entries)[i]
    {
      AllottedAtMostNeed(entries, budget, entries[i]);
    }
  }

  /** The want of an entry that needs something. */
  lemma WantOf(entries: seq<NeedEntry>, i: nat) returns (k: nat)
    requires i < |entries| && entries[i].need > 0
    ensures k < |Wanting(entries)|
    ensures Wanting(entries)[k]
         == Want(entries[i].clientId, entries[i].need, if entries[i].target > 1 then entries[i].target else 1)
  {
    WantingIs(entries);
    var w := Want(entries[i].clientId, entries[i].need, if entries[i].target > 1 then entries[i].target else 1);
    assert w in Wanting(entries);
    k :| 0 <= k < |Wanting(entries)| && Wanting(entries)[k] == w;
  }

  lemma AllotmentServes(entries: seq<NeedEntry>, budget: int, allocation: map<string, nat>)
    requires OnePerClient(entries) && forall c :: Given(allocation, c) == Allotted(entries, budget, c)
    ensures ServesByNeed(entries, allocation)
  {
    var (need, given) := (NeedOf(entries), GivenOf(entries, allocation));
    forall i, j | 0 <= i < |entries| && 0 <= j < |entries| && given[i] <= need[i] && 0 < given[j] <= need[j]
      ensures NotAhead(entries[i], need[i] - given[i], entries[j], need[j] - given[j] + 1)
    {
      if need[i] == 0 {
        NothingIsNotAhead(entries[i], entries[j], need[j] - given[j] + 1);
      } else {
        PairServes(entries, budget, allocation, i, j);
      }
    }
  }

  lemma NothingIsNotAhead(e: NeedEntry, f: NeedEntry, y: nat)
    requires y > 0
    ensures NotAhead(e, 0, f, y)
  {
    var te := if e.target > 1 then e.target else 1;
    MoreTimes(1, y, te);
  }

  lemma PairServes(entries: seq<NeedEntry>, budget: int, allocation: map<string, nat>, i: nat, j: nat)
    requires OnePerClient(entries) && forall c :: Given(allocation, c) == Allotted(entries, budget, c)
    requires i < |entries| && j < |entries| && entries[i].need > 0 && entries[j].need > 0
    requires Given(allocation, entries[i].clientId) <= entries[i].need
    requires 0 < Given(allocation, entries[j].clientId) <= entries[j].need
    ensures NotAhead(entries[i], entries[i].need - Given(allocation, entries[i].clientId),
                     entries[j], entries[j].need - Given(allocation, entries[j].clientId) + 1)
  {
    hide Wanting, Granted, Left, Beats;
    var ws := Wanting(entries);
    var left := Left(ws, Slots(budget));
    var a := WantOf(entries, i);
    var b := WantOf(entries, j);
    WantingDistinct(entries);
    GrantedOwn(ws, left, a);
    GrantedOwn(ws, left, b);
    AlwaysServedFirst(ws, Slots(budget));
    BeatsIs(ws[a], left[a], ws[b], left[b] + 1);
  }

  lemma AllocationIsFair(entries: seq<NeedEntry>, budget: int, allocation: map<string, nat>)
    requires forall c :: c in allocation <==> Allotted(entries, budget, c) > 0
    requires forall c | c in allocation :: allocation[c] == Allotted(entries, budget, c)
    ensures OnePerClient(entries) ==> Spends(entries, budget, allocation) && ServesByNeed(entries, allocation)
  {
    hide Allotted, Spends, ServesByNeed;
    if OnePerClient(entries) {
      forall c
        ensures Given(allocation, c) == Allotted(entries, budget, c)
      {
        assert c !in allocation ==> Allotted(entries, budget, c) == 0;
      }
      AllotmentSpends(entries, budget, allocation);
      AllotmentServes(entries, budget, allocation);
    }
  }

  /**
   * Whoever is left unmet: any other way to hand out at most the budget, to nobody more than it needs, leaves
   * some client unmet by at least as large a part of its target.
   */
  lemma NobodyCouldBeHelped(entries: seq<NeedEntry>, budget: int, allocation: map<string, nat>,
                            other: map<string, nat>, i: nat) returns (j: nat)
    requires Spends(entries, budget, allocation) && ServesByNeed(entries, allocation)
    requires forall k | 0 <= k < |entries| :: GivenOf(entries, other)[k] <= NeedOf(entries)[k]
    requires Sum(GivenOf(entries, other)) <= if budget > 0 then budget else 0
    requires i < |entries| && GivenOf(entries, allocation)[i] < NeedOf(entries)[i]
    ensures j < |entries|
    ensures var (te, tf) := (if entries[i].target > 1 then entries[i].target else 1,
                             if entries[j].target > 1 then entries[j].target else 1);
      (NeedOf(entries)[i] - GivenOf(entries, allocation)[i]) * tf <= (NeedOf(entries)[j] - GivenOf(entries, other)[j]) * te
  {
    hide Sum, ServesByNeed, Less;
    var (need, given, given') := (NeedOf(entries), GivenOf(entries, allocation), GivenOf(entries, other));
    if given'[i] <= given[i] {
      j := i;
      MoreTimes(need[i] - given[i], need[i] - given'[i], if entries[i].target > 1 then entries[i].target else 1);
    } else {
      SumsOrdered(given, need, i);
      SumsDiffer(given, given', i);
      j :| 0 <= j < |entries| && given'[j] < given[j];
      hide Spends, NeedOf, GivenOf;
      ServedWhileHelped(entries, allocation, i, j, need[j] - given'[j]);
    }
  }

  lemma ServedWhileHelped(entries: seq<NeedEntry>, allocation: map<string, nat>, i: nat, j: nat, unmet: nat)
    requires ServesByNeed(entries, allocation) && i < |entries| && j < |entries|
    requires var (need, given) := (NeedOf(entries), GivenOf(entries, allocation));
      given[i] <= need[i] && 0 < given[j] <= need[j] && need[j] - given[j] < unmet
    ensures var (te, tf) := (if entries[i].target > 1 then entries[i].target else 1,
                             if entries[j].target > 1 then entries[j].target else 1);
      (NeedOf(entries)[i] - GivenOf(entries, allocation)[i]) * tf <= unmet * te
  {
    hide Less;
    var (need, given) := (NeedOf(entries), GivenOf(entries, allocation));
    assert NotAhead(entries[i], need[i] - given[i], entries[j], need[j] - given[j] + 1);
    MoreTimes(need[j] - given[j] + 1, unmet, if entries[i].target > 1 then entries[i].target else 1);
  }
}
