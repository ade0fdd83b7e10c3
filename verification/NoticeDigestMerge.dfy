/** One row per client: how a list's entries collapse before they are posted. */
module NoticeDigestMerge {
  import opened Basics

  datatype Value = Num(n: real) | Str(s: string)
  type Row = map<string, Value>
  datatype Merge = Sum | Last

  datatype Notice = Notice(client: string, at: int, title: string, merge: Merge, row: Row)

  function Front<T>(s: seq<T>): seq<T>
    requires s != []
  {
    s[..|s| - 1]
  }

  function Newest<T>(s: seq<T>): T
    requires s != []
  {
    s[|s| - 1]
  }

  // ---------------------------------------------------------------------------
  // The stable sort by time
  // ---------------------------------------------------------------------------

  function Insert(s: seq<Notice>, x: Notice): seq<Notice> {
    if s == [] || Newest(s).at <= x.at then s + [x] else Insert(Front(s), x) + [Newest(s)]
  }

  function SortByAt(es: seq<Notice>): seq<Notice> {
    if es == [] then [] else Insert(SortByAt(Front(es)), Newest(es))
  }

  ghost predicate Sorted(s: seq<Notice>) {
    forall i, j | 0 <= i < j < |s| :: s[i].at <= s[j].at
  }

  function AtTime(s: seq<Notice>, at: int): seq<Notice> {
    if s == [] then [] else AtTime(Front(s), at) + (if Newest(s).at == at then [Newest(s)] else [])
  }

  lemma {:induction false} InsertMembers(s: seq<Notice>, x: Notice, e: Notice)
    ensures e in Insert(s, x) <==> e in s || e == x
  {
    if s != [] && Newest(s).at > x.at {
      InsertMembers(Front(s), x, e);
      assert s == Front(s) + [Newest(s)];
    }
  }

  lemma {:induction false} InsertSorts(s: seq<Notice>, x: Notice)
    requires Sorted(s)
    ensures Sorted(Insert(s, x))
  {
    if s != [] && Newest(s).at > x.at {
      InsertSorts(Front(s), x);
      forall e | e in Insert(Front(s), x)
        ensures e.at <= Newest(s).at
      {
        InsertMembers(Front(s), x, e);
      }
    }
  }

  lemma {:induction false} InsertKeepsTies(s: seq<Notice>, x: Notice, at: int)
    requires Sorted(s)
    ensures AtTime(Insert(s, x), at) == AtTime(s, at) + (if x.at == at then [x] else [])
  {
    if s == [] || Newest(s).at <= x.at {
      assert Front(s + [x]) == s;
    } else {
      InsertKeepsTies(Front(s), x, at);
      assert Front(Insert(s, x)) == Insert(Front(s), x);
    }
  }

  /** In order of time, and at each time the same entries in their old order. */
  lemma {:induction false} SortByAtIsStable(es: seq<Notice>, at: int)
    ensures Sorted(SortByAt(es))
    ensures AtTime(SortByAt(es), at) == AtTime(es, at)
  {
    if es != [] {
      SortByAtIsStable(Front(es), at);
      InsertSorts(SortByAt(Front(es)), Newest(es));
      InsertKeepsTies(SortByAt(Front(es)), Newest(es), at);
    }
  }

  lemma {:induction false} SortMembers(es: seq<Notice>, e: Notice)
    ensures e in SortByAt(es) <==> e in es
  {
    if es != [] {
      SortMembers(Front(es), e);
      InsertMembers(SortByAt(Front(es)), Newest(es), e);
      assert es == Front(es) + [Newest(es)];
    }
  }

  ghost predicate Before(a: seq<Notice>, b: seq<Notice>) {
    forall x, y | x in a && y in b :: x.at <= y.at
  }

  lemma {:induction false} InsertAfter(a: seq<Notice>, b: seq<Notice>, x: Notice)
    requires forall e | e in a :: e.at <= x.at
    ensures Insert(a + b, x) == a + Insert(b, x)
    decreases |b|
  {
    if b == [] {
      assert a + b == a;
    } else {
      assert Newest(a + b) == Newest(b) && Front(a + b) == a + Front(b);
      if Newest(b).at > x.at {
        InsertAfter(a, Front(b), x);
      }
    }
  }

  lemma {:induction false} SortJoin(a: seq<Notice>, b: seq<Notice>)
    requires Before(a, b)
    ensures SortByAt(a + b) == SortByAt(a) + SortByAt(b)
    decreases |b|
  {
    if b == [] {
      assert a + b == a;
    } else {
      assert Newest(a + b) == Newest(b) && Front(a + b) == a + Front(b);
      SortJoin(a, Front(b));
      forall e | e in SortByAt(a)
        ensures e in a
      {
        SortMembers(a, e);
      }
      InsertAfter(SortByAt(a), SortByAt(Front(b)), Newest(b));
    }
  }

  // ---------------------------------------------------------------------------
  // One client's row
  // ---------------------------------------------------------------------------

  /** Numbers add up; otherwise the newer non-empty value wins. */
  function Combine(prev: Row, row: Row): Row {
    map k | k in prev.Keys + row.Keys && (k in prev || row[k] != Str("")) ::
      if k !in row || row[k] == Str("") then prev[k]
      else if row[k].Num? && k in prev && prev[k].Num? then Num(prev[k].n + row[k].n)
      else row[k]
  }

  function Over(prev: Option<Notice>, e: Notice): Notice {
    if prev.None? || e.merge != Sum then e else e.(row := Combine(prev.value.row, e.row))
  }

  function Fold(from: Option<Notice>, own: seq<Notice>): Option<Notice> {
    if own == [] then from else Some(Over(Fold(from, Front(own)), Newest(own)))
  }

  function Own(es: seq<Notice>, c: string): seq<Notice> {
    if es == [] then [] else Own(Front(es), c) + (if Newest(es).client == c then [Newest(es)] else [])
  }

  function ClientRow(es: seq<Notice>, c: string): Option<Notice> {
    Fold(None, Own(SortByAt(es), c))
  }

  /** Clients in the order of their first entry. */
  function Clients(es: seq<Notice>): seq<string> {
    if es == [] then []
    else
      var before := Clients(Front(es));
      if Newest(es).client in before then before else before + [Newest(es).client]
  }

  lemma {:induction false} ClientsHaveRows(es: seq<Notice>, c: string)
    ensures c in Clients(es) <==> Own(es, c) != []
    ensures Fold(None, Own(es, c)).Some? <==> c in Clients(es)
    ensures Fold(None, Own(es, c)).Some? ==> Fold(None, Own(es, c)).value.client == c
    ensures forall i, j | 0 <= i < j < |Clients(es)| :: Clients(es)[i] != Clients(es)[j]
  {
    if es != [] {
      ClientsHaveRows(Front(es), c);
      OwnNewest(es, c);
    }
  }

  lemma OwnNewest(es: seq<Notice>, c: string)
    requires es != []
    ensures Newest(es).client == c ==> Own(es, c) != [] && Front(Own(es, c)) == Own(Front(es), c) && Newest(Own(es, c)) == Newest(es)
    ensures Newest(es).client != c ==> Own(es, c) == Own(Front(es), c)
  {
    if Newest(es).client == c {
      assert Own(es, c) == Own(Front(es), c) + [Newest(es)];
      assert Front(Own(es, c)) == Own(Front(es), c);
    }
  }

  lemma RowStep(es: seq<Notice>, e: Notice, c: string)
    ensures Clients(es + [e]) == if e.client in Clients(es) then Clients(es) else Clients(es) + [e.client]
    ensures Fold(None, Own(es + [e], c)) == if e.client == c then Some(Over(Fold(None, Own(es, c)), e)) else Fold(None, Own(es, c))
    ensures c !in Clients(es) ==> Fold(None, Own(es, c)) == None
  {
    assert Front(es + [e]) == es;
    ClientsHaveRows(es, c);
    OwnNewest(es + [e], c);
  }

  /** One merged entry per client, in the order of the clients' first entries. */
  function Merged(es: seq<Notice>): seq<Notice> {
    var clients := Clients(SortByAt(es));
    seq(|clients|, i requires 0 <= i < |clients| => RowOr(es, clients[i]))
  }

  function RowOr(es: seq<Notice>, c: string): Notice {
    var row := ClientRow(es, c);
    if row.Some? then row.value else Notice(c, 0, "", Last, map[])
  }

  lemma NoRows(c: string)
    ensures Clients([]) == [] && Fold(None, Own([], c)) == None
  {
  }

  // ---------------------------------------------------------------------------
  // Merging is incremental
  // ---------------------------------------------------------------------------

  lemma {:induction false} FoldJoin(from: Option<Notice>, a: seq<Notice>, b: seq<Notice>)
    ensures Fold(from, a + b) == Fold(Fold(from, a), b)
    decreases |b|
  {
    if b == [] {
      assert a + b == a;
    } else {
      assert Front(a + b) == a + Front(b) && Newest(a + b) == Newest(b);
      FoldJoin(from, a, Front(b));
    }
  }

  lemma {:induction false} OwnJoin(a: seq<Notice>, b: seq<Notice>, c: string)
    ensures Own(a + b, c) == Own(a, c) + Own(b, c)
    decreases |b|
  {
    if b == [] {
      assert a + b == a;
    } else {
      assert Front(a + b) == a + Front(b) && Newest(a + b) == Newest(b);
      OwnJoin(a, Front(b), c);
    }
  }

  /** Sorting and taking one client's entries commute. */
  lemma {:induction false} OwnInsert(s: seq<Notice>, x: Notice, c: string)
    requires Sorted(s)
    ensures Own(Insert(s, x), c) == if x.client == c then Insert(Own(s, c), x) else Own(s, c)
  {
    if s == [] || Newest(s).at <= x.at {
      assert Front(s + [x]) == s;
      OwnAtMost(s, x.at, c);
    } else {
      OwnInsert(Front(s), x, c);
      OwnNewest(s, c);
      assert Front(Insert(s, x)) == Insert(Front(s), x);
    }
  }

  lemma {:induction false} OwnAtMost(s: seq<Notice>, at: int, c: string)
    requires Sorted(s) && (s != [] ==> Newest(s).at <= at)
    ensures Own(s, c) != [] ==> Newest(Own(s, c)).at <= at
  {
    if s != [] {
      OwnAtMost(Front(s), at, c);
    }
  }

  lemma {:induction false} OwnSort(es: seq<Notice>, c: string)
    ensures Own(SortByAt(es), c) == SortByAt(Own(es, c))
  {
    if es != [] {
      OwnSort(Front(es), c);
      SortByAtIsStable(Front(es), 0);
      OwnInsert(SortByAt(Front(es)), Newest(es), c);
      OwnNewest(es, c);
    }
  }

  lemma {:induction false} OwnNone(es: seq<Notice>, c: string)
    requires forall e | e in es :: e.client != c
    ensures Own(es, c) == []
  {
    if es != [] {
      OwnNone(Front(es), c);
    }
  }

  lemma {:induction false} OwnSingle(ms: seq<Notice>, i: nat)
    requires i < |ms| && forall i, j | 0 <= i < j < |ms| :: ms[i].client != ms[j].client
    ensures Own(ms, ms[i].client) == [ms[i]]
  {
    if i == |ms| - 1 {
      OwnNone(Front(ms), ms[i].client);
    } else {
      OwnSingle(Front(ms), i);
    }
  }

  /** A list with one entry per client gives each client that entry. */
  lemma SingleRow(ms: seq<Notice>, i: nat)
    requires i < |ms| && forall i, j | 0 <= i < j < |ms| :: ms[i].client != ms[j].client
    ensures ClientRow(ms, ms[i].client) == Some(ms[i])
  {
    hide Own, SortByAt, Fold;
    OwnSort(ms, ms[i].client);
    OwnSingle(ms, i);
    OneNotice(ms[i]);
  }

  lemma OneNotice(m: Notice)
    ensures SortByAt([m]) == [m] && Fold(None, [m]) == Some(m)
  {
    assert Front([m]) == [];
  }

  lemma MergedKeepsRows(es: seq<Notice>, c: string)
    ensures ClientRow(Merged(es), c) == ClientRow(es, c)
  {
    var sorted := SortByAt(es);
    var clients := Clients(sorted);
    ClientsHaveRows(sorted, c);
    forall i | 0 <= i < |clients|
      ensures Merged(es)[i].client == clients[i] && ClientRow(es, clients[i]) == Some(Merged(es)[i])
    {
      assert clients[i] in clients;
      ClientsHaveRows(sorted, clients[i]);
    }
    if c in clients {
      var i :| 0 <= i < |clients| && clients[i] == c;
      SingleRow(Merged(es), i);
    } else {
      OwnSort(Merged(es), c);
      OwnNone(Merged(es), c);
    }
  }

  lemma RowsAfter(a: seq<Notice>, b: seq<Notice>, c: string)
    requires Before(a, b)
    ensures ClientRow(a + b, c) == Fold(ClientRow(a, c), Own(SortByAt(b), c))
  {
    SortJoin(a, b);
    OwnJoin(SortByAt(a), SortByAt(b), c);
    FoldJoin(None, Own(SortByAt(a), c), Own(SortByAt(b), c));
  }

  /** Merging an older batch first and a newer one into the result changes no client's row. */
  lemma MergeIsIncremental(older: seq<Notice>, newer: seq<Notice>, c: string)
    requires Before(older, newer)
    ensures ClientRow(Merged(older) + newer, c) == ClientRow(older + newer, c)
  {
    MergedKeepsRows(older, c);
    RowsAfter(older, newer, c);
    MergedIsOlder(older, newer);
    RowsAfter(Merged(older), newer, c);
  }

  lemma {:induction false} OwnMembers(es: seq<Notice>, c: string)
    ensures forall e | e in Own(es, c) :: e in es
  {
    if es != [] {
      OwnMembers(Front(es), c);
    }
  }

  lemma MergedIsOlder(older: seq<Notice>, newer: seq<Notice>)
    requires Before(older, newer)
    ensures Before(Merged(older), newer)
  {
    var sorted := SortByAt(older);
    forall m | m in Merged(older)
      ensures exists e :: e in older && e.at == m.at
    {
      var i :| 0 <= i < |Merged(older)| && Merged(older)[i] == m;
      var c := Clients(sorted)[i];
      assert c in Clients(sorted);
      ClientsHaveRows(sorted, c);
      OwnMembers(sorted, c);
      SortMembers(older, Newest(Own(sorted, c)));
    }
  }

  // ---------------------------------------------------------------------------
  // Counters are conserved
  // ---------------------------------------------------------------------------

  /** The client's entries from its newest one that replaces rather than adds. */
  function Counted(own: seq<Notice>): seq<Notice> {
    if own == [] then []
    else if |own| == 1 || Newest(own).merge != Sum then [Newest(own)]
    else Counted(Front(own)) + [Newest(own)]
  }

  function Total(es: seq<Notice>, column: string): real {
    if es == [] then 0.0
    else
      var e := Newest(es);
      Total(Front(es), column) + (if column in e.row && e.row[column].Num? then e.row[column].n else 0.0)
  }

  lemma CombineNumbers(prev: Row, row: Row, k: string)
    requires k in row ==> row[k].Num?
    requires k in prev ==> prev[k].Num?
    ensures k in Combine(prev, row) <==> k in prev || k in row
    ensures k in Combine(prev, row) ==>
      Combine(prev, row)[k] == Num((if k in prev then prev[k].n else 0.0) + (if k in row then row[k].n else 0.0))
  {
  }

  lemma TotalStep(es: seq<Notice>, e: Notice, column: string)
    ensures Total(es + [e], column)
      == Total(es, column) + (if column in e.row && e.row[column].Num? then e.row[column].n else 0.0)
  {
    assert Front(es + [e]) == es;
  }

  /** A column that is always numeric shows the sum over the counted entries, and shows if any of them had it. */
  lemma {:induction false} ColumnIsSum(own: seq<Notice>, column: string)
    requires own != []
    requires forall e | e in Counted(own) && column in e.row :: e.row[column].Num?
    ensures column in Fold(None, own).value.row <==> exists e :: e in Counted(own) && column in e.row
    ensures column in Fold(None, own).value.row ==>
      Fold(None, own).value.row[column] == Num(Total(Counted(own), column))
    decreases |own|
  {
    hide Combine, Total;
    var last := Newest(own);
    if |own| == 1 || last.merge != Sum {
      TotalStep([], last, column);
      assert [] + [last] == [last];
      NoTotal([], column);
    } else {
      var before := Counted(Front(own));
      ColumnIsSum(Front(own), column);
      NoTotal(before, column);
      TotalStep(before, last, column);
      CombineNumbers(Fold(None, Front(own)).value.row, last.row, column);
    }
  }

  lemma {:induction false} NoTotal(es: seq<Notice>, column: string)
    ensures (forall e | e in es :: column !in e.row) ==> Total(es, column) == 0.0
  {
    if es != [] {
      NoTotal(Front(es), column);
    }
  }

  lemma MergedColumnIsSum(entries: seq<Notice>, c: string, column: string)
    requires ClientRow(entries, c).Some?
    requires forall e | e in Counted(Own(SortByAt(entries), c)) && column in e.row :: e.row[column].Num?
    ensures column in ClientRow(entries, c).value.row <==>
      exists e :: e in Counted(Own(SortByAt(entries), c)) && column in e.row
    ensures column in ClientRow(entries, c).value.row ==>
      ClientRow(entries, c).value.row[column] == Num(Total(Counted(Own(SortByAt(entries), c)), column))
  {
    ColumnIsSum(Own(SortByAt(entries), c), column);
  }

  // ---------------------------------------------------------------------------
  // Any column
  // ---------------------------------------------------------------------------

  /** The counted entries start at the newest that replaces, or at the first. */
  lemma {:induction false} CountedIs(own: seq<Notice>) returns (start: nat)
    requires own != []
    ensures start < |own| && Counted(own) == own[start..]
    ensures start == 0 || own[start].merge != Sum
    ensures forall j | start < j < |own| :: own[j].merge == Sum
    decreases |own|
  {
    if |own| == 1 || Newest(own).merge != Sum {
      start := |own| - 1;
      assert own[start..] == [Newest(own)];
    } else {
      start := CountedIs(Front(own));
      assert own[start..] == Front(own)[start..] + [Newest(own)];
    }
  }

  /** Text that sets a column: any text in the first counted entry, later only text that is not empty. */
  predicate SetsText(es: seq<Notice>, i: int, column: string) {
    0 <= i < |es| && column in es[i].row && es[i].row[column].Str? && (i == 0 || es[i].row[column].s != "")
  }

  /** The counted entries from `t` on follow the last text, if any was set. */
  predicate LastText(es: seq<Notice>, t: nat, column: string) {
    && t <= |es|
    && (t == 0 || SetsText(es, t - 1, column))
    && forall j | t <= j < |es| :: !SetsText(es, j, column)
  }

  predicate HasNumber(es: seq<Notice>, t: nat, column: string) {
    exists j | t <= j < |es| :: column in es[j].row && es[j].row[column].Num?
  }

  lemma LongerList(before: seq<Notice>, last: Notice, t: nat, column: string)
    ensures var es := before + [last];
      && (forall j | 0 <= j < |before| :: SetsText(es, j, column) <==> SetsText(before, j, column))
      && (t <= |before| ==>
            && (LastText(es, t, column) <==> LastText(before, t, column) && !SetsText(es, |before|, column))
            && (HasNumber(es, t, column) <==> HasNumber(before, t, column) || (column in last.row && last.row[column].Num?)))
  {
    var es := before + [last];
    assert forall j | 0 <= j < |before| :: es[j] == before[j];
    assert es[|before|] == last;
    assert forall j | 0 <= j < |before| :: SetsText(es, j, column) <==> SetsText(before, j, column);
    if t <= |before| && HasNumber(before, t, column) {
      var j :| t <= j < |before| && column in before[j].row && before[j].row[column].Num?;
      assert es[j] == before[j];
    }
  }

  lemma {:induction false} LastTextExists(es: seq<Notice>, column: string) returns (t: nat)
    ensures LastText(es, t, column)
    decreases |es|
  {
    if es == [] {
      t := 0;
    } else if SetsText(es, |es| - 1, column) {
      t := |es|;
    } else {
      t := LastTextExists(Front(es), column);
      assert es == Front(es) + [Newest(es)];
      LongerList(Front(es), Newest(es), t, column);
    }
  }

  lemma CombineIs(prev: Row, row: Row, k: string)
    ensures k !in row || row[k] == Str("") ==>
      (k in Combine(prev, row) <==> k in prev) && (k in prev ==> Combine(prev, row)[k] == prev[k])
    ensures k in row && row[k].Str? && row[k].s != "" ==> k in Combine(prev, row) && Combine(prev, row)[k] == row[k]
    ensures k in row && row[k].Num? ==>
      && k in Combine(prev, row)
      && Combine(prev, row)[k] == if k in prev && prev[k].Num? then Num(prev[k].n + row[k].n) else row[k]
  {
  }

  lemma {:induction false} TotalFrom(es: seq<Notice>, t: nat, column: string)
    requires t < |es|
    ensures Total(es[t..], column) == Total(Front(es)[t..], column)
      + (if column in Newest(es).row && Newest(es).row[column].Num? then Newest(es).row[column].n else 0.0)
  {
    assert es[t..] == Front(es)[t..] + [Newest(es)];
    TotalStep(Front(es)[t..], Newest(es), column);
  }

  /**
   * What a column shows, from the counted entries in time order: the sum of the numbers since the last text, if
   * there are any; else that text, the newest; and nothing exactly if no text was set and no number given.
   */
  lemma {:induction false} ColumnShows(own: seq<Notice>, column: string, t: nat)
    requires own != [] && LastText(Counted(own), t, column)
    ensures var (es, row) := (Counted(own), Fold(None, own).value.row);
      && (HasNumber(es, t, column) ==> column in row && row[column] == Num(Total(es[t..], column)))
      && (!HasNumber(es, t, column) && t > 0 ==> column in row && row[column] == es[t - 1].row[column])
      && (!HasNumber(es, t, column) && t == 0 ==> column !in row)
    decreases |own|
  {
    hide Combine, Total;
    var (es, last) := (Counted(own), Newest(own));
    if |own| == 1 || last.merge != Sum {
      assert es == [last] && Fold(None, own) == Some(last);
      if t == 0 {
        assert !SetsText(es, 0, column) && es[0] == last;
        TotalFrom(es, 0, column);
        NoTotal([], column);
        assert Front(es)[0..] == [];
      }
      assert t == 1 ==> es[t..] == [];
    } else {
      ColumnShowsStep(own, column, t);
    }
  }

  lemma ColumnShowsStep(own: seq<Notice>, column: string, t: nat)
    requires |own| > 1 && Newest(own).merge == Sum && LastText(Counted(own), t, column)
    ensures var (es, row) := (Counted(own), Fold(None, own).value.row);
      && (HasNumber(es, t, column) ==> column in row && row[column] == Num(Total(es[t..], column)))
      && (!HasNumber(es, t, column) && t > 0 ==> column in row && row[column] == es[t - 1].row[column])
      && (!HasNumber(es, t, column) && t == 0 ==> column !in row)
    decreases |own|, 0
  {
    hide Combine, Total;
    var (es, last) := (Counted(own), Newest(own));
    var before := Counted(Front(own));
    assert es == before + [last] && Front(es) == before && Newest(es) == last;
    var prev := Fold(None, Front(own)).value.row;
    CombineIs(prev, last.row, column);
    if t == |es| {
      assert es[t..] == [];
    } else {
      LongerList(before, last, t, column);
      ColumnShows(Front(own), column, t);
      TotalFrom(es, t, column);
      if !HasNumber(before, t, column) {
        NoNumbers(before, t, column);
      }
      assert !SetsText(es, |before|, column) && es[|before|] == last;
    }
  }

  lemma NoNumbers(es: seq<Notice>, t: nat, column: string)
    requires t <= |es| && !HasNumber(es, t, column)
    ensures Total(es[t..], column) == 0.0
  {
    forall e | e in es[t..]
      ensures !(column in e.row && e.row[column].Num?)
    {
      var j :| 0 <= j < |es[t..]| && es[t..][j] == e;
      assert es[t + j] == e;
    }
    ZeroTotal(es[t..], column);
  }

  lemma {:induction false} ZeroTotal(es: seq<Notice>, column: string)
    requires forall e | e in es :: !(column in e.row && e.row[column].Num?)
    ensures Total(es, column) == 0.0
  {
    if es != [] {
      ZeroTotal(Front(es), column);
    }
  }

  // ---------------------------------------------------------------------------
  // Merging
  // ---------------------------------------------------------------------------

  /** The client's merged entry: its newest one, each column as its counted entries in time order show it. */
  ghost predicate MergedFrom(own: seq<Notice>, m: Notice) {
    var es := Counted(own);
    && own != []
    && m.(row := map[]) == own[|own| - 1].(row := map[])
    && (forall column, t: nat | LastText(es, t, column) && HasNumber(es, t, column) ::
          column in m.row && m.row[column] == Num(Total(es[t..], column)))
    && (forall column, t: nat | LastText(es, t, column) && !HasNumber(es, t, column) ::
          if t > 0 then column in m.row && m.row[column] == es[t - 1].row[column] else column !in m.row)
  }

  /** Both clients have entries, and the first one has one before all of the second's. */
  ghost predicate ComesFirst(es: seq<Notice>, c: string, d: string) {
    && (exists i :: 0 <= i < |es| && es[i].client == c && forall j | 0 <= j <= i :: es[j].client != d)
    && (exists j :: 0 <= j < |es| && es[j].client == d)
  }

  lemma {:induction false} OwnJoined(a: seq<Notice>, e: Notice, b: seq<Notice>, c: string)
    ensures Own([], c) == [] && Own(a + [e] + b, c) == Own(a, c) + (if e.client == c then [e] else []) + Own(b, c)
  {
    OwnJoin(a + [e], b, c);
    OwnJoin(a, [e], c);
    assert Front([e]) == [];
  }

  lemma {:induction false} FoldKeepsNewest(own: seq<Notice>)
    requires own != []
    ensures Fold(None, own).value.(row := map[]) == Newest(own).(row := map[])
  {
  }

  lemma FoldIsMerged(own: seq<Notice>)
    requires own != []
    ensures MergedFrom(own, Fold(None, own).value)
  {
    FoldKeepsNewest(own);
    hide Fold, Counted, LastText, HasNumber, Total;
    var es := Counted(own);
    var m := Fold(None, own).value;
    forall column, t: nat | LastText(es, t, column)
      ensures HasNumber(es, t, column) ==> column in m.row && m.row[column] == Num(Total(es[t..], column))
      ensures !HasNumber(es, t, column) ==>
        if t > 0 then column in m.row && m.row[column] == es[t - 1].row[column] else column !in m.row
    {
      ColumnShows(own, column, t);
    }
  }

  lemma {:induction false} ClientsInOrder(es: seq<Notice>, i: nat, j: nat)
    requires i < j < |Clients(es)|
    ensures ComesFirst(es, Clients(es)[i], Clients(es)[j])
  {
    var init := Front(es);
    var (c, d) := (Clients(es)[i], Clients(es)[j]);
    assert es == init + [Newest(es)];
    if j < |Clients(init)| {
      ClientsInOrder(init, i, j);
      var p :| 0 <= p < |init| && init[p].client == c && forall q | 0 <= q <= p :: init[q].client != d;
      var q :| 0 <= q < |init| && init[q].client == d;
      assert es[p].client == c && es[q].client == d;
    } else {
      FirstOf(init, c);
      var p :| 0 <= p < |init| && init[p].client == c;
      assert es[p].client == c && es[|init|].client == d;
      forall q | 0 <= q <= p
        ensures es[q].client != d
      {
        ClientOf(init, q);
      }
    }
  }

  lemma {:induction false} FirstOf(es: seq<Notice>, c: string)
    requires c in Clients(es)
    ensures exists p :: 0 <= p < |es| && es[p].client == c
  {
    if c == Newest(es).client {
      assert es[|es| - 1].client == c;
    } else {
      FirstOf(Front(es), c);
      var p :| 0 <= p < |Front(es)| && Front(es)[p].client == c;
      assert es[p].client == c;
    }
  }

  lemma {:induction false} ClientOf(es: seq<Notice>, q: nat)
    requires q < |es|
    ensures es[q].client in Clients(es)
  {
    if q < |es| - 1 {
      ClientOf(Front(es), q);
    }
  }

  lemma MergedAt(entries: seq<Notice>, i: nat)
    requires i < |Clients(SortByAt(entries))|
    ensures |Merged(entries)| == |Clients(SortByAt(entries))|
    ensures var m := Merged(entries)[i];
      m.client == Clients(SortByAt(entries))[i] && MergedFrom(Own(SortByAt(entries), m.client), m)
  {
    var sorted := SortByAt(entries);
    var clients := Clients(sorted);
    assert clients[i] in clients;
    ClientsHaveRows(sorted, clients[i]);
    FoldIsMerged(Own(sorted, clients[i]));
    hide MergedFrom, SortByAt, Fold, Own;
  }

  lemma EveryoneIsMerged(entries: seq<Notice>, e: Notice)
    requires e in entries
    ensures exists m | m in Merged(entries) :: m.client == e.client
  {
    SortMembers(entries, e);
    var sorted := SortByAt(entries);
    var q :| 0 <= q < |sorted| && sorted[q] == e;
    ClientOf(sorted, q);
    var clients := Clients(sorted);
    var i :| 0 <= i < |clients| && clients[i] == e.client;
    MergedAt(entries, i);
    assert Merged(entries)[i] in Merged(entries);
  }

  lemma MergedMeans(entries: seq<Notice>)
    ensures var out := Merged(entries);
      && (forall e | e in entries :: exists m | m in out :: m.client == e.client)
      && (forall i, j | 0 <= i < j < |out| :: ComesFirst(SortByAt(entries), out[i].client, out[j].client))
      && (forall m | m in out :: MergedFrom(Own(SortByAt(entries), m.client), m))
  {
    var out := Merged(entries);
    assert |out| == |Clients(SortByAt(entries))|;
    hide MergedFrom, Merged, SortByAt, ComesFirst, Clients, Own;
    forall i | 0 <= i < |out|
      ensures out[i].client == Clients(SortByAt(entries))[i]
      ensures MergedFrom(Own(SortByAt(entries), out[i].client), out[i])
    {
      MergedAt(entries, i);
    }
    forall i, j | 0 <= i < j < |out|
      ensures ComesFirst(SortByAt(entries), out[i].client, out[j].client)
    {
      ClientsInOrder(SortByAt(entries), i, j);
    }
    forall e | e in entries
      ensures exists m | m in out :: m.client == e.client
    {
      EveryoneIsMerged(entries, e);
    }
  }

  /** `keys` is the order in which a JavaScript Map lists its keys: the one they were first set in. */
  method MergeByClient(entries: seq<Notice>) returns (out: seq<Notice>)
    ensures out == Merged(entries)
    ensures forall e | e in entries :: exists m | m in out :: m.client == e.client
    ensures forall i, j | 0 <= i < j < |out| :: ComesFirst(SortByAt(entries), out[i].client, out[j].client)
    ensures forall m | m in out :: MergedFrom(Own(SortByAt(entries), m.client), m)
    ensures var clients := Clients(SortByAt(entries));
      |out| == |clients| && forall i | 0 <= i < |out| :: ClientRow(entries, clients[i]) == Some(out[i])
  {
    hide Own, Fold, Clients, Combine, SortByAt;
    var sorted := SortByAt(entries);
    var byClient: map<string, Notice> := map[];
    var keys: seq<string> := [];
    NoRows("");
    var i := 0;
    while i < |sorted|
      invariant 0 <= i <= |sorted|
      invariant keys == Clients(sorted[..i])
      invariant forall c :: c in byClient <==> c in keys
      invariant forall c | c in byClient :: Fold(None, Own(sorted[..i], c)) == Some(byClient[c])
    {
      var e := sorted[i];
      forall c {
        RowStep(sorted[..i], e, c);
      }
      assert sorted[..i + 1] == sorted[..i] + [e];
      if e.client !in byClient {
        keys := keys + [e.client];
        byClient := byClient[e.client := e];
      } else if e.merge != Sum {
        byClient := byClient[e.client := e];
      } else {
        byClient := byClient[e.client := e.(row := Combine(byClient[e.client].row, e.row))];
      }
      i := i + 1;
    }
    assert sorted[..i] == sorted;
    out := seq(|keys|, k requires 0 <= k < |keys| => byClient[keys[k]]);
    MergedMeans(entries);
  }
}
