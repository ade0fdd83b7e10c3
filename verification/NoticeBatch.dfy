/** Splitting one notice with long tables into the fewest messages that fit. */
module NoticeBatch {
  import opened Basics
  import opened Decimal

  const TABLE_MAX_ROWS: nat := 100
  const MESSAGE_SOFT_LIMIT: nat := 30000 - 2000

  type Row = seq<string>
  datatype Table = Table(title: Option<string>, columns: seq<string>, rows: seq<Row>)

  /** `head` stands for the header fields and the summary. */
  datatype Notice = Notice(title: Option<string>, head: Option<string>, tables: seq<Table>)

  /** Length of the rendered notice with these tables, under the title of the whole notice. */
  type Size = seq<Table> -> nat

  ghost predicate Monotone(size: Size) {
    forall before, tables, after :: size(tables) <= size(before + tables + after)
  }

  predicate Fits(size: Size, tables: seq<Table>) {
    size(tables) <= MESSAGE_SOFT_LIMIT
  }

  // ---------------------------------------------------------------------------
  // Tables into chunks
  // ---------------------------------------------------------------------------

  function Numbered(title: Option<string>, default: string, i: nat, n: nat): string {
    (if title.Some? then title.value else default) + " (" + Numeral(i + 1) + "/" + Numeral(n) + ")"
  }

  function Parts(t: Table): nat {
    (|t.rows| + TABLE_MAX_ROWS - 1) / TABLE_MAX_ROWS
  }

  function Part(t: Table, i: nat): Table
    requires i < Parts(t)
  {
    var from := i * TABLE_MAX_ROWS;
    var to := if from + TABLE_MAX_ROWS <= |t.rows| then from + TABLE_MAX_ROWS else |t.rows|;
    t.(title := Some(Numbered(t.title, "Rows", i, Parts(t))), rows := t.rows[from..to])
  }

  function FirstParts(t: Table, n: nat): seq<Table>
    requires n <= Parts(t)
  {
    seq(n, i requires 0 <= i < n => Part(t, i))
  }

  function ChunksOf(t: Table): seq<Table> {
    if |t.rows| <= TABLE_MAX_ROWS then [t] else FirstParts(t, Parts(t))
  }

  function AllChunks(tables: seq<Table>): seq<Table> {
    if tables == [] then [] else AllChunks(tables[..|tables| - 1]) + ChunksOf(tables[|tables| - 1])
  }

  function Rows(tables: seq<Table>): seq<Row> {
    if tables == [] then [] else Rows(tables[..|tables| - 1]) + tables[|tables| - 1].rows
  }

  lemma {:induction false} PartsCover(t: Table, n: nat)
    requires n <= Parts(t)
    ensures Rows(FirstParts(t, n)) == t.rows[..if n * TABLE_MAX_ROWS <= |t.rows| then n * TABLE_MAX_ROWS else |t.rows|]
  {
    if n > 0 {
      PartsCover(t, n - 1);
      assert FirstParts(t, n)[..n - 1] == FirstParts(t, n - 1);
    }
  }

  /** A table's chunks carry its rows in order, at most a hundred each, under its own columns. */
  lemma ChunksKeepRows(t: Table)
    ensures Rows(ChunksOf(t)) == t.rows
    ensures forall c | c in ChunksOf(t) :: |c.rows| <= TABLE_MAX_ROWS && c.columns == t.columns
    ensures |t.rows| > 0 ==> forall c | c in ChunksOf(t) :: |c.rows| > 0
    ensures |t.rows| > 0 ==> (|ChunksOf(t)| - 1) * TABLE_MAX_ROWS < |t.rows|
  {
    if |t.rows| <= TABLE_MAX_ROWS {
      assert [t][..0] == [];
    } else {
      PartsCover(t, Parts(t));
      assert Parts(t) * TABLE_MAX_ROWS >= |t.rows| && t.rows[..|t.rows|] == t.rows;
    }
  }

  /** A short table stays as it is; a long one is cut every hundred rows, each part under a numbered title. */
  lemma ChunksAre(t: Table)
    ensures |t.rows| <= 100 ==> ChunksOf(t) == [t]
    ensures |t.rows| > 100 ==>
      var n := |ChunksOf(t)|;
      && 100 * (n - 1) < |t.rows| <= 100 * n
      && forall i | 0 <= i < n ::
           ChunksOf(t)[i] == Table(
             Some((if t.title.Some? then t.title.value else "Rows") + " (" + Numeral(i + 1) + "/" + Numeral(n) + ")"),
             t.columns, t.rows[100 * i..if 100 * (i + 1) <= |t.rows| then 100 * (i + 1) else |t.rows|])
  {
    hide Numeral;
  }

  /** Every table's chunks, in the order of the tables. */
  lemma {:induction false} AllChunksEach(a: seq<Table>, t: Table, b: seq<Table>)
    ensures AllChunks([]) == [] && AllChunks(a + [t] + b) == AllChunks(a) + ChunksOf(t) + AllChunks(b)
    decreases |b|
  {
    hide ChunksOf;
    var all := a + [t] + b;
    if b == [] {
      assert all == a + [t] && all[..|all| - 1] == a;
    } else {
      var init := b[..|b| - 1];
      assert all[..|all| - 1] == a + [t] + init && all[|all| - 1] == b[|b| - 1];
      AllChunksEach(a, t, init);
    }
  }

  lemma {:induction false} RowsJoin(a: seq<Table>, b: seq<Table>)
    ensures Rows(a + b) == Rows(a) + Rows(b)
    decreases |b|
  {
    if b == [] {
      assert a + b == a;
    } else {
      assert (a + b)[..|a + b| - 1] == a + b[..|b| - 1];
      RowsJoin(a, b[..|b| - 1]);
    }
  }

  /** All chunks together carry all rows in order. */
  lemma {:induction false} AllChunksKeepRows(tables: seq<Table>)
    ensures Rows(AllChunks(tables)) == Rows(tables)
    ensures forall c | c in AllChunks(tables) :: |c.rows| <= TABLE_MAX_ROWS
  {
    if tables != [] {
      AllChunksKeepRows(tables[..|tables| - 1]);
      ChunksKeepRows(tables[|tables| - 1]);
      RowsJoin(AllChunks(tables[..|tables| - 1]), ChunksOf(tables[|tables| - 1]));
    }
  }

  // ---------------------------------------------------------------------------
  // Chunks into messages
  // ---------------------------------------------------------------------------

  function Join(groups: seq<seq<Table>>): seq<Table> {
    if groups == [] then [] else Join(groups[..|groups| - 1]) + groups[|groups| - 1]
  }

  /** An order-keeping grouping in which every group fits or is a single chunk. */
  ghost predicate Groups(size: Size, groups: seq<seq<Table>>, chunks: seq<Table>) {
    && Join(groups) == chunks
    && forall i | 0 <= i < |groups| :: groups[i] != [] && (|groups[i]| == 1 || Fits(size, groups[i]))
  }

  ghost predicate Closed(size: Size, group: seq<Table>, next: seq<Table>) {
    next != [] && !Fits(size, group + [next[0]])
  }

  /** No group could also hold the first chunk of the next one. */
  ghost predicate Greedy(size: Size, groups: seq<seq<Table>>) {
    forall i, j | 0 <= i < j < |groups| && j == i + 1 :: Closed(size, groups[i], groups[j])
  }

  function Start(groups: seq<seq<Table>>, k: nat): nat
    requires k <= |groups|
  {
    |Join(groups[..k])|
  }

  lemma {:induction false} GroupIsSlice(groups: seq<seq<Table>>, k: nat)
    requires k < |groups|
    ensures Start(groups, k + 1) == Start(groups, k) + |groups[k]| <= |Join(groups)|
    ensures Join(groups)[Start(groups, k)..Start(groups, k + 1)] == groups[k]
    decreases |groups|
  {
    var n := |groups| - 1;
    assert groups[..k + 1][..k] == groups[..k];
    if k < n {
      GroupIsSlice(groups[..n], k);
      assert groups[..n][..k] == groups[..k] && groups[..n][..k + 1] == groups[..k + 1];
    } else {
      assert groups[..k + 1] == groups;
    }
  }

  /** A group of another grouping cannot start no later and end beyond the chunk that closed a greedy one. */
  lemma CannotOvertake(size: Size, group: seq<Table>, next: Table, other: seq<Table>, chunks: seq<Table>, o: nat, g: nat, o': nat)
    requires Monotone(size) && !Fits(size, group + [next]) && group != []
    requires o <= g && g + |group| < o' <= |chunks|
    requires chunks[g..g + |group| + 1] == group + [next] && chunks[o..o'] == other
    ensures |other| > 1 && !Fits(size, other)
  {
    var (before, after) := (chunks[o..g], chunks[g + |group| + 1..o']);
    assert other == before + (group + [next]) + after;
    assert size(group + [next]) <= size(before + (group + [next]) + after);
  }

  /** The first k greedy groups reach at least as far as the first k groups of any other grouping. */
  lemma {:induction false} GreedyStaysAhead(size: Size, greedy: seq<seq<Table>>, other: seq<seq<Table>>, chunks: seq<Table>, k: nat)
    requires Monotone(size) && Groups(size, greedy, chunks) && Greedy(size, greedy) && Groups(size, other, chunks)
    requires k <= |greedy| && k <= |other|
    ensures Start(other, k) <= Start(greedy, k)
    decreases k
  {
    hide Monotone, Fits;
    if k > 0 {
      GreedyStaysAhead(size, greedy, other, chunks, k - 1);
      GroupIsSlice(greedy, k - 1);
      GroupIsSlice(other, k - 1);
      if k == |greedy| {
        assert greedy[..k] == greedy;
      } else if Start(greedy, k) < Start(other, k) {
        GroupIsSlice(greedy, k);
        var (g, g') := (Start(greedy, k - 1), Start(greedy, k));
        assert Closed(size, greedy[k - 1], greedy[k]);
        assert chunks[g'] == greedy[k][0];
        assert chunks[g..g' + 1] == chunks[g..g'] + [chunks[g']];
        CannotOvertake(size, greedy[k - 1], greedy[k][0], other[k - 1], chunks, Start(other, k - 1), g, Start(other, k));
      }
    }
  }

  /** Greedy packing uses the fewest messages. */
  lemma GreedyIsFewest(size: Size, greedy: seq<seq<Table>>, other: seq<seq<Table>>, chunks: seq<Table>)
    requires Monotone(size) && Groups(size, greedy, chunks) && Greedy(size, greedy) && Groups(size, other, chunks)
    ensures |greedy| <= |other|
  {
    if |greedy| > |other| {
      GreedyStaysAhead(size, greedy, other, chunks, |other|);
      assert other[..|other|] == other;
      GroupIsSlice(greedy, |other|);
    }
  }

  // ---------------------------------------------------------------------------
  // The split
  // ---------------------------------------------------------------------------

  function TablesOf(messages: seq<Notice>): seq<seq<Table>> {
    seq(|messages|, i requires 0 <= i < |messages| => messages[i].tables)
  }

  lemma JoinLast(groups: seq<seq<Table>>, last: seq<Table>)
    ensures Join(groups + [last]) == Join(groups) + last
  {
    assert (groups + [last])[..|groups|] == groups;
  }

  lemma GreedyLast(size: Size, groups: seq<seq<Table>>, last: seq<Table>, longer: seq<Table>)
    requires Greedy(size, groups + [last]) && last != [] && last <= longer
    ensures Greedy(size, groups + [longer])
  {
    var (a, b) := (groups + [last], groups + [longer]);
    forall i, j | 0 <= i < j < |b| && j == i + 1
      ensures Closed(size, b[i], b[j])
    {
      assert Closed(size, a[i], a[j]);
      assert b[i] == a[i] && b[j][0] == a[j][0];
    }
  }

  lemma GreedyNext(size: Size, groups: seq<seq<Table>>, last: seq<Table>, next: Table)
    requires Greedy(size, groups + [last]) && !Fits(size, last + [next])
    ensures Greedy(size, groups + [last] + [[next]])
  {
    var (a, b) := (groups + [last], groups + [last] + [[next]]);
    forall i, j | 0 <= i < j < |b| && j == i + 1
      ensures Closed(size, b[i], b[j])
    {
      if j < |a| {
        assert Closed(size, a[i], a[j]);
      }
    }
  }

  method PackChunks(size: Size, chunks: seq<Table>) returns (groups: seq<seq<Table>>)
    ensures Groups(size, groups, chunks) && Greedy(size, groups)
  {
    hide Fits, Join, Greedy;
    groups := [];
    var current: seq<Table> := [];
    EmptyJoin();
    OneGroup(size, []);
    for k := 0 to |chunks|
      invariant current == [] <==> k == 0
      invariant k == 0 ==> groups == []
      invariant Join(groups) + current == chunks[..k]
      invariant forall i | 0 <= i < |groups| :: groups[i] != [] && (|groups[i]| == 1 || Fits(size, groups[i]))
      invariant |current| <= 1 || Fits(size, current)
      invariant Greedy(size, groups + [current])
    {
      ghost var before := Join(groups) + current;
      if current != [] && !Fits(size, current + [chunks[k]]) {
        JoinLast(groups, current);
        GreedyNext(size, groups, current, chunks[k]);
        groups := groups + [current];
        current := [];
      } else if current != [] {
        GreedyLast(size, groups, current, current + [chunks[k]]);
      } else {
        OneGroup(size, [chunks[k]]);
      }
      assert Join(groups) + (current + [chunks[k]]) == before + [chunks[k]];
      assert current == [] ==> current + [chunks[k]] == [chunks[k]];
      current := current + [chunks[k]];
    }
    assert chunks[..|chunks|] == chunks;
    if current != [] {
      JoinLast(groups, current);
      groups := groups + [current];
    }
  }

  lemma EmptyJoin()
    ensures Join([]) == []
  {
  }

  lemma OneGroup(size: Size, group: seq<Table>)
    ensures Greedy(size, [] + [group]) && Greedy(size, [])
  {
  }

  lemma NumberedAre(title: Option<string>, n: nat)
    ensures forall i: nat ::
      Numbered(title, "Notification", i, n)
        == (if title.Some? then title.value else "Notification") + " (" + Numeral(i + 1) + "/" + Numeral(n) + ")"
  {
    hide Numeral;
  }

  lemma GroupsFit(size: Size, groups: seq<seq<Table>>)
    requires forall i | 0 <= i < |groups| :: |groups[i]| <= 1 || Fits(size, groups[i])
    ensures forall i | 0 <= i < |groups| :: |groups[i]| <= 1 || size(groups[i]) <= 28_000
  {
  }

  /**
   * Rows are neither lost nor reordered, every message fits or holds one table, no other order-keeping
   * grouping of the chunks needs fewer messages, and several messages are numbered, the first with the head.
   */
  method SplitNoticeTables(size: Size, base: Notice) returns (messages: seq<Notice>)
    ensures base.tables == [] ==> messages == [base]
    ensures base.tables != [] ==> Groups(size, TablesOf(messages), AllChunks(base.tables))
    ensures Monotone(size) && base.tables != [] ==>
      forall other | Groups(size, other, AllChunks(base.tables)) :: |messages| <= |other|
    ensures |messages| == 1 ==> messages[0].title == base.title && messages[0].head == base.head
    ensures forall m | m in messages :: |m.tables| <= 1 || size(m.tables) <= 28_000
    ensures |messages| > 1 ==> forall i | 0 <= i < |messages| ::
      && messages[i].title == Some((if base.title.Some? then base.title.value else "Notification")
                                   + " (" + Numeral(i + 1) + "/" + Numeral(|messages|) + ")")
      && messages[i].head == if i == 0 then base.head else None
  {
    hide Numbered, Fits, Greedy, Monotone, Numeral;
    var chunks := CollectChunks(base.tables);
    var groups := PackChunks(size, chunks);
    SomeChunks(base.tables);
    if groups == [] {
      groups := [base.tables];
    }
    var total := |groups|;
    if total == 1 {
      messages := [base.(tables := groups[0])];
    } else {
      messages := seq(total, i requires 0 <= i < total =>
        Notice(Some(Numbered(base.title, "Notification", i, total)), if i == 0 then base.head else None, groups[i]));
      NumberedAre(base.title, total);
    }
    assert TablesOf(messages) == groups;
    GroupsFit(size, groups);
    if Monotone(size) && base.tables != [] {
      forall other | Groups(size, other, chunks)
        ensures total <= |other|
      {
        GreedyIsFewest(size, groups, other, chunks);
      }
    }
  }

  lemma {:induction false} SomeChunks(tables: seq<Table>)
    ensures AllChunks(tables) == [] <==> tables == []
  {
  }

  method SplitTable(table: Table) returns (chunks: seq<Table>)
    ensures chunks == ChunksOf(table)
  {
    if |table.rows| <= TABLE_MAX_ROWS {
      return [table];
    }
    chunks := [];
    for i := 0 to Parts(table)
      invariant |chunks| == i && forall j | 0 <= j < i :: chunks[j] == Part(table, j)
    {
      chunks := chunks + [Part(table, i)];
    }
  }

  method CollectChunks(tables: seq<Table>) returns (chunks: seq<Table>)
    ensures chunks == AllChunks(tables)
  {
    chunks := [];
    for k := 0 to |tables|
      invariant chunks == AllChunks(tables[..k])
    {
      assert tables[..k + 1][..k] == tables[..k];
      var pieces := SplitTable(tables[k]);
      chunks := chunks + pieces;
    }
    assert tables[..|tables|] == tables;
  }
}
