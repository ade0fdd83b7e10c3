/** At-least-once delivery: whatever crashes, fails or expires, no entry disappears without a reason. */
module NoticeDigestDelivery {
  import opened NoticeDigest

  ghost predicate Settled(log: Log, id: nat) {
    id in log.delivered || id in log.dropped || id in log.trimmed || id in log.expired
  }

  ghost predicate Stored(s: State, id: nat) {
    exists k :: k in s.lists && id in Ids(s.lists[k])
  }

  ghost predicate Retried(s: State, id: nat) {
    exists k :: k in s.lists && id in RetriedIds(s.lists[k])
  }

  // ---------------------------------------------------------------------------
  // Work lists are made once
  // ---------------------------------------------------------------------------

  ghost predicate WorkListsMadeOnce(s: State) {
    && s.runs.Keys <= s.stamps
    && (forall k | k in s.log.made :: k.Work? && k.stamp in s.stamps)
    && (forall k | k in s.lists && k.Work? :: k in s.log.made)
    && (forall now | now in s.runs :: RunNames(s.log.made, now, s.runs[now]))
  }

  ghost predicate RunNames(made: set<Key>, now: int, run: Run) {
    && (forall k | k in run.todo && k.Work? :: k in made)
    && (run.phase.Chosen? ==> run.phase.key !in run.todo && (run.phase.key.Work? ==> run.phase.key in made))
    && (run.phase.Locked? ==> Base(run.phase.list) !in run.todo)
    && ((run.phase.Owning? || run.phase.Loaded? || run.phase.Refused? || run.phase.Spent?) ==> run.phase.work in made)
    && (forall list | Work(list, now) in made :: MayNotRename(run, list))
  }

  ghost predicate MayNotRename(run: Run, list: string) {
    && !run.phase.Scanning?
    && Base(list) !in run.todo
    && run.phase != Chosen(Base(list))
    && run.phase != Locked(list)
  }

  lemma RunNamesRename(s: State, now: int, other: int)
    requires WorkListsMadeOnce(s) && Enabled(s, Rename(now)) && other in s.runs
    ensures RunNames(Next(s, Rename(now)).log.made, other, Next(s, Rename(now)).runs[other])
  {
    assert RunNames(s.log.made, other, s.runs[other]);
  }

  lemma RunNamesChoose(s: State, now: int, key: Key, due: bool)
    requires WorkListsMadeOnce(s) && Enabled(s, Choose(now, key, due))
    ensures RunNames(s.log.made, now, Next(s, Choose(now, key, due)).runs[now])
  {
    assert RunNames(s.log.made, now, s.runs[now]);
  }

  /** The run that acts; RENAME and the choice of a key are dealt with above. */
  lemma RunNamesActor(s: State, a: Action, now: int)
    requires WorkListsMadeOnce(s) && Enabled(s, a) && !a.Rename? && !a.Choose?
    requires now in s.runs && now in Next(s, a).runs
    ensures RunNames(s.log.made, now, Next(s, a).runs[now])
  {
    assert RunNames(s.log.made, now, s.runs[now]);
    assert !a.Scan? ==> Next(s, a).runs[now].todo == s.runs[now].todo;
  }

  lemma RunNamesStep(s: State, a: Action, now: int)
    requires WorkListsMadeOnce(s) && Enabled(s, a) && now in Next(s, a).runs
    ensures RunNames(Next(s, a).log.made, now, Next(s, a).runs[now])
  {
    if a.Rename? {
      RunNamesRename(s, a.now, now);
    } else {
      assert Next(s, a).log.made == s.log.made;
      if a.Begin? && a.now == now {
        assert forall list :: Work(list, now) !in s.log.made;
      } else if a.Choose? && a.now == now {
        RunNamesChoose(s, now, a.key, a.due);
      } else if a.Choose? {
        assert RunNames(s.log.made, now, s.runs[now]);
      } else {
        hide RunNames;
        RunNamesActor(s, a, now);
      }
    }
  }

  lemma MadeListsStep(s: State, a: Action)
    requires WorkListsMadeOnce(s) && Enabled(s, a)
    ensures forall k: Key | k in Next(s, a).lists && k.Work? :: k in Next(s, a).log.made
    ensures forall k | k in Next(s, a).log.made :: k.Work? && k.stamp in Next(s, a).stamps
    ensures Next(s, a).runs.Keys <= Next(s, a).stamps
  {
    hide RunNames, Trim, Cut, Kept, Parse;
    assert s.stamps <= Next(s, a).stamps;
  }

  lemma MadeOnceStep(s: State, a: Action)
    requires WorkListsMadeOnce(s) && Enabled(s, a)
    ensures WorkListsMadeOnce(Next(s, a))
  {
    MadeListsStep(s, a);
    forall now | now in Next(s, a).runs
      ensures RunNames(Next(s, a).log.made, now, Next(s, a).runs[now])
    {
      RunNamesStep(s, a, now);
    }
    hide RunNames, Next;
  }

  // ---------------------------------------------------------------------------
  // Retry counts are backed by failed posts
  // ---------------------------------------------------------------------------

  ghost predicate Backed(log: Log, e: Entry, pending: nat) {
    e.wellFormed ==> e.id in log.pushed && e.retry + pending <= log.pushed[e.id] + log.failed[e.id]
  }

  ghost predicate RunBacked(log: Log, run: Run) {
    && (run.phase.Loaded? ==> forall e | e in run.phase.batch :: Backed(log, e, 0))
    && (run.phase.Refused? ==> forall e | e in run.phase.batch :: Backed(log, e, 1))
  }

  ghost predicate ListBacked(log: Log, es: seq<Entry>) {
    forall e | e in es :: Backed(log, e, 0)
  }

  ghost predicate RetriesBacked(s: State) {
    && (forall k | k in s.lists :: ListBacked(s.log, s.lists[k]))
    && (forall now | now in s.runs :: RunBacked(s.log, s.runs[now]))
    && (forall id | id in s.log.dropped :: id in s.log.pushed && s.log.pushed[id] + s.log.failed[id] >= MAX_REQUEUES + 1)
  }

  lemma {:induction false} ParseIsFilter(raw: seq<Entry>)
    ensures forall e :: e in Parse(raw) <==> e in raw && e.wellFormed
  {
    if raw != [] {
      ParseIsFilter(raw[1..]);
    }
  }

  lemma {:induction false} KeptIsRetried(batch: seq<Entry>)
    ensures forall e :: e in Kept(batch) <==>
      e.retry > 0 && e.(retry := e.retry - 1) in batch && e.retry - 1 < MAX_REQUEUES
  {
    if batch != [] {
      KeptIsRetried(batch[1..]);
    }
  }

  lemma {:induction false} ParseJoin(a: seq<Entry>, b: seq<Entry>)
    ensures Parse(a + b) == Parse(a) + Parse(b)
  {
    if a == [] {
      assert a + b == b;
    } else {
      ParseJoin(a[1..], b);
      var head := if a[0].wellFormed then [a[0]] else [];
      assert (a + b)[1..] == a[1..] + b && (a + b)[0] == a[0];
      assert Parse(a + b) == head + Parse(a[1..] + b);
      assert Parse(a) == head + Parse(a[1..]);
    }
  }

  function Again(e: Entry): seq<Entry> {
    if e.retry == 0 then [e.(retry := 1)] else []
  }

  lemma KeptUnfolds(batch: seq<Entry>)
    ensures Kept(batch) == if batch == [] then [] else Again(batch[0]) + Kept(batch[1..])
  {
  }

  lemma {:induction false} KeptJoin(a: seq<Entry>, b: seq<Entry>)
    ensures Kept(a + b) == Kept(a) + Kept(b)
  {
    hide Kept, Again;
    KeptUnfolds(a);
    if a == [] {
      assert a + b == b;
    } else {
      KeptJoin(a[1..], b);
      KeptUnfolds(a + b);
      assert (a + b)[1..] == a[1..] + b;
    }
  }

  lemma AloneIs(e: Entry)
    ensures Parse([]) == [] && Parse([e]) == if e.wellFormed then [e] else []
    ensures Kept([]) == [] && Kept([e]) == if e.retry == 0 then [e.(retry := 1)] else []
  {
    assert [e][1..] == [];
  }

  /** Each entry counts on its own and in its place: the unreadable ones are left out. */
  lemma ParseEach(a: seq<Entry>, e: Entry, b: seq<Entry>)
    ensures Parse([]) == []
    ensures Parse(a + [e] + b) == Parse(a) + (if e.wellFormed then [e] else []) + Parse(b)
  {
    AloneIs(e);
    hide Parse;
    ParseJoin(a + [e], b);
    ParseJoin(a, [e]);
  }

  /** Each entry counts on its own and in its place: those requeued before are dropped, the others marked once more. */
  lemma KeptEach(a: seq<Entry>, e: Entry, b: seq<Entry>)
    ensures Kept([]) == []
    ensures Kept(a + [e] + b) == Kept(a) + (if e.retry == 0 then [e.(retry := 1)] else []) + Kept(b)
  {
    AloneIs(e);
    hide Kept;
    KeptJoin(a + [e], b);
    KeptJoin(a, [e]);
  }

  lemma {:induction false} RetryOfEach(es: seq<Entry>)
    requires Distinct(es)
    ensures RetryOf(es).Keys == set e | e in es :: e.id
    ensures forall e | e in es :: RetryOf(es)[e.id] == e.retry
  {
    if es != [] {
      RetryOfEach(es[1..]);
      assert es == [es[0]] + es[1..];
    }
  }

  ghost predicate LogGrows(log: Log, log': Log) {
    && (forall id | id in log.pushed :: id in log'.pushed && log'.pushed[id] == log.pushed[id])
    && log.failed <= log'.failed
  }

  lemma BackedGrows(log: Log, log': Log, es: seq<Entry>)
    requires ListBacked(log, es) && LogGrows(log, log')
    ensures ListBacked(log', es)
  {
    forall e | e in es
      ensures Backed(log', e, 0)
    {
      assert Backed(log, e, 0);
    }
  }

  lemma AppendBacked(s: State, list: string, es: seq<Entry>, log': Log)
    requires forall k | k in s.lists :: ListBacked(s.log, s.lists[k])
    requires ListBacked(log', es) && LogGrows(s.log, log')
    ensures forall k | k in s.lists :: ListBacked(log', s.lists[k])
    ensures forall k | k in Append(s, list, es).lists :: ListBacked(log', Append(s, list, es).lists[k])
  {
    forall k | k in s.lists
      ensures ListBacked(log', s.lists[k])
    {
      BackedGrows(s.log, log', s.lists[k]);
    }
    var all := At(s, Base(list)) + es;
    assert ListBacked(log', all);
    assert forall e | e in Trim(all) :: e in all;
  }

  lemma PushedLog(s: State, list: string, es: seq<Entry>)
    requires Enabled(s, Push(list, es))
    ensures var log' := Next(s, Push(list, es)).log; LogGrows(s.log, log') && ListBacked(log', es)
    ensures Next(s, Push(list, es)).log.pushed.Keys == s.log.pushed.Keys + Ids(es)
  {
    ParseIsFilter(es);
    RetryOfEach(Parse(es));
    assert RetryOf(Parse(es)).Keys == Ids(es);
  }

  lemma LogOnlyGrows(s: State, a: Action)
    requires Enabled(s, a)
    ensures LogGrows(s.log, Next(s, a).log)
  {
    hide Trim, Cut, Kept, Parse;
    if a.Push? {
      PushedLog(s, a.list, a.entries);
    }
  }

  lemma ActorBacked(s: State, a: Action)
    requires RetriesBacked(s) && Enabled(s, a) && (a.Read? || a.Post?)
    ensures RunBacked(Next(s, a).log, Next(s, a).runs[a.now])
  {
    assert RunBacked(s.log, s.runs[a.now]);
    if a.Read? {
      ParseIsFilter(At(s, s.runs[a.now].phase.work));
    }
  }

  lemma SamePhaseBacked(log: Log, log': Log, run: Run, run': Run)
    requires RunBacked(log, run) && LogGrows(log, log') && run'.phase == run.phase
    ensures RunBacked(log', run')
  {
  }

  lemma NoBatchBacked(s: State, a: Action, now: int)
    requires Enabled(s, a) && now in Next(s, a).runs && !a.Read? && !a.Post?
    requires now in s.runs ==> Next(s, a).runs[now].phase != s.runs[now].phase
    ensures RunBacked(Next(s, a).log, Next(s, a).runs[now])
  {
    hide Kept, Parse, Trim, Cut, Ids, RetriedIds;
  }

  lemma RunBackedStep(s: State, a: Action, now: int)
    requires RetriesBacked(s) && Enabled(s, a) && now in Next(s, a).runs
    ensures RunBacked(Next(s, a).log, Next(s, a).runs[now])
  {
    hide RunBacked, LogGrows, Kept, Parse, Trim, Cut, Ids, RetriedIds;
    if now in s.runs && Next(s, a).runs[now].phase == s.runs[now].phase {
      hide Next, Enabled;
      LogOnlyGrows(s, a);
      SamePhaseBacked(s.log, Next(s, a).log, s.runs[now], Next(s, a).runs[now]);
    } else if a.Read? || a.Post? {
      ActorBacked(s, a);
    } else {
      hide Next, Enabled;
      NoBatchBacked(s, a, now);
    }
  }

  lemma RetriesBackedStep(s: State, a: Action)
    requires RetriesBacked(s) && Enabled(s, a)
    ensures RetriesBacked(Next(s, a))
  {
    var s' := Next(s, a);
    ListsBackedStep(s, a);
    forall now | now in s'.runs
      ensures RunBacked(s'.log, s'.runs[now])
    {
      RunBackedStep(s, a, now);
    }
    if a.Push? {
      PushedLog(s, a.list, a.entries);
    } else if a.Requeue? {
      assert RunBacked(s.log, s.runs[a.now]);
    }
    hide RunBacked, ListBacked, Trim, Cut, Kept, Parse;
  }

  lemma ListsBackedStep(s: State, a: Action)
    requires RetriesBacked(s) && Enabled(s, a)
    ensures forall k | k in Next(s, a).lists :: ListBacked(Next(s, a).log, Next(s, a).lists[k])
  {
    var s' := Next(s, a);
    if a.Push? {
      PushedLog(s, a.list, a.entries);
      AppendBacked(s, a.list, a.entries, s'.log);
    } else if a.Requeue? {
      var batch := s.runs[a.now].phase.batch;
      KeptIsRetried(batch);
      assert RunBacked(s.log, s.runs[a.now]);
      assert ListBacked(s'.log, Kept(batch));
      var list := s.runs[a.now].phase.work.list;
      AppendBacked(s, list, Kept(batch), s'.log);
      assert s'.lists == if Kept(batch) == [] then s.lists else Append(s, list, Kept(batch)).lists;
    } else {
      assert LogGrows(s.log, s'.log);
      forall k | k in s'.lists
        ensures ListBacked(s'.log, s'.lists[k])
      {
        if a.Rename? && k.Work? && k == Work(s.runs[a.now].phase.list, a.now) {
          BackedGrows(s.log, s'.log, At(s, Base(k.list)));
        } else {
          BackedGrows(s.log, s'.log, s.lists[k]);
        }
      }
    }
  }

  // ---------------------------------------------------------------------------
  // Nothing is lost
  // ---------------------------------------------------------------------------

  /** Once a work list is spent, each of its entries is settled or waits in a list as a retry. */
  ghost predicate Answered(s: State, e: Entry) {
    e.wellFormed ==> Settled(s.log, e.id) || (e.retry < MAX_REQUEUES && Retried(s, e.id))
  }

  ghost predicate RunKeeps(s: State, run: Run) {
    && ((run.phase.Loaded? || run.phase.Refused?) ==>
          run.phase.work in s.lists ==> Parse(s.lists[run.phase.work]) == run.phase.batch)
    && (run.phase.Spent? ==>
          run.phase.work in s.lists ==> forall e | e in s.lists[run.phase.work] :: Answered(s, e))
  }

  ghost predicate NothingLost(s: State) {
    && (forall now | now in s.runs :: RunKeeps(s, s.runs[now]))
    && (forall id | id in s.log.pushed :: Settled(s.log, id) || Stored(s, id))
  }

  /** Entries of `s` that are stored, or stored as retries, are so in `s'` or settled there. */
  ghost predicate Preserves(s: State, s': State) {
    && (forall id | Settled(s.log, id) :: Settled(s'.log, id))
    && (forall id | Stored(s, id) :: Stored(s', id) || Settled(s'.log, id))
    && (forall id | Retried(s, id) :: Retried(s', id) || Settled(s'.log, id))
  }

  lemma AppendPreserves(s: State, list: string, es: seq<Entry>)
    ensures Preserves(s, Append(s, list, es))
    ensures forall id | id in Ids(es) :: Stored(Append(s, list, es), id) || Settled(Append(s, list, es).log, id)
    ensures forall id | id in RetriedIds(es) :: Retried(Append(s, list, es), id) || Settled(Append(s, list, es).log, id)
    ensures forall k: Key | k.Work? && k in s.lists :: k in Append(s, list, es).lists && Append(s, list, es).lists[k] == s.lists[k]
  {
    var s' := Append(s, list, es);
    var all := At(s, Base(list)) + es;
    assert all == Cut(all) + Trim(all);
    assert s'.lists[Base(list)] == Trim(all);
    forall e | e in all && e.wellFormed
      ensures e in Trim(all) || Settled(s'.log, e.id)
    {
      assert e in Cut(all) ==> e.id in Ids(Cut(all));
    }
    assert forall k | k in s.lists && k != Base(list) :: s'.lists[k] == s.lists[k];
  }

  lemma DeletePreserves(s: State, now: int)
    requires NothingLost(s) && Enabled(s, Delete(now))
    ensures Preserves(s, Next(s, Delete(now)))
  {
    var s' := Next(s, Delete(now));
    var work := s.runs[now].phase.work;
    assert RunKeeps(s, s.runs[now]);
    forall id | Retried(s, id)
      ensures Retried(s', id) || Settled(s'.log, id)
    {
      var k :| k in s.lists && id in RetriedIds(s.lists[k]);
      assert k != work ==> k in s'.lists && s'.lists[k] == s.lists[k];
    }
    forall id | Stored(s, id)
      ensures Stored(s', id) || Settled(s'.log, id)
    {
      var k :| k in s.lists && id in Ids(s.lists[k]);
      if k != work {
        assert k in s'.lists && s'.lists[k] == s.lists[k];
      } else if Retried(s', id) {
        var k' :| k' in s'.lists && id in RetriedIds(s'.lists[k']);
        assert id in Ids(s'.lists[k']);
      }
    }
  }

  lemma RenamePreserves(s: State, now: int)
    requires WorkListsMadeOnce(s) && Enabled(s, Rename(now))
    ensures Preserves(s, Next(s, Rename(now)))
    ensures forall k: Key | k.Work? && k in s.lists :: k in Next(s, Rename(now)).lists && Next(s, Rename(now)).lists[k] == s.lists[k]
  {
    var s' := Next(s, Rename(now));
    var list := s.runs[now].phase.list;
    assert RunNames(s.log.made, now, s.runs[now]);
    assert Work(list, now) !in s.lists;
    forall k | k in s.lists
      ensures exists k' :: k' in s'.lists && s'.lists[k'] == s.lists[k]
    {
      if k == Base(list) {
        assert s'.lists[Work(list, now)] == s.lists[k];
      } else {
        assert k in s'.lists && s'.lists[k] == s.lists[k];
      }
    }
  }

  lemma SameListsPreserve(s: State, s': State)
    requires s'.lists == s.lists && LogSettles(s.log, s'.log)
    ensures Preserves(s, s')
  {
  }

  /** What is settled stays settled. */
  ghost predicate LogSettles(log: Log, log': Log) {
    && log.delivered <= log'.delivered && log.dropped <= log'.dropped
    && log.trimmed <= log'.trimmed && log.expired <= log'.expired
  }

  lemma OnlySettles(s: State, a: Action)
    requires Enabled(s, a)
    ensures LogSettles(s.log, Next(s, a).log)
  {
    hide Parse, Kept, Trim, Cut, Ids, RetriedIds;
  }

  /** The log only differs from that of an append by what it settles besides. */
  lemma AppendedPreserves(s: State, s': State, list: string, es: seq<Entry>)
    requires s'.lists == Append(s, list, es).lists && LogSettles(Append(s, list, es).log, s'.log)
    ensures Preserves(s, s')
  {
    AppendPreserves(s, list, es);
    hide Append, Trim, Cut;
  }

  lemma RequeuePreserves(s: State, now: int)
    requires Enabled(s, Requeue(now))
    ensures Preserves(s, Next(s, Requeue(now)))
  {
    var Refused(work, batch) := s.runs[now].phase;
    var s' := Next(s, Requeue(now));
    OnlySettles(s, Requeue(now));
    if Kept(batch) == [] {
      SameListsPreserve(s, s');
    } else {
      hide Trim, Cut, Ids, Kept, Preserves;
      AppendedPreserves(s, s', work.list, Kept(batch));
    }
  }

  lemma ExpiryPreserves(s: State, key: Key)
    requires Enabled(s, ExpireKey(key))
    ensures Preserves(s, Next(s, ExpireKey(key)))
  {
    var s' := Next(s, ExpireKey(key));
    assert forall k | k in s.lists && k != key :: k in s'.lists && s'.lists[k] == s.lists[k];
    assert RetriedIds(s.lists[key]) <= Ids(s.lists[key]);
  }

  lemma PreservesStep(s: State, a: Action)
    requires NothingLost(s) && WorkListsMadeOnce(s) && Enabled(s, a)
    ensures Preserves(s, Next(s, a))
  {
    hide Preserves, LogSettles, Parse, Kept, Trim, Cut, Ids, RetriedIds;
    OnlySettles(s, a);
    match a
    case Push(list, es) =>
      PushSettles(s, list, es);
      AppendedPreserves(s, Next(s, a), list, es);
    case Requeue(now) => RequeuePreserves(s, now);
    case Rename(now) => RenamePreserves(s, now);
    case Delete(now) => DeletePreserves(s, now);
    case ExpireKey(key) => ExpiryPreserves(s, key);
    case _ => SameListsPreserve(s, Next(s, a));
  }

  lemma PushSettles(s: State, list: string, es: seq<Entry>)
    requires Enabled(s, Push(list, es))
    ensures Next(s, Push(list, es)).lists == Append(s, list, es).lists
    ensures LogSettles(Append(s, list, es).log, Next(s, Push(list, es)).log)
  {
  }

  /** Work lists never change; they only appear by RENAME and disappear. */
  lemma WorkListsFixed(s: State, a: Action, k: Key)
    requires WorkListsMadeOnce(s) && Enabled(s, a)
    requires k.Work? && k in s.log.made && k in Next(s, a).lists
    ensures k in s.lists && Next(s, a).lists[k] == s.lists[k]
  {
    if a.Rename? {
      assert RunNames(s.log.made, a.now, s.runs[a.now]);
    }
  }

  lemma OtherRunKeeps(s: State, a: Action, now: int)
    requires NothingLost(s) && WorkListsMadeOnce(s) && Enabled(s, a)
    requires now in s.runs && now in Next(s, a).runs && Next(s, a).runs[now].phase == s.runs[now].phase
    ensures RunKeeps(Next(s, a), s.runs[now])
  {
    var s' := Next(s, a);
    var phase := s.runs[now].phase;
    assert RunKeeps(s, s.runs[now]) && RunNames(s.log.made, now, s.runs[now]);
    if phase.Loaded? || phase.Refused? || phase.Spent? {
      if phase.work in s'.lists {
        WorkListsFixed(s, a, phase.work);
        PreservesStep(s, a);
      }
    }
  }

  lemma ActorKeeps(s: State, a: Action)
    requires NothingLost(s) && WorkListsMadeOnce(s) && Enabled(s, a)
    requires a.Read? || a.Post?
    ensures RunKeeps(Next(s, a), Next(s, a).runs[a.now])
  {
    var s' := Next(s, a);
    var work := s.runs[a.now].phase.work;
    assert RunKeeps(s, s.runs[a.now]) && RunNames(s.log.made, a.now, s.runs[a.now]);
    if work in s'.lists {
      WorkListsFixed(s, a, work);
      ParseIsFilter(s.lists[work]);
    }
  }

  /** After the requeue the work list may go: its entries were dropped, or wait in the base list. */
  lemma RequeueKeeps(s: State, now: int)
    requires NothingLost(s) && WorkListsMadeOnce(s) && Enabled(s, Requeue(now))
    ensures RunKeeps(Next(s, Requeue(now)), Next(s, Requeue(now)).runs[now])
  {
    var s' := Next(s, Requeue(now));
    var Refused(work, batch) := s.runs[now].phase;
    assert RunKeeps(s, s.runs[now]) && RunNames(s.log.made, now, s.runs[now]);
    if work in s'.lists {
      WorkListsFixed(s, Requeue(now), work);
      ParseIsFilter(s.lists[work]);
      forall e | e in s.lists[work] && e.wellFormed
        ensures Answered(s', e)
      {
        RequeueAnswers(s, now, e);
      }
    }
  }

  lemma RequeueAnswers(s: State, now: int, e: Entry)
    requires Enabled(s, Requeue(now)) && e in s.runs[now].phase.batch && e.wellFormed
    ensures Answered(Next(s, Requeue(now)), e)
  {
    var Refused(work, batch) := s.runs[now].phase;
    if e.retry < MAX_REQUEUES {
      KeptIsRetried(batch);
      assert e.(retry := e.retry + 1) in Kept(batch);
      assert e.id in RetriedIds(Kept(batch));
      AppendPreserves(s, work.list, Kept(batch));
      assert Next(s, Requeue(now)).lists == Append(s, work.list, Kept(batch)).lists;
    } else {
      assert e.id in RetriedIds(batch);
    }
  }

  lemma RunKeepsStep(s: State, a: Action, now: int)
    requires NothingLost(s) && WorkListsMadeOnce(s) && Enabled(s, a) && now in Next(s, a).runs
    ensures RunKeeps(Next(s, a), Next(s, a).runs[now])
  {
    if now in s.runs && Next(s, a).runs[now].phase == s.runs[now].phase {
      OtherRunKeeps(s, a, now);
    } else if a.Read? || a.Post? {
      ActorKeeps(s, a);
    } else if a.Requeue? {
      RequeueKeeps(s, a.now);
    } else {
      hide Parse, Kept, Trim, Cut, Ids;
    }
  }

  /** A pushed entry is in its list at once, or cut off it. */
  lemma PushStores(s: State, list: string, es: seq<Entry>, id: nat)
    requires Enabled(s, Push(list, es)) && id in Ids(es)
    ensures var s' := Next(s, Push(list, es)); Settled(s'.log, id) || Stored(s', id)
  {
    AppendPreserves(s, list, es);
    assert Next(s, Push(list, es)).lists == Append(s, list, es).lists;
  }

  lemma NothingLostStep(s: State, a: Action)
    requires NothingLost(s) && WorkListsMadeOnce(s) && Enabled(s, a)
    ensures NothingLost(Next(s, a))
  {
    var s' := Next(s, a);
    PreservesStep(s, a);
    forall now | now in s'.runs
      ensures RunKeeps(s', s'.runs[now])
    {
      RunKeepsStep(s, a, now);
    }
    hide RunKeeps, Parse, Kept, Trim, Cut, Ids;
    forall id | id in s'.log.pushed
      ensures Settled(s'.log, id) || Stored(s', id)
    {
      if a.Push? {
        PushedLog(s, a.list, a.entries);
        if id in Ids(a.entries) {
          PushStores(s, a.list, a.entries, id);
        }
      }
    }
  }

  /** What an action appends to a producer's list, behind what is there. */
  function Appended(s: State, a: Action): seq<Entry>
    requires Enabled(s, a)
  {
    match a
    case Push(list, es) => At(s, Base(list)) + es
    case Requeue(now) =>
      var Refused(work, batch) := s.runs[now].phase;
      if Kept(batch) == [] then [] else At(s, Base(work.list)) + Kept(batch)
    case _ => []
  }

  /** The accounts are true: each only grows by what its name says, at the action it names. */
  lemma AccountsAreTrue(s: State, a: Action, id: nat)
    requires Enabled(s, a)
    ensures var (log, log') := (s.log, Next(s, a).log);
      var posted := a.Post? && exists e :: e in s.runs[a.now].phase.batch && e.wellFormed && e.id == id;
      && log'.delivered[id] == log.delivered[id] + (if posted && a.accepted then 1 else 0)
      && log'.failed[id] == log.failed[id] + (if posted && !a.accepted then 1 else 0)
      && (id in log'.pushed <==> id in log.pushed || (a.Push? && exists e :: e in a.entries && e.wellFormed && e.id == id))
      && (id in log'.expired <==>
            || id in log.expired
            || (a.ExpireKey? && exists e :: e in s.lists[a.key] && e.wellFormed && e.id == id))
  {
    hide Trim, Cut, Kept, Parse;
    if a.Push? {
      PushedLog(s, a.list, a.entries);
    }
  }

  lemma LossesAreTrue(s: State, a: Action, id: nat)
    requires Enabled(s, a)
    ensures var (log, log') := (s.log, Next(s, a).log);
      && (id in log'.dropped <==>
            || id in log.dropped
            || (a.Requeue? && exists e :: e in s.runs[a.now].phase.batch && e.wellFormed && e.id == id && e.retry >= 1))
      && (id in log'.trimmed <==>
            || id in log.trimmed
            || exists i :: 0 <= i < |Appended(s, a)| - 2000 && Appended(s, a)[i].wellFormed && Appended(s, a)[i].id == id)
  {
    var all := Appended(s, a);
    if a.Push? || (a.Requeue? && Kept(s.runs[a.now].phase.batch) != []) {
      CutIs(all, id);
    }
    hide Trim, Cut, Kept, Parse;
  }

  lemma CutIs(es: seq<Entry>, id: nat)
    ensures id in Ids(Cut(es)) <==> exists i :: 0 <= i < |es| - 2000 && es[i].wellFormed && es[i].id == id
  {
    if id in Ids(Cut(es)) {
      var e :| e in Cut(es) && e.wellFormed && e.id == id;
      var i :| 0 <= i < |Cut(es)| && Cut(es)[i] == e;
      assert es[i] == e;
    }
    if i :| 0 <= i < |es| - 2000 && es[i].wellFormed && es[i].id == id {
      assert Cut(es)[i] == es[i];
    }
  }

  ghost predicate DeliveryInv(s: State) {
    WorkListsMadeOnce(s) && RetriesBacked(s) && NothingLost(s)
  }

  lemma {:induction false} DeliveryInvAfter(s: State, actions: seq<Action>)
    requires DeliveryInv(s) && Possible(s, actions)
    ensures DeliveryInv(After(s, actions))
    decreases |actions|
  {
    if actions != [] {
      MadeOnceStep(s, actions[0]);
      RetriesBackedStep(s, actions[0]);
      NothingLostStep(s, actions[0]);
      DeliveryInvAfter(Next(s, actions[0]), actions[1..]);
    }
  }

  /**
   * In every state reachable from an empty store, however the actions of producers, flushers, crashes,
   * errors and expiries interleave, each well-formed entry ever pushed is still in a list, or was in an
   * accepted post, or was dropped after its failed posts used up its requeues, or fell to the list cap
   * or to a key expiry.
   */
  lemma AtLeastOnce(actions: seq<Action>, id: nat)
    requires Possible(EMPTY, actions)
    requires id in After(EMPTY, actions).log.pushed
    ensures var s := After(EMPTY, actions);
      || Stored(s, id)
      || id in s.log.delivered
      || (id in s.log.dropped && s.log.pushed[id] + s.log.failed[id] >= MAX_REQUEUES + 1)
      || id in s.log.trimmed
      || id in s.log.expired
  {
    DeliveryInvAfter(EMPTY, actions);
  }
}
