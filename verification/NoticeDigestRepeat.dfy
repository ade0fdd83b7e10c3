/** Which entries can still be posted: where a repeated post can come from, and when an entry is gone for good. */
module NoticeDigestRepeat {
  import opened NoticeDigest
  import opened NoticeDigestDelivery
  import opened NoticeDigestFlush
  import opened NoticeDigestOnce

  /** The run is about to post the entry, or is to put it back after a failed post. */
  ghost predicate Carries(run: Run, id: nat) {
    || (run.phase.Loaded? && id in Ids(run.phase.batch))
    || (run.phase.Refused? && id in Ids(Kept(run.phase.batch)))
  }

  ghost predicate Live(s: State, id: nat) {
    Stored(s, id) || exists now :: now in s.runs && Carries(s.runs[now], id)
  }

  // ---------------------------------------------------------------------------
  // Gone for good
  // ---------------------------------------------------------------------------

  lemma NotAppended(s: State, list: string, es: seq<Entry>, id: nat)
    requires !Stored(s, id) && id !in Ids(es)
    ensures !Stored(Append(s, list, es), id)
  {
    var s' := Append(s, list, es);
    var all := At(s, Base(list)) + es;
    assert Base(list) in s.lists ==> id !in Ids(s.lists[Base(list)]);
    assert forall e | e in all && e.wellFormed :: e.id != id;
    forall k | k in s'.lists
      ensures id !in Ids(s'.lists[k])
    {
      if k != Base(list) {
        assert k in s.lists;
      }
    }
  }

  lemma NotStoredAfter(s: State, a: Action, id: nat)
    requires id in s.log.pushed && !Live(s, id) && Enabled(s, a)
    ensures !Stored(Next(s, a), id)
  {
    var s' := Next(s, a);
    match a
    case Push(list, es) =>
      NotAppended(s, list, es, id);
      assert s'.lists == Append(s, list, es).lists;
    case Requeue(now) =>
      var Refused(work, batch) := s.runs[now].phase;
      assert !Carries(s.runs[now], id);
      NotAppended(s, work.list, Kept(batch), id);
      assert s'.lists == if Kept(batch) == [] then s.lists else Append(s, work.list, Kept(batch)).lists;
    case _ =>
      forall k | k in s'.lists
        ensures id !in Ids(s'.lists[k])
      {
        var k' := if k in s.lists && s.lists[k] == s'.lists[k] then k else Base(k.list);
        assert k' in s.lists && s.lists[k'] == s'.lists[k];
      }
  }

  lemma NotCarriedAfter(s: State, a: Action, id: nat, now: int)
    requires !Live(s, id) && Enabled(s, a) && now in Next(s, a).runs
    ensures !Carries(Next(s, a).runs[now], id)
  {
    assert now in s.runs ==> !Carries(s.runs[now], id);
    if a == Read(now) {
      var work := s.runs[now].phase.work;
      ParseIsFilter(At(s, work));
      assert work in s.lists ==> id !in Ids(s.lists[work]);
    } else if a.Post? && a.now == now {
      KeptIds(s.runs[now].phase.batch);
    } else {
      hide Kept, Ids;
      assert now in s.runs ==> Next(s, a).runs[now].phase == s.runs[now].phase || !Carries(Next(s, a).runs[now], id);
    }
  }

  lemma GoneStep(s: State, a: Action, id: nat)
    requires id in s.log.pushed && !Live(s, id) && Enabled(s, a)
    ensures var s' := Next(s, a);
      id in s'.log.pushed && !Live(s', id) && s'.log.delivered[id] == s.log.delivered[id]
  {
    NotStoredAfter(s, a, id);
    forall now | now in Next(s, a).runs
      ensures !Carries(Next(s, a).runs[now], id)
    {
      NotCarriedAfter(s, a, id, now);
    }
    if a.Push? {
      PushedLog(s, a.list, a.entries);
    } else if a.Post? {
      assert !Carries(s.runs[a.now], id);
    }
  }

  lemma {:induction false} GoneForGood(s: State, actions: seq<Action>, id: nat)
    requires id in s.log.pushed && !Live(s, id) && Possible(s, actions)
    ensures After(s, actions).log.delivered[id] == s.log.delivered[id]
    decreases |actions|
  {
    hide Enabled, Next, Live;
    if actions != [] {
      GoneStep(s, actions[0], id);
      GoneForGood(Next(s, actions[0]), actions[1..], id);
    }
  }

  // ---------------------------------------------------------------------------
  // No list outgrows the cap
  // ---------------------------------------------------------------------------

  ghost predicate Capped(s: State) {
    && (forall k | k in s.lists :: |s.lists[k]| <= LIST_CAP)
    && (forall now | now in s.runs && (s.runs[now].phase.Loaded? || s.runs[now].phase.Refused?) ::
          |s.runs[now].phase.batch| <= LIST_CAP)
  }

  lemma {:induction false} ParseShrinks(raw: seq<Entry>)
    ensures |Parse(raw)| <= |raw|
  {
    if raw != [] {
      ParseShrinks(raw[1..]);
    }
  }

  lemma {:induction false} KeptShrinks(batch: seq<Entry>)
    ensures |Kept(batch)| <= |batch|
  {
    if batch != [] {
      KeptShrinks(batch[1..]);
    }
  }

  lemma CappedStep(s: State, a: Action)
    requires Capped(s) && Enabled(s, a)
    ensures Capped(Next(s, a))
  {
    if a.Read? {
      ParseShrinks(At(s, s.runs[a.now].phase.work));
    }
  }

  lemma {:induction false} CappedAfter(s: State, actions: seq<Action>)
    requires Capped(s) && Possible(s, actions)
    ensures Capped(After(s, actions))
    decreases |actions|
  {
    hide Enabled, Next, Capped;
    if actions != [] {
      CappedStep(s, actions[0]);
      CappedAfter(Next(s, actions[0]), actions[1..]);
    }
  }

  // ---------------------------------------------------------------------------
  // Live entries can be posted
  // ---------------------------------------------------------------------------

  lemma IdsTwice(es: seq<Entry>, id: nat)
    requires id in Ids(es)
    ensures multiset(Ids(es))[id] == 1
  {
  }

  lemma ParsedIds(es: seq<Entry>, id: nat)
    requires id in Ids(es)
    ensures id in Ids(Parse(es)) && Parse(es) != [] && es != []
  {
    ParseIsFilter(es);
    var e :| e in es && e.wellFormed && e.id == id;
    assert e in Parse(es);
  }

  lemma PostFrom(s: State, key: Key, id: nat) returns (more: seq<Action>)
    requires key in s.lists && id in Ids(s.lists[key])
    ensures Possible(s, more) && After(s, more).log.delivered[id] == s.log.delivered[id] + 1
    ensures forall a | a in more :: !a.Crash? && !a.Fail? && !a.ExpireKey? && (a.ExpireLock? ==> key.list in s.locks)
    ensures After(s, more).locks == s.locks - {key.list}
    ensures key.Work? ==> After(s, more).lists == s.lists - {key}
    ensures forall now | now in s.runs && now in s.stamps :: now in After(s, more).runs && After(s, more).runs[now] == s.runs[now]
  {
    hide Possible, After, Ids;
    var free := StartFree(s, key.list);
    var t := After(s, free);
    ParsedIds(s.lists[key], id);
    var now := FreshStamp(t.stamps, if key.Work? then key.stamp + LOCK_TTL_MS else s.lists[key][0].at + MAX_AGE_MS);
    DueInTheEnd(s.lists[key], now, now);
    var drain := FlushIsARun(t, key, now, true);
    PossibleJoin(s, free, drain);
    IdsTwice(s.lists[key], id);
    more := free + drain;
  }

  lemma PostStored(s: State, id: nat) returns (more: seq<Action>)
    requires Stored(s, id)
    ensures Possible(s, more) && After(s, more).log.delivered[id] == s.log.delivered[id] + 1
  {
    var key :| key in s.lists && id in Ids(s.lists[key]);
    more := PostFrom(s, key, id);
  }

  lemma TrimKeepsNewest(es: seq<Entry>, newest: seq<Entry>)
    requires |newest| <= LIST_CAP
    ensures Ids(newest) <= Ids(Trim(es + newest))
  {
    var all := es + newest;
    assert |all| > LIST_CAP ==> Trim(all)[|Trim(all)| - |newest|..] == newest;
    assert forall e | e in newest :: e in Trim(all);
  }

  lemma RequeueStores(s: State, now: int, id: nat)
    requires Capped(s) && Enabled(s, Requeue(now)) && id in Ids(Kept(s.runs[now].phase.batch))
    ensures Stored(Next(s, Requeue(now)), id)
    ensures var base := Base(s.runs[now].phase.work.list);
      base in Next(s, Requeue(now)).lists && id in Ids(Next(s, Requeue(now)).lists[base])
    ensures Next(s, Requeue(now)).log.delivered == s.log.delivered
  {
    var Refused(work, batch) := s.runs[now].phase;
    KeptShrinks(batch);
    TrimKeepsNewest(At(s, Base(work.list)), Kept(batch));
    hide Trim, Kept, Cut;
    assert Kept(batch) != [];
    var s' := Next(s, Requeue(now));
    assert s'.lists[Base(work.list)] == Trim(At(s, Base(work.list)) + Kept(batch));
  }

  lemma PostCarried(s: State, now: int, id: nat) returns (more: seq<Action>)
    requires Capped(s) && now in s.runs && Carries(s.runs[now], id)
    ensures Possible(s, more) && After(s, more).log.delivered[id] == s.log.delivered[id] + 1
  {
    if s.runs[now].phase.Loaded? {
      IdsTwice(s.runs[now].phase.batch, id);
      more := [NoticeDigest.Action.Post(now, true)];
      assert more[1..] == [];
    } else {
      RequeueStores(s, now, id);
      var then' := PostStored(Next(s, Requeue(now)), id);
      more := [Requeue(now)] + then';
      assert more[1..] == then';
    }
  }

  /**
   * In every reachable state, crashed flushers and expired locks included, an entry can still be accepted,
   * for the first time or again, exactly when it is in a list, in a batch about to be posted, or in a
   * refused batch with a requeue left.
   */
  lemma AcceptedAgainIffLive(actions: seq<Action>, id: nat)
    requires Possible(EMPTY, actions) && id in After(EMPTY, actions).log.pushed
    ensures var s := After(EMPTY, actions);
      Live(s, id) <==> exists more | Possible(s, more) :: After(s, more).log.delivered[id] > s.log.delivered[id]
  {
    hide Possible, After;
    var s := After(EMPTY, actions);
    CappedAfter(EMPTY, actions);
    if Stored(s, id) {
      var more := PostStored(s, id);
    } else if now :| now in s.runs && Carries(s.runs[now], id) {
      var more := PostCarried(s, now, id);
    } else {
      forall more | Possible(s, more)
        ensures After(s, more).log.delivered[id] == s.log.delivered[id]
      {
        GoneForGood(s, more, id);
      }
    }
  }

  // ---------------------------------------------------------------------------
  // What stopping or expiring in the wrong place repeats
  // ---------------------------------------------------------------------------

  /** The run is about to post the entry, which its work list still holds, behind its own lock. */
  ghost predicate AboutToPost(s: State, now: int, id: nat) {
    && s.runs.Keys <= s.stamps
    && now in s.runs && s.runs[now].phase.Loaded? && id in Ids(s.runs[now].phase.batch)
    && s.runs[now].phase.work in s.lists && id in Ids(s.lists[s.runs[now].phase.work])
    && s.runs[now].phase.work.list in s.locks && s.locks[s.runs[now].phase.work.list] == now
  }

  /** A flusher that dies between its post and the deletion lets each entry of the batch be accepted twice. */
  lemma CrashRepeats(s: State, now: int, id: nat) returns (actions: seq<Action>)
    requires AboutToPost(s, now, id)
    ensures Possible(s, actions) && |actions| >= 2 && actions[..2] == [NoticeDigest.Action.Post(now, true), Crash(now)]
    ensures After(s, actions).log.delivered[id] == s.log.delivered[id] + 2
  {
    hide Possible, After;
    IdsTwice(s.runs[now].phase.batch, id);
    StartsPossible(s);
    var died := Extend(s, [], NoticeDigest.Action.Post(now, true));
    died := Extend(s, died, Crash(now));
    var more := PostFrom(After(s, died), s.runs[now].phase.work, id);
    PossibleJoin(s, died, more);
    actions := died + more;
  }

  /** So does a deletion that throws, with nothing crashing and no lock expiring. */
  lemma FailureRepeats(s: State, now: int, id: nat) returns (actions: seq<Action>)
    requires AboutToPost(s, now, id)
    ensures Possible(s, actions) && |actions| >= 2 && actions[..2] == [NoticeDigest.Action.Post(now, true), Fail(now)]
    ensures forall a | a in actions :: !a.Crash? && !a.ExpireLock? && !a.ExpireKey?
    ensures After(s, actions).log.delivered[id] == s.log.delivered[id] + 2
  {
    hide Possible, After;
    IdsTwice(s.runs[now].phase.batch, id);
    StartsPossible(s);
    var failed := Extend(s, [], NoticeDigest.Action.Post(now, true));
    failed := Extend(s, failed, Fail(now));
    failed := Extend(s, failed, Unlock(now));
    var more := PostFrom(After(s, failed), s.runs[now].phase.work, id);
    PossibleJoin(s, failed, more);
    actions := failed + more;
  }

  lemma RequeueThenStop(s: State, now: int, id: nat) returns (actions: seq<Action>)
    requires AboutToPost(s, now, id) && Capped(s) && id in Ids(Kept(s.runs[now].phase.batch))
    requires s.runs[now].phase.work.Work?
    ensures Possible(s, actions)
    ensures actions == [] + [NoticeDigest.Action.Post(now, false)] + [Requeue(now)] + [Fail(now)] + [Unlock(now)]
    ensures var (t, work) := (After(s, actions), s.runs[now].phase.work);
      && work in t.lists && t.lists[work] == s.lists[work]
      && Base(work.list) in t.lists && id in Ids(t.lists[Base(work.list)])
      && t.locks == s.locks - {work.list} && t.log.delivered == s.log.delivered
  {
    hide Possible, After, Ids, Kept;
    StartsPossible(s);
    actions := Extend(s, [], NoticeDigest.Action.Post(now, false));
    RequeueStores(After(s, actions), now, id);
    RequeueKeepsWork(After(s, actions), now);
    actions := Extend(s, actions, Requeue(now));
    actions := Extend(s, actions, Fail(now));
    actions := Extend(s, actions, Unlock(now));
  }

  /**
   * And so does a requeue that is applied and then throws, the entry having a requeue left: it waits in the
   * base list and in the orphaned work list.
   */
  lemma AppliedRequeueRepeats(s: State, now: int, id: nat) returns (actions: seq<Action>)
    requires AboutToPost(s, now, id) && Capped(s) && id in Ids(Kept(s.runs[now].phase.batch))
    requires s.runs[now].phase.work.Work?
    ensures Possible(s, actions) && |actions| >= 3
    ensures actions[..3] == [NoticeDigest.Action.Post(now, false), Requeue(now), Fail(now)]
    ensures forall a | a in actions :: !a.Crash? && !a.ExpireLock? && !a.ExpireKey?
    ensures After(s, actions).log.delivered[id] == s.log.delivered[id] + 2
  {
    var work := s.runs[now].phase.work;
    var stopped := RequeueThenStop(s, now, id);
    hide Possible, After, Next, Enabled, Ids, Kept;
    var once := PostFrom(After(s, stopped), work, id);
    PossibleJoin(s, stopped, once);
    var twice := PostFrom(After(s, stopped + once), Base(work.list), id);
    PossibleJoin(s, stopped + once, twice);
    actions := stopped + once + twice;
  }

  lemma RequeueKeepsWork(s: State, now: int)
    requires Enabled(s, Requeue(now)) && s.runs[now].phase.work.Work? && s.runs[now].phase.work in s.lists
    ensures var work := s.runs[now].phase.work;
      work in Next(s, Requeue(now)).lists && Next(s, Requeue(now)).lists[work] == s.lists[work]
    ensures Next(s, Requeue(now)).locks == s.locks
    ensures Next(s, Requeue(now)).runs == s.runs[now := s.runs[now].(phase := Spent(s.runs[now].phase.work))]
  {
    hide Kept, Trim, Cut;
  }

  /** And so does a lock that expires under its owner, with nothing crashing or failing. */
  lemma ExpiryRepeats(s: State, now: int, id: nat) returns (actions: seq<Action>)
    requires AboutToPost(s, now, id)
    ensures Possible(s, actions) && forall a | a in actions :: !a.Crash? && !a.Fail? && !a.ExpireKey?
    ensures After(s, actions).log.delivered[id] == s.log.delivered[id] + 2
  {
    hide Possible, After;
    var work := s.runs[now].phase.work;
    IdsTwice(s.runs[now].phase.batch, id);
    StartsPossible(s);
    var expired := Extend(s, [], ExpireLock(work.list));
    var more := PostFrom(After(s, expired), work, id);
    PossibleJoin(s, expired, more);
    actions := Extend(s, expired + more, NoticeDigest.Action.Post(now, true));
  }

  /** A run that owns a list reads it, fails to post it, and stops before the requeue. */
  lemma FailsFrom(s: State, path: seq<Action>, work: Key, now: int, id: nat) returns (actions: seq<Action>)
    requires Possible(s, path) && now in After(s, path).runs && After(s, path).runs[now] == Run({}, Owning(work))
    requires id in Ids(Parse(At(After(s, path), work)))
    ensures Possible(s, actions) && actions == path + [Read(now)] + [NoticeDigest.Action.Post(now, false)] + [Fail(now)] + [Unlock(now)]
    ensures var (t, u) := (After(s, path), After(s, actions));
      u.lists == t.lists && u.locks == t.locks - {work.list} && u.log.failed[id] == t.log.failed[id] + 1
  {
    hide Possible, After, Parse;
    IdsTwice(Parse(At(After(s, path), work)), id);
    assert Parse(At(After(s, path), work)) != [];
    hide Ids;
    actions := Extend(s, path, Read(now));
    actions := Extend(s, actions, NoticeDigest.Action.Post(now, false));
    actions := Extend(s, actions, Fail(now));
    actions := Extend(s, actions, Unlock(now));
  }

  /** A fresh run takes an orphaned list, fails to post it, and stops before the requeue. */
  lemma FailsOnce(s: State, key: Key, id: nat) returns (actions: seq<Action>)
    requires key.Work? && key in s.lists && id in Ids(s.lists[key]) && key.list !in s.locks
    ensures Possible(s, actions) && forall a | a in actions :: !a.Crash? && !a.ExpireLock? && !a.ExpireKey?
    ensures var t := After(s, actions);
      t.lists == s.lists && t.locks == s.locks && t.log.failed[id] == s.log.failed[id] + 1
  {
    hide Possible, After, Next, Enabled, Parse, Ids;
    var now := FreshStamp(s.stamps, key.stamp + LOCK_TTL_MS);
    var path, work := PathToOwning(s, key, now);
    ParsedIds(s.lists[key], id);
    actions := FailsFrom(s, path, work, now, id);
  }

  /** A requeue that throws leaves the retry count behind: the entry can fail any number of times. */
  lemma {:induction false} RequeueFailureRepeats(s: State, key: Key, id: nat, times: nat) returns (actions: seq<Action>)
    requires key.Work? && key in s.lists && id in Ids(s.lists[key]) && key.list !in s.locks
    ensures Possible(s, actions) && forall a | a in actions :: !a.Crash? && !a.ExpireLock? && !a.ExpireKey?
    ensures After(s, actions).log.failed[id] == s.log.failed[id] + times
    decreases times
  {
    hide Possible, After, Ids;
    StartsPossible(s);
    actions := [];
    if times > 0 {
      actions := FailsOnce(s, key, id);
      var more := RequeueFailureRepeats(After(s, actions), key, id, times - 1);
      PossibleJoin(s, actions, more);
      actions := actions + more;
    }
  }

  // ---------------------------------------------------------------------------
  // Commands that take effect and then throw
  // ---------------------------------------------------------------------------

  /** The command of the run's phase is applied, and its reply is an error all the same. */
  function AppliedThenThrows(s: State, now: int): State
    requires now in s.runs && (s.runs[now].phase.Chosen? || (InSection(s.runs[now].phase) && !s.runs[now].phase.Loaded?))
  {
    match s.runs[now].phase
    case Chosen(_) => Goto(DoLock(s, now), now, Between)
    case Locked(list) => Goto(DoRename(s, now), now, Releasing(list))
    case Owning(work) => Goto(s, now, Releasing(work.list))
    case Refused(work, _) => Goto(DoRequeue(s, now), now, Releasing(work.list))
    case Spent(work) => Goto(s.(lists := s.lists - {work}), now, Releasing(work.list))
    case Releasing(list) => Goto(s.(locks := s.locks - {list}), now, Between)
    case _ => s
  }

  /** It is a run of the machine: the command goes through and a later one fails. */
  lemma AppliedThrowIsARun(s: State, now: int) returns (actions: seq<Action>)
    requires now in s.runs && (s.runs[now].phase.Chosen? || (InSection(s.runs[now].phase) && !s.runs[now].phase.Loaded?))
    ensures Possible(s, actions) && After(s, actions) == AppliedThenThrows(s, now)
  {
    hide Possible, After, Parse, Kept, Trim, Cut, Ids, RetriedIds;
    StartsPossible(s);
    actions := [];
    match s.runs[now].phase
    case Chosen(key) =>
      actions := Extend(s, actions, Lock(now));
      if key.list !in s.locks {
        actions := Extend(s, actions, Fail(now));
        actions := Extend(s, actions, Fail(now));
      }
    case Locked(list) =>
      actions := Extend(s, actions, NoticeDigest.Action.Rename(now));
      if Base(list) in s.lists {
        actions := Extend(s, actions, Fail(now));
      }
    case Owning(_) => actions := Extend(s, actions, Fail(now));
    case Refused(_, _) =>
      actions := Extend(s, actions, Requeue(now));
      actions := Extend(s, actions, Fail(now));
    case Spent(_) => actions := Extend(s, actions, Delete(now));
    case Releasing(_) => actions := Extend(s, actions, Unlock(now));
  }

  // ---------------------------------------------------------------------------
  // The repeats happen
  // ---------------------------------------------------------------------------

  lemma FirstPush(list: string, e: Entry)
    requires e.wellFormed && e.retry < MAX_REQUEUES
    ensures Enabled(EMPTY, Push(list, [e]))
    ensures var s := Next(EMPTY, Push(list, [e]));
      && s.lists == map[Base(list) := [e]] && s.locks == map[] && s.runs == map[] && s.stamps == {}
      && s.log.delivered == multiset{}
  {
    OneEntry(e);
    assert At(EMPTY, Base(list)) + [e] == [e];
    hide Parse, Trim, Cut, Kept;
  }

  lemma ReadIsAboutToPost(s: State, now: int, e: Entry)
    requires s.runs.Keys <= s.stamps && e.wellFormed && e.retry < MAX_REQUEUES
    requires now in s.runs && s.runs[now].phase.Owning?
    requires var work := s.runs[now].phase.work;
      work in s.lists && s.lists[work] == [e] && work.list in s.locks && s.locks[work.list] == now
    ensures AboutToPost(Next(s, Read(now)), now, e.id)
    ensures Next(s, Read(now)).runs[now].phase == Loaded(s.runs[now].phase.work, [e])
    ensures Next(s, Read(now)).log == s.log
  {
    OneEntry(e);
    hide Parse, Kept, Trim, Cut;
  }

  lemma RunsAreStamped(actions: seq<Action>)
    requires Possible(EMPTY, actions)
    ensures After(EMPTY, actions).runs.Keys <= After(EMPTY, actions).stamps
  {
    DeliveryInvAfter(EMPTY, actions);
  }

  /** One push and one run lead from an empty store to a run about to post. */
  lemma ReachAboutToPost() returns (actions: seq<Action>, now: int)
    ensures Possible(EMPTY, actions) && AboutToPost(After(EMPTY, actions), now, 0)
    ensures After(EMPTY, actions).log.delivered == multiset{} && Capped(After(EMPTY, actions))
    ensures var phase := After(EMPTY, actions).runs[now].phase; phase.work.Work? && 0 in Ids(Kept(phase.batch))
  {
    var e := Entry(0, 0, true, 0, 0);
    now := MAX_AGE_MS;
    OneEntry(e);
    FirstPush("list", e);
    hide Possible, After, Next, Parse, Kept, Ids, AboutToPost;
    StartsPossible(EMPTY);
    var pushed := Extend(EMPTY, [], Push("list", [e]));
    var s := After(EMPTY, pushed);
    var path, work := PathToOwning(s, Base("list"), now);
    PossibleJoin(EMPTY, pushed, path);
    RunsAreStamped(pushed + path);
    ReadIsAboutToPost(After(EMPTY, pushed + path), now, e);
    actions := Extend(EMPTY, pushed + path, Read(now));
    CappedAfter(EMPTY, actions);
  }

  lemma OneEntry(e: Entry)
    requires e.wellFormed && e.retry < MAX_REQUEUES
    ensures Parse([e]) == [e] && Ids([e]) == {e.id} && Trim([e]) == [e] && Cut([e]) == [] && Distinct([e])
    ensures e.id in Ids(Kept([e]))
  {
    assert [e][1..] == [];
    assert Kept([e]) == [e.(retry := e.retry + 1)];
  }

  /** What repeats a post: a crash, a deletion that throws, an applied requeue that throws, an expired lock. */
  datatype Cause = Crashed | DeletionThrew | RequeueThrew | LockExpired

  lemma RepeatsHappen(cause: Cause) returns (actions: seq<Action>)
    ensures Possible(EMPTY, actions) && After(EMPTY, actions).log.delivered[0] == 2
  {
    hide Possible, After, AboutToPost, Capped, Ids, Kept;
    var path, now := ReachAboutToPost();
    var s := After(EMPTY, path);
    match cause {
    case Crashed => actions := CrashRepeats(s, now, 0);
    case DeletionThrew => actions := FailureRepeats(s, now, 0);
    case RequeueThrew =>
      BatchAboutToPost(s, now, 0);
      actions := AppliedRequeueRepeats(s, now, 0);
    case LockExpired => actions := ExpiryRepeats(s, now, 0);
    }
    PossibleJoin(EMPTY, path, actions);
    actions := path + actions;
  }

  lemma BatchAboutToPost(s: State, now: int, id: nat)
    requires AboutToPost(s, now, id)
    ensures now in s.runs && s.runs[now].phase.Loaded?
  {
  }
}
