/**
 * No duplicate posts. A run that stops between its post and the deletion of its work list, and a lock that
 * expires while it is held, are the only ways to a second accepted post: without them one flusher at a time
 * works on a list and each entry is in at most one accepted post, wherever else runs crash or fail.
 */
module NoticeDigestOnce {
  import opened Basics
  import opened NoticeDigest
  import opened NoticeDigestDelivery

  // ---------------------------------------------------------------------------
  // Mutual exclusion
  // ---------------------------------------------------------------------------

  ghost predicate Owns(s: State, now: int, list: string) {
    now in s.runs && InSection(s.runs[now].phase) && Held(s.runs[now].phase) == list
  }

  /** A run inside the locked section holds the lock of its list. */
  ghost predicate LocksHeld(s: State) {
    forall now, list :: Owns(s, now, list) ==> list in s.locks && s.locks[list] == now
  }

  /** A lock does not expire under the run that works behind it. */
  ghost predicate SparesLocks(s: State, a: Action) {
    a.ExpireLock? && a.list in s.locks ==> !Owns(s, s.locks[a.list], a.list)
  }

  lemma LocksHeldStep(s: State, a: Action)
    requires LocksHeld(s) && Enabled(s, a) && SparesLocks(s, a)
    ensures LocksHeld(Next(s, a))
  {
    var s' := Next(s, a);
    forall now, list | Owns(s', now, list)
      ensures list in s'.locks && s'.locks[list] == now
    {
      if a.Unlock? {
        assert Owns(s, a.now, s.runs[a.now].phase.list);
      }
      if !(a.Lock? && a.now == now) {
        assert Owns(s, now, list);
      }
    }
  }

  ghost predicate AllSpareLocks(s: State, actions: seq<Action>)
    requires Possible(s, actions)
    decreases |actions|
  {
    actions == [] || (SparesLocks(s, actions[0]) && AllSpareLocks(Next(s, actions[0]), actions[1..]))
  }

  lemma {:induction false} LocksHeldAfter(s: State, actions: seq<Action>)
    requires LocksHeld(s) && Possible(s, actions) && AllSpareLocks(s, actions)
    ensures LocksHeld(After(s, actions))
    decreases |actions|
  {
    hide Enabled, Next, LocksHeld, SparesLocks;
    if actions != [] {
      LocksHeldStep(s, actions[0]);
      LocksHeldAfter(Next(s, actions[0]), actions[1..]);
    }
  }

  /**
   * However many flushers run, crash or fail: while no lock expires under its owner, two flushers are never
   * between lock and unlock of one list.
   */
  lemma OneFlusherAtATime(actions: seq<Action>, one: int, two: int, list: string)
    requires Possible(EMPTY, actions) && AllSpareLocks(EMPTY, actions)
    requires Owns(After(EMPTY, actions), one, list) && Owns(After(EMPTY, actions), two, list)
    ensures one == two
  {
    LocksHeldAfter(EMPTY, actions);
  }

  // ---------------------------------------------------------------------------
  // Each entry is in one place
  // ---------------------------------------------------------------------------

  predicate WorksOn(phase: Phase, k: Key) {
    (phase.Owning? || phase.Loaded? || phase.Refused? || phase.Spent?) && phase.work == k
  }

  /** Where the run that works on the list stands, if any does. */
  function Worker(s: State, k: Key): Option<Phase> {
    if k.list in s.locks && s.locks[k.list] in s.runs && WorksOn(s.runs[s.locks[k.list]].phase, k)
    then Some(s.runs[s.locks[k.list]].phase)
    else None
  }

  /** The entries of the list that may still be posted: those its worker took, or those it holds. */
  function Content(s: State, k: Key): seq<Entry> {
    if k.Base? then Parse(At(s, k))
    else
      match Worker(s, k)
      case Some(Loaded(_, batch)) => batch
      case Some(Refused(_, batch)) => batch
      case Some(Spent(_)) => []
      case _ => Parse(At(s, k))
  }

  function Pending(s: State, k: Key): nat {
    if k.Work? && Worker(s, k).Some? && Worker(s, k).value.Refused? then 1 else 0
  }

  /** Not delivered yet; in a `strict` run its retry count tells exactly how often it was in a failed post. */
  ghost predicate Exact(log: Log, e: Entry, pending: nat, strict: bool) {
    && e.wellFormed
    && e.id in log.pushed
    && log.delivered[e.id] == 0
    && (strict ==>
          && log.pushed[e.id] + log.failed[e.id] == e.retry + pending
          && (e.retry == log.pushed[e.id] || e.retry <= MAX_REQUEUES))
  }

  ghost predicate SlotExact(log: Log, es: seq<Entry>, pending: nat, strict: bool) {
    Distinct(es) && forall e | e in es :: Exact(log, e, pending, strict)
  }

  ghost predicate PostedOnce(log: Log, strict: bool) {
    && (forall id :: log.delivered[id] <= 1 && (strict ==> log.failed[id] <= MAX_REQUEUES + 1))
    && (forall id | id !in log.pushed :: log.delivered[id] == 0 && log.failed[id] == 0)
  }

  ghost predicate OnePlace(s: State, strict: bool) {
    && (forall k :: SlotExact(s.log, Content(s, k), Pending(s, k), strict))
    && (forall k, k' | k != k' :: Ids(Content(s, k)) !! Ids(Content(s, k')))
    && PostedOnce(s.log, strict)
  }

  ghost predicate OnceInv(s: State, strict: bool) {
    DeliveryInv(s) && LocksHeld(s) && OnePlace(s, strict)
  }

  /** The run has answered for its work list, or in a strict run failed to post it, but the list is still there. */
  predicate Exposed(s: State, phase: Phase, strict: bool) {
    (phase.Spent? || (strict && phase.Refused?)) && Parse(At(s, phase.work)) != []
  }

  /** No run stops between answering for a work list and deleting it, and no lock expires under its owner. */
  ghost predicate Careful(s: State, a: Action, strict: bool) {
    && ((a.Crash? || a.Fail?) && a.now in s.runs ==> !Exposed(s, s.runs[a.now].phase, strict))
    && SparesLocks(s, a)
  }

  /** Entries only stay, disappear, move from slot `from` to slot `to`, or arrive new at `to`. */
  lemma DisjointAfter(s: State, s': State, from: Key, to: Key, arrived: set<nat>, strict: bool)
    requires OnePlace(s, strict)
    requires arrived !! s.log.pushed.Keys
    requires forall k | k != to :: Ids(Content(s', k)) <= Ids(Content(s, k))
    requires Ids(Content(s', to)) <= Ids(Content(s, to)) + Ids(Content(s, from)) + arrived
    requires from != to ==> Content(s', from) == []
    ensures forall k, k' | k != k' :: Ids(Content(s', k)) !! Ids(Content(s', k'))
  {
    hide Content, Pending;
    forall k | k != to
      ensures Ids(Content(s', k)) !! Ids(Content(s', to))
    {
      assert SlotExact(s.log, Content(s, k), Pending(s, k), strict);
      assert Ids(Content(s, k)) <= s.log.pushed.Keys;
    }
  }

  lemma SlotKept(log: Log, log': Log, es: seq<Entry>, pending: nat, strict: bool)
    requires SlotExact(log, es, pending, strict)
    requires forall id | id in Ids(es) && id in log.pushed ::
      && id in log'.pushed && log'.pushed[id] == log.pushed[id]
      && log'.delivered[id] == log.delivered[id] && log'.failed[id] == log.failed[id]
    ensures SlotExact(log', es, pending, strict)
  {
    forall e | e in es
      ensures Exact(log', e, pending, strict)
    {
      assert Exact(log, e, pending, strict) && e.id in Ids(es);
    }
  }

  /** The run that works on a list is its worker. */
  lemma WorkerIs(s: State, now: int)
    requires LocksHeld(s) && WorkListsMadeOnce(s) && now in s.runs
    requires s.runs[now].phase.Owning? || s.runs[now].phase.Loaded? || s.runs[now].phase.Refused? || s.runs[now].phase.Spent?
    ensures var work := s.runs[now].phase.work;
      && work.Work? && Worker(s, work) == Some(s.runs[now].phase)
      && work.list in s.locks && s.locks[work.list] == now
  {
    assert RunNames(s.log.made, now, s.runs[now]);
    assert Owns(s, now, s.runs[now].phase.work.list);
  }

  /** Actions that move no entry and post nothing. */
  predicate Quiet(a: Action) {
    !a.Push? && !a.Rename? && !a.Post? && !a.Requeue?
  }

  /** A run that stops leaves the entries it had taken in the work list, as far as that still exists. */
  lemma StopContent(s: State, a: Action, k: Key, strict: bool)
    requires OnceInv(s, strict) && Enabled(s, a) && Careful(s, a, strict) && (a.Crash? || a.Fail?)
    ensures Content(Next(s, a), k) == Content(s, k) || Content(Next(s, a), k) == []
    ensures strict && Content(Next(s, a), k) != [] ==> Pending(Next(s, a), k) == Pending(s, k)
  {
    hide Parse, OnePlace;
    var phase := s.runs[a.now].phase;
    assert RunKeeps(s, s.runs[a.now]);
    if WorksOn(phase, k) {
      WorkerIs(s, a.now);
      assert Worker(Next(s, a), k) == None;
      EmptyParse();
    } else {
      assert Worker(Next(s, a), k) == Worker(s, k);
    }
  }

  lemma EmptyParse()
    ensures Parse([]) == []
  {
  }

  lemma DeleteContent(s: State, now: int, k: Key, strict: bool)
    requires OnceInv(s, strict) && Enabled(s, Delete(now))
    ensures Content(Next(s, Delete(now)), k) == Content(s, k) && Pending(Next(s, Delete(now)), k) == Pending(s, k)
  {
    hide OnePlace;
    WorkerIs(s, now);
    var work := s.runs[now].phase.work;
    if k != work {
      assert Worker(Next(s, Delete(now)), k) == Worker(s, k);
    }
  }

  lemma ExpiryContent(s: State, a: Action, k: Key, strict: bool)
    requires OnceInv(s, strict) && Enabled(s, a) && Careful(s, a, strict) && (a.ExpireKey? || a.ExpireLock?)
    ensures Content(Next(s, a), k) == Content(s, k) || Content(Next(s, a), k) == []
    ensures Pending(Next(s, a), k) == Pending(s, k)
  {
    hide OnePlace;
    assert Worker(Next(s, a), k) == Worker(s, k);
  }

  lemma LockContent(s: State, now: int, k: Key, strict: bool)
    requires OnceInv(s, strict) && Enabled(s, Lock(now))
    ensures Content(Next(s, Lock(now)), k) == Content(s, k) && Pending(Next(s, Lock(now)), k) == Pending(s, k)
  {
    hide OnePlace;
    var key := s.runs[now].phase.key;
    if k != key || key.list in s.locks {
      assert Worker(Next(s, Lock(now)), k) == Worker(s, k);
    }
  }

  lemma ReadContent(s: State, now: int, k: Key, strict: bool)
    requires OnceInv(s, strict) && Enabled(s, Read(now))
    ensures Content(Next(s, Read(now)), k) == Content(s, k) && Pending(Next(s, Read(now)), k) == Pending(s, k)
  {
    hide OnePlace, Parse;
    WorkerIs(s, now);
    if k != s.runs[now].phase.work {
      assert Worker(Next(s, Read(now)), k) == Worker(s, k);
    }
  }

  lemma IdleContent(s: State, a: Action, k: Key, strict: bool)
    requires OnceInv(s, strict) && Enabled(s, a)
    requires a.Begin? || a.Scan? || a.EndScan? || a.Choose? || a.Unlock? || a.Finish?
    ensures Content(Next(s, a), k) == Content(s, k) && Pending(Next(s, a), k) == Pending(s, k)
  {
    hide OnePlace, Parse;
    if a.Unlock? {
      assert Owns(s, a.now, s.runs[a.now].phase.list);
    }
    assert Worker(Next(s, a), k) == Worker(s, k);
  }

  lemma QuietContent(s: State, a: Action, k: Key, strict: bool)
    requires OnceInv(s, strict) && Enabled(s, a) && Careful(s, a, strict) && Quiet(a)
    ensures Content(Next(s, a), k) == Content(s, k) || Content(Next(s, a), k) == []
    ensures strict && Content(Next(s, a), k) != [] ==> Pending(Next(s, a), k) == Pending(s, k)
  {
    hide Content, Pending, OnceInv, Careful, Enabled, Next;
    match a
    case Crash(_) => StopContent(s, a, k, strict);
    case Fail(_) => StopContent(s, a, k, strict);
    case Delete(now) => DeleteContent(s, now, k, strict);
    case ExpireKey(_) => ExpiryContent(s, a, k, strict);
    case ExpireLock(_) => ExpiryContent(s, a, k, strict);
    case Lock(now) => LockContent(s, now, k, strict);
    case Read(now) => ReadContent(s, now, k, strict);
    case _ => IdleContent(s, a, k, strict);
  }

  lemma QuietLog(s: State, a: Action)
    requires Enabled(s, a) && Quiet(a)
    ensures var (log, log') := (s.log, Next(s, a).log);
      log'.pushed == log.pushed && log'.delivered == log.delivered && log'.failed == log.failed
  {
    hide Parse, Kept;
  }

  lemma QuietStep(s: State, a: Action, strict: bool)
    requires OnceInv(s, strict) && Enabled(s, a) && Careful(s, a, strict) && Quiet(a)
    ensures OnePlace(Next(s, a), strict)
  {
    hide Content, Pending, DeliveryInv, LocksHeld, Careful, Enabled, Next;
    var s' := Next(s, a);
    QuietLog(s, a);
    forall k
      ensures SlotExact(s'.log, Content(s', k), Pending(s', k), strict)
      ensures Ids(Content(s', k)) <= Ids(Content(s, k))
    {
      QuietContent(s, a, k, strict);
      SlotKept(s.log, s'.log, Content(s, k), Pending(s, k), strict);
    }
  }

  lemma RenameContent(s: State, now: int, k: Key, strict: bool)
    requires OnceInv(s, strict) && Enabled(s, Rename(now))
    ensures var s' := Next(s, Rename(now));
      var list := s.runs[now].phase.list;
      && Pending(s', k) == Pending(s, k)
      && Content(s', k) == (if Base(list) in s.lists && k == Base(list) then []
                            else if Base(list) in s.lists && k == Work(list, now) then Content(s, Base(list))
                            else Content(s, k))
      && Pending(s, Base(list)) == 0 && (Base(list) in s.lists && k == Work(list, now) ==> Pending(s, k) == 0)
  {
    hide OnePlace;
    var s' := Next(s, Rename(now));
    var list := s.runs[now].phase.list;
    assert Owns(s, now, list);
    assert RunNames(s.log.made, now, s.runs[now]);
    if k == Work(list, now) {
      assert Worker(s, k) == None;
    } else {
      assert Worker(s', k) == Worker(s, k);
    }
  }

  lemma RenameStep(s: State, now: int, strict: bool)
    requires OnceInv(s, strict) && Enabled(s, Rename(now))
    ensures OnePlace(Next(s, Rename(now)), strict)
  {
    var s' := Next(s, Rename(now));
    var list := s.runs[now].phase.list;
    assert s'.log.(made := s.log.made) == s.log;
    hide Content, Pending, DeliveryInv, LocksHeld, Enabled, Next;
    forall k
      ensures SlotExact(s'.log, Content(s', k), Pending(s', k), strict)
      ensures k != Work(list, now) ==> Ids(Content(s', k)) <= Ids(Content(s, k))
    {
      RenameContent(s, now, k, strict);
      assert SlotExact(s.log, Content(s, k), Pending(s, k), strict);
      assert SlotExact(s.log, Content(s, Base(list)), Pending(s, Base(list)), strict);
    }
    RenameContent(s, now, Work(list, now), strict);
    RenameContent(s, now, Base(list), strict);
    if Base(list) in s.lists {
      DisjointAfter(s, s', Base(list), Work(list, now), {}, strict);
    } else {
      DisjointAfter(s, s', Work(list, now), Work(list, now), {}, strict);
    }
  }

  lemma PostContent(s: State, now: int, accepted: bool, k: Key, strict: bool)
    requires OnceInv(s, strict) && Enabled(s, Post(now, accepted))
    ensures var s' := Next(s, Post(now, accepted));
      var Loaded(work, batch) := s.runs[now].phase;
      if k == work then
        Content(s, k) == batch && Pending(s, k) == 0
        && Content(s', k) == (if accepted then [] else batch) && Pending(s', k) == (if accepted then 0 else 1)
      else Content(s', k) == Content(s, k) && Pending(s', k) == Pending(s, k)
  {
    hide OnePlace, Parse;
    WorkerIs(s, now);
    if k != s.runs[now].phase.work {
      assert Worker(Next(s, Post(now, accepted)), k) == Worker(s, k);
    }
  }

  lemma PostLog(s: State, now: int, accepted: bool)
    requires Enabled(s, Post(now, accepted))
    ensures var (log, log') := (s.log, Next(s, Post(now, accepted)).log);
      && log'.pushed == log.pushed
      && forall id | id !in Ids(s.runs[now].phase.batch) ::
           log'.delivered[id] == log.delivered[id] && log'.failed[id] == log.failed[id]
  {
    hide Parse;
  }

  lemma PostElsewhere(s: State, now: int, accepted: bool, k: Key, strict: bool)
    requires OnceInv(s, strict) && Enabled(s, Post(now, accepted)) && k != s.runs[now].phase.work
    ensures var s' := Next(s, Post(now, accepted)); SlotExact(s'.log, Content(s', k), Pending(s', k), strict)
  {
    var Loaded(work, batch) := s.runs[now].phase;
    PostContent(s, now, accepted, k, strict);
    PostContent(s, now, accepted, work, strict);
    PostLog(s, now, accepted);
    hide Content, Pending, DeliveryInv, LocksHeld, Next, Ids;
    assert Ids(Content(s, k)) !! Ids(Content(s, work));
    SlotKept(s.log, Next(s, Post(now, accepted)).log, Content(s, k), Pending(s, k), strict);
  }

  lemma PostHere(s: State, now: int, accepted: bool, strict: bool)
    requires OnceInv(s, strict) && Enabled(s, Post(now, accepted))
    ensures var s' := Next(s, Post(now, accepted));
      var work := s.runs[now].phase.work;
      SlotExact(s'.log, Content(s', work), Pending(s', work), strict)
    ensures PostedOnce(Next(s, Post(now, accepted)).log, strict)
  {
    var Loaded(work, batch) := s.runs[now].phase;
    PostContent(s, now, accepted, work, strict);
    assert SlotExact(s.log, Content(s, work), Pending(s, work), strict);
    hide Content, Pending;
    var log' := Next(s, Post(now, accepted)).log;
    if !accepted {
      forall e | e in batch
        ensures Exact(log', e, 1, strict)
      {
        assert Exact(s.log, e, 0, strict) && e.id in Ids(batch);
      }
    }
    forall id | id in Ids(batch)
      ensures id in s.log.pushed && s.log.delivered[id] == 0 && (strict ==> s.log.failed[id] <= MAX_REQUEUES)
    {
      var e :| e in batch && e.id == id;
      assert Exact(s.log, e, 0, strict);
    }
  }

  lemma PostStep(s: State, now: int, accepted: bool, strict: bool)
    requires OnceInv(s, strict) && Enabled(s, Post(now, accepted))
    ensures OnePlace(Next(s, Post(now, accepted)), strict)
  {
    var s' := Next(s, Post(now, accepted));
    var work := s.runs[now].phase.work;
    PostHere(s, now, accepted, strict);
    hide Content, Pending;
    forall k
      ensures Ids(Content(s', k)) <= Ids(Content(s, k))
      ensures SlotExact(s'.log, Content(s', k), Pending(s', k), strict)
    {
      PostContent(s, now, accepted, k, strict);
      if k != work {
        PostElsewhere(s, now, accepted, k, strict);
      }
    }
    DisjointAfter(s, s', work, work, {}, strict);
  }

  // ---------------------------------------------------------------------------
  // Appending to a list
  // ---------------------------------------------------------------------------

  /** Trimming keeps a suffix of the well-formed entries. */
  lemma ParseTrim(es: seq<Entry>)
    ensures exists n :: 0 <= n <= |Parse(es)| && Parse(Trim(es)) == Parse(es)[n..]
  {
    assert es == Cut(es) + Trim(es);
    ParseJoin(Cut(es), Trim(es));
    assert Parse(Trim(es)) == Parse(es)[|Parse(Cut(es))|..];
  }

  lemma AppendContent(s: State, list: string, es: seq<Entry>) returns (n: nat)
    ensures n <= |Content(s, Base(list)) + Parse(es)|
    ensures Content(Append(s, list, es), Base(list)) == (Content(s, Base(list)) + Parse(es))[n..]
  {
    var all := At(s, Base(list)) + es;
    ParseJoin(At(s, Base(list)), es);
    ParseTrim(all);
    n :| 0 <= n <= |Parse(all)| && Parse(Trim(all)) == Parse(all)[n..];
  }

  lemma JoinDistinct(a: seq<Entry>, b: seq<Entry>, n: nat)
    requires Distinct(a) && Distinct(b) && n <= |a + b|
    requires forall e, e' | e in a && e' in b :: e.id != e'.id
    ensures Distinct((a + b)[n..])
  {
  }

  lemma PushSlot(s: State, list: string, es: seq<Entry>, old': seq<Entry>, n: nat, strict: bool)
    requires SlotExact(s.log, old', 0, strict) && PostedOnce(s.log, strict)
    requires Enabled(s, Push(list, es)) && n <= |old' + Parse(es)|
    ensures SlotExact(Next(s, Push(list, es)).log, (old' + Parse(es))[n..], 0, strict)
  {
    PushedLog(s, list, es);
    ParseIsFilter(es);
    RetryOfEach(Parse(es));
    forall e, e' | e in old' && e' in Parse(es)
      ensures e.id != e'.id
    {
      assert Exact(s.log, e, 0, strict) && e'.id in Ids(es);
    }
    JoinDistinct(old', Parse(es), n);
    var log' := Next(s, Push(list, es)).log;
    forall e | e in old' + Parse(es)
      ensures Exact(log', e, 0, strict)
    {
      if e in old' {
        assert Exact(s.log, e, 0, strict);
      } else {
        assert e in Parse(es) && e.id in Ids(es);
      }
    }
  }

  lemma PushContent(s: State, list: string, es: seq<Entry>, k: Key)
    requires Enabled(s, Push(list, es)) && k != Base(list)
    ensures Content(Next(s, Push(list, es)), k) == Content(s, k) && Pending(Next(s, Push(list, es)), k) == Pending(s, k)
  {
    hide Parse, Trim, Cut;
    var s' := Next(s, Push(list, es));
    assert At(s', k) == At(s, k) && Worker(s', k) == Worker(s, k);
  }

  lemma PushLog(s: State, list: string, es: seq<Entry>)
    requires Enabled(s, Push(list, es))
    ensures var (log, log') := (s.log, Next(s, Push(list, es)).log);
      && log'.delivered == log.delivered && log'.failed == log.failed
      && forall id | id in log.pushed :: id in log'.pushed && log'.pushed[id] == log.pushed[id]
  {
    PushedLog(s, list, es);
  }

  lemma PushElsewhere(s: State, list: string, es: seq<Entry>, k: Key, strict: bool)
    requires OnceInv(s, strict) && Enabled(s, Push(list, es)) && k != Base(list)
    ensures var s' := Next(s, Push(list, es));
      && Content(s', k) == Content(s, k)
      && SlotExact(s'.log, Content(s', k), Pending(s', k), strict)
  {
    hide Content, Pending, Next, Enabled, DeliveryInv, LocksHeld, Ids;
    PushContent(s, list, es, k);
    PushLog(s, list, es);
    SlotKept(s.log, Next(s, Push(list, es)).log, Content(s, k), Pending(s, k), strict);
  }

  lemma PushCounts(s: State, list: string, es: seq<Entry>, strict: bool)
    requires PostedOnce(s.log, strict) && Enabled(s, Push(list, es))
    ensures PostedOnce(Next(s, Push(list, es)).log, strict)
  {
    PushedLog(s, list, es);
  }

  lemma PushStep(s: State, list: string, es: seq<Entry>, strict: bool)
    requires OnceInv(s, strict) && Enabled(s, Push(list, es))
    ensures OnePlace(Next(s, Push(list, es)), strict)
  {
    var s' := Next(s, Push(list, es));
    var n := AppendContent(s, list, es);
    assert Content(s', Base(list)) == Content(Append(s, list, es), Base(list));
    assert SlotExact(s.log, Content(s, Base(list)), Pending(s, Base(list)), strict);
    assert Pending(s, Base(list)) == 0 == Pending(s', Base(list));
    hide Content, Pending;
    PushSlot(s, list, es, Content(s, Base(list)), n, strict);
    PushCounts(s, list, es, strict);
    ParseIsFilter(es);
    hide Next, Enabled, Parse;
    forall k
      ensures k != Base(list) ==> Content(s', k) == Content(s, k)
      ensures SlotExact(s'.log, Content(s', k), Pending(s', k), strict)
    {
      if k != Base(list) {
        PushElsewhere(s, list, es, k, strict);
      }
    }
    DisjointAfter(s, s', Base(list), Base(list), Ids(es), strict);
  }

  lemma KeptOrigin(batch: seq<Entry>, e: Entry)
    requires e in Kept(batch)
    ensures exists e0 :: e0 in batch && e0.retry < MAX_REQUEUES && e == e0.(retry := e0.retry + 1)
  {
    KeptIsRetried(batch);
    var e0 := e.(retry := e.retry - 1);
    assert e0 in batch && e == e0.(retry := e0.retry + 1);
  }

  lemma {:induction false} KeptDistinct(batch: seq<Entry>)
    requires Distinct(batch) && forall e | e in batch :: e.wellFormed
    ensures Distinct(Kept(batch)) && Parse(Kept(batch)) == Kept(batch)
    ensures forall e | e in Kept(batch) :: e.wellFormed
  {
    if batch != [] {
      KeptDistinct(batch[1..]);
      forall e | e in Kept(batch[1..])
        ensures e.id != batch[0].id
      {
        KeptOrigin(batch[1..], e);
      }
      if batch[0].retry < MAX_REQUEUES {
        var head := batch[0].(retry := batch[0].retry + 1);
        assert Kept(batch) == [head] + Kept(batch[1..]);
        assert Kept(batch)[1..] == Kept(batch[1..]);
      } else {
        assert Kept(batch) == Kept(batch[1..]);
      }
    }
  }

  lemma KeptIds(batch: seq<Entry>)
    ensures Ids(Kept(batch)) <= Ids(batch)
  {
    forall id | id in Ids(Kept(batch))
      ensures id in Ids(batch)
    {
      var e :| e in Kept(batch) && e.wellFormed && e.id == id;
      KeptOrigin(batch, e);
    }
  }

  lemma RequeueSlot(s: State, now: int, old': seq<Entry>, n: nat, strict: bool)
    requires Enabled(s, Requeue(now))
    requires SlotExact(s.log, old', 0, strict) && SlotExact(s.log, s.runs[now].phase.batch, 1, strict)
    requires Ids(old') !! Ids(s.runs[now].phase.batch)
    requires n <= |old' + Kept(s.runs[now].phase.batch)|
    ensures SlotExact(Next(s, Requeue(now)).log, (old' + Kept(s.runs[now].phase.batch))[n..], 0, strict)
  {
    var batch := s.runs[now].phase.batch;
    KeptDistinct(batch);
    KeptIds(batch);
    forall e, e' | e in old' && e' in Kept(batch)
      ensures e.id != e'.id
    {
      assert Exact(s.log, e, 0, strict);
      assert e.id in Ids(old') && e'.id in Ids(Kept(batch));
    }
    JoinDistinct(old', Kept(batch), n);
    var log' := Next(s, Requeue(now)).log;
    forall e | e in old' + Kept(batch)
      ensures Exact(log', e, 0, strict)
    {
      if e in old' {
        assert Exact(s.log, e, 0, strict);
      } else {
        KeptOrigin(batch, e);
        var e0 :| e0 in batch && e0.retry < MAX_REQUEUES && e == e0.(retry := e0.retry + 1);
        assert Exact(s.log, e0, 1, strict);
      }
    }
  }

  lemma RequeueQueued(s: State, now: int, strict: bool) returns (n: nat)
    requires Enabled(s, Requeue(now)) && SlotExact(s.log, s.runs[now].phase.batch, 1, strict)
    ensures var Refused(work, batch) := s.runs[now].phase;
      && n <= |Content(s, Base(work.list)) + Kept(batch)|
      && Content(Next(s, Requeue(now)), Base(work.list)) == (Content(s, Base(work.list)) + Kept(batch))[n..]
  {
    var Refused(work, batch) := s.runs[now].phase;
    var s' := Next(s, Requeue(now));
    if Kept(batch) == [] {
      n := 0;
      assert s'.lists == s.lists;
    } else {
      KeptDistinct(batch);
      n := AppendContent(s, work.list, Kept(batch));
      assert s'.lists == Append(s, work.list, Kept(batch)).lists;
    }
  }

  lemma RequeueContent(s: State, now: int, k: Key, strict: bool)
    requires OnceInv(s, strict) && Enabled(s, Requeue(now)) && k != Base(s.runs[now].phase.work.list)
    ensures var s' := Next(s, Requeue(now));
      var Refused(work, batch) := s.runs[now].phase;
      && work.Work?
      && (if k == work then Content(s, k) == batch && Pending(s, k) == 1 && Content(s', k) == []
          else Content(s', k) == Content(s, k) && Pending(s', k) == Pending(s, k))
  {
    hide OnePlace, Parse, Kept, Trim, Cut;
    WorkerIs(s, now);
    var s' := Next(s, Requeue(now));
    if k != s.runs[now].phase.work {
      assert Worker(s', k) == Worker(s, k) && At(s', k) == At(s, k);
    }
  }

  lemma RequeueAtBase(s: State, now: int, strict: bool)
    requires OnceInv(s, strict) && Enabled(s, Requeue(now))
    ensures var s' := Next(s, Requeue(now));
      var work := s.runs[now].phase.work;
      var base := Base(work.list);
      && SlotExact(s'.log, Content(s', base), 0, strict)
      && Ids(Content(s', base)) <= Ids(Content(s, base)) + Ids(Content(s, work))
  {
    var Refused(work, batch) := s.runs[now].phase;
    var base := Base(work.list);
    assert SlotExact(s.log, Content(s, base), Pending(s, base), strict) && Pending(s, base) == 0;
    WorkerIs(s, now);
    RequeueContent(s, now, work, strict);
    assert SlotExact(s.log, Content(s, work), Pending(s, work), strict);
    assert Ids(Content(s, base)) !! Ids(Content(s, work));
    hide Content, Pending, Next, Parse;
    var n := RequeueQueued(s, now, strict);
    RequeueSlot(s, now, Content(s, base), n, strict);
    KeptIds(batch);
  }

  lemma RequeueLog(s: State, now: int)
    requires Enabled(s, Requeue(now))
    ensures var (log, log') := (s.log, Next(s, Requeue(now)).log);
      log'.pushed == log.pushed && log'.delivered == log.delivered && log'.failed == log.failed
  {
    hide Parse, Kept;
  }

  lemma NoIds()
    ensures Ids([]) == {}
  {
  }

  lemma RequeueStep(s: State, now: int, strict: bool)
    requires OnceInv(s, strict) && Enabled(s, Requeue(now))
    ensures OnePlace(Next(s, Requeue(now)), strict)
  {
    var s' := Next(s, Requeue(now));
    var work := s.runs[now].phase.work;
    var base := Base(work.list);
    RequeueAtBase(s, now, strict);
    RequeueLog(s, now);
    assert Pending(s', base) == 0;
    WorkerIs(s, now);
    hide Content, Pending, Next, DeliveryInv, LocksHeld, Worker, Ids, Exact;
    forall k
      ensures SlotExact(s'.log, Content(s', k), Pending(s', k), strict)
      ensures k != base ==> Content(s', k) == if k == work then [] else Content(s, k)
    {
      if k != base {
        RequeueContent(s, now, k, strict);
        SlotKept(s.log, s'.log, Content(s, k), Pending(s, k), strict);
      }
    }
    NoIds();
    DisjointAfter(s, s', work, base, {}, strict);
  }

  lemma OnceInvStep(s: State, a: Action, strict: bool)
    requires OnceInv(s, strict) && Enabled(s, a) && Careful(s, a, strict)
    ensures OnceInv(Next(s, a), strict)
  {
    hide OnePlace, LocksHeld, Next, SparesLocks, Exposed;
    MadeOnceStep(s, a);
    RetriesBackedStep(s, a);
    NothingLostStep(s, a);
    LocksHeldStep(s, a);
    match a
    case Push(list, es) => PushStep(s, list, es, strict);
    case Rename(now) => RenameStep(s, now, strict);
    case Post(now, accepted) => PostStep(s, now, accepted, strict);
    case Requeue(now) => RequeueStep(s, now, strict);
    case _ => QuietStep(s, a, strict);
  }

  ghost predicate AllCareful(s: State, actions: seq<Action>, strict: bool)
    requires Possible(s, actions)
    decreases |actions|
  {
    actions == [] || (Careful(s, actions[0], strict) && AllCareful(Next(s, actions[0]), actions[1..], strict))
  }

  lemma {:induction false} OnceInvAfter(s: State, actions: seq<Action>, strict: bool)
    requires OnceInv(s, strict) && Possible(s, actions) && AllCareful(s, actions, strict)
    ensures OnceInv(After(s, actions), strict)
    decreases |actions|
  {
    hide OnceInv, Careful, Enabled, Next;
    if actions != [] {
      OnceInvStep(s, actions[0], strict);
      OnceInvAfter(Next(s, actions[0]), actions[1..], strict);
    }
  }

  lemma StartsOnce(strict: bool)
    ensures OnceInv(EMPTY, strict)
  {
  }

  /**
   * However many flushers run, crash or fail: while none stops between its post and the deletion of a work
   * list that still holds entries, and no lock expires under its owner, no entry is in two accepted posts and
   * none is about to be posted again once accepted. While none stops between a failed post and its requeue
   * either, no entry is in more failed posts than its requeues allow.
   */
  lemma NoDuplicatePosts(actions: seq<Action>, id: nat, strict: bool)
    requires Possible(EMPTY, actions) && AllCareful(EMPTY, actions, strict)
    ensures var s := After(EMPTY, actions);
      && s.log.delivered[id] <= 1
      && (strict ==> s.log.failed[id] <= MAX_REQUEUES + 1)
      && (id in s.log.delivered ==>
            forall now | now in s.runs && s.runs[now].phase.Loaded? :: id !in Ids(s.runs[now].phase.batch))
  {
    StartsOnce(strict);
    OnceInvAfter(EMPTY, actions, strict);
    var s := After(EMPTY, actions);
    hide After, Possible;
    forall now | now in s.runs && s.runs[now].phase.Loaded? && id in s.log.delivered
      ensures id !in Ids(s.runs[now].phase.batch)
    {
      WorkerIs(s, now);
      var work := s.runs[now].phase.work;
      assert SlotExact(s.log, Content(s, work), Pending(s, work), strict);
    }
  }

  // ---------------------------------------------------------------------------
  // Without crashes
  // ---------------------------------------------------------------------------

  predicate Clean(a: Action) {
    !a.Crash? && !a.Fail? && !a.ExpireLock?
  }

  /** Locks and runs inside the locked section correspond one to one. */
  ghost predicate LocksOwned(s: State) {
    forall now, list :: Owns(s, now, list) <==> list in s.locks && s.locks[list] == now
  }

  /** A work list exists only while the owner of its list's lock works on it. */
  ghost predicate WorkListsHeld(s: State) {
    forall k: Key | k in s.lists && k.Work? ::
      && k.list in s.locks
      && s.locks[k.list] in s.runs
      && WorksOn(s.runs[s.locks[k.list]].phase, k)
  }

  lemma LocksOwnedStep(s: State, a: Action)
    requires LocksOwned(s) && s.runs.Keys <= s.stamps && Enabled(s, a) && Clean(a)
    ensures LocksOwned(Next(s, a))
  {
    var s' := Next(s, a);
    forall now, list
      ensures Owns(s', now, list) <==> list in s'.locks && s'.locks[list] == now
    {
      assert Owns(s, now, list) <==> list in s.locks && s.locks[list] == now;
      if a.Unlock? {
        assert Owns(s, a.now, s.runs[a.now].phase.list);
      } else if !a.Lock? {
        assert s'.locks == s.locks;
        assert Owns(s', now, list) <==> Owns(s, now, list);
      }
    }
  }

  lemma WorkListsHeldStep(s: State, a: Action)
    requires LocksOwned(s) && WorkListsHeld(s) && s.runs.Keys <= s.stamps && Enabled(s, a) && Clean(a)
    ensures WorkListsHeld(Next(s, a))
  {
    var s' := Next(s, a);
    forall k: Key | k in s'.lists && k.Work?
      ensures k.list in s'.locks && s'.locks[k.list] in s'.runs && WorksOn(s'.runs[s'.locks[k.list]].phase, k)
    {
      if a.Rename? {
        assert Owns(s, a.now, s.runs[a.now].phase.list);
      } else if a.Delete? || a.Unlock? {
        assert Owns(s, a.now, Held(s.runs[a.now].phase));
        assert k in s.lists;
      } else {
        assert k in s.lists;
        assert Owns(s, s.locks[k.list], k.list);
      }
    }
  }

  lemma {:induction false} CleanAfter(s: State, actions: seq<Action>)
    requires WorkListsMadeOnce(s) && LocksOwned(s) && WorkListsHeld(s)
    requires Possible(s, actions) && forall a | a in actions :: Clean(a)
    ensures LocksOwned(After(s, actions)) && WorkListsHeld(After(s, actions))
    decreases |actions|
  {
    hide Enabled, Next, LocksOwned, WorkListsHeld;
    if actions != [] {
      MadeOnceStep(s, actions[0]);
      LocksOwnedStep(s, actions[0]);
      WorkListsHeldStep(s, actions[0]);
      CleanAfter(Next(s, actions[0]), actions[1..]);
    }
  }

  /** While nothing crashes, fails or expires, no lock is left behind and no work list is ever orphaned. */
  lemma NoOrphans(actions: seq<Action>)
    requires Possible(EMPTY, actions) && forall a | a in actions :: Clean(a)
    ensures LocksOwned(After(EMPTY, actions)) && WorkListsHeld(After(EMPTY, actions))
  {
    CleanAfter(EMPTY, actions);
  }
}
