/** One uninterrupted flush: the code as it runs, what it does to the store, and that the machine can do it. */
module NoticeDigestFlush {
  import opened Basics
  import opened NoticeDigest
  import opened NoticeDigestDelivery

  const QUIET_MS: int := 4 * 60 * 1000
  const MAX_AGE_MS: int := 60 * 60 * 1000

  type Lists = map<Key, seq<Entry>>

  function InList(lists: Lists, k: Key): seq<Entry> {
    if k in lists then lists[k] else []
  }

  /** Nothing new arrived for the quiet time the newest entry asks for, or the oldest entry is an hour old. */
  predicate IsDue(es: seq<Entry>, now: int) {
    es != [] &&
    var last := es[|es| - 1];
    var quiet := if last.quietMs != 0 then last.quietMs else QUIET_MS;
    now - last.at >= Min(quiet, MAX_AGE_MS) || now - es[0].at >= MAX_AGE_MS
  }

  predicate Ripe(lists: Lists, key: Key, now: int) {
    if key.Work? then now - key.stamp >= LOCK_TTL_MS else IsDue(InList(lists, key), now)
  }

  /**
   * A list becomes due exactly when its quiet time has passed since the newest entry, or an hour since the
   * newest or the oldest; and so it stays, as long as nobody touches it.
   */
  lemma DueInTheEnd(es: seq<Entry>, now: int, later: int)
    requires es != [] && now <= later
    ensures var last := es[|es| - 1];
      IsDue(es, now) <==>
        || now >= last.at + (if last.quietMs == 0 then 240_000 else last.quietMs)
        || now >= last.at + 3_600_000
        || now >= es[0].at + 3_600_000
    ensures IsDue(es, now) ==> IsDue(es, later)
    ensures later >= Min(es[0].at, es[|es| - 1].at) + MAX_AGE_MS ==> IsDue(es, later)
  {
  }

  lemma EmptyIsNotDue(now: int)
    ensures !IsDue([], now)
  {
  }

  function Refilled(lists: Lists, list: string, back: seq<Entry>): Lists {
    if back == [] then lists else lists[Base(list) := Trim(InList(lists, Base(list)) + back)]
  }

  /** The store after the list under `key` was flushed: only entries with a requeue left come back. */
  function Flushed(lists: Lists, key: Key, now: int, accepted: bool): Lists {
    var batch := Parse(InList(lists, key));
    var rest := lists - {key};
    var refilled := Refilled(rest, key.list, if accepted then [] else Kept(batch));
    if key.Base? then refilled - {Work(key.list, now)} else refilled
  }

  /** Posting from the renamed list, then deleting it, leaves what flushing means. */
  lemma DrainLeaves(lists: Lists, key: Key, now: int, accepted: bool)
    ensures var work := if key.Base? then Work(key.list, now) else key;
      var renamed := if key in lists then (lists - {key})[work := lists[key]] else lists;
      Refilled(renamed, key.list, if accepted then [] else Kept(Parse(InList(lists, key)))) - {work}
        == Flushed(lists, key, now, accepted)
  {
    hide Trim;
    var back := Kept(Parse(InList(lists, key)));
    if key in lists {
      var work := if key.Base? then Work(key.list, now) else key;
      var renamed := (lists - {key})[work := lists[key]];
      assert InList(renamed, Base(key.list)) == InList(lists - {key}, Base(key.list));
    }
  }

  /** What a flush leaves, list by list: others alone, the drained one gone, the newest 2000 under the base key. */
  lemma FlushedMeans(lists: Lists, key: Key, now: int, accepted: bool)
    ensures var after := Flushed(lists, key, now, accepted);
      var base := Base(key.list);
      var back := if accepted || key !in lists then [] else Kept(Parse(lists[key]));
      var all := (if key.Work? && base in lists then lists[base] else []) + back;
      && (forall k | k != key && k != base && k != Work(key.list, now) ::
            (k in after <==> k in lists) && (k in after ==> after[k] == lists[k]))
      && (key.Work? ==> key !in after)
      && (key.Base? ==> Work(key.list, now) !in after)
      && (key.Work? && key.stamp != now && Work(key.list, now) in lists ==>
            Work(key.list, now) in after && after[Work(key.list, now)] == lists[Work(key.list, now)])
      && (base in after <==> back != [] || (key.Work? && base in lists))
      && (back == [] && key.Work? && base in lists ==> after[base] == lists[base])
      && (back != [] ==> after[base] == if |all| <= 2000 then all else all[|all| - 2000..])
  {
    hide Parse, Kept;
    NothingBack(key.list);
  }

  lemma NothingBack(list: string)
    ensures Kept([]) == [] && Parse([]) == []
    ensures forall l :: Refilled(l, list, []) == l
  {
  }

  /** The Redis keys of the digest. */
  class DigestRedis {
    var lists: Lists
    var locks: map<string, int>

    method SetLockNx(list: string, now: int) returns (ok: bool)
      modifies this`locks
      ensures ok == (list !in old(locks))
      ensures locks == if ok then old(locks)[list := now] else old(locks)
    {
      ok := list !in locks;
      if ok {
        locks := locks[list := now];
      }
    }

    method DelLock(list: string)
      modifies this`locks
      ensures locks == old(locks) - {list}
    {
      locks := locks - {list};
    }

    method Rename(from: Key, to: Key) returns (ok: bool)
      modifies this`lists
      ensures ok == (from in old(lists))
      ensures lists == if ok then (old(lists) - {from})[to := old(lists)[from]] else old(lists)
    {
      ok := from in lists;
      if ok {
        lists := (lists - {from})[to := lists[from]];
      }
    }

    method Del(k: Key)
      modifies this`lists
      ensures lists == old(lists) - {k}
    {
      lists := lists - {k};
    }

    method Append(k: Key, es: seq<Entry>)
      modifies this`lists
      ensures lists == old(lists)[k := Trim(InList(old(lists), k) + es)]
    {
      lists := lists[k := Trim(InList(lists, k) + es)];
    }

    /** `accepted` tells whether a known category took at least one message. */
    method FlushKey(key: Key, now: int, accepted: bool) returns (posted: seq<Entry>)
      modifies this
      ensures locks == old(locks)
      ensures var es := if key in old(lists) then old(lists)[key] else [];
        var due := match key
          case Work(_, stamp) => now - stamp >= 120_000
          case Base(_) =>
            es != [] &&
            (|| now - es[|es| - 1].at >= (if es[|es| - 1].quietMs == 0 then 240_000 else es[|es| - 1].quietMs)
             || now - es[|es| - 1].at >= 3_600_000
             || now - es[0].at >= 3_600_000);
        if due && key.list !in old(locks) then
          lists == Flushed(old(lists), key, now, accepted) && posted == if accepted then Parse(es) else []
        else lists == old(lists) && posted == []
    {
      if key.Base? && key in lists && lists[key] != [] {
        DueInTheEnd(lists[key], now, now);
      }
      hide IsDue;
      EmptyIsNotDue(now);
      posted := [];
      var orphan := key.Work?;
      if orphan {
        if now - key.stamp < LOCK_TTL_MS { return; }
      } else if !IsDue(InList(lists, key), now) {
        return;
      }
      var locked := SetLockNx(key.list, now);
      if !locked { return; }
      var workKey := key;
      if !orphan {
        workKey := Work(key.list, now);
        var renamed := Rename(key, workKey);
      }
      hide Parse, Kept, Flushed, Refilled;
      var entries := Parse(InList(lists, workKey));
      DrainLeaves(old(lists), key, now, accepted);
      NothingBack(key.list);
      if entries != [] {
        posted := Post(key.list, entries, accepted);
      }
      Del(workKey);
      DelLock(key.list);
      assert locks == old(locks);
    }

    method Post(list: string, entries: seq<Entry>, accepted: bool) returns (posted: seq<Entry>)
      requires entries != []
      modifies this`lists
      ensures posted == if accepted then entries else []
      ensures lists == Refilled(old(lists), list, if accepted then [] else Kept(entries))
    {
      posted := [];
      if accepted { return entries; }
      var keep := Kept(entries);
      if keep != [] {
        Append(Base(list), keep);
      }
    }
  }

  // ---------------------------------------------------------------------------
  // The same flush as a path of the machine
  // ---------------------------------------------------------------------------

  lemma {:induction false} PossibleThen(s: State, actions: seq<Action>, a: Action)
    requires Possible(s, actions) && Enabled(After(s, actions), a)
    ensures Possible(s, actions + [a]) && After(s, actions + [a]) == Next(After(s, actions), a)
    decreases |actions|
  {
    hide Enabled, Next;
    if actions != [] {
      PossibleThen(Next(s, actions[0]), actions[1..], a);
      assert (actions + [a])[1..] == actions[1..] + [a];
    } else {
      assert ([a])[1..] == [];
    }
  }

  /** A fresh run up to the moment its lock is taken. */
  lemma PathToLock(s: State, key: Key, now: int) returns (actions: seq<Action>)
    requires key in s.lists && key.list !in s.locks && now !in s.stamps
    requires Ripe(s.lists, key, now)
    ensures Possible(s, actions) && forall a | a in actions :: !a.Crash? && !a.Fail? && !a.ExpireLock? && !a.ExpireKey?
    ensures var t := After(s, actions);
      && t.lists == s.lists && t.log == s.log && t.locks == s.locks[key.list := now]
      && t.runs == s.runs[now := Run({}, if key.Base? then Locked(key.list) else Owning(key))]
  {
    hide Possible, After;
    actions := [];
    StartsPossible(s);
    actions := Extend(s, actions, Begin(now));
    actions := Extend(s, actions, Scan(now, {key}));
    actions := Extend(s, actions, EndScan(now));
    actions := Extend(s, actions, Choose(now, key, true));
    actions := Extend(s, actions, Lock(now));
  }

  lemma StartsPossible(s: State)
    ensures Possible(s, []) && After(s, []) == s
  {
  }

  lemma Extend(s: State, actions: seq<Action>, a: Action) returns (longer: seq<Action>)
    requires Possible(s, actions) && Enabled(After(s, actions), a)
    ensures longer == actions + [a]
    ensures Possible(s, longer) && After(s, longer) == Next(After(s, actions), a)
  {
    PossibleThen(s, actions, a);
    longer := actions + [a];
  }

  /** From the lock on: the run owns the work list it makes, or the orphan it chose. */
  lemma PathToOwning(s: State, key: Key, now: int) returns (actions: seq<Action>, work: Key)
    requires key in s.lists && key.list !in s.locks && now !in s.stamps
    requires Ripe(s.lists, key, now)
    ensures Possible(s, actions) && forall a | a in actions :: !a.Crash? && !a.Fail? && !a.ExpireLock? && !a.ExpireKey?
    ensures work == if key.Base? then Work(key.list, now) else key
    ensures var t := After(s, actions);
      && t.lists == (s.lists - {key})[work := s.lists[key]]
      && t.log == s.log.(made := t.log.made)
      && t.locks == s.locks[key.list := now]
      && t.runs == s.runs[now := Run({}, Owning(work))]
  {
    hide Possible, After;
    actions := PathToLock(s, key, now);
    work := key;
    if key.Base? {
      actions := Extend(s, actions, NoticeDigest.Rename(now));
      work := Work(key.list, now);
    }
  }

  /** Reading and posting from any state in which the run owns its work list. */
  lemma PathToSpent(s: State, path: seq<Action>, work: Key, now: int, accepted: bool) returns (actions: seq<Action>)
    requires Possible(s, path) && now in After(s, path).runs
    requires After(s, path).runs[now] == Run({}, Owning(work))
    ensures Possible(s, actions) && path <= actions
    ensures forall a | a in actions[|path|..] :: !a.Crash? && !a.Fail? && !a.ExpireLock? && !a.ExpireKey?
    ensures var (t, u) := (After(s, path), After(s, actions));
      var batch := Parse(At(t, work));
      && u.lists == Refilled(t.lists, work.list, if accepted then [] else Kept(batch))
      && u.locks == t.locks
      && u.log.delivered == t.log.delivered + (if accepted then multiset(Ids(batch)) else multiset{})
      && u.runs == t.runs[now := Run({}, Spent(work))]
  {
    hide Possible, After, Parse, Kept, Trim, Cut, Ids, RetriedIds;
    var batch := Parse(At(After(s, path), work));
    EmptyBatch();
    actions := Extend(s, path, Read(now));
    if batch != [] {
      actions := Extend(s, actions, NoticeDigest.Action.Post(now, accepted));
      if !accepted {
        actions := Extend(s, actions, Requeue(now));
      }
    }
  }

  lemma EmptyBatch()
    ensures Kept([]) == [] && Ids([]) == {}
  {
  }

  /** From a spent work list to the end of the flush. */
  lemma PathToEnd(s: State, path: seq<Action>, work: Key, now: int) returns (actions: seq<Action>)
    requires Possible(s, path) && now in After(s, path).runs
    requires After(s, path).runs[now] == Run({}, Spent(work))
    ensures Possible(s, actions) && actions == path + [Delete(now)] + [Unlock(now)]
    ensures var (t, u) := (After(s, path), After(s, actions));
      && u.lists == t.lists - {work} && u.locks == t.locks - {work.list}
      && u.runs == t.runs[now := Run({}, Between)] && u.log == t.log
  {
    hide Possible, After;
    actions := Extend(s, path, Delete(now));
    actions := Extend(s, actions, Unlock(now));
  }

  /**
   * What FlushKey does is a run of the machine: from any state whose lock for the list is free, a run with
   * a fresh stamp can drain the list, and ends with the store FlushKey leaves and the lock free again.
   */
  lemma FlushIsARun(s: State, key: Key, now: int, accepted: bool) returns (actions: seq<Action>)
    requires key in s.lists && key.list !in s.locks && now !in s.stamps
    requires Ripe(s.lists, key, now)
    ensures Possible(s, actions) && forall a | a in actions :: !a.Crash? && !a.Fail? && !a.ExpireLock? && !a.ExpireKey?
    ensures var t := After(s, actions);
      && t.lists == Flushed(s.lists, key, now, accepted)
      && t.locks == s.locks
      && t.runs == s.runs[now := Run({}, Between)]
      && t.log.delivered == s.log.delivered + (if accepted then multiset(Ids(s.lists[key])) else multiset{})
  {
    hide Possible, After, Next, Enabled, Parse, Kept, Trim, Flushed, Refilled, Ids, IsDue;
    var path, work := PathToOwning(s, key, now);
    actions := PathToSpent(s, path, work, now, accepted);
    SameIds(s.lists[key]);
    DrainLeaves(s.lists, key, now, accepted);
    actions := PathToEnd(s, actions, work, now);
    assert After(s, actions).locks == s.locks;
  }

  lemma SameIds(es: seq<Entry>)
    ensures Ids(Parse(es)) == Ids(es)
  {
    ParseIsFilter(es);
  }

  // ---------------------------------------------------------------------------
  // A stale lock expires and a later run takes over
  // ---------------------------------------------------------------------------

  lemma FreshStamp(stamps: set<int>, least: int) returns (now: int)
    ensures now >= least && now !in stamps
    decreases |stamps|
  {
    if least !in stamps {
      now := least;
    } else {
      now := FreshStamp(stamps - {least}, least + 1);
    }
  }

  lemma {:induction false} PossibleJoin(s: State, first: seq<Action>, second: seq<Action>)
    requires Possible(s, first) && Possible(After(s, first), second)
    ensures Possible(s, first + second) && After(s, first + second) == After(After(s, first), second)
    decreases |first|
  {
    hide Enabled, Next;
    if first == [] {
      assert first + second == second;
    } else {
      PossibleJoin(Next(s, first[0]), first[1..], second);
      assert (first + second)[1..] == first[1..] + second;
    }
  }

  lemma StartFree(s: State, list: string) returns (free: seq<Action>)
    ensures Possible(s, free) && After(s, free) == s.(locks := s.locks - {list})
    ensures free == if list in s.locks then [ExpireLock(list)] else []
  {
    hide Possible, After;
    StartsPossible(s);
    free := [];
    if list in s.locks {
      free := Extend(s, free, ExpireLock(list));
    } else {
      assert s.locks - {list} == s.locks;
    }
  }
}
