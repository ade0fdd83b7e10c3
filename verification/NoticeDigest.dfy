/**
 * The notice digest: producers push entries to capped Redis lists; flushers drain a list by lock, RENAME,
 * LRANGE, post, DEL and unlock. Every Redis command is one atomic action, a flusher may stop between any
 * two of them, keys and locks may expire at any moment, and any number of flushers run at once.
 */
module NoticeDigest {

  const LIST_CAP: nat := 2000
  const LOCK_TTL_MS: int := 120_000
  const MAX_REQUEUES: nat := 1

  /** A producer's list, or the work list a flusher renamed it to (stamped with the time of its run). */
  datatype Key = Base(list: string) | Work(list: string, stamp: int)

  /**
   * `id` only names an entry for the accounts kept in `Log`; the program never reads it. `at` and `quietMs`
   * are what the due rule reads from the entry, zero where it reads nothing.
   */
  datatype Entry = Entry(id: nat, retry: nat, wellFormed: bool, at: int, quietMs: int)

  function Parse(raw: seq<Entry>): seq<Entry> {
    if raw == [] then []
    else (if raw[0].wellFormed then [raw[0]] else []) + Parse(raw[1..])
  }

  /** What a failed post puts back: entries not yet requeued, marked as requeued once more. */
  function Kept(batch: seq<Entry>): seq<Entry> {
    if batch == [] then []
    else (if batch[0].retry < MAX_REQUEUES then [batch[0].(retry := batch[0].retry + 1)] else []) + Kept(batch[1..])
  }

  /** LTRIM key -LIST_CAP -1 keeps the newest entries. */
  function Trim(es: seq<Entry>): seq<Entry> {
    if |es| <= LIST_CAP then es else es[|es| - LIST_CAP..]
  }

  function Cut(es: seq<Entry>): seq<Entry> {
    if |es| <= LIST_CAP then [] else es[..|es| - LIST_CAP]
  }

  function Ids(es: seq<Entry>): set<nat> {
    set e | e in es && e.wellFormed :: e.id
  }

  function RetriedIds(batch: seq<Entry>): set<nat> {
    set e | e in batch && e.wellFormed && e.retry >= MAX_REQUEUES :: e.id
  }

  // ---------------------------------------------------------------------------
  // State
  // ---------------------------------------------------------------------------

  /** Where a run stands; each phase names the Redis command or the post it makes next. */
  datatype Phase =
    | Scanning                                // SCAN
    | Between                                 // takes the next key
    | Chosen(key: Key)                        // SET lock NX EX
    | Locked(list: string)                    // RENAME
    | Owning(work: Key)                       // LRANGE
    | Loaded(work: Key, batch: seq<Entry>)    // post
    | Refused(work: Key, batch: seq<Entry>)   // MULTI RPUSH LTRIM EXPIRE
    | Spent(work: Key)                        // DEL work list
    | Releasing(list: string)                 // DEL lock

  datatype Run = Run(todo: set<Key>, phase: Phase)

  /** What happened to each well-formed entry; `pushed` gives the retry count it was pushed with. */
  datatype Log = Log(
    pushed: map<nat, nat>,
    delivered: multiset<nat>,
    failed: multiset<nat>,
    dropped: set<nat>,
    trimmed: set<nat>,
    expired: set<nat>,
    made: set<Key>)

  /** Runs are named by their stamps, which are assumed distinct; a lock holds the stamp of its owner. */
  datatype State = State(
    lists: map<Key, seq<Entry>>,
    locks: map<string, int>,
    runs: map<int, Run>,
    stamps: set<int>,
    log: Log)

  const EMPTY := State(map[], map[], map[], {}, Log(map[], multiset{}, multiset{}, {}, {}, {}, {}))

  function At(s: State, k: Key): seq<Entry> {
    if k in s.lists then s.lists[k] else []
  }

  /** One MULTI: RPUSH, LTRIM, EXPIRE. */
  function Append(s: State, list: string, es: seq<Entry>): State {
    var all := At(s, Base(list)) + es;
    s.(lists := s.lists[Base(list) := Trim(all)], log := s.log.(trimmed := s.log.trimmed + Ids(Cut(all))))
  }

  function Goto(s: State, now: int, phase: Phase): State
    requires now in s.runs
  {
    s.(runs := s.runs[now := s.runs[now].(phase := phase)])
  }

  /** Between SET NX and the deletion of the lock. */
  predicate InSection(phase: Phase) {
    !phase.Scanning? && !phase.Between? && !phase.Chosen?
  }

  function Held(phase: Phase): string
    requires InSection(phase)
  {
    if phase.Locked? || phase.Releasing? then phase.list else phase.work.list
  }

  // ---------------------------------------------------------------------------
  // Actions
  // ---------------------------------------------------------------------------

  datatype Action =
    | Push(list: string, entries: seq<Entry>)
    | Begin(now: int)
    | Scan(now: int, keys: set<Key>)
    | EndScan(now: int)
    | Choose(now: int, key: Key, due: bool)
    | Lock(now: int)
    | Rename(now: int)
    | Read(now: int)
    | Post(now: int, accepted: bool)
    | Requeue(now: int)
    | Delete(now: int)
    | Unlock(now: int)
    | Finish(now: int)
    | Fail(now: int)            // a Redis command of the run throws
    | Crash(now: int)
    | ExpireLock(list: string)
    | ExpireKey(key: Key)

  /** SCAN only returns keys that exist; pushed entries carry fresh ids. */
  predicate Enabled(s: State, a: Action) {
    match a
    case Push(list, es) =>
      && es != []
      && Distinct(Parse(es))
      && Ids(es) !! s.log.pushed.Keys
    case Begin(now) => now !in s.stamps
    case Scan(now, keys) => now in s.runs && s.runs[now].phase.Scanning? && keys <= s.lists.Keys
    case EndScan(now) => now in s.runs && s.runs[now].phase.Scanning?
    case Choose(now, key, _) => now in s.runs && s.runs[now].phase.Between? && key in s.runs[now].todo
    case Lock(now) => now in s.runs && s.runs[now].phase.Chosen?
    case Rename(now) => now in s.runs && s.runs[now].phase.Locked?
    case Read(now) => now in s.runs && s.runs[now].phase.Owning?
    case Post(now, _) => now in s.runs && s.runs[now].phase.Loaded?
    case Requeue(now) => now in s.runs && s.runs[now].phase.Refused?
    case Delete(now) => now in s.runs && s.runs[now].phase.Spent?
    case Unlock(now) => now in s.runs && s.runs[now].phase.Releasing?
    case Finish(now) => now in s.runs && s.runs[now].phase.Between?
    case Fail(now) => now in s.runs && (s.runs[now].phase.Chosen? || InSection(s.runs[now].phase))
    case Crash(now) => now in s.runs
    case ExpireLock(list) => list in s.locks
    case ExpireKey(key) => key in s.lists
  }

  function Next(s: State, a: Action): State
    requires Enabled(s, a)
  {
    match a
    case Push(list, es) => DoPush(s, list, es)
    case Begin(now) => s.(runs := s.runs[now := Run({}, Scanning)], stamps := s.stamps + {now})
    case Scan(now, keys) => s.(runs := s.runs[now := s.runs[now].(todo := s.runs[now].todo + keys)])
    case EndScan(now) => Goto(s, now, Between)
    case Choose(now, key, due) => DoChoose(s, now, key, due)
    case Lock(now) => DoLock(s, now)
    case Rename(now) => DoRename(s, now)
    case Read(now) =>
      var work := s.runs[now].phase.work;
      var batch := Parse(At(s, work));
      Goto(s, now, if batch == [] then Spent(work) else Loaded(work, batch))
    case Post(now, accepted) => DoPost(s, now, accepted)
    case Requeue(now) => DoRequeue(s, now)
    case Delete(now) =>
      var work := s.runs[now].phase.work;
      Goto(s.(lists := s.lists - {work}), now, Releasing(work.list))
    case Unlock(now) => Goto(s.(locks := s.locks - {s.runs[now].phase.list}), now, Between)
    case Finish(now) => s.(runs := s.runs - {now})
    case Fail(now) => DoFail(s, now)
    case Crash(now) => s.(runs := s.runs - {now})
    case ExpireLock(list) => s.(locks := s.locks - {list})
    case ExpireKey(key) =>
      s.(lists := s.lists - {key}, log := s.log.(expired := s.log.expired + Ids(s.lists[key])))
  }

  function DoPush(s: State, list: string, es: seq<Entry>): State {
    var s' := Append(s, list, es);
    s'.(log := s'.log.(pushed := s.log.pushed + RetryOf(Parse(es))))
  }

  function RetryOf(es: seq<Entry>): map<nat, nat> {
    if es == [] then map[] else RetryOf(es[1..])[es[0].id := es[0].retry]
  }

  /** A list is taken when it is due, a work list only once its stamp is as old as a lock can be. */
  function DoChoose(s: State, now: int, key: Key, due: bool): State
    requires now in s.runs
  {
    var run := s.runs[now];
    var go := if key.Work? then now - key.stamp >= LOCK_TTL_MS else due && key in s.lists;
    s.(runs := s.runs[now := Run(run.todo - {key}, if go then Chosen(key) else Between)])
  }

  function DoLock(s: State, now: int): State
    requires now in s.runs && s.runs[now].phase.Chosen?
  {
    var key := s.runs[now].phase.key;
    if key.list in s.locks then Goto(s, now, Between)
    else Goto(s.(locks := s.locks[key.list := now]), now, if key.Base? then Locked(key.list) else Owning(key))
  }

  function DoRename(s: State, now: int): State
    requires now in s.runs && s.runs[now].phase.Locked?
  {
    var list := s.runs[now].phase.list;
    var work := Work(list, now);
    if Base(list) !in s.lists then Goto(s, now, Releasing(list))
    else
      var s' := s.(lists := (s.lists - {Base(list)})[work := s.lists[Base(list)]],
                   log := s.log.(made := s.log.made + {work}));
      Goto(s', now, Owning(work))
  }

  function DoPost(s: State, now: int, accepted: bool): State
    requires now in s.runs && s.runs[now].phase.Loaded?
  {
    var Loaded(work, batch) := s.runs[now].phase;
    if accepted then
      Goto(s.(log := s.log.(delivered := s.log.delivered + multiset(Ids(batch)))), now, Spent(work))
    else
      Goto(s.(log := s.log.(failed := s.log.failed + multiset(Ids(batch)))), now, Refused(work, batch))
  }

  function DoRequeue(s: State, now: int): State
    requires now in s.runs && s.runs[now].phase.Refused?
  {
    var Refused(work, batch) := s.runs[now].phase;
    var s' := s.(log := s.log.(dropped := s.log.dropped + RetriedIds(batch)));
    Goto(if Kept(batch) == [] then s' else Append(s', work.list, Kept(batch)), now, Spent(work))
  }

  /** The error reaches the `finally` that deletes the lock; an error there is swallowed and the lock stays. */
  function DoFail(s: State, now: int): State
    requires now in s.runs
  {
    var phase := s.runs[now].phase;
    if InSection(phase) && !phase.Releasing? then Goto(s, now, Releasing(Held(phase)))
    else Goto(s, now, Between)
  }

  predicate Distinct(es: seq<Entry>) {
    forall i, j | 0 <= i < j < |es| :: es[i].id != es[j].id
  }

  // ---------------------------------------------------------------------------
  // Behaviours
  // ---------------------------------------------------------------------------

  predicate Possible(s: State, actions: seq<Action>)
    decreases |actions|
  {
    actions == [] || (Enabled(s, actions[0]) && Possible(Next(s, actions[0]), actions[1..]))
  }

  function After(s: State, actions: seq<Action>): State
    requires Possible(s, actions)
    decreases |actions|
  {
    if actions == [] then s else After(Next(s, actions[0]), actions[1..])
  }
}
