/**
 * The per-phone promise chain and the collapsing of concurrent send-code calls. A task is one call of
 * withPhoneLock, numbered by arrival; the steps of different tasks interleave freely.
 */
module PhoneLock {
  import opened Basics

  /** Waiting for the task before it, running, settled either way, past its own clean-up, past sendCode's. */
  datatype Status = Waiting | Running | Settled(ok: bool) | Released(ok: bool) | Finished(ok: bool)

  datatype Task = Task(phone: string, send: bool, previous: Option<nat>, status: Status)

  /** `joined` lists the callers that were handed another call's pending send. */
  datatype State = State(
    tasks: seq<Task>,
    phoneLocks: map<string, nat>,
    inflightSends: map<string, nat>,
    joined: seq<(string, nat)>)

  const EMPTY := State([], map[], map[], [])

  datatype Action =
    | Send(phone: string)
    | Verify(phone: string)
    | Start(id: nat)
    | Settle(id: nat, succeeds: bool)
    | Release(id: nat)
    | Finish(id: nat)

  predicate HasSettled(t: Task) { !t.status.Waiting? && !t.status.Running? }

  predicate Done(t: Task) { if t.send then t.status.Finished? else t.status.Released? || t.status.Finished? }

  predicate Enabled(s: State, a: Action) {
    match a
    case Send(_) => true
    case Verify(_) => true
    case Start(id) =>
      && id < |s.tasks| && s.tasks[id].status.Waiting?
      && (s.tasks[id].previous.Some? ==>
            s.tasks[id].previous.value < |s.tasks| && HasSettled(s.tasks[s.tasks[id].previous.value]))
    case Settle(id, _) => id < |s.tasks| && s.tasks[id].status.Running?
    case Release(id) => id < |s.tasks| && s.tasks[id].status.Settled?
    case Finish(id) => id < |s.tasks| && s.tasks[id].status.Released? && s.tasks[id].send
  }

  /** withPhoneLock up to its first await. */
  function Arrive(s: State, phone: string, send: bool): State {
    var previous := if phone in s.phoneLocks then Some(s.phoneLocks[phone]) else None;
    s.(tasks := s.tasks + [Task(phone, send, previous, Waiting)], phoneLocks := s.phoneLocks[phone := |s.tasks|])
  }

  function To(s: State, id: nat, status: Status): State
    requires id < |s.tasks|
  {
    s.(tasks := s.tasks[id := s.tasks[id].(status := status)])
  }

  /** The entry goes only if it is still this task's. */
  function Without(m: map<string, nat>, phone: string, id: nat): map<string, nat> {
    if phone in m && m[phone] == id then m - {phone} else m
  }

  function Next(s: State, a: Action): State
    requires Enabled(s, a)
  {
    match a
    case Send(phone) =>
      if phone in s.inflightSends then s.(joined := s.joined + [(phone, s.inflightSends[phone])])
      else Arrive(s, phone, true).(inflightSends := s.inflightSends[phone := |s.tasks|])
    case Verify(phone) => Arrive(s, phone, false)
    case Start(id) => To(s, id, Running)
    case Settle(id, succeeds) => To(s, id, Settled(succeeds))
    case Release(id) =>
      To(s, id, Released(s.tasks[id].status.ok)).(phoneLocks := Without(s.phoneLocks, s.tasks[id].phone, id))
    case Finish(id) =>
      To(s, id, Finished(s.tasks[id].status.ok)).(inflightSends := Without(s.inflightSends, s.tasks[id].phone, id))
  }

  // ---------------------------------------------------------------------------
  // Invariant
  // ---------------------------------------------------------------------------

  predicate Same(s: State, i: nat, j: nat)
    requires i < |s.tasks| && j < |s.tasks|
  {
    s.tasks[i].phone == s.tasks[j].phone
  }

  /** Every earlier task of the phone has settled once this one has started. */
  ghost predicate InOrder(s: State) {
    forall i, j | 0 <= i < j < |s.tasks| && Same(s, i, j) && !s.tasks[j].status.Waiting? :: HasSettled(s.tasks[i])
  }

  /** A task waits for the one that arrived just before it, or for nobody when all earlier ones have settled. */
  ghost predicate Linked(s: State, j: nat)
    requires j < |s.tasks|
  {
    match s.tasks[j].previous
    case None => forall i | 0 <= i < j && Same(s, i, j) :: HasSettled(s.tasks[i])
    case Some(p) => p < j && Same(s, p, j) && forall i | p < i < j :: !Same(s, i, j)
  }

  ghost predicate Chained(s: State) {
    forall j | 0 <= j < |s.tasks| :: Linked(s, j)
  }

  ghost predicate IsLatest(s: State, phone: string, id: nat) {
    && id < |s.tasks|
    && s.tasks[id].phone == phone
    && !s.tasks[id].status.Released? && !s.tasks[id].status.Finished?
    && forall i | id < i < |s.tasks| :: s.tasks[i].phone != phone
  }

  /** The lock entry is the phone's latest task and goes when that task is released. */
  ghost predicate LocksLatest(s: State) {
    && (forall phone | phone in s.phoneLocks :: IsLatest(s, phone, s.phoneLocks[phone]))
    && (forall i | 0 <= i < |s.tasks| && s.tasks[i].phone !in s.phoneLocks :: HasSettled(s.tasks[i]))
  }

  ghost predicate IsPending(s: State, phone: string, id: nat) {
    id < |s.tasks| && s.tasks[id].phone == phone && s.tasks[id].send && !s.tasks[id].status.Finished?
  }

  /** The in-flight entry of a phone is its one send that is not finished; joiners were given such an entry. */
  ghost predicate OneSend(s: State) {
    && (forall phone | phone in s.inflightSends :: IsPending(s, phone, s.inflightSends[phone]))
    && (forall i | 0 <= i < |s.tasks| && s.tasks[i].send && !s.tasks[i].status.Finished? ::
          s.tasks[i].phone in s.inflightSends && s.inflightSends[s.tasks[i].phone] == i)
    && (forall k | 0 <= k < |s.joined| :: Joined(s, s.joined[k]))
  }

  ghost predicate Joined(s: State, join: (string, nat)) {
    join.1 < |s.tasks| && s.tasks[join.1].phone == join.0 && s.tasks[join.1].send
  }

  ghost predicate Inv(s: State) {
    InOrder(s) && Chained(s) && LocksLatest(s) && OneSend(s)
  }

  lemma ChainedStep(s: State, a: Action)
    requires Chained(s) && LocksLatest(s) && Enabled(s, a)
    ensures Chained(Next(s, a))
  {
    var s' := Next(s, a);
    forall j | 0 <= j < |s'.tasks|
      ensures Linked(s', j)
    {
      if j < |s.tasks| {
        assert Linked(s, j);
        assert forall i | 0 <= i < j :: Same(s', i, j) == Same(s, i, j);
      } else if s'.tasks[j].previous.Some? {
        assert IsLatest(s, s'.tasks[j].phone, s'.tasks[j].previous.value);
      }
    }
  }

  lemma InOrderStep(s: State, a: Action)
    requires InOrder(s) && Chained(s) && Enabled(s, a)
    ensures InOrder(Next(s, a))
  {
    var s' := Next(s, a);
    forall i, j | 0 <= i < j < |s'.tasks| && Same(s', i, j) && !s'.tasks[j].status.Waiting?
      ensures HasSettled(s'.tasks[i])
    {
      assert Same(s, i, j);
      if a == Start(j) {
        assert Linked(s, j);
        var previous := s.tasks[j].previous;
        if previous.Some? && i < previous.value {
          assert Same(s, i, previous.value);
        }
      }
    }
  }

  lemma LocksLatestStep(s: State, a: Action)
    requires InOrder(s) && LocksLatest(s) && Enabled(s, a)
    ensures LocksLatest(Next(s, a))
  {
    var s' := Next(s, a);
    forall phone | phone in s'.phoneLocks
      ensures IsLatest(s', phone, s'.phoneLocks[phone])
    {
      assert phone in s.phoneLocks ==> IsLatest(s, phone, s.phoneLocks[phone]);
    }
    forall i | 0 <= i < |s'.tasks| && s'.tasks[i].phone !in s'.phoneLocks
      ensures HasSettled(s'.tasks[i])
    {
      var phone := s'.tasks[i].phone;
      if phone in s.phoneLocks {
        assert IsLatest(s, phone, s.phoneLocks[phone]);
        assert i != a.id ==> i < a.id && Same(s, i, a.id);
      }
    }
  }

  lemma OneSendStep(s: State, a: Action)
    requires OneSend(s) && Enabled(s, a)
    ensures OneSend(Next(s, a))
  {
    var s' := Next(s, a);
    forall phone | phone in s'.inflightSends
      ensures IsPending(s', phone, s'.inflightSends[phone])
    {
      assert phone in s.inflightSends ==> IsPending(s, phone, s.inflightSends[phone]);
    }
    forall k | 0 <= k < |s'.joined|
      ensures Joined(s', s'.joined[k])
    {
      assert k < |s.joined| ==> Joined(s, s.joined[k]);
      assert a.Send? && a.phone in s.inflightSends ==> IsPending(s, a.phone, s.inflightSends[a.phone]);
    }
  }

  // ---------------------------------------------------------------------------
  // Behaviours
  // ---------------------------------------------------------------------------

  predicate Possible(s: State, actions: seq<Action>)
    decreases |actions|
  {
    actions == [] || (Enabled(s, actions[0]) && Possible(Next(s, actions[0]), actions[1..]))
  }

  function After(s: State, actions: seq<Action>): State
    requires Possible(s, actions)
    decreases |actions|
  {
    if actions == [] then s else After(Next(s, actions[0]), actions[1..])
  }

  lemma {:induction false} InvAfter(s: State, actions: seq<Action>)
    requires Inv(s) && Possible(s, actions)
    ensures Inv(After(s, actions))
    decreases |actions|
  {
    hide Enabled, Next;
    if actions != [] {
      ChainedStep(s, actions[0]);
      InOrderStep(s, actions[0]);
      LocksLatestStep(s, actions[0]);
      OneSendStep(s, actions[0]);
      InvAfter(Next(s, actions[0]), actions[1..]);
    }
  }

  // ---------------------------------------------------------------------------
  // What every interleaving keeps
  // ---------------------------------------------------------------------------

  /**
   * Of one phone's tasks at most one runs, none starts before every earlier one has settled whether or not
   * that one failed, and at most one send is pending.
   */
  lemma OneAtATimeInOrder(actions: seq<Action>, i: nat, j: nat)
    requires Possible(EMPTY, actions)
    requires var s := After(EMPTY, actions); i < j < |s.tasks| && Same(s, i, j)
    ensures var s := After(EMPTY, actions);
      && !(s.tasks[i].status.Running? && s.tasks[j].status.Running?)
      && (!s.tasks[j].status.Waiting? ==> HasSettled(s.tasks[i]))
      && (s.tasks[i].send && s.tasks[j].send ==> s.tasks[i].status.Finished? || s.tasks[j].status.Finished?)
  {
    InvAfter(EMPTY, actions);
  }

  /** Nothing is left in either map for a phone whose tasks are all done. */
  lemma MapsEmptyWhenDone(actions: seq<Action>, phone: string)
    requires Possible(EMPTY, actions)
    requires var s := After(EMPTY, actions); forall i | 0 <= i < |s.tasks| && s.tasks[i].phone == phone :: Done(s.tasks[i])
    ensures var s := After(EMPTY, actions); phone !in s.phoneLocks && phone !in s.inflightSends
  {
    InvAfter(EMPTY, actions);
    var s := After(EMPTY, actions);
    assert phone in s.phoneLocks ==> IsLatest(s, phone, s.phoneLocks[phone]);
    assert phone in s.inflightSends ==> IsPending(s, phone, s.inflightSends[phone]);
  }

  /** A caller that joins shares the one send of its phone that is still pending. */
  lemma JoinersShareThePendingSend(actions: seq<Action>, phone: string)
    requires Possible(EMPTY, actions) && phone in After(EMPTY, actions).inflightSends
    ensures var s := After(EMPTY, actions);
      var s' := Next(s, Send(phone));
      var id := s.inflightSends[phone];
      && s'.tasks == s.tasks
      && s'.joined == s.joined + [(phone, id)]
      && id < |s.tasks| && s.tasks[id].phone == phone && s.tasks[id].send && !s.tasks[id].status.Finished?
      && forall i | 0 <= i < |s.tasks| && s.tasks[i].phone == phone && s.tasks[i].send && !s.tasks[i].status.Finished? :: i == id
  {
    InvAfter(EMPTY, actions);
    assert IsPending(After(EMPTY, actions), phone, After(EMPTY, actions).inflightSends[phone]);
  }

  /** No phone is ever stuck: while one of its tasks is not done, one of them can take its next step. */
  lemma NeverStuck(actions: seq<Action>, id: nat) returns (next: Action)
    requires Possible(EMPTY, actions)
    requires var s := After(EMPTY, actions); id < |s.tasks| && !Done(s.tasks[id])
    ensures var s := After(EMPTY, actions);
      && Enabled(s, next) && !next.Send? && !next.Verify?
      && next.id < |s.tasks| && Same(s, next.id, id)
  {
    InvAfter(EMPTY, actions);
    next := NextStep(After(EMPTY, actions), id);
  }

  /** However a task settles, the one waiting for it can start, and callers are given the outcome it settled with. */
  lemma FailurePassesOn(s: State, i: nat, j: nat, ok: bool)
    requires i < |s.tasks| && s.tasks[i].status.Running?
    requires j < |s.tasks| && s.tasks[j].status.Waiting? && s.tasks[j].previous == Some(i)
    ensures !Enabled(s, Start(j)) && Enabled(s, Settle(i, ok))
    ensures var s' := Next(s, Settle(i, ok));
      && Enabled(s', Start(j)) && Enabled(s', Release(i))
      && Next(s', Release(i)).tasks[i].status == Released(ok)
      && (s.tasks[i].send ==>
            && Enabled(Next(s', Release(i)), Finish(i))
            && Next(Next(s', Release(i)), Finish(i)).tasks[i].status == Finished(ok))
  {
  }

  lemma NextStep(s: State, id: nat) returns (next: Action)
    requires Chained(s) && id < |s.tasks| && !Done(s.tasks[id])
    ensures Enabled(s, next) && !next.Send? && !next.Verify?
    ensures next.id < |s.tasks| && Same(s, next.id, id)
    decreases id
  {
    assert Linked(s, id);
    match s.tasks[id].status
    case Running => next := Settle(id, true);
    case Settled(_) => next := Release(id);
    case Released(_) => next := Finish(id);
    case Waiting =>
      if s.tasks[id].previous.Some? && !HasSettled(s.tasks[s.tasks[id].previous.value]) {
        next := NextStep(s, s.tasks[id].previous.value);
      } else {
        next := Start(id);
      }
  }
}
