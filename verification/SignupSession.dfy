/**
 * The signup session of a phone: sending, resending and verifying codes. Calls for one phone are
 * serialised by the phone lock, so each call is one operation here; what Telegram, the configuration
 * and the persistence answer is given to it as an argument.
 */
module SignupSession {
  import opened Basics

  datatype Result<T> = Ok(value: T) | Err(error: Error)

  const BANNED_CACHE_MS: int := 6 * 60 * 60 * 1000
  const INVALID_CACHE_MS: int := 60 * 60 * 1000
  const NUMBER_FLOOD_CACHE_MS: int := 60 * 60 * 1000

  /** Errors by the text the service looks for. */
  datatype Error =
    | BadRequest | Flood(seconds: nat) | NumberFlood | Banned | Invalid
    | PasswordNeeded | Unoccupied | CodeInvalid | CodeExpired | ConnectionFailed | Other

  type Phone = string
  type Client = nat
  datatype Stage = CodeSent | AwaitingPassword
  datatype CodeType = App | Sms | SmsWord | SmsPhrase | FirebaseSms | Unknown | OtherType

  /** What mapSentCodeResult accepts from a SentCode. */
  datatype Sent = Sent(hash: string, codeType: CodeType, nextType: Option<string>, resendAfterMs: Option<nat>)

  datatype SentCode = Immediate | PaymentRequired | EmailSetup | WithoutHash | Code(sent: Sent)

  datatype Reply = Replied(code: SentCode) | Threw(error: Error)

  datatype Session = Session(
    client: Client, hash: string, stage: Stage, codeType: CodeType, nextType: Option<string>,
    resendAt: Option<int>, hint: Option<string>)

  function MapSentCode(code: SentCode): Result<Sent> {
    match code
    case Immediate => Err(BadRequest)
    case PaymentRequired => Err(BadRequest)
    case EmailSetup => Err(BadRequest)
    case WithoutHash => Err(Other)
    case Code(sent) => Ok(sent)
  }

  function Mapped(reply: Reply): Result<Sent> {
    if reply.Threw? then Err(reply.error) else MapSentCode(reply.code)
  }

  function ApplySentCode(session: Session, sent: Sent, now: int): Session {
    session.(hash := sent.hash, codeType := sent.codeType, nextType := sent.nextType,
             resendAt := if sent.resendAfterMs.Some? && sent.resendAfterMs.value > 0 then Some(now + sent.resendAfterMs.value) else None,
             stage := CodeSent, hint := None)
  }

  /** Errors after which no fresh connection is tried. */
  predicate Terminal(e: Error) {
    e.BadRequest? || e.Flood? || e.Banned? || e.Invalid? || e.NumberFlood?
  }

  predicate KeepsSession(e: Error) { e.Flood? || e.NumberFlood? }

  /** How long a rejected number is answered from the cache. */
  function RejectFor(e: Error): int {
    match e
    case Banned => BANNED_CACHE_MS
    case Invalid => INVALID_CACHE_MS
    case NumberFlood => NUMBER_FLOOD_CACHE_MS
    case Flood(seconds) => seconds * 1000
    case _ => 0
  }

  /** What happens while a dropped connection is restored. */
  datatype Restore = Restore(reconnects: bool, rebuildError: Option<Error>)

  datatype SendScript = SendScript(
    restore: Restore, resendCode: Reply, sendAgain: Reply,
    configError: Option<Error>, connectError: Option<Error>, send: Reply, upgrade: Reply,
    saveError: Option<Error>)

  datatype SignIn = Empty | SignUpRequired | Authorized | Refused(error: Error)

  datatype VerifyScript = VerifyScript(
    codeShaped: bool, restore: Restore, codeFits: bool, signIn: SignIn,
    registers: bool, persists: bool, hint: Option<string>, passwordError: Option<Error>)

  function RestoreError(isConnected: bool, restore: Restore): Option<Error> {
    if isConnected || restore.reconnects then None else restore.rebuildError
  }

  // ---------------------------------------------------------------------------
  // Sending: which way a call goes
  // ---------------------------------------------------------------------------

  /** How a resend on the existing session ends; other errors than terminal ones lead to a fresh send. */
  datatype Attempt = Resent(sent: Sent) | Stopped(error: Error) | FallsBack

  function ErrorAttempt(e: Error): Attempt {
    if Terminal(e) then Stopped(e) else FallsBack
  }

  /** With another delivery channel, or none known, the code is resent; otherwise it is requested again. */
  function ResendReply(session: Session, script: SendScript): Reply {
    if session.nextType.Some? || session.codeType == Unknown then script.resendCode else script.sendAgain
  }

  function AttemptOf(session: Session, isConnected: bool, script: SendScript): Attempt {
    var restoreError := RestoreError(isConnected, script.restore);
    var mapped := Mapped(ResendReply(session, script));
    if restoreError.Some? then ErrorAttempt(restoreError.value)
    else if mapped.Err? then ErrorAttempt(mapped.error)
    else Resent(mapped.value)
  }

  datatype Path = CachedReject | Cooldown | Resend(attempt: Attempt) | Fresh

  function PathOf(session: Option<Session>, isConnected: bool, rejectedUntil: Option<int>, now: int, script: SendScript): Path {
    if rejectedUntil.Some? && rejectedUntil.value > now then CachedReject
    else if session.None? || session.value.stage != CodeSent then Fresh
    else if session.value.resendAt.Some? && session.value.resendAt.value > now then Cooldown
    else Resend(AttemptOf(session.value, isConnected, script))
  }

  /** Firebase delivery cannot be used; another channel is tried at once. */
  function Upgraded(sent: Sent, upgrade: Reply): Sent {
    if sent.codeType == FirebaseSms && sent.nextType.Some? && Mapped(upgrade).Ok? then Mapped(upgrade).value else sent
  }

  function FreshResult(script: SendScript): Result<Sent> {
    if script.configError.Some? then Err(script.configError.value)
    else if script.connectError.Some? then Err(script.connectError.value)
    else if Mapped(script.send).Err? then Err(Mapped(script.send).error)
    else if script.saveError.Some? then Err(script.saveError.value)
    else Ok(Upgraded(Mapped(script.send).value, script.upgrade))
  }

  /** A client connected and got its code, but its session could not be saved and registered. */
  predicate LosesClient(script: SendScript) {
    script.configError.None? && script.connectError.None? && Mapped(script.send).Ok? && script.saveError.Some?
  }

  predicate GoesFresh(path: Path) { path == Fresh || path == Resend(FallsBack) }

  function ResultOf(path: Path, session: Option<Session>, script: SendScript): Result<Sent>
    requires path == Cooldown ==> session.Some?
  {
    match path
    case CachedReject => Err(BadRequest)
    case Cooldown => Ok(Sent(session.value.hash, session.value.codeType, session.value.nextType, None))
    case Resend(Resent(sent)) => Ok(sent)
    case Resend(Stopped(e)) => Err(e)
    case _ => FreshResult(script)
  }

  // ---------------------------------------------------------------------------
  // Verifying: what a call does to the session
  // ---------------------------------------------------------------------------

  datatype Outcome = LoggedIn | NeedsPassword | Failed(error: Error)

  /** The answer, and what becomes of the session: kept in a stage, or torn down. */
  datatype Effect = Keeps(outcome: Outcome, stage: Stage, hint: Option<string>) | TearsDown(outcome: Outcome)

  /** Only a failed connection makes the outermost handler tear the session down. */
  function Failing(e: Error, stage: Stage, hint: Option<string>): Effect {
    if e.ConnectionFailed? then TearsDown(Failed(e)) else Keeps(Failed(e), stage, hint)
  }

  function PasswordStep(hasPassword: bool, script: VerifyScript, hint: Option<string>): Effect {
    if !hasPassword then Keeps(NeedsPassword, AwaitingPassword, hint)
    else if script.passwordError.Some? then Failing(script.passwordError.value, AwaitingPassword, hint)
    else TearsDown(LoggedIn)
  }

  function SignInStep(session: Session, hasPassword: bool, script: VerifyScript): Effect {
    var refuse := Keeps(Failed(BadRequest), CodeSent, session.hint);
    match script.signIn
    case Empty => refuse
    case SignUpRequired => if script.registers then TearsDown(LoggedIn) else refuse
    case Authorized => if script.persists then TearsDown(LoggedIn) else refuse
    case Refused(PasswordNeeded) => PasswordStep(hasPassword, script, script.hint)
    case Refused(Unoccupied) => if script.registers then TearsDown(LoggedIn) else refuse
    case Refused(CodeExpired) => TearsDown(Failed(BadRequest))
    case Refused(Banned) => TearsDown(Failed(BadRequest))
    case Refused(_) => refuse
  }

  function EffectOf(session: Session, isConnected: bool, hasPassword: bool, script: VerifyScript): Effect {
    var awaiting := session.stage == AwaitingPassword;
    var restoreError := RestoreError(isConnected, script.restore);
    if !awaiting && !script.codeShaped then Keeps(Failed(BadRequest), CodeSent, session.hint)
    else if restoreError.Some? then Failing(restoreError.value, session.stage, session.hint)
    else if awaiting then PasswordStep(hasPassword, script, session.hint)
    else if !script.codeFits then Keeps(Failed(BadRequest), CodeSent, session.hint)
    else SignInStep(session, hasPassword, script)
  }

  /** The password step is entered only when Telegram asks for the password, and a login ends the session. */
  lemma VerifyTransitions(session: Session, isConnected: bool, hasPassword: bool, script: VerifyScript)
    ensures var effect := EffectOf(session, isConnected, hasPassword, script);
      && (effect.Keeps? && effect.stage == AwaitingPassword && session.stage == CodeSent ==> script.signIn == Refused(PasswordNeeded))
      && (effect.Keeps? && session.stage == AwaitingPassword ==> effect.stage == AwaitingPassword)
      && (effect.outcome == LoggedIn ==> effect.TearsDown?)
      && (effect.outcome == NeedsPassword ==> effect.Keeps? && effect.stage == AwaitingPassword && !hasPassword)
      && (session.stage == CodeSent && RestoreError(isConnected, script.restore).None? && script.signIn.Refused?
          && (script.signIn.error.Flood? || script.signIn.error.CodeInvalid?)
          ==> effect == Keeps(Failed(BadRequest), CodeSent, session.hint))
  {
  }

  /** A session to which a code was sent. */
  predicate SentTo(session: Session, sent: Sent, now: int) {
    && session.hash == sent.hash && session.codeType == sent.codeType && session.nextType == sent.nextType
    && session.resendAt == (if sent.resendAfterMs.Some? && sent.resendAfterMs.value > 0 then Some(now + sent.resendAfterMs.value) else None)
    && session.stage == CodeSent && session.hint == None
  }

  /** Until when an error of a send is answered from the cache. */
  function CachedUntil(e: Error, now: int): Option<int> {
    match e
    case Banned => Some(now + 21_600_000)
    case Invalid => Some(now + 3_600_000)
    case NumberFlood => Some(now + 3_600_000)
    case Flood(seconds) => if seconds > 0 then Some(now + 1000 * seconds) else None
    case _ => None
  }

  /** What a reply is worth: a code, or the error it stands for. */
  ghost predicate Answers(reply: Reply, r: Result<Sent>) {
    match reply
    case Threw(e) => r == Err(e)
    case Replied(Code(sent)) => r == Ok(sent)
    case Replied(WithoutHash) => r == Err(Other)
    case Replied(_) => r == Err(BadRequest)
  }

  /**
   * A send call from its inputs: what it answers, the session it leaves (`after`) and until when the number is
   * then rejected (`until`).
   */
  ghost predicate SendOutcome(session: Option<Session>, isConnected: bool, rejectedUntil: Option<int>, now: int,
                              script: SendScript, r: Result<Sent>, after: Option<Session>, until: Option<int>) {
    var live := session.Some? && session.value.stage == CodeSent;
    if rejectedUntil.Some? && rejectedUntil.value > now then
      r == Err(BadRequest) && after == None && until == rejectedUntil
    else if live && session.value.resendAt.Some? && session.value.resendAt.value > now then
      && r == Ok(Sent(session.value.hash, session.value.codeType, session.value.nextType, None))
      && after == session && until == None
    else
      (live && ResendOutcome(session.value, isConnected, now, script, r, after, until))
      || ((!live || ResendGivesUp(session.value, isConnected, script)) && FreshOutcome(now, script, r, after, until))
  }

  /** The reply to a resend, or the error of restoring the connection. */
  ghost predicate ResendAnswers(session: Session, isConnected: bool, script: SendScript, r: Result<Sent>) {
    if !isConnected && !script.restore.reconnects && script.restore.rebuildError.Some? then
      r == Err(script.restore.rebuildError.value)
    else Answers(if session.nextType.Some? || session.codeType == Unknown then script.resendCode else script.sendAgain, r)
  }

  predicate Stops(e: Error) { e.BadRequest? || e.Flood? || e.NumberFlood? || e.Banned? || e.Invalid? }

  ghost predicate ResendOutcome(session: Session, isConnected: bool, now: int, script: SendScript,
                                r: Result<Sent>, after: Option<Session>, until: Option<int>) {
    && ResendAnswers(session, isConnected, script, r)
    && (r.Ok? ==> after.Some? && SentTo(after.value, r.value, now) && until == None)
    && (r.Err? ==>
          && Stops(r.error)
          && (after.Some? <==> r.error.Flood? || r.error.NumberFlood?)
          && (after.Some? ==> after.value == session.(client := after.value.client))
          && until == CachedUntil(r.error, now))
  }

  ghost predicate ResendGivesUp(session: Session, isConnected: bool, script: SendScript) {
    exists r :: ResendAnswers(session, isConnected, script, r) && r.Err? && !Stops(r.error)
  }

  /** In order: configuration, connection, the reply, saving; a Firebase code is replaced by another channel's if one answers. */
  ghost predicate FreshOutcome(now: int, script: SendScript, r: Result<Sent>, after: Option<Session>, until: Option<int>) {
    && (r.Ok? <==>
          && script.configError == None && script.connectError == None && script.saveError == None
          && script.send.Replied? && script.send.code.Code?)
    && (r.Ok? ==>
          var first := script.send.code.sent;
          && (if first.codeType == FirebaseSms && first.nextType.Some? && script.upgrade.Replied? && script.upgrade.code.Code?
              then r.value == script.upgrade.code.sent else r.value == first)
          && after.Some? && SentTo(after.value, r.value, now) && until == None)
    && (r.Err? ==>
          && (if script.configError.Some? then r.error == script.configError.value
              else if script.connectError.Some? then r.error == script.connectError.value
              else if script.send.Replied? && script.send.code.Code? then script.saveError == Some(r.error)
              else Answers(script.send, r))
          && after == None && until == CachedUntil(r.error, now))
  }

  /** What a call leaves by the way it goes. */
  ghost predicate Leaves(path: Path, session: Option<Session>, rejectedUntil: Option<int>, now: int, r: Result<Sent>,
                         after: Option<Session>, until: Option<int>) {
    match path
    case CachedReject => after == None && until == rejectedUntil
    case Cooldown => after == session && until == None
    case Resend(Resent(sent)) => after.Some? && SentTo(after.value, sent, now) && until == None
    case Resend(Stopped(e)) =>
      && (after.Some? <==> KeepsSession(e))
      && (after.Some? ==> session.Some? && after.value == session.value.(client := after.value.client))
      && until == CachedUntil(e, now)
    case _ =>
      if r.Ok? then after.Some? && SentTo(after.value, r.value, now) && until == None
      else after == None && until == CachedUntil(r.error, now)
  }

  lemma LeavesShows(path: Path, session: Option<Session>, isConnected: bool, rejectedUntil: Option<int>, now: int,
                    script: SendScript, r: Result<Sent>, after: Option<Session>, until: Option<int>)
    requires path == PathOf(session, isConnected, rejectedUntil, now, script) && r == ResultOf(path, session, script)
    requires Leaves(path, session, rejectedUntil, now, r, after, until)
    ensures r.Ok? ==> after.Some? && after.value.stage == CodeSent && after.value.hash == r.value.hash
    ensures r.Err? ==> (after.Some? <==> path == Resend(Stopped(r.error)) && KeepsSession(r.error))
    ensures after.Some? && (path == Cooldown || r.Err?) ==>
      session.Some? && after.value.hash == session.value.hash && after.value.stage == session.value.stage
    ensures path != CachedReject && r.Err? && RejectFor(r.error) > 0 ==> until == Some(now + RejectFor(r.error))
  {
    hide AttemptOf, FreshResult;
  }

  /** The way a call goes and its result, against the inputs alone. */
  lemma ResultIsOutcome(session: Option<Session>, isConnected: bool, rejectedUntil: Option<int>, now: int,
                        script: SendScript, after: Option<Session>, until: Option<int>)
    requires var path := PathOf(session, isConnected, rejectedUntil, now, script);
      Leaves(path, session, rejectedUntil, now, ResultOf(path, session, script), after, until)
    ensures var r := ResultOf(PathOf(session, isConnected, rejectedUntil, now, script), session, script);
      SendOutcome(session, isConnected, rejectedUntil, now, script, r, after, until)
  {
    var path := PathOf(session, isConnected, rejectedUntil, now, script);
    if path == Resend(FallsBack) {
      var mapped := if RestoreError(isConnected, script.restore).Some? then Err(RestoreError(isConnected, script.restore).value)
                    else Mapped(ResendReply(session.value, script));
      assert ResendAnswers(session.value, isConnected, script, mapped) && mapped.Err? && !Stops(mapped.error);
    }
  }

  /** The outcomes of a verify call on a session, from its inputs alone. */
  lemma EffectIsOutcome(session: Session, isConnected: bool, hasPassword: bool, script: VerifyScript, after: Option<Session>)
    requires var effect := EffectOf(session, isConnected, hasPassword, script);
      && (after.Some? <==> effect.Keeps?)
      && (effect.Keeps? ==>
            after.value.hash == session.hash && after.value.stage == effect.stage && after.value.hint == effect.hint)
    ensures VerifyOutcome(session, isConnected, hasPassword, script,
                          EffectOf(session, isConnected, hasPassword, script).outcome, after)
  {
  }

  /**
   * When a verify call logs in, asks for the password, or fails, and what it leaves of the session. `up`: its client
   * is connected or was restored; `signsIn`: the code goes to Telegram; `needsPassword`: only the password is missing.
   */
  ghost predicate VerifyOutcome(session: Session, isConnected: bool, hasPassword: bool, script: VerifyScript,
                                outcome: Outcome, after: Option<Session>) {
    var awaiting := session.stage == AwaitingPassword;
    var shaped := awaiting || script.codeShaped;
    var up := isConnected || script.restore.reconnects || script.restore.rebuildError == None;
    var signsIn := shaped && up && !awaiting && script.codeFits;
    var needsPassword := (shaped && up && awaiting) || (signsIn && script.signIn == Refused(PasswordNeeded));
    && (outcome == LoggedIn <==>
          || (needsPassword && hasPassword && script.passwordError == None)
          || (signsIn && script.signIn == Authorized && script.persists)
          || (signsIn && (script.signIn == SignUpRequired || script.signIn == Refused(Unoccupied)) && script.registers))
    && (outcome == NeedsPassword <==> needsPassword && !hasPassword)
    && (outcome.Failed? ==>
          if shaped && !up then Some(outcome.error) == script.restore.rebuildError
          else if needsPassword then Some(outcome.error) == script.passwordError
          else outcome.error == BadRequest)
    && (after.Some? ==>
          && after.value.hash == session.hash
          && (after.value.stage == AwaitingPassword <==> awaiting || needsPassword)
          && after.value.hint == if signsIn && needsPassword then script.hint else session.hint)
    && (after == None <==>
          || outcome == LoggedIn
          || (shaped && !up && script.restore.rebuildError == Some(ConnectionFailed))
          || (needsPassword && hasPassword && script.passwordError == Some(ConnectionFailed))
          || (signsIn && (script.signIn == Refused(CodeExpired) || script.signIn == Refused(Banned))))
  }

  class TgSignupService {
    var activeClients: map<Phone, Session>
    var rejectCache: map<Phone, int>

    /** Clients with an open connection, and the number the next client gets. */
    var connected: set<Client>
    var nextClient: Client

    /** The hash of the last SentCode accepted for each phone. */
    ghost var lastAccepted: map<Phone, string>
    /** The phone each client was opened for. */
    ghost var openedFor: map<Client, Phone>
    /** Clients that were left connected without a session. */
    ghost var leaked: set<Client>

    /** The client belongs to the session registered for the phone it was opened for. */
    ghost predicate Registered(c: Client)
      reads this
    {
      c in openedFor && openedFor[c] in activeClients && activeClients[openedFor[c]].client == c
    }

    ghost predicate Valid()
      reads this
    {
      && (forall c | c in connected :: c in leaked || Registered(c))
      && (forall c | c in openedFor :: c < nextClient)
      && (forall c | c in leaked :: c < nextClient)
      && (forall p | p in activeClients :: SessionOk(p))
    }

    ghost predicate SessionOk(p: Phone)
      requires p in activeClients
      reads this
    {
      var session := activeClients[p];
      && session.client in openedFor && openedFor[session.client] == p && session.client !in leaked
      && p in lastAccepted && session.hash == lastAccepted[p]
    }

    constructor ()
      ensures Valid() && activeClients == map[] && rejectCache == map[]
      ensures connected == {} && leaked == {} && lastAccepted == map[]
    {
      activeClients, rejectCache, connected, nextClient := map[], map[], {}, 0;
      lastAccepted, openedFor, leaked := map[], map[], {};
    }

    /** The client is destroyed and the session removed in one step. */
    method DisconnectClient(phone: Phone)
      requires Valid()
      modifies this`activeClients, this`connected
      ensures Valid() && activeClients == old(activeClients) - {phone}
      ensures connected == if phone in old(activeClients) then old(connected) - {old(activeClients)[phone].client} else old(connected)
    {
      if phone in activeClients {
        connected := connected - {activeClients[phone].client};
        activeClients := activeClients - {phone};
      }
    }

    /** The connection may drop at any time. */
    method Drop(client: Client)
      requires Valid()
      modifies this`connected
      ensures Valid() && connected == old(connected) - {client}
    {
      connected := connected - {client};
    }

    /** Returns with the session's client connected, reconnecting or rebuilding it; only the client changes. */
    method EnsureConnectedClient(phone: Phone, restore: Restore) returns (error: Option<Error>)
      requires Valid() && phone in activeClients
      modifies this`activeClients, this`connected, this`nextClient, this`openedFor
      ensures Valid() && nextClient >= old(nextClient)
      ensures phone in activeClients
      ensures activeClients == old(activeClients)[phone := old(activeClients)[phone].(client := activeClients[phone].client)]
      ensures activeClients[phone].client == old(activeClients)[phone].client || activeClients[phone].client == old(nextClient)
      ensures error.None? ==> activeClients[phone].client in connected
      ensures error == if old(activeClients)[phone].client in old(connected) || restore.reconnects then None else restore.rebuildError
    {
      var session := activeClients[phone];
      if session.client in connected {
        return None;
      }
      if restore.reconnects {
        connected := connected + {session.client};
        return None;
      }
      if restore.rebuildError.Some? {
        return restore.rebuildError;
      }
      var rebuilt := nextClient;
      nextClient := nextClient + 1;
      connected := connected + {rebuilt};
      openedFor := openedFor[rebuilt := phone];
      activeClients := activeClients[phone := session.(client := rebuilt)];
      return None;
    }

    ghost function SessionOf(phone: Phone): Option<Session>
      reads this
    {
      if phone in activeClients then Some(activeClients[phone]) else None
    }

    ghost predicate IsConnected(phone: Phone)
      reads this
    {
      phone in activeClients && activeClients[phone].client in connected
    }

    ghost function RejectedUntil(phone: Phone): Option<int>
      reads this
    {
      if phone in rejectCache then Some(rejectCache[phone]) else None
    }

    method RememberRejection(phone: Phone, e: Error, now: int)
      modifies this`rejectCache
      ensures old(Valid()) ==> Valid()
      ensures rejectCache == if RejectFor(e) > 0 then old(rejectCache)[phone := now + RejectFor(e)] else old(rejectCache)
    {
      if RejectFor(e) > 0 {
        rejectCache := rejectCache[phone := now + RejectFor(e)];
      }
    }

    /** mapSentCodeResult and, when it accepts, applySentCode on the registered session. */
    method Accept(phone: Phone, sent: Sent, now: int)
      requires Valid() && phone in activeClients
      modifies this`activeClients, this`lastAccepted
      ensures Valid()
      ensures activeClients == old(activeClients)[phone := ApplySentCode(old(activeClients)[phone], sent, now)]
      ensures lastAccepted == old(lastAccepted)[phone := sent.hash]
    {
      activeClients := activeClients[phone := ApplySentCode(activeClients[phone], sent, now)];
      lastAccepted := lastAccepted[phone := sent.hash];
    }

    method TryResend(phone: Phone, now: int, script: SendScript) returns (attempt: Attempt)
      requires Valid() && phone in activeClients
      modifies this`activeClients, this`connected, this`nextClient, this`openedFor, this`lastAccepted
      ensures Valid() && phone in activeClients
      ensures attempt == AttemptOf(old(activeClients)[phone], old(IsConnected(phone)), script)
      ensures activeClients - {phone} == old(activeClients) - {phone}
      ensures var was := old(activeClients)[phone].(client := activeClients[phone].client);
        activeClients[phone] == if attempt.Resent? then ApplySentCode(was, attempt.sent, now) else was
      ensures lastAccepted == if attempt.Resent? then old(lastAccepted)[phone := attempt.sent.hash] else old(lastAccepted)
    {
      var error := EnsureConnectedClient(phone, script.restore);
      if error.Some? {
        return ErrorAttempt(error.value);
      }
      var mapped := Mapped(ResendReply(activeClients[phone], script));
      if mapped.Err? {
        return ErrorAttempt(mapped.error);
      }
      Accept(phone, mapped.value, now);
      return Resent(mapped.value);
    }

    method Register(phone: Phone, client: Client, sent: Sent, now: int)
      requires Valid() && phone !in activeClients && client < nextClient
      requires client !in openedFor && client !in connected && client !in leaked
      modifies this`activeClients, this`connected, this`openedFor, this`lastAccepted
      ensures Valid() && connected == old(connected) + {client}
      ensures phone in activeClients && activeClients - {phone} == old(activeClients)
      ensures activeClients[phone].client == client && SentTo(activeClients[phone], sent, now)
    {
      connected := connected + {client};
      lastAccepted := lastAccepted[phone := sent.hash];
      openedFor := openedFor[client := phone];
      var blank := Session(client, "", CodeSent, Unknown, None, None, None);
      activeClients := activeClients[phone := ApplySentCode(blank, sent, now)];
    }

    /** The session could not be saved: its client stays connected for nobody. */
    method Leak(client: Client)
      requires Valid() && client < nextClient && client !in openedFor && client !in connected && client !in leaked
      modifies this`connected, this`leaked
      ensures Valid() && connected == old(connected) + {client} && leaked == old(leaked) + {client}
    {
      connected := connected + {client};
      leaked := leaked + {client};
    }

    /** A new client and session; a client that got its code but could not be saved stays connected for nobody. */
    method FreshSend(phone: Phone, now: int, script: SendScript) returns (r: Result<Sent>)
      requires Valid() && phone !in activeClients
      modifies this`activeClients, this`connected, this`nextClient, this`openedFor, this`lastAccepted, this`leaked
      ensures Valid() && r == FreshResult(script)
      ensures activeClients - {phone} == old(activeClients) && (phone in activeClients <==> r.Ok?)
      ensures r.Ok? ==> SentTo(activeClients[phone], r.value, now) && IsConnected(phone)
      ensures leaked == if LosesClient(script) then old(leaked) + {old(nextClient)} else old(leaked)
      ensures LosesClient(script) ==> old(nextClient) in connected && old(nextClient) !in old(leaked)
    {
      if script.configError.Some? {
        return Err(script.configError.value);
      }
      var client := nextClient;
      nextClient := nextClient + 1;
      if script.connectError.Some? {
        return Err(script.connectError.value);
      }
      var mapped := Mapped(script.send);
      if mapped.Err? {
        return Err(mapped.error);
      }
      var sent := Upgraded(mapped.value, script.upgrade);
      hide Upgraded, Mapped;
      lastAccepted := lastAccepted[phone := sent.hash];
      if script.saveError.Some? {
        Leak(client);
        return Err(script.saveError.value);
      }
      Register(phone, client, sent, now);
      return Ok(sent);
    }

    method FreshPath(phone: Phone, now: int, script: SendScript) returns (r: Result<Sent>)
      requires Valid()
      modifies this
      ensures Valid() && r == FreshResult(script)
      ensures activeClients - {phone} == old(activeClients) - {phone} && (phone in activeClients <==> r.Ok?)
      ensures r.Ok? ==> SentTo(activeClients[phone], r.value, now) && IsConnected(phone)
      ensures leaked != old(leaked) <==> LosesClient(script)
      ensures old(leaked) <= leaked && forall c | c in leaked && c !in old(leaked) :: c in connected
      ensures Remembers(r, phone, now, old(rejectCache), rejectCache)
    {
      hide FreshResult, LosesClient, RejectFor, SessionOk, Registered;
      DisconnectClient(phone);
      r := FreshSend(phone, now, script);
      if r.Err? {
        DisconnectClient(phone);
        RememberRejection(phone, r.error, now);
      }
    }

    ghost predicate Remembers(r: Result<Sent>, phone: Phone, now: int, before: map<Phone, int>, after: map<Phone, int>) {
      after == if r.Err? && RejectFor(r.error) > 0 then before[phone := now + RejectFor(r.error)] else before
    }

    /** What a resend attempt that ends the call does; one that falls back only may have rebuilt the client. */
    method ResendPath(phone: Phone, now: int, script: SendScript) returns (attempt: Attempt)
      requires Valid() && phone in activeClients
      modifies this`activeClients, this`connected, this`nextClient, this`openedFor, this`lastAccepted, this`rejectCache
      ensures Valid() && attempt == AttemptOf(old(activeClients)[phone], old(IsConnected(phone)), script)
      ensures activeClients - {phone} == old(activeClients) - {phone}
      ensures phone in activeClients <==> !(attempt.Stopped? && !KeepsSession(attempt.error))
      ensures phone in activeClients && !attempt.Resent? ==>
        activeClients[phone] == old(activeClients)[phone].(client := activeClients[phone].client)
      ensures attempt.Resent? ==> SentTo(activeClients[phone], attempt.sent, now)
      ensures attempt.Stopped? ==> Remembers(Err(attempt.error), phone, now, old(rejectCache), rejectCache)
      ensures !attempt.Stopped? ==> rejectCache == old(rejectCache)
    {
      hide AttemptOf;
      attempt := TryResend(phone, now, script);
      if attempt.Stopped? {
        if !KeepsSession(attempt.error) {
          DisconnectClient(phone);
        }
        RememberRejection(phone, attempt.error, now);
      }
    }

    /** A stale rejection is dropped; a live one answers the call. */
    method CachedRejection(phone: Phone, now: int) returns (rejected: bool)
      modifies this`rejectCache
      ensures old(Valid()) ==> Valid()
      ensures rejected <==> phone in old(rejectCache) && old(rejectCache)[phone] > now
      ensures rejectCache == if rejected then old(rejectCache) else old(rejectCache) - {phone}
    {
      if phone !in rejectCache {
        return false;
      }
      if rejectCache[phone] <= now {
        rejectCache := rejectCache - {phone};
        return false;
      }
      return true;
    }

    /** The steps of a call; `path` tells the way it goes. */
    method SendByPath(phone: Phone, now: int, script: SendScript) returns (r: Result<Sent>, ghost path: Path)
      requires Valid()
      modifies this
      ensures Valid() && activeClients - {phone} == old(activeClients) - {phone}
      ensures path == PathOf(old(SessionOf(phone)), old(IsConnected(phone)), old(RejectedUntil(phone)), now, script)
      ensures path == Cooldown ==> phone in old(activeClients)
      ensures r == ResultOf(path, old(SessionOf(phone)), script)
      ensures leaked != old(leaked) <==> GoesFresh(path) && LosesClient(script)
      ensures old(leaked) <= leaked && forall c | c in leaked && c !in old(leaked) :: c in connected
      ensures rejectCache - {phone} == old(rejectCache) - {phone}
      ensures Leaves(path, old(SessionOf(phone)), old(RejectedUntil(phone)), now, r, SessionOf(phone), RejectedUntil(phone))
    {
      hide AttemptOf, FreshResult, LosesClient, Valid, SentTo;
      path := PathOf(SessionOf(phone), IsConnected(phone), RejectedUntil(phone), now, script);
      var rejected := CachedRejection(phone, now);
      if rejected {
        DisconnectClient(phone);
        return Err(BadRequest), path;
      }
      if phone in activeClients && activeClients[phone].stage == CodeSent {
        var session := activeClients[phone];
        if session.resendAt.Some? && session.resendAt.value > now {
          return Ok(Sent(session.hash, session.codeType, session.nextType, None)), path;
        }
        var attempt := ResendPath(phone, now, script);
        if attempt.Resent? {
          return Ok(attempt.sent), path;
        }
        if attempt.Stopped? {
          return Err(attempt.error), path;
        }
      }
      r := FreshPath(phone, now, script);
    }

    /**
     * The answer and the session after it, by the way the call goes: a code is registered exactly when one is
     * returned, an error keeps a session only for a flood on a resend, a cooldown or such a flood leaves hash
     * and stage alone, and a client is lost exactly when a fresh one got its code and could not be saved.
     */
    method SendCodeLocked(phone: Phone, now: int, script: SendScript) returns (r: Result<Sent>, ghost path: Path)
      requires Valid()
      modifies this
      ensures Valid() && activeClients - {phone} == old(activeClients) - {phone}
      ensures path == PathOf(old(SessionOf(phone)), old(IsConnected(phone)), old(RejectedUntil(phone)), now, script)
      ensures path == Cooldown ==> phone in old(activeClients)
      ensures r == ResultOf(path, old(SessionOf(phone)), script)
      ensures r.Ok? ==> phone in activeClients && activeClients[phone].stage == CodeSent && activeClients[phone].hash == r.value.hash
      ensures r.Err? ==> (phone in activeClients <==> path == Resend(Stopped(r.error)) && KeepsSession(r.error))
      ensures phone in activeClients && (path == Cooldown || r.Err?) ==>
        && phone in old(activeClients)
        && activeClients[phone].hash == old(activeClients)[phone].hash
        && activeClients[phone].stage == old(activeClients)[phone].stage
      ensures leaked != old(leaked) <==> GoesFresh(path) && LosesClient(script)
      ensures old(leaked) <= leaked && forall c | c in leaked && c !in old(leaked) :: c in connected
      ensures rejectCache - {phone} == old(rejectCache) - {phone}
      ensures path != CachedReject && r.Err? && RejectFor(r.error) > 0 ==>
        phone in rejectCache && rejectCache[phone] == now + RejectFor(r.error)
      ensures SendOutcome(old(SessionOf(phone)), old(IsConnected(phone)), old(RejectedUntil(phone)), now, script, r,
                          SessionOf(phone), RejectedUntil(phone))
    {
      r, path := SendByPath(phone, now, script);
      hide Valid, PathOf, ResultOf, SendOutcome, Leaves, LosesClient, RejectFor;
      LeavesShows(path, old(SessionOf(phone)), old(IsConnected(phone)), old(RejectedUntil(phone)), now, script, r,
                  SessionOf(phone), RejectedUntil(phone));
      ResultIsOutcome(old(SessionOf(phone)), old(IsConnected(phone)), old(RejectedUntil(phone)), now, script,
                      SessionOf(phone), RejectedUntil(phone));
    }

    method FailWith(phone: Phone, e: Error) returns (outcome: Outcome)
      requires Valid()
      modifies this`activeClients, this`connected
      ensures Valid() && outcome == Failed(e)
      ensures activeClients == if e.ConnectionFailed? then old(activeClients) - {phone} else old(activeClients)
    {
      if e.ConnectionFailed? {
        DisconnectClient(phone);
      }
      return Failed(e);
    }

    /** A stored login ends the session; one that cannot be stored leaves it. */
    method LoginIf(phone: Phone, stored: bool) returns (outcome: Outcome)
      requires Valid()
      modifies this`activeClients, this`connected
      ensures Valid() && outcome == if stored then LoggedIn else Failed(BadRequest)
      ensures activeClients == if stored then old(activeClients) - {phone} else old(activeClients)
    {
      if !stored {
        return Failed(BadRequest);
      }
      DisconnectClient(phone);
      return LoggedIn;
    }

    method PasswordLogin(phone: Phone, hasPassword: bool, script: VerifyScript, ghost hint: Option<string>) returns (outcome: Outcome)
      requires Valid()
      modifies this`activeClients, this`connected
      ensures Valid()
      ensures var effect := PasswordStep(hasPassword, script, hint);
        outcome == effect.outcome && activeClients == if effect.TearsDown? then old(activeClients) - {phone} else old(activeClients)
    {
      if !hasPassword {
        return NeedsPassword;
      }
      if script.passwordError.Some? {
        outcome := FailWith(phone, script.passwordError.value);
        return;
      }
      outcome := LoginIf(phone, true);
    }

    /** A registered session answers for the effect of a verify call. */
    ghost predicate Follows(phone: Phone, before: map<Phone, Session>, effect: Effect)
      requires phone in before
      reads this
    {
      && (phone in activeClients <==> effect.Keeps?)
      && (effect.Keeps? ==>
            && activeClients[phone].hash == before[phone].hash
            && activeClients[phone].stage == effect.stage
            && activeClients[phone].hint == effect.hint)
    }

    method SignInWithCode(phone: Phone, hasPassword: bool, script: VerifyScript) returns (outcome: Outcome)
      requires Valid() && phone in activeClients && activeClients[phone].stage == CodeSent
      modifies this`activeClients, this`connected
      ensures Valid() && activeClients - {phone} == old(activeClients) - {phone}
      ensures var effect := SignInStep(old(activeClients)[phone], hasPassword, script);
        outcome == effect.outcome && Follows(phone, old(activeClients), effect)
    {
      match script.signIn
      case Empty =>
        return Failed(BadRequest);
      case SignUpRequired =>
        outcome := LoginIf(phone, script.registers);
      case Authorized =>
        outcome := LoginIf(phone, script.persists);
      case Refused(e) =>
        if e.PasswordNeeded? {
          activeClients := activeClients[phone := activeClients[phone].(stage := AwaitingPassword, hint := script.hint)];
          outcome := PasswordLogin(phone, hasPassword, script, script.hint);
        } else if e.Unoccupied? {
          outcome := LoginIf(phone, script.registers);
        } else {
          if e.CodeExpired? || e.Banned? {
            DisconnectClient(phone);
          }
          return Failed(BadRequest);
        }
    }

    /** The steps of a verify call. */
    method VerifyByEffect(phone: Phone, hasPassword: bool, script: VerifyScript) returns (outcome: Outcome)
      requires Valid()
      modifies this`activeClients, this`connected, this`nextClient, this`openedFor
      ensures Valid() && activeClients - {phone} == old(activeClients) - {phone}
      ensures phone !in old(activeClients) ==> outcome == Failed(BadRequest) && phone !in activeClients
      ensures phone in old(activeClients) ==>
        var effect := EffectOf(old(activeClients)[phone], old(IsConnected(phone)), hasPassword, script);
        outcome == effect.outcome && Follows(phone, old(activeClients), effect)
    {
      hide SignInStep;
      if phone !in activeClients {
        return Failed(BadRequest);
      }
      var awaiting := activeClients[phone].stage == AwaitingPassword;
      if !awaiting && !script.codeShaped {
        return Failed(BadRequest);
      }
      ghost var session := activeClients[phone];
      var error := EnsureConnectedClient(phone, script.restore);
      if error.Some? {
        outcome := FailWith(phone, error.value);
      } else if awaiting {
        outcome := PasswordLogin(phone, hasPassword, script, activeClients[phone].hint);
      } else if !script.codeFits {
        outcome := Failed(BadRequest);
      } else {
        SignInIgnoresClient(session, activeClients[phone], hasPassword, script);
        outcome := SignInWithCode(phone, hasPassword, script);
      }
    }

    method VerifyCodeLocked(phone: Phone, hasPassword: bool, script: VerifyScript) returns (outcome: Outcome)
      requires Valid()
      modifies this`activeClients, this`connected, this`nextClient, this`openedFor
      ensures Valid() && activeClients - {phone} == old(activeClients) - {phone}
      ensures phone !in old(activeClients) ==> outcome == Failed(BadRequest) && phone !in activeClients
      ensures phone in old(activeClients) ==>
        var effect := EffectOf(old(activeClients)[phone], old(IsConnected(phone)), hasPassword, script);
        outcome == effect.outcome && Follows(phone, old(activeClients), effect)
      ensures phone in old(activeClients) ==>
        VerifyOutcome(old(activeClients)[phone], old(IsConnected(phone)), hasPassword, script, outcome, SessionOf(phone))
    {
      hide Valid, EffectOf, VerifyOutcome;
      outcome := VerifyByEffect(phone, hasPassword, script);
      if phone in old(activeClients) {
        EffectIsOutcome(old(activeClients)[phone], old(IsConnected(phone)), hasPassword, script, SessionOf(phone));
      }
    }

    /**
     * Any sequence of calls, expiries and dropped connections, for any phones: every client still connected
     * belongs to the session registered for its phone, whose hash is the last one accepted, unless some
     * fresh send could not save its client.
     */
    method Serve(events: seq<Event>)
      requires Valid() && leaked == {}
      modifies this
      ensures Valid()
      ensures (forall e | e in events && e.SendCode? :: !LosesClient(e.sendScript)) ==>
        forall c | c in connected :: Registered(c)
    {
      for i := 0 to |events|
        invariant Valid()
        invariant (forall e | e in events[..i] && e.SendCode? :: !LosesClient(e.sendScript)) ==> leaked == {}
      {
        var e := events[i];
        assert events[..i + 1] == events[..i] + [e];
        match e
        case SendCode(phone, now, script) =>
          var r, path := SendCodeLocked(phone, now, script);
        case VerifyCode(phone, hasPassword, script) =>
          var outcome := VerifyCodeLocked(phone, hasPassword, script);
        case Expire(phone) =>
          DisconnectClient(phone);
        case ConnectionDrops(client) =>
          Drop(client);
      }
      assert events[..|events|] == events;
    }
  }

  lemma SignInIgnoresClient(a: Session, b: Session, hasPassword: bool, script: VerifyScript)
    requires a.hint == b.hint
    ensures SignInStep(a, hasPassword, script) == SignInStep(b, hasPassword, script)
  {
  }

  datatype Event =
    | SendCode(phone: Phone, now: int, sendScript: SendScript)
    | VerifyCode(verified: Phone, hasPassword: bool, verifyScript: VerifyScript)
    | Expire(expired: Phone)
    | ConnectionDrops(client: Client)

  /** One fresh send that cannot be saved is enough to leave a client connected for no session. */
  method LostClient() returns (service: TgSignupService)
    ensures service.Valid() && exists c :: c in service.connected && !service.Registered(c)
  {
    service := new TgSignupService();
    var sent := Sent("hash", App, None, None);
    var script := SendScript(Restore(true, None), Replied(Code(sent)), Replied(Code(sent)),
                             None, None, Replied(Code(sent)), Replied(Code(sent)), Some(Other));
    var r, path := service.SendCodeLocked("919999900001", 0, script);
    ghost var c :| c in service.leaked;
    assert c in service.connected && !service.Registered(c);
  }
}
