/**
 * The connect sequence (`_connect`) and the two ways operations obtain a handle:
 * reconnecting on a non-null, non-zero `db` (get, set, scan, deleteAll), or only
 * connecting lazily when no handle exists (every other operation).
 */
module Connection {
  import opened Wrappers
  import opened Php
  import opened Exceptions
  import opened Config
  import opened RedisServer

  /** The process-wide state: the static fields and the live handle `_redis`. */
  datatype Session = Session(settings: Settings, redis: Option<Handle>)

  /** The state after preparing a session, the calls issued meanwhile, and the exception raised if any. */
  datatype Step = Step(session: Session, calls: seq<Call>, error: Option<Error>)

  /** The result of the handshake on a fresh client object. */
  datatype Attempt = Attempt(calls: seq<Call>, outcome: Result<Handle, Error>)

  const ScanRetry := Str("Redis::SCAN_RETRY")

  /** Handshake call `i`: open the connection, the three client options, authenticate, select. */
  function HandshakeCall(s: Settings, i: nat): Call
    requires s.db.Some? && i < 6
  {
    match i
    case 0 => if Truthy(s.persistent) then PConnect(s.host, s.port) else Connect(s.host, s.port)
    case 1 => SetOption(OptPrefix, s.prefix)
    case 2 => SetOption(OptSerializer, s.serializer)
    case 3 => SetOption(OptScan, ScanRetry)
    case 4 => Auth(s.password)
    case 5 => Select(s.db.value)
  }

  /** The exception raised when handshake step `i` is refused. */
  function StepError(s: Settings, i: nat): Error
    requires s.db.Some? && i < 6
  {
    match i
    case 0 =>
      Unconnected((if Truthy(s.persistent) then "Could not pconnect to the Redis server "
                   else "Could not connect to the Redis server ") + ToStr(s.host) + ":" + IntToString(s.port))
    case 1 => InvalidArgument("Name: Redis::OPT_PREFIXValue: " + ToStr(s.prefix))
    case 2 => InvalidArgument("Name: Redis::OPT_SERIALIZERValue: " + ToStr(s.serializer))
    case 3 => InvalidArgument("Name: Redis::SCAN_RETRYValue: " + ToStr(s.serializer))
    case 4 => Authorization("With the Redis server")
    case 5 => UnSelected("Redis server selected database failed, the db name: " + IntToString(s.db.value))
  }

  /** Each step has its own exception class: connecting, the options, authentication and selection. */
  lemma StepErrorKinds(s: Settings, i: nat)
    requires s.db.Some? && i < 6
    ensures i == 0 <==> StepError(s, i).Unconnected?
    ensures 1 <= i <= 3 <==> StepError(s, i).InvalidArgument?
    ensures i == 4 <==> StepError(s, i).Authorization?
    ensures i == 5 <==> StepError(s, i).UnSelected?
  {
  }

  /** The calls of handshake steps `k` to 5 as issued, and the first refused step, if any. */
  datatype Progress = Progress(calls: seq<Call>, refused: Option<nat>)

  /** Handshake steps `k` to 5, once every step before `k` was accepted. */
  function HandshakeFrom(s: Settings, e: Endpoint, k: nat): (p: Progress)
    requires s.db.Some? && k <= 6
    ensures k + |p.calls| <= 6 && (k < 6 ==> p.calls != [])
    ensures forall i :: 0 <= i < |p.calls| ==> p.calls[i] == HandshakeCall(s, k + i)
    // Issuing stops right after the refused step, or runs to the last step.
    ensures p.refused.Some? ==> p.refused.value == k + |p.calls| - 1
    ensures p.refused.None? ==> |p.calls| == 6 - k
    decreases 6 - k
  {
    if k == 6 then Progress([], None)
    else if !Accepts(e, HandshakeCall(s, k)) then Progress([HandshakeCall(s, k)], Some(k))
    else
      var rest := HandshakeFrom(s, e, k + 1);
      Progress([HandshakeCall(s, k)] + rest.calls, rest.refused)
  }

  /** Every step issued before the last was accepted; the refused step, if any, was refused. */
  lemma {:induction false} HandshakeFromAccepted(s: Settings, e: Endpoint, k: nat)
    requires s.db.Some? && k <= 6
    ensures var p := HandshakeFrom(s, e, k);
      && (forall i :: k <= i < k + |p.calls| - 1 ==> Accepts(e, HandshakeCall(s, i)))
      && (p.refused.Some? ==> !Accepts(e, HandshakeCall(s, p.refused.value)))
    decreases 6 - k
  {
    if k < 6 && Accepts(e, HandshakeCall(s, k)) {
      HandshakeFromAccepted(s, e, k + 1);
    }
  }

  /** No step from `k` on is refused exactly when the server accepts all of them. */
  lemma {:induction false} HandshakeFromVerdict(s: Settings, e: Endpoint, k: nat)
    requires s.db.Some? && k <= 6
    ensures HandshakeFrom(s, e, k).refused.None? <==> forall i :: k <= i < 6 ==> Accepts(e, HandshakeCall(s, i))
    decreases 6 - k
  {
    if k < 6 && Accepts(e, HandshakeCall(s, k)) {
      HandshakeFromVerdict(s, e, k + 1);
    }
  }

  /** The exception of the refused step, or the handle on the selected database. */
  function Outcome(s: Settings, p: Progress): (r: Result<Handle, Error>)
    requires s.db.Some? && (p.refused.Some? ==> p.refused.value < 6)
    ensures r.Failure? <==> p.refused.Some?
  {
    if p.refused.Some? then Failure(StepError(s, p.refused.value))
    else Success(Handle(s.db.value, ToStr(s.prefix), Truthy(s.persistent)))
  }

  /**
   * The handshake of `_connect` on resolved settings: open the connection, set
   * the three client options, authenticate, select the database, stopping at
   * the first refused step.
   */
  function Handshake(s: Settings, e: Endpoint): (a: Attempt)
    requires s.db.Some?
    // The calls made are a non-empty prefix of the six steps, every one but the last accepted.
    ensures 1 <= |a.calls| <= 6 && forall i :: 0 <= i < |a.calls| ==> a.calls[i] == HandshakeCall(s, i)
    ensures forall i :: 0 <= i < |a.calls| - 1 ==> Accepts(e, HandshakeCall(s, i))
    // It succeeds exactly when the server accepts all six steps.
    ensures a.outcome.Success? <==> forall i :: 0 <= i < 6 ==> Accepts(e, HandshakeCall(s, i))
    ensures a.outcome.Success? ==>
      |a.calls| == 6 && a.outcome.value == Handle(s.db.value, ToStr(s.prefix), Truthy(s.persistent))
    // A failure is the last call's refusal, with that step's own exception.
    ensures a.outcome.Failure? ==>
      !Accepts(e, HandshakeCall(s, |a.calls| - 1)) && a.outcome.error == StepError(s, |a.calls| - 1)
  {
    HandshakeFromAccepted(s, e, 0);
    HandshakeFromVerdict(s, e, 0);
    var p := HandshakeFrom(s, e, 0);
    Attempt(p.calls, Outcome(s, p))
  }

  /** `_connect`: initialize, then the handshake; the handle is installed only when every step succeeded. */
  function ConnectStep(ses: Session, src: Source, ext: bool, e: Endpoint): (r: Step)
    // A failure anywhere leaves the previous handle in place; a success leaves a handle.
    ensures r.error.Some? ==> r.session.redis == ses.redis
    ensures r.error.None? ==> r.session.redis.Some?
    ensures r.session.settings == Initialize(ext, src, ses.settings).settings
  {
    var init := Initialize(ext, src, ses.settings);
    if init.failure.Some? then Step(Session(init.settings, ses.redis), [], init.failure)
    else
      var a := Handshake(init.settings, e);
      if a.outcome.Failure? then Step(Session(init.settings, ses.redis), a.calls, Some(a.outcome.error))
      else Step(Session(init.settings, Some(a.outcome.value)), a.calls, None)
  }

  /** Once the settings resolve, `_connect` is the handshake on them. */
  lemma ConnectStepResolved(ses: Session, src: Source, ext: bool, e: Endpoint)
    requires Initialize(ext, src, ses.settings).failure.None?
    ensures var s := Initialize(ext, src, ses.settings).settings;
      s.db.Some? &&
      var a := Handshake(s, e);
      ConnectStep(ses, src, ext, e) ==
        if a.outcome.Failure? then Step(Session(s, ses.redis), a.calls, Some(a.outcome.error))
        else Step(Session(s, Some(a.outcome.value)), a.calls, None)
  {
  }

  /**
   * A successful `_connect` installs a handle on the configured database,
   * whatever `_db` held before, with the configured prefix and persistence.
   */
  lemma ConnectStepInstalls(ses: Session, src: Source, ext: bool, e: Endpoint)
    ensures var r := ConnectStep(ses, src, ext, e);
      r.error.None? ==>
        && r.session.redis == Some(Handle(DbOf(src), ToStr(PrefixOf(src, ses.settings)), Truthy(PersistentOf(src, ses.settings))))
        && r.session.settings.db == Some(DbOf(src))
  {
    var init := Initialize(ext, src, ses.settings);
    if init.failure.None? {
      ResolvedSettings(src, ses.settings);
      ConnectStepResolved(ses, src, ext, e);
    }
  }

  /** `_connect` issues calls to the server exactly when the extension is loaded and the settings resolve. */
  lemma ConnectStepIssues(ses: Session, src: Source, ext: bool, e: Endpoint)
    ensures ConnectStep(ses, src, ext, e).calls != [] <==> ext && Resolve(src, ses.settings).failure.None?
  {
    if Initialize(ext, src, ses.settings).failure.None? {
      ConnectStepResolved(ses, src, ext, e);
    }
  }

  /** `$db != null` for an integer or null: neither null nor 0 asks for a reconnect. */
  predicate TriggersReconnect(db: Option<int>) {
    db.Some? && db.value != 0
  }

  /**
   * The preamble of get, set, scan and deleteAll: store `db` and reconnect when
   * it is neither null nor 0, then connect if there is still no handle.
   */
  function PrepareReconnecting(ses: Session, db: Option<int>, src: Source, ext: bool, e: Endpoint): (r: Step)
    ensures r.error.None? ==> r.session.redis.Some?
    ensures r.error.Some? ==> r.session.redis == ses.redis
  {
    var first :=
      if TriggersReconnect(db) then ConnectStep(Session(ses.settings.(db := db), ses.redis), src, ext, e)
      else Step(ses, [], None);
    if first.error.Some? || first.session.redis.Some? then first
    else
      var second := ConnectStep(first.session, src, ext, e);
      Step(second.session, first.calls + second.calls, second.error)
  }

  /**
   * A non-zero db reconnects even with a live handle; otherwise a live handle
   * is reused as it is and `_db` is left alone, and without one the session connects.
   */
  lemma PrepareReconnectingCases(ses: Session, db: Option<int>, src: Source, ext: bool, e: Endpoint)
    ensures var r := PrepareReconnecting(ses, db, src, ext, e);
      && (TriggersReconnect(db) ==> r == ConnectStep(Session(ses.settings.(db := db), ses.redis), src, ext, e))
      && (!TriggersReconnect(db) && ses.redis.Some? ==> r == Step(ses, [], None))
      && (!TriggersReconnect(db) && ses.redis.None? ==> r == ConnectStep(ses, src, ext, e))
  {
  }

  /** Whenever the preamble connected, the handle is on the configured database, not on `db`. */
  lemma ReconnectSelectsConfiguredDb(ses: Session, db: Option<int>, src: Source, ext: bool, e: Endpoint)
    requires TriggersReconnect(db) || ses.redis.None?
    ensures var r := PrepareReconnecting(ses, db, src, ext, e);
      r.error.None? ==> r.session.redis.value.db == DbOf(src)
  {
    PrepareReconnectingCases(ses, db, src, ext, e);
    if TriggersReconnect(db) {
      ConnectStepInstalls(Session(ses.settings.(db := db), ses.redis), src, ext, e);
    } else {
      ConnectStepInstalls(ses, src, ext, e);
    }
  }

  /**
   * The preamble of ttl, save, getMembers, expire, setNx, getSet, delete,
   * exists and publish: store `db`, and connect only when there is no handle.
   */
  function PrepareLazy(ses: Session, db: int, src: Source, ext: bool, e: Endpoint): (r: Step)
    ensures r.error.None? ==> r.session.redis.Some?
    // A live handle is never replaced: `db` only lands in `_db`.
    ensures ses.redis.Some? ==> r == Step(Session(ses.settings.(db := Some(db)), ses.redis), [], None)
  {
    var stored := Session(ses.settings.(db := Some(db)), ses.redis);
    if stored.redis.Some? then Step(stored, [], None) else ConnectStep(stored, src, ext, e)
  }

  /** Without a handle the lazy preamble connects, and the handle is on the configured database, not on `db`. */
  lemma LazyConnectSelectsConfiguredDb(ses: Session, db: int, src: Source, ext: bool, e: Endpoint)
    requires ses.redis.None?
    ensures var r := PrepareLazy(ses, db, src, ext, e);
      && r == ConnectStep(Session(ses.settings.(db := Some(db)), None), src, ext, e)
      && (r.error.None? ==> r.session.redis.value.db == DbOf(src))
  {
    ConnectStepInstalls(Session(ses.settings.(db := Some(db)), None), src, ext, e);
  }
}
