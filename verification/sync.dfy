/**
 * The `Syncer` of src/sync.js: the sync-up state machine that pushes unsynced rows to the
 * remote service in rounds, coalesces calls made while a round runs and retries after a
 * failure; the conversion between local rows and remote objects; the sync-down filter that
 * skips records already stored; and the per-user sync-down watermark.
 */
module Sync {
  import opened Strings
  import opened Values
  import opened Dicts
  import opened Model
  import opened Runway

  // ---------------------------------------------------------------------------------------
  // Which remote errors are reported
  // ---------------------------------------------------------------------------------------

  /**
   * The reason a round is rejected with: an error object, of which only `code` is looked at, or
   * no object at all (`undefined` or `null`), whose `code` cannot be read.
   */
  datatype RemoteError = RemoteError(code: Value) | NoReason

  /** The remote service's code for a connection failure. */
  const ConnectionFailed: int := 100

  /** `expected_errors[error.code]`: the table has the single key "100". */
  function ExpectedErrorName(code: Value): Value
  {
    if ToText(code) == "100" then Str("CONNECTION_FAILED") else Undefined
  }

  /**
   * `errorIsUnexpected` as written: the table lookup yields a string or undefined, which is
   * never `-1`, so every error with a truthy code counts as unexpected.
   */
  predicate ErrorIsUnexpectedAsWritten(e: RemoteError)
  {
    e.RemoteError? && Truthy(e.code) && ExpectedErrorName(e.code) != Num(-1)
  }

  /** As written, the test reduces to the truthiness of the code. */
  lemma AsWrittenReducesToTruthyCode(e: RemoteError)
    ensures ErrorIsUnexpectedAsWritten(e) <==> e.RemoteError? && Truthy(e.code)
  {
  }

  /** As written, a connection failure, the one expected error, is reported as unexpected. */
  lemma AsWrittenReportsConnectionFailure()
    ensures ErrorIsUnexpectedAsWritten(RemoteError(Num(ConnectionFailed)))
  {
  }

  /** The evident intent: an error is unexpected when it has a code that the table does not list. */
  predicate ErrorIsUnexpected(e: RemoteError)
  {
    e.RemoteError? && Truthy(e.code) && ExpectedErrorName(e.code).Undefined?
  }

  /**
   * An error is unexpected exactly when its code is truthy and is not the connection-failure
   * code; every error the corrected test reports is reported by the test as written too.
   */
  lemma UnexpectedErrors(e: RemoteError)
    ensures ErrorIsUnexpected(e) <==> e.RemoteError? && Truthy(e.code) && ToText(e.code) != "100"
    ensures ErrorIsUnexpected(e) ==> ErrorIsUnexpectedAsWritten(e)
    ensures !ErrorIsUnexpected(RemoteError(Num(ConnectionFailed)))
    ensures ErrorIsUnexpected(RemoteError(Num(ConnectionFailed + 1)))
  {
    assert NatToString(100) == NatToString(10) + ['0'] == "100";
    assert NatToString(101) == NatToString(10) + ['1'] == "101";
  }

  // ---------------------------------------------------------------------------------------
  // The sync-up state machine
  // ---------------------------------------------------------------------------------------

  /**
   * The fields of a `Syncer` that sync-up changes, together with the asynchronous work in
   * flight: whether a round's promise is still unsettled and whether a retry timer is still to
   * fire. Deferreds are told apart by a number handed out in creation order; `resolved` lists
   * the deferreds resolved so far and `logged` the errors handed to `logError`.
   */
  datatype SyncState = SyncState(
    syncing: bool,
    resync: bool,
    deferred: Option<nat>,
    retryInterval: int,
    retry: bool,
    roundPending: bool,
    timerPending: bool,
    rounds: nat,
    nextDeferred: nat,
    resolved: seq<nat>,
    logged: seq<RemoteError>)

  /** The default wait before a retry, in milliseconds. */
  const DefaultRetryInterval: int := 60000

  function Initial(): SyncState
  {
    SyncState(false, false, None, DefaultRetryInterval, false, false, false, 0, 0, [], [])
  }

  /**
   * The invariant sync-up keeps: a deferred is outstanding exactly while syncing; a pending
   * round or retry timer (never both) means syncing; `resync` is only set while syncing; the
   * outstanding deferred is not yet resolved and every deferred has an identity below
   * `nextDeferred`.
   */
  predicate Valid(s: SyncState)
  {
    && (s.syncing <==> s.deferred.Some?)
    && (s.roundPending || s.timerPending ==> s.syncing)
    && !(s.roundPending && s.timerPending)
    && (s.resync ==> s.syncing)
    && (s.deferred.Some? ==> s.deferred.value < s.nextDeferred && s.deferred.value !in s.resolved)
    && (forall i :: 0 <= i < |s.resolved| ==> s.resolved[i] < s.nextDeferred)
  }

  /** `syncUp()`: the state afterwards and the deferred whose promise is returned. */
  function SyncUpStep(s: SyncState): (SyncState, nat)
  {
    var d := if s.deferred.Some? then s.deferred.value else s.nextDeferred;
    var s' := s.(deferred := Some(d), nextDeferred := if s.deferred.Some? then s.nextDeferred else s.nextDeferred + 1);
    if s.syncing then (s'.(resync := true), d)
    else (s'.(syncing := true, roundPending := true, rounds := s.rounds + 1), d)
  }

  /** `handleSyncUpSuccess()`: the round's promise fulfilled. */
  function SuccessStep(s: SyncState): SyncState
    requires s.roundPending
  {
    var s' := s.(syncing := false, roundPending := false);
    if s.resync then SyncUpStep(s'.(resync := false)).0
    else
      // resolving a deferred that is not there throws inside the handler and changes nothing more
      s'.(resolved := s.resolved + (if s.deferred.Some? then [s.deferred.value] else []), deferred := None)
  }

  /**
   * `handleSyncUpFail(error)` with `report` the outcome of the error test: the round's promise
   * rejected, the error logged when reported, and a retry timer set. Without an error object
   * the test throws; the handler catches that before the timer is set, so syncing stays on.
   */
  function FailureWith(s: SyncState, e: RemoteError, report: bool): SyncState
    requires s.roundPending
  {
    match e
    case NoReason => s.(roundPending := false)
    case RemoteError(_) =>
      s.(roundPending := false, timerPending := true, logged := if report then s.logged + [e] else s.logged)
  }

  /** `handleSyncUpFail(error)` with the corrected error test. */
  function FailureStep(s: SyncState, e: RemoteError): SyncState
    requires s.roundPending
  {
    FailureWith(s, e, ErrorIsUnexpected(e))
  }

  /** `handleSyncUpFail(error)` with the error test as written. */
  function FailureStepAsWritten(s: SyncState, e: RemoteError): SyncState
    requires s.roundPending
  {
    FailureWith(s, e, ErrorIsUnexpectedAsWritten(e))
  }

  /**
   * As written, the handler logs a connection failure, the one error it means to stay silent
   * about; apart from the log the two handlers agree.
   */
  lemma AsWrittenLogsConnectionFailure(s: SyncState)
    requires s.roundPending
    ensures var e := RemoteError(Num(ConnectionFailed));
      && FailureStepAsWritten(s, e).logged == s.logged + [e]
      && FailureStep(s, e).logged == s.logged
      && FailureStepAsWritten(s, e) == FailureStep(s, e).(logged := s.logged + [e])
  {
    UnexpectedErrors(RemoteError(Num(ConnectionFailed)));
    AsWrittenReportsConnectionFailure();
  }

  /** The retry timer fires: syncing is cleared and `syncUp()` runs again. */
  function RetryStep(s: SyncState): SyncState
    requires s.timerPending
  {
    SyncUpStep(s.(timerPending := false, syncing := false)).0
  }

  /** `setRetryInterval(interval)`. */
  function SetRetryIntervalStep(s: SyncState, interval: int): SyncState
  {
    s.(retryInterval := interval, retry := true)
  }

  /** Whatever can happen to a syncer: a call of `syncUp` or `setRetryInterval`, or an asynchronous event. */
  datatype Event = SyncUpCall | RoundSucceeded | RoundFailed(error: RemoteError) | RetryTimerFired | SetRetryInterval(interval: int)

  /** Whether `ev` can happen in `s`: a round settles only while one is pending, a timer fires only while set. */
  predicate Enabled(s: SyncState, ev: Event)
  {
    match ev
    case RoundSucceeded => s.roundPending
    case RoundFailed(_) => s.roundPending
    case RetryTimerFired => s.timerPending
    case _ => true
  }

  function Step(s: SyncState, ev: Event): SyncState
    requires Enabled(s, ev)
  {
    match ev
    case SyncUpCall => SyncUpStep(s).0
    case RoundSucceeded => SuccessStep(s)
    case RoundFailed(e) => FailureStep(s, e)
    case RetryTimerFired => RetryStep(s)
    case SetRetryInterval(n) => SetRetryIntervalStep(s, n)
  }

  /** Whether every event of `evs` is enabled in turn from `s`. */
  predicate Runs(s: SyncState, evs: seq<Event>)
    decreases |evs|
  {
    evs == [] || (Enabled(s, evs[0]) && Runs(Step(s, evs[0]), evs[1..]))
  }

  function Run(s: SyncState, evs: seq<Event>): SyncState
    requires Runs(s, evs)
    decreases |evs|
  {
    if evs == [] then s else Run(Step(s, evs[0]), evs[1..])
  }

  lemma InitialValid()
    ensures Valid(Initial())
  {
  }

  /** Every event keeps the invariant. */
  lemma StepValid(s: SyncState, ev: Event)
    requires Valid(s) && Enabled(s, ev)
    ensures Valid(Step(s, ev))
  {
    match ev
    case SyncUpCall =>
    case RoundSucceeded =>
      if !s.resync {
        var t := Step(s, ev);
        forall i | 0 <= i < |t.resolved| ensures t.resolved[i] < t.nextDeferred {
          if i < |s.resolved| { assert t.resolved[i] == s.resolved[i]; }
        }
      }
    case RoundFailed(_) =>
    case RetryTimerFired =>
    case SetRetryInterval(_) =>
  }

  /** Every run from a valid state ends in a valid state. */
  lemma {:induction false} RunValid(s: SyncState, evs: seq<Event>)
    requires Valid(s) && Runs(s, evs)
    ensures Valid(Run(s, evs))
    decreases |evs|
  {
    if evs != [] {
      StepValid(s, evs[0]);
      RunValid(Step(s, evs[0]), evs[1..]);
    }
  }

  /**
   * Calling `syncUp` while a sync is in progress starts no round: it sets `resync` and
   * returns the promise of the deferred already outstanding.
   */
  lemma SyncUpWhileSyncing(s: SyncState)
    requires Valid(s) && s.syncing
    ensures var (t, p) := SyncUpStep(s);
      && p == s.deferred.value
      && t == s.(resync := true)
  {
  }

  /**
   * Calling `syncUp` when idle starts exactly one round and returns the promise of a deferred
   * created for it, one never resolved before.
   */
  lemma SyncUpWhenIdle(s: SyncState)
    requires Valid(s) && !s.syncing
    ensures var (t, p) := SyncUpStep(s);
      && t.syncing && t.roundPending && t.rounds == s.rounds + 1
      && p == s.nextDeferred && t.deferred == Some(p) && p !in s.resolved
      && t.resolved == s.resolved && !t.resync
  {
  }

  /** A round that succeeds while `resync` is set starts another round on the same deferred. */
  lemma SuccessWithResync(s: SyncState)
    requires Valid(s) && s.roundPending && s.resync
    ensures var t := SuccessStep(s);
      && t.roundPending && t.syncing && !t.resync && t.rounds == s.rounds + 1
      && t.deferred == s.deferred && t.resolved == s.resolved
  {
  }

  /** A round that succeeds with no call in between resolves the deferred and leaves the syncer idle. */
  lemma SuccessWithoutResync(s: SyncState)
    requires Valid(s) && s.roundPending && !s.resync
    ensures var t := SuccessStep(s);
      && !t.syncing && !t.roundPending && t.deferred.None?
      && t.resolved == s.resolved + [s.deferred.value] && t.rounds == s.rounds
  {
  }

  /**
   * A failed round resolves and rejects nothing and leaves the syncer syncing; when the timer
   * fires a new round starts on the same deferred.
   */
  lemma FailureThenRetry(s: SyncState, e: RemoteError)
    requires Valid(s) && s.roundPending && e.RemoteError?
    ensures var t := FailureStep(s, e);
      && t.syncing && t.timerPending && !t.roundPending
      && t.deferred == s.deferred && t.resolved == s.resolved && t.rounds == s.rounds
      && (t.logged == s.logged + [e] <==> ErrorIsUnexpected(e))
      && var u := RetryStep(t);
        && u.roundPending && u.rounds == s.rounds + 1 && u.deferred == s.deferred && u.resolved == s.resolved
  {
  }

  /**
   * At most one round starts per event, and only when none is pending or the pending one has
   * just succeeded: there is never more than one `saveAll` round in flight.
   */
  lemma {:induction false} RoundsStartOneAtATime(s: SyncState, ev: Event)
    requires Valid(s) && Enabled(s, ev)
    ensures Step(s, ev).rounds == s.rounds || Step(s, ev).rounds == s.rounds + 1
    ensures Step(s, ev).rounds == s.rounds + 1 ==> Step(s, ev).roundPending && (!s.roundPending || ev == RoundSucceeded)
  {
    match ev
    case SyncUpCall =>
    case RoundSucceeded =>
    case RoundFailed(_) =>
    case RetryTimerFired =>
    case SetRetryInterval(_) =>
  }

  /** Resolved deferreds stay resolved, and nothing is resolved twice. */
  lemma ResolvedOnlyGrows(s: SyncState, ev: Event)
    requires Valid(s) && Enabled(s, ev)
    ensures s.resolved <= Step(s, ev).resolved
    ensures |Step(s, ev).resolved| <= |s.resolved| + 1
    ensures |Step(s, ev).resolved| == |s.resolved| + 1 ==> Step(s, ev).resolved[|s.resolved|] !in s.resolved
  {
  }

  /**
   * Three calls in a row from idle share one promise and one round; the third call's `resync`
   * makes a second round run, and the shared deferred is resolved once, when that one succeeds.
   */
  lemma ThreeCallsShareOnePromise()
    ensures var s0 := Initial();
      var (s1, p1) := SyncUpStep(s0);
      var (s2, p2) := SyncUpStep(s1);
      var (s3, p3) := SyncUpStep(s2);
      && p1 == p2 == p3 && s3.rounds == 1
      && var s4 := SuccessStep(s3);
        && s4.rounds == 2 && s4.resolved == []
        && var s5 := SuccessStep(s4);
          && s5.resolved == [p1] && !s5.syncing
  {
  }

  /**
   * A call of `syncUp` during the retry wait leaves `resync` set, so the round the timer starts
   * is followed by one more before the deferred is resolved.
   */
  lemma CallDuringRetryWaitAddsRound(s: SyncState, e: RemoteError)
    requires Valid(s) && s.roundPending && !s.resync && e.RemoteError?
    ensures var t := SyncUpStep(FailureStep(s, e)).0;
      var u := RetryStep(t);
      && t.resync && u.resync && u.roundPending
      && var v := SuccessStep(u);
        && v.roundPending && v.rounds == s.rounds + 2 && v.resolved == s.resolved
        && SuccessStep(v).resolved == s.resolved + [s.deferred.value]
  {
  }

  /** Syncing with neither a round nor a retry timer pending: no event can end the sync. */
  predicate Stalled(s: SyncState)
  {
    s.syncing && !s.roundPending && !s.timerPending
  }

  /** A round rejected without an error object leaves the syncer stalled on the outstanding deferred. */
  lemma NoReasonStalls(s: SyncState)
    requires Valid(s) && s.roundPending
    ensures var t := FailureStep(s, NoReason);
      && Valid(t) && Stalled(t)
      && t.deferred == s.deferred && t.resolved == s.resolved && t.logged == s.logged
  {
  }

  /**
   * Once stalled, always stalled: later calls of `syncUp` only set `resync` and hand out the
   * same promise, which is never resolved, and no round ever starts again.
   */
  lemma {:induction false} StalledForever(s: SyncState, evs: seq<Event>)
    requires Valid(s) && Stalled(s) && Runs(s, evs)
    ensures var t := Run(s, evs);
      && Stalled(t) && t.deferred == s.deferred && t.resolved == s.resolved && t.rounds == s.rounds
    decreases |evs|
  {
    if evs != [] {
      StepValid(s, evs[0]);
      StalledForever(Step(s, evs[0]), evs[1..]);
    }
  }

  /** `new Syncer(runway, options)`: the sync-up fields and the work in flight they stand for. */
  class Syncer {
    var syncingInProgress: bool
    var resync: bool
    /** `sync_deferred`, `false` when none is outstanding. */
    var syncDeferred: Option<nat>
    var retryInterval: int
    var retry: bool
    const maxRetryAttempts: nat
    var roundPending: bool
    var timerPending: bool
    var rounds: nat
    var nextDeferred: nat
    var resolved: seq<nat>
    var logged: seq<RemoteError>

    function State(): SyncState
      reads this
    {
      SyncState(syncingInProgress, resync, syncDeferred, retryInterval, retry,
                roundPending, timerPending, rounds, nextDeferred, resolved, logged)
    }

    constructor ()
      ensures State() == Initial() && maxRetryAttempts == 10
    {
      syncingInProgress := false;
      resync := false;
      syncDeferred := None;
      retryInterval := DefaultRetryInterval;
      retry := false;
      maxRetryAttempts := 10;
      roundPending := false;
      timerPending := false;
      rounds := 0;
      nextDeferred := 0;
      resolved := [];
      logged := [];
    }

    method SetRetryInterval(interval: int)
      modifies this
      ensures State() == SetRetryIntervalStep(old(State()), interval)
    {
      retryInterval := interval;
      retry := true;
    }

    /** `syncUp()`; `promise` identifies the deferred whose promise is returned. */
    method SyncUp() returns (promise: nat)
      modifies this
      ensures (State(), promise) == SyncUpStep(old(State()))
    {
      if syncDeferred.None? {
        syncDeferred := Some(nextDeferred);
        nextDeferred := nextDeferred + 1;
      }
      if syncingInProgress {
        resync := true;
        return syncDeferred.value;
      }
      syncingInProgress := true;
      rounds := rounds + 1;
      roundPending := true;
      return syncDeferred.value;
    }

    method HandleSyncUpSuccess()
      requires roundPending
      modifies this
      ensures State() == SuccessStep(old(State()))
    {
      roundPending := false;
      syncingInProgress := false;
      if resync {
        resync := false;
        var _ := SyncUp();
      } else {
        if syncDeferred.Some? {
          resolved := resolved + [syncDeferred.value];
        }
        syncDeferred := None;
      }
    }

    method HandleSyncUpFail(error: RemoteError)
      requires roundPending
      modifies this
      ensures State() == FailureStep(old(State()), error)
    {
      roundPending := false;
      if error.NoReason? {
        return;
      }
      if ErrorIsUnexpected(error) {
        logged := logged + [error];
      }
      timerPending := true;
    }

    /** The callback of the retry timer. */
    method RetryTimerFired()
      requires timerPending
      modifies this
      ensures State() == RetryStep(old(State()))
    {
      timerPending := false;
      syncingInProgress := false;
      var _ := SyncUp();
    }
  }

  // ---------------------------------------------------------------------------------------
  // Local rows to remote objects and back
  // ---------------------------------------------------------------------------------------

  /** Read and write permissions of a remote object. */
  datatype Acl = Acl(publicRead: bool, publicWrite: bool, readers: set<string>, writers: set<string>)

  /** A remote object before it is saved: its class, its attributes and its access list once set. */
  datatype ParseModel = ParseModel(className: string, attrs: Dict<Value>, acl: Option<Acl>)

  /** `setUserAndAclOnParseModel`: owner-only access for a string user id, an error otherwise. */
  function SetUserAndAcl(pm: ParseModel, userId: Value): Result<ParseModel>
  {
    if !userId.Str? then Err(NoUserId)
    else Ok(pm.(attrs := Put(pm.attrs, "user_id", userId),
                acl := Some(Acl(false, false, {userId.s}, {userId.s}))))
  }

  /** The remote object for a record unpacked from a row, with the row's `deleted` flag and user. */
  function RemoteModel(className: string, record: Record, isDeleted: Value, userId: Value): Result<ParseModel>
  {
    SetUserAndAcl(ParseModel(className, Put(record, "deleted", isDeleted), None), userId)
  }

  /** The remote object made from one unsynced row. */
  function ConvertRow(classes: map<string, RecordClass>, className: string, row: Row,
                      parse: string -> Option<Value>, now: int): Result<ParseModel>
  {
    var trimmed := Without(row, ["synced"]);
    match LookupClass(classes, className)
    case Err(e) => Err(e)
    case Ok(rc) =>
      match RecordFromRow(rc, trimmed, parse, now)
      case Err(e) => Err(e)
      case Ok(record) => RemoteModel(className, record, Column(row, "deleted"), Column(trimmed, "user_id"))
  }

  /** The remote objects made from the rows, in row order; the first failing row's error otherwise. */
  function ConvertRows(classes: map<string, RecordClass>, className: string, rows: seq<Row>,
                       parse: string -> Option<Value>, now: int): Result<seq<ParseModel>>
  {
    Collect(seq(|rows|, i requires 0 <= i < |rows| => ConvertRow(classes, className, rows[i], parse, now)))
  }

  /**
   * The remote object carries the class name, the `deleted` flag and the user id, and an
   * access list that lets only that user read and write; any other attribute is the
   * record's. A user id that is not a string is an error.
   */
  lemma RemoteModelAttrs(className: string, record: Record, isDeleted: Value, userId: Value)
    ensures var r := RemoteModel(className, record, isDeleted, userId);
      && (r.Ok? <==> userId.Str?)
      && (r.Err? ==> r.error == NoUserId)
      && (r.Ok? ==>
          && r.value.className == className
          && r.value.acl == Some(Acl(false, false, {userId.s}, {userId.s}))
          && forall k :: Get(r.value.attrs, k) == if k == "user_id" then Some(userId)
                                                  else if k == "deleted" then Some(isDeleted)
                                                  else Get(record, k))
  {
    if userId.Str? {
      var withDeleted := Put(record, "deleted", isDeleted);
      forall k ensures Get(Put(withDeleted, "user_id", userId), k)
                       == if k == "user_id" then Some(userId) else if k == "deleted" then Some(isDeleted) else Get(record, k)
      {
        PutGet(withDeleted, "user_id", userId, k);
        PutGet(record, "deleted", isDeleted, k);
      }
    }
  }

  /**
   * Converting a row fails exactly when the class is unknown, when `JSON.parse` rejects one of
   * its object columns, or when its user id is not a string, the checks made in that order;
   * otherwise it is the remote object for the record unpacked from the row.
   */
  lemma ConvertedRow(classes: map<string, RecordClass>, className: string, row: Row,
                     parse: string -> Option<Value>, now: int)
    ensures var r := ConvertRow(classes, className, row, parse, now);
      && (className !in classes ==> r == Err(NoRecordClass(className)))
      && (className in classes ==>
            var record := RecordFromRow(classes[className], Without(row, ["synced"]), parse, now);
            && (record.Err? ==> r == Err(JsonSyntaxError))
            && (record.Ok? ==> r == RemoteModel(className, record.value, Column(row, "deleted"), Column(row, "user_id"))))
  {
    GetWithout(row, ["synced"], "user_id");
  }

  /** The row's `synced` column plays no part in the remote object. */
  lemma SyncedColumnIgnored(classes: map<string, RecordClass>, className: string, row: Row,
                            parse: string -> Option<Value>, now: int)
    ensures ConvertRow(classes, className, row, parse, now)
         == ConvertRow(classes, className, Without(row, ["synced"]), parse, now)
  {
    GetWithout(row, ["synced"], "deleted");
    WithoutTwice(row, ["synced"]);
  }

  /** One remote object per row, in row order, when every row converts. */
  lemma ConvertRowsResult(classes: map<string, RecordClass>, className: string, rows: seq<Row>,
                          parse: string -> Option<Value>, now: int)
    ensures var r := ConvertRows(classes, className, rows, parse, now);
      && (r.Ok? ==>
            && |r.value| == |rows|
            && forall i :: 0 <= i < |rows| ==> ConvertRow(classes, className, rows[i], parse, now) == Ok(r.value[i]))
      && (r.Err? ==>
            exists i :: 0 <= i < |rows| && ConvertRow(classes, className, rows[i], parse, now) == Err(r.error) &&
              forall j :: 0 <= j < i ==> ConvertRow(classes, className, rows[j], parse, now).Ok?)
  {
    var results := seq(|rows|, i requires 0 <= i < |rows| => ConvertRow(classes, className, rows[i], parse, now));
    var r := Collect(results);
    assert ConvertRows(classes, className, rows, parse, now) == r;
    CollectResult(results);
    if r.Err? {
      var i :| 0 <= i < |results| && results[i] == Err(r.error) && forall j :: 0 <= j < i ==> results[j].Ok?;
      assert ConvertRow(classes, className, rows[i], parse, now) == Err(r.error);
      forall j | 0 <= j < i ensures ConvertRow(classes, className, rows[j], parse, now).Ok? {
        assert results[j].Ok?;
      }
    } else {
      forall i | 0 <= i < |rows| ensures ConvertRow(classes, className, rows[i], parse, now) == Ok(r.value[i]) {
        assert results[i] == Ok(r.value[i]);
      }
    }
  }

  /** The body of the loop of `convertRowsToParseModels`: one row made into a remote object. */
  method ConvertRowToParseModel(runway: Runway.RunWay, row: Row, className: string,
                                parse: string -> Option<Value>, now: int) returns (r: Result<ParseModel>)
    ensures r == ConvertRow(runway.recordClasses, className, row, parse, now)
  {
    ConvertedRow(runway.recordClasses, className, row, parse, now);
    var isDeleted := Column(row, "deleted");
    var trimmed := Without(row, ["synced"]);
    var userId := Column(trimmed, "user_id");
    var unpacked := runway.UnpackRecord(trimmed, className, parse, now);
    if unpacked.Err? {
      return Err(unpacked.error);
    }
    var model := ParseModel(className, unpacked.value, None);
    model := model.(attrs := Put(model.attrs, "deleted", isDeleted));
    r := SetUserAndAcl(model, userId);
  }

  /** `convertRowsToParseModels(rows, RecordClassName)`. */
  method ConvertRowsToParseModels(runway: Runway.RunWay, rows: seq<Row>, className: string,
                                  parse: string -> Option<Value>, now: int) returns (r: Result<seq<ParseModel>>)
    ensures r == ConvertRows(runway.recordClasses, className, rows, parse, now)
  {
    ghost var classes := runway.recordClasses;
    ghost var results := seq(|rows|, i requires 0 <= i < |rows| => ConvertRow(classes, className, rows[i], parse, now));
    var models: seq<ParseModel> := [];
    var i := 0;
    while i < |rows|
      invariant 0 <= i <= |rows|
      invariant Collect(results[..i]) == Ok(models)
    {
      CollectStep(results, i, models);
      var model := ConvertRowToParseModel(runway, rows[i], className, parse, now);
      if model.Err? {
        return Err(model.error);
      }
      models := models + [model.value];
      i := i + 1;
    }
    assert results[..i] == results;
    return Ok(models);
  }

  /** What `saveParseModels` does: one `saveAll` of the objects, or an immediate result. */
  datatype SaveUp = SaveAll(models: seq<ParseModel>) | Immediately(result: seq<ParseModel>)

  /** `saveParseModels(parse_models)`: nothing is sent for an empty list, which yields `[]`. */
  function SaveParseModels(models: seq<ParseModel>): (r: SaveUp)
    ensures r.SaveAll? <==> |models| > 0
    ensures r.SaveAll? ==> r.models == models
    ensures r.Immediately? ==> r.result == []
  {
    if |models| > 0 then SaveAll(models) else Immediately([])
  }

  /** The bookkeeping fields the remote service adds to an object. */
  const ServerFields: seq<string> := ["createdAt", "updatedAt", "objectId"]

  /** `parseModelToRecord`: `obj` is the remote object's `toJSON()`; the server's bookkeeping fields are dropped. */
  function ParseModelToRecord(obj: Dict<Value>, rc: RecordClass, now: int): Record
  {
    Construct(rc, Without(obj, ServerFields), now)
  }

  /**
   * A record made from a remote object holds the object's value for every declared field
   * except the three bookkeeping ones, which read as if the object lacked them.
   */
  lemma RecordOfRemoteObject(obj: Dict<Value>, rc: RecordClass, now: int, i: nat)
    requires DistinctKeys(obj)
    requires i < |rc.props|
    ensures var r := ParseModelToRecord(obj, rc, now); var k := rc.props[i].0;
      && Keys(r) == Keys(rc.props)
      && r[i].1 == (if k !in ServerFields && k in Keys(obj) then Get(obj, k).value
                    else if k == "class_name" then Str(rc.name)
                    else if k == "createTime" || k == "updateTime" then Num(now)
                    else Undefined)
  {
    var attrs := Without(obj, ServerFields);
    WithoutDistinct(obj, ServerFields);
    GetWithout(obj, ServerFields, rc.props[i].0);
    ConstructedField(rc, attrs, now, i);
  }

  /** `removeProperties(obj, props)`: a copy of `obj` without the keys listed in `props`. */
  method RemoveProperties(obj: Dict<Value>, props: seq<string>) returns (r: Dict<Value>)
    requires DistinctKeys(obj)
    ensures r == Without(obj, props)
  {
    r := [];
    var i := 0;
    while i < |obj|
      invariant 0 <= i <= |obj|
      invariant r == Without(obj[..i], props)
    {
      WithoutSnoc(obj[..i], obj[i], props);
      assert obj[..i + 1] == obj[..i] + [obj[i]];
      if obj[i].0 !in props {
        assert obj[i].0 !in Keys(Without(obj[..i], props));
        PutNew(r, obj[i].0, obj[i].1);
        r := Put(r, obj[i].0, obj[i].1);
      }
      i := i + 1;
    }
    assert obj[..i] == obj;
  }

  // ---------------------------------------------------------------------------------------
  // Sync-down
  // ---------------------------------------------------------------------------------------

  /**
   * `a === b` for the values a version id can hold: objects and arrays are compared by
   * identity, so two of them built separately are never equal, and NaN equals nothing.
   */
  predicate StrictEquals(a: Value, b: Value)
  {
    a == b && !a.NaN? && !a.List? && !a.Obj?
  }

  /** `xs.indexOf(v)`: the first position holding a value `===` to `v`, or -1. */
  function IndexOf(xs: seq<Value>, v: Value): (r: int)
    ensures r == -1 <==> forall i :: 0 <= i < |xs| ==> !StrictEquals(xs[i], v)
    ensures r != -1 ==> 0 <= r < |xs| && StrictEquals(xs[r], v)
    ensures r != -1 ==> forall i :: 0 <= i < r ==> !StrictEquals(xs[i], v)
  {
    if xs == [] then -1
    else if StrictEquals(xs[0], v) then 0
    else
      var r := IndexOf(xs[1..], v);
      if r == -1 then -1 else r + 1
  }

  function VersionId(record: Record): Value
  {
    Column(record, "version_id")
  }

  /** The `filter` of `syncDownClass`: the records whose version id is not among the local ones. */
  function NewRecords(records: seq<Record>, existing: seq<Value>): (r: seq<Record>)
    ensures forall i :: 0 <= i < |r| ==> r[i] in records && IndexOf(existing, VersionId(r[i])) == -1
    ensures forall i :: 0 <= i < |records| && IndexOf(existing, VersionId(records[i])) == -1 ==> records[i] in r
    ensures |r| <= |records|
  {
    if records == [] then []
    else (if IndexOf(existing, VersionId(records[0])) == -1 then [records[0]] else []) + NewRecords(records[1..], existing)
  }

  /** The call `syncDownClass` makes on the store. */
  datatype SaveRecordsCall = SaveRecordsCall(records: seq<Record>, className: string,
                                             updateVersionIds: bool, alreadySynced: bool)

  /**
   * `syncDownClass`: `remote` holds the `toJSON()` of each fetched object, `existing` the local
   * version ids, `None` when their query failed (its error is swallowed, so reading them fails
   * as soon as there is a record to filter).
   */
  function SyncDownClass(rc: RecordClass, className: string, remote: seq<Dict<Value>>,
                         existing: Option<seq<Value>>, now: int): (r: Result<SaveRecordsCall>)
    ensures r.Err? <==> existing.None? && |remote| > 0
    ensures r.Err? ==> r.error == VersionIdsUnavailable
    ensures r.Ok? ==> r.value.className == className && !r.value.updateVersionIds && r.value.alreadySynced
    ensures existing.Some? ==>
      r.value.records == NewRecords(seq(|remote|, i requires 0 <= i < |remote| => ParseModelToRecord(remote[i], rc, now)), existing.value)
    ensures existing.None? && remote == [] ==> r.value.records == []
  {
    var records := seq(|remote|, i requires 0 <= i < |remote| => ParseModelToRecord(remote[i], rc, now));
    if existing.None? then
      if |records| > 0 then Err(VersionIdsUnavailable) else Ok(SaveRecordsCall([], className, false, true))
    else Ok(SaveRecordsCall(NewRecords(records, existing.value), className, false, true))
  }

  /** The filter works record by record: the new records of a concatenation are those of each part, in order. */
  lemma {:induction false} NewRecordsOfConcat(a: seq<Record>, b: seq<Record>, existing: seq<Value>)
    ensures NewRecords(a + b, existing) == NewRecords(a, existing) + NewRecords(b, existing)
  {
    if a != [] {
      assert (a + b)[1..] == a[1..] + b;
      NewRecordsOfConcat(a[1..], b, existing);
    } else {
      assert a + b == b;
    }
  }

  /** A single record is kept, once, exactly when its version id is not found among the local ones. */
  lemma NewRecordsSingleton(record: Record, existing: seq<Value>)
    ensures NewRecords([record], existing) == if IndexOf(existing, VersionId(record)) == -1 then [record] else []
  {
    assert [record][1..] == [];
  }

  /** Whether a version id can be found by `indexOf` at all (not NaN, not an object). */
  predicate Comparable(v: Value)
  {
    !v.NaN? && !v.List? && !v.Obj?
  }

  /** Nothing is new when every version id is found among the local ones. */
  lemma {:induction false} NothingNew(records: seq<Record>, existing: seq<Value>)
    requires forall i :: 0 <= i < |records| ==> IndexOf(existing, VersionId(records[i])) != -1
    ensures NewRecords(records, existing) == []
  {
    if records != [] {
      NothingNew(records[1..], existing);
    }
  }

  /**
   * Sync-down is idempotent: once the new records are stored, their version ids are among the
   * local ones and the same remote records yield nothing more to save.
   */
  lemma NewRecordsIdempotent(records: seq<Record>, existing: seq<Value>)
    requires forall i :: 0 <= i < |records| ==> Comparable(VersionId(records[i]))
    ensures var saved := NewRecords(records, existing);
      var ids := seq(|saved|, i requires 0 <= i < |saved| => VersionId(saved[i]));
      NewRecords(records, existing + ids) == []
  {
    var saved := NewRecords(records, existing);
    var ids := seq(|saved|, i requires 0 <= i < |saved| => VersionId(saved[i]));
    forall i | 0 <= i < |records| ensures IndexOf(existing + ids, VersionId(records[i])) != -1 {
      var v := VersionId(records[i]);
      if IndexOf(existing, v) == -1 {
        var k :| 0 <= k < |saved| && saved[k] == records[i];
        assert StrictEquals((existing + ids)[|existing| + k], v);
      } else {
        assert StrictEquals((existing + ids)[IndexOf(existing, v)], v);
      }
    }
    NothingNew(records, existing + ids);
  }

  // ---------------------------------------------------------------------------------------
  // The sync-down watermark
  // ---------------------------------------------------------------------------------------

  /** `getUserId()`: the signed-in user's id, or the empty string. */
  function UserId(current: Option<string>): string
  {
    if current.Some? then current.value else ""
  }

  /** `getSyncDownTimeKey()`: the storage key of the watermark of one store and one user. */
  function SyncDownTimeKey(runwayName: string, userId: string): (key: string)
    ensures |key| == |runwayName| + |userId| + 28
  {
    "runway_" + runwayName + "_" + userId + "_last_sync_down_time"
  }

  /** Different users of one store have different watermark keys. */
  lemma SyncDownTimeKeysDiffer(runwayName: string, u1: string, u2: string)
    requires u1 != u2
    ensures SyncDownTimeKey(runwayName, u1) != SyncDownTimeKey(runwayName, u2)
  {
    var prefix := "runway_" + runwayName + "_";
    var k1 := SyncDownTimeKey(runwayName, u1);
    var k2 := SyncDownTimeKey(runwayName, u2);
    assert k1 == prefix + u1 + "_last_sync_down_time";
    assert k2 == prefix + u2 + "_last_sync_down_time";
    if |u1| == |u2| {
      assert k1[|prefix|..|prefix| + |u1|] == u1;
      assert k2[|prefix|..|prefix| + |u2|] == u2;
    }
  }

  /**
   * Browser storage, `None` where there is none. It holds text; a stored watermark is read
   * back with `JSON.parse`, given as `parse`.
   */
  type Storage = Option<map<string, string>>

  /**
   * `getLastSyncDownTime()`: the stored number; 0 when there is no storage, no entry (which
   * reads as null) or a stored value that is not a number; an error when `JSON.parse` rejects
   * the stored text.
   */
  function GetLastSyncDownTime(storage: Storage, runwayName: string, current: Option<string>,
                               parse: string -> Option<Value>): (t: Result<int>)
    ensures storage.None? ==> t == Ok(0)
    ensures storage.Some? ==> var key := SyncDownTimeKey(runwayName, UserId(current));
      && (key !in storage.value ==> t == Ok(0))
      && (key in storage.value && parse(storage.value[key]).None? ==> t == Err(JsonSyntaxError))
      && (key in storage.value && parse(storage.value[key]).Some? ==>
            t == Ok(match parse(storage.value[key]) case Some(Num(n)) => n case _ => 0))
  {
    if storage.None? then Ok(0)
    else
      var key := SyncDownTimeKey(runwayName, UserId(current));
      var v := if key in storage.value then parse(storage.value[key]) else Some(Null);
      match v
      case None => Err(JsonSyntaxError)
      case Some(Num(n)) => Ok(n)
      case Some(_) => Ok(0)
  }

  /** `saveLastSyncDownTime(time)`: the time written as JSON under the user's key. */
  function SaveLastSyncDownTime(storage: Storage, runwayName: string, current: Option<string>,
                                time: int, json: Value -> string): (r: Storage)
    ensures r.None? <==> storage.None?
  {
    if storage.None? then None
    else Some(storage.value[SyncDownTimeKey(runwayName, UserId(current)) := json(Num(time))])
  }

  /**
   * A saved watermark is read back by the same user, and leaves every other user's watermark
   * as it was.
   */
  lemma WatermarkRoundTrip(storage: Storage, runwayName: string, current: Option<string>, other: Option<string>,
                           time: int, json: Value -> string, parse: string -> Option<Value>)
    requires parse(json(Num(time))) == Some(Num(time))
    requires storage.Some?
    ensures GetLastSyncDownTime(SaveLastSyncDownTime(storage, runwayName, current, time, json), runwayName, current, parse) == Ok(time)
    ensures UserId(other) != UserId(current) ==>
      GetLastSyncDownTime(SaveLastSyncDownTime(storage, runwayName, current, time, json), runwayName, other, parse)
      == GetLastSyncDownTime(storage, runwayName, other, parse)
  {
    if UserId(other) != UserId(current) {
      SyncDownTimeKeysDiffer(runwayName, UserId(other), UserId(current));
    }
  }
}
