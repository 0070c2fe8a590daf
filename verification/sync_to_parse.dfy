/**
 * The `SyncToParse` of src/syncToParse.js: for each named slice of an application store,
 * save the objects that have no remote id yet, keeping at most one save per class in flight
 * and retrying a class that was busy or failed with one timer.
 */
module SyncToParse {
  import opened Values
  import opened Dicts
  import Sync

  /** An object of a store slice, as the map of its entries. */
  type StoreObj = Dict<Value>

  /** The state of the application store: one slice per class name. */
  type StoreState = map<string, seq<StoreObj>>

  /** `getParseStore(parse_class)`: the slice, absent when the store has none (an empty slice is still there). */
  function GetParseStore(state: StoreState, parseClass: string): (r: Option<seq<StoreObj>>)
    ensures r.Some? <==> parseClass in state
  {
    if parseClass in state then Some(state[parseClass]) else None
  }

  /** An object still to be saved: it has no `parse_id` entry and its `sync` is not `false`. */
  predicate Unsynced(obj: StoreObj)
  {
    "parse_id" !in Keys(obj) && Get(obj, "sync") != Some(Bool(false))
  }

  /** `getUnsyncedModels(parse_store)`. */
  function GetUnsyncedModels(slice: seq<StoreObj>): (r: seq<StoreObj>)
    ensures forall i :: 0 <= i < |r| ==> r[i] in slice && Unsynced(r[i])
    ensures forall i :: 0 <= i < |slice| && Unsynced(slice[i]) ==> slice[i] in r
    ensures |r| <= |slice|
  {
    if slice == [] then []
    else (if Unsynced(slice[0]) then [slice[0]] else []) + GetUnsyncedModels(slice[1..])
  }

  /** Filtering twice is filtering once. */
  lemma {:induction false} UnsyncedIdempotent(slice: seq<StoreObj>)
    ensures GetUnsyncedModels(GetUnsyncedModels(slice)) == GetUnsyncedModels(slice)
  {
    if slice != [] {
      UnsyncedIdempotent(slice[1..]);
      if Unsynced(slice[0]) {
        var r := GetUnsyncedModels(slice);
        assert r == [slice[0]] + GetUnsyncedModels(slice[1..]);
        assert r[0] == slice[0] && r[1..] == GetUnsyncedModels(slice[1..]);
        calc {
          GetUnsyncedModels(r);
          [r[0]] + GetUnsyncedModels(r[1..]);
          [slice[0]] + GetUnsyncedModels(GetUnsyncedModels(slice[1..]));
          [slice[0]] + GetUnsyncedModels(slice[1..]);
        }
      } else {
        assert GetUnsyncedModels(slice) == [] + GetUnsyncedModels(slice[1..]);
        assert [] + GetUnsyncedModels(slice[1..]) == GetUnsyncedModels(slice[1..]);
      }
    }
  }

  /** Filtering keeps the order of the slice: the kept objects of a concatenation are those of each part. */
  lemma {:induction false} UnsyncedOfConcat(a: seq<StoreObj>, b: seq<StoreObj>)
    ensures GetUnsyncedModels(a + b) == GetUnsyncedModels(a) + GetUnsyncedModels(b)
  {
    if a != [] {
      assert (a + b)[0] == a[0] && (a + b)[1..] == a[1..] + b;
      UnsyncedOfConcat(a[1..], b);
      assert GetUnsyncedModels(a + b) == (if Unsynced(a[0]) then [a[0]] else []) + GetUnsyncedModels(a[1..] + b);
    } else {
      assert a + b == b;
    }
  }

  /** The remote objects `convertModelsToParseModels` builds from store objects. */
  function ConvertModels(models: seq<StoreObj>, parseClass: string): (r: seq<Sync.ParseModel>)
  {
    seq(|models|, i requires 0 <= i < |models| => Sync.ParseModel(parseClass, models[i], None))
  }

  /** What `saveObjsToParse` does: one `saveAll`, or resolve at once when there is nothing to save. */
  datatype SaveToParse = SaveAll(models: seq<Sync.ParseModel>) | ResolvedEmpty

  /** `saveObjsToParse(objs, parse_class)`. */
  function SaveObjsToParse(objs: seq<StoreObj>, parseClass: string): (r: SaveToParse)
    ensures r.ResolvedEmpty? <==> objs == []
    ensures r.SaveAll? ==> (|r.models| == |objs| &&
      forall i :: 0 <= i < |objs| ==> r.models[i].className == parseClass && r.models[i].attrs == objs[i])
  {
    var models := ConvertModels(objs, parseClass);
    if |models| > 0 then SaveAll(models) else ResolvedEmpty
  }

  /**
   * The per-class dictionaries of a `SyncToParse` and the asynchronous work in flight: the
   * classes whose save has not settled and those whose retry timer has not fired. Timer ids
   * are handed out from 1, so every id is truthy; `timers` lists the class of every timer set
   * and `saves` every save started, in order.
   */
  datatype GuardState = GuardState(
    syncing: map<string, bool>,
    scheduled: map<string, nat>,
    errorCount: map<string, int>,
    nextTimerId: nat,
    timers: seq<string>,
    pendingTimers: set<string>,
    saves: seq<(string, SaveToParse)>,
    inFlight: set<string>)

  function Initial(): GuardState
  {
    GuardState(map[], map[], map[], 1, [], {}, [], {})
  }

  predicate NoDuplicates(xs: seq<string>)
  {
    forall i, j :: 0 <= i < j < |xs| ==> xs[i] != xs[j]
  }

  /**
   * The invariant: a class is marked syncing exactly while its save is in flight; the classes
   * with a timer id are exactly those a timer was set for, each once, with a truthy id; a
   * pending timer is one that was set; every error count is 0.
   */
  predicate Valid(s: GuardState)
  {
    && (forall c :: c in s.inFlight ==> c in s.syncing && s.syncing[c])
    && (forall c :: c in s.syncing && s.syncing[c] ==> c in s.inFlight)
    && TimersValid(s)
    && (forall c :: c in s.errorCount ==> s.errorCount[c] == 0)
  }

  /** The part of the invariant about timers. */
  predicate TimersValid(s: GuardState)
  {
    && (forall c :: c in s.scheduled ==> 0 < s.scheduled[c] < s.nextTimerId)
    && (forall c :: c in s.timers ==> c in s.scheduled)
    && (forall c :: c in s.scheduled ==> c in s.timers)
    && NoDuplicates(s.timers)
    && s.pendingTimers <= s.scheduled.Keys
    && s.nextTimerId >= 1
  }

  predicate Syncing(s: GuardState, parseClass: string)
  {
    parseClass in s.syncing && s.syncing[parseClass]
  }

  /** `rescheduleSync(parse_class)`: a timer is set only when the class has no timer id yet. */
  function RescheduleStep(s: GuardState, parseClass: string): GuardState
  {
    if parseClass in s.scheduled then s
    else s.(scheduled := s.scheduled[parseClass := s.nextTimerId], nextTimerId := s.nextTimerId + 1,
            timers := s.timers + [parseClass], pendingTimers := s.pendingTimers + {parseClass})
  }

  /** `syncStore(parse_class)`, the store being in `state`. */
  function SyncStoreStep(s: GuardState, parseClass: string, state: StoreState): GuardState
  {
    var slice := GetParseStore(state, parseClass);
    if !Syncing(s, parseClass) && slice.Some? then
      s.(syncing := s.syncing[parseClass := true], inFlight := s.inFlight + {parseClass},
         saves := s.saves + [(parseClass, SaveObjsToParse(GetUnsyncedModels(slice.value), parseClass))])
    else RescheduleStep(s, parseClass)
  }

  /** `syncErrorHandler(parse_class, error)`: the count set to 0 when missing or 0, then a reschedule. */
  function SyncErrorStep(s: GuardState, parseClass: string): GuardState
  {
    var counted := parseClass in s.errorCount && s.errorCount[parseClass] != 0;
    RescheduleStep(s.(errorCount := if counted then s.errorCount else s.errorCount[parseClass := 0]), parseClass)
  }

  /** The save of a class settles: on failure the error handler runs, then the class stops syncing. */
  function SettleStep(s: GuardState, parseClass: string, failed: bool): GuardState
    requires parseClass in s.inFlight
  {
    var s1 := s.(inFlight := s.inFlight - {parseClass});
    var s2 := if failed then SyncErrorStep(s1, parseClass) else s1;
    s2.(syncing := s2.syncing[parseClass := false])
  }

  /** The retry timer of a class fires and runs `syncStore` on the store as it is then. */
  function TimerStep(s: GuardState, parseClass: string, state: StoreState): GuardState
    requires parseClass in s.pendingTimers
  {
    SyncStoreStep(s.(pendingTimers := s.pendingTimers - {parseClass}), parseClass, state)
  }

  /** `syncToParse()`: `syncStore` for each class in turn. */
  function SyncAllStep(s: GuardState, classes: seq<string>, state: StoreState): GuardState
  {
    if classes == [] then s
    else SyncStoreStep(SyncAllStep(s, classes[..|classes| - 1], state), classes[|classes| - 1], state)
  }

  /** Whatever can happen to the guard. */
  datatype Event =
    | SyncAll(classes: seq<string>, state: StoreState)
    | SyncStore(parseClass: string, state: StoreState)
    | Settle(parseClass: string, failed: bool)
    | TimerFires(parseClass: string, state: StoreState)

  predicate Enabled(s: GuardState, ev: Event)
  {
    match ev
    case Settle(c, _) => c in s.inFlight
    case TimerFires(c, _) => c in s.pendingTimers
    case _ => true
  }

  function Step(s: GuardState, ev: Event): GuardState
    requires Enabled(s, ev)
  {
    match ev
    case SyncAll(classes, state) => SyncAllStep(s, classes, state)
    case SyncStore(c, state) => SyncStoreStep(s, c, state)
    case Settle(c, failed) => SettleStep(s, c, failed)
    case TimerFires(c, state) => TimerStep(s, c, state)
  }

  predicate Runs(s: GuardState, evs: seq<Event>)
    decreases |evs|
  {
    evs == [] || (Enabled(s, evs[0]) && Runs(Step(s, evs[0]), evs[1..]))
  }

  function Run(s: GuardState, evs: seq<Event>): GuardState
    requires Runs(s, evs)
    decreases |evs|
  {
    if evs == [] then s else Run(Step(s, evs[0]), evs[1..])
  }

  /** Rescheduling keeps the invariant, and sets a timer only for a class that never had one. */
  lemma RescheduleValid(s: GuardState, parseClass: string)
    requires TimersValid(s)
    ensures TimersValid(RescheduleStep(s, parseClass))
    ensures parseClass in s.scheduled ==> RescheduleStep(s, parseClass) == s
    ensures parseClass !in s.scheduled ==> RescheduleStep(s, parseClass).timers == s.timers + [parseClass]
  {
  }

  lemma SyncStoreValid(s: GuardState, parseClass: string, state: StoreState)
    requires Valid(s)
    ensures Valid(SyncStoreStep(s, parseClass, state))
  {
    if Syncing(s, parseClass) || parseClass !in state {
      RescheduleValid(s, parseClass);
    }
  }

  lemma {:induction false} SyncAllValid(s: GuardState, classes: seq<string>, state: StoreState)
    requires Valid(s)
    ensures Valid(SyncAllStep(s, classes, state))
  {
    if classes != [] {
      SyncAllValid(s, classes[..|classes| - 1], state);
      SyncStoreValid(SyncAllStep(s, classes[..|classes| - 1], state), classes[|classes| - 1], state);
    }
  }

  /** Every event keeps the invariant. */
  lemma StepValid(s: GuardState, ev: Event)
    requires Valid(s) && Enabled(s, ev)
    ensures Valid(Step(s, ev))
  {
    match ev
    case SyncAll(classes, state) => SyncAllValid(s, classes, state);
    case SyncStore(c, state) => SyncStoreValid(s, c, state);
    case Settle(c, failed) =>
      var s1 := s.(inFlight := s.inFlight - {c});
      if failed {
        var counted := c in s1.errorCount && s1.errorCount[c] != 0;
        RescheduleValid(s1.(errorCount := if counted then s1.errorCount else s1.errorCount[c := 0]), c);
      }
      var t := Step(s, ev);
      assert Valid(t);
    case TimerFires(c, state) => SyncStoreValid(s.(pendingTimers := s.pendingTimers - {c}), c, state);
  }

  /** Every run from a valid state ends in a valid state that still has every timer and every scheduled class. */
  lemma {:induction false} RunValid(s: GuardState, evs: seq<Event>)
    requires Valid(s) && Runs(s, evs)
    ensures Valid(Run(s, evs))
    ensures s.timers <= Run(s, evs).timers
    ensures s.scheduled.Keys <= Run(s, evs).scheduled.Keys
    decreases |evs|
  {
    if evs != [] {
      StepValid(s, evs[0]);
      StepTimers(s, evs[0], "");
      RunValid(Step(s, evs[0]), evs[1..]);
    }
  }

  /**
   * `syncStore` starts a save only when the class is not syncing and its slice exists: the
   * class is then marked syncing and one save of its unsynced objects is started; otherwise no
   * save starts and the class is rescheduled.
   */
  lemma SyncStoreOutcome(s: GuardState, parseClass: string, state: StoreState)
    ensures var t := SyncStoreStep(s, parseClass, state);
      if !Syncing(s, parseClass) && parseClass in state then
        && Syncing(t, parseClass) && parseClass in t.inFlight
        && t.saves == s.saves + [(parseClass, SaveObjsToParse(GetUnsyncedModels(state[parseClass]), parseClass))]
        && t.scheduled == s.scheduled && t.timers == s.timers
      else
        t == RescheduleStep(s, parseClass) && t.saves == s.saves && t.syncing == s.syncing
  {
  }

  /** Rescheduling and `syncStore` only add timers. */
  lemma {:induction false} SyncAllTimers(s: GuardState, classes: seq<string>, state: StoreState)
    ensures s.timers <= SyncAllStep(s, classes, state).timers
    ensures s.scheduled.Keys <= SyncAllStep(s, classes, state).scheduled.Keys
  {
    if classes != [] {
      SyncAllTimers(s, classes[..|classes| - 1], state);
    }
  }

  /** Timers only accumulate, and a class that already has a timer id never gets another timer. */
  lemma StepTimers(s: GuardState, ev: Event, parseClass: string)
    requires Valid(s) && Enabled(s, ev)
    ensures s.timers <= Step(s, ev).timers
    ensures s.scheduled.Keys <= Step(s, ev).scheduled.Keys
    ensures parseClass in s.scheduled ==>
      forall i :: |s.timers| <= i < |Step(s, ev).timers| ==> Step(s, ev).timers[i] != parseClass
  {
    StepValid(s, ev);
    var t := Step(s, ev);
    if ev.SyncAll? {
      SyncAllTimers(s, ev.classes, ev.state);
    }
    if parseClass in s.scheduled {
      forall i | |s.timers| <= i < |t.timers| ensures t.timers[i] != parseClass {
        assert parseClass in s.timers;
        var k :| 0 <= k < |s.timers| && s.timers[k] == parseClass;
        assert t.timers[k] == parseClass;
      }
    }
  }

  /**
   * Each class is rescheduled at most once over any run: a class that has a timer id gets no
   * further timer, since the id is never cleared.
   */
  lemma {:induction false} RescheduledAtMostOnce(s: GuardState, evs: seq<Event>, parseClass: string)
    requires Valid(s) && Runs(s, evs)
    requires parseClass in s.scheduled
    ensures s.timers <= Run(s, evs).timers
    ensures forall i :: |s.timers| <= i < |Run(s, evs).timers| ==> Run(s, evs).timers[i] != parseClass
    decreases |evs|
  {
    if evs != [] {
      var t := Step(s, evs[0]);
      StepTimers(s, evs[0], parseClass);
      StepValid(s, evs[0]);
      RescheduledAtMostOnce(t, evs[1..], parseClass);
    }
  }

  /** The error handler leaves the class's error count at 0 and reschedules it. */
  lemma ErrorCountNeverIncrements(s: GuardState, parseClass: string)
    requires Valid(s)
    ensures var t := SyncErrorStep(s, parseClass);
      && parseClass in t.errorCount && t.errorCount[parseClass] == 0
      && (forall c :: c != parseClass ==> (c in t.errorCount <==> c in s.errorCount))
      && t.timers == RescheduleStep(s, parseClass).timers
  {
  }

  /** When a save settles the class stops syncing, whatever the outcome; a failure reschedules it. */
  lemma SettleClearsSyncing(s: GuardState, parseClass: string, failed: bool)
    requires Valid(s) && parseClass in s.inFlight
    ensures var t := SettleStep(s, parseClass, failed);
      && !Syncing(t, parseClass) && parseClass !in t.inFlight
      && (failed ==> parseClass in t.scheduled && parseClass in t.errorCount)
      && (!failed ==> t.timers == s.timers)
  {
  }

  /**
   * The class stuck behind its one retry: once the timer has fired, a class whose save is still
   * in flight is neither saved nor rescheduled by `syncStore`.
   */
  lemma BusyAfterRetryStaysIdle(s: GuardState, parseClass: string, state: StoreState)
    requires Valid(s) && parseClass in s.scheduled && Syncing(s, parseClass)
    ensures SyncStoreStep(s, parseClass, state) == s
  {
  }

  /** `new SyncToParse(store, parse_classes, ParseInterface, config)`. */
  class SyncToParse {
    const parseClasses: seq<string>
    const rescheduleInterval: int
    var syncingObjs: map<string, bool>
    var syncScheduledId: map<string, nat>
    var syncErrorCount: map<string, int>
    var nextTimerId: nat
    var timers: seq<string>
    var pendingTimers: set<string>
    var saves: seq<(string, SaveToParse)>
    var inFlight: set<string>

    function State(): GuardState
      reads this
    {
      GuardState(syncingObjs, syncScheduledId, syncErrorCount, nextTimerId, timers, pendingTimers, saves, inFlight)
    }

    /** `configInterval` is `config.reschedule_interval`; a missing or zero value means 3000 ms. */
    constructor (parseClasses: seq<string>, configInterval: Option<int>)
      ensures State() == Initial() && this.parseClasses == parseClasses
      ensures rescheduleInterval == if configInterval.Some? && configInterval.value != 0 then configInterval.value else 3000
    {
      this.parseClasses := parseClasses;
      rescheduleInterval := if configInterval.Some? && configInterval.value != 0 then configInterval.value else 3000;
      syncingObjs := map[];
      syncScheduledId := map[];
      syncErrorCount := map[];
      nextTimerId := 1;
      timers := [];
      pendingTimers := {};
      saves := [];
      inFlight := {};
    }

    /** `syncToParse()`. */
    method SyncAll(state: StoreState)
      modifies this
      ensures State() == SyncAllStep(old(State()), parseClasses, state)
    {
      var i := 0;
      while i < |parseClasses|
        invariant 0 <= i <= |parseClasses|
        invariant State() == SyncAllStep(old(State()), parseClasses[..i], state)
      {
        assert parseClasses[..i + 1][..i] == parseClasses[..i];
        SyncStore(parseClasses[i], state);
        i := i + 1;
      }
      assert parseClasses[..i] == parseClasses;
    }

    method SyncStore(parseClass: string, state: StoreState)
      modifies this
      ensures State() == SyncStoreStep(old(State()), parseClass, state)
    {
      var slice := GetParseStore(state, parseClass);
      if !(parseClass in syncingObjs && syncingObjs[parseClass]) && slice.Some? {
        syncingObjs := syncingObjs[parseClass := true];
        var unsynced := GetUnsyncedModels(slice.value);
        var models := ConvertModelsToParseModels(unsynced, parseClass);
        var save := if |models| > 0 then SaveAll(models) else ResolvedEmpty;
        saves := saves + [(parseClass, save)];
        inFlight := inFlight + {parseClass};
      } else {
        RescheduleSync(parseClass);
      }
    }

    method SyncErrorHandler(parseClass: string)
      modifies this
      ensures State() == SyncErrorStep(old(State()), parseClass)
    {
      if !(parseClass in syncErrorCount && syncErrorCount[parseClass] != 0) {
        syncErrorCount := syncErrorCount[parseClass := 0];
      }
      RescheduleSync(parseClass);
    }

    method RescheduleSync(parseClass: string)
      modifies this
      ensures State() == RescheduleStep(old(State()), parseClass)
    {
      if parseClass !in syncScheduledId {
        syncScheduledId := syncScheduledId[parseClass := nextTimerId];
        nextTimerId := nextTimerId + 1;
        timers := timers + [parseClass];
        pendingTimers := pendingTimers + {parseClass};
      }
    }

    /** The handlers chained on a class's save when it settles. */
    method SaveSettled(parseClass: string, failed: bool)
      requires parseClass in inFlight
      modifies this
      ensures State() == SettleStep(old(State()), parseClass, failed)
    {
      inFlight := inFlight - {parseClass};
      if failed {
        SyncErrorHandler(parseClass);
      }
      syncingObjs := syncingObjs[parseClass := false];
    }

    /** The callback of a class's retry timer. */
    method TimerFired(parseClass: string, state: StoreState)
      requires parseClass in pendingTimers
      modifies this
      ensures State() == TimerStep(old(State()), parseClass, state)
    {
      pendingTimers := pendingTimers - {parseClass};
      SyncStore(parseClass, state);
    }
  }

  /** `convertModelsToParseModels(models, parse_class)`: one remote object per store object, in order. */
  method ConvertModelsToParseModels(models: seq<StoreObj>, parseClass: string) returns (r: seq<Sync.ParseModel>)
    ensures r == ConvertModels(models, parseClass)
  {
    r := [];
    var i := 0;
    while i < |models|
      invariant 0 <= i <= |models|
      invariant r == ConvertModels(models[..i], parseClass)
    {
      r := r + [Sync.ParseModel(parseClass, models[i], None)];
      i := i + 1;
    }
    assert models[..i] == models;
  }
}
