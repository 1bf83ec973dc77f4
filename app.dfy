/**
 * The application orchestrator: one check cycle (fetch, reconcile, notify),
 * and the start/stop lifecycle with its silent mode. Each call of
 * `CheckForNewChains` is one tick of the polling timer; the fetch oracle,
 * the clock readings and the Telegram oracle are parameters.
 */
module Application {
  import opened Wrappers
  import opened ChainTypes
  import opened ConfigTypes
  import Database
  import Detector
  import Api
  import Telegram

  /**
   * One `checkForNewChains` cycle on table `d`, given what the retrying fetch
   * returned: the table afterwards and the Telegram events, the first send
   * being attempt `attempt`.
   */
  function Cycle(d: Database.Db, silent: bool, fetched: Result<seq<Chain>, string>, now: Time, updatedAt: Time,
                 attempt: nat, rejections: map<nat, string>): (Database.Db, seq<Telegram.Event>)
  {
    match fetched
    case Failure(e) =>
      (d, if silent then [] else [Telegram.Send(Telegram.ErrorMessage(e), attempt !in rejections)])
    case Success(chains) =>
      var (d', r) := Detector.Process(d, chains, now, updatedAt);
      match r
      case Failure(e) =>
        (d', if silent then [] else [Telegram.Send(Telegram.ErrorMessage(Database.ErrorMessage(e)), attempt !in rejections)])
      case Success(dets) =>
        (d', if |dets| > 0 && !silent then Telegram.NotifyEvents(Detector.ChainsOf(dets), attempt, rejections) else [])
  }

  /** The test message attempt at start, skipped in silent mode. */
  function TestEvents(silent: bool, attempt: nat, rejections: map<nat, string>): seq<Telegram.Event>
  {
    if silent then [] else [Telegram.Send(Telegram.TestMessage, attempt !in rejections)]
  }

  class App {
    const config: AppConfig
    const db: Database.DatabaseService
    const detector: Detector.ChainDetectorService
    const telegram: Telegram.TelegramService
    var isRunning: bool
    /** Whether the polling timer is armed. */
    var polling: bool

    ghost predicate Valid()
      reads this, db
    {
      detector.db == db && db.Valid()
    }

    /** `stored` is the table the database file at `config.database.path` holds. */
    constructor(config: AppConfig, stored: Database.Db, rejections: map<nat, string>)
      requires Database.WellFormed(stored)
      ensures Valid()
      ensures this.config == config && !isRunning && !polling
      ensures db.Snapshot() == stored.(open := true)
      ensures telegram.log == [] && telegram.rejections == rejections
    {
      this.config := config;
      var store := new Database.DatabaseService(stored);
      db := store;
      detector := new Detector.ChainDetectorService(store);
      telegram := new Telegram.TelegramService(rejections);
      isRunning := false;
      polling := false;
    }

    /**
     * `checkForNewChains`: fetch with the default three attempts, where
     * attempt `a` yields `network(a)`; reconcile; then notify, or report the
     * error, unless silent. No failure escapes.
     */
    method CheckForNewChains(network: nat -> Api.HttpOutcome, now: Time, updatedAt: Time)
      requires Valid()
      modifies db, telegram
      ensures Valid()
      ensures var c := Cycle(old(db.Snapshot()), config.silentMode, Api.FetchWithRetry(network, Api.DefaultMaxRetries),
                             now, updatedAt, Telegram.Attempt(old(telegram.log)), telegram.rejections);
        db.Snapshot() == c.0 && telegram.log == old(telegram.log) + c.1
    {
      var fetched, _, _ := Api.FetchChainsWithRetry(network, Api.DefaultMaxRetries);
      if fetched.Failure? {
        if !config.silentMode {
          telegram.NotifyError(fetched.error);
        }
        return;
      }
      var detected := detector.ProcessChains(fetched.value, now, updatedAt);
      if detected.Failure? {
        if !config.silentMode {
          telegram.NotifyError(Database.ErrorMessage(detected.error));
        }
        return;
      }
      if |detected.value| > 0 && !config.silentMode {
        telegram.NotifyNewChains(Detector.ChainsOf(detected.value));
      }
    }

    /**
     * `start`: a no-op while running; otherwise mark running, send the test
     * message unless silent (a failure is ignored), run the first cycle and
     * arm the timer.
     */
    method Start(network: nat -> Api.HttpOutcome, now: Time, updatedAt: Time)
      requires Valid()
      modifies this, db, telegram
      ensures Valid()
      ensures old(isRunning) ==>
        isRunning && polling == old(polling) && db.Snapshot() == old(db.Snapshot()) && telegram.log == old(telegram.log)
      ensures !old(isRunning) ==> isRunning && polling
      ensures !old(isRunning) ==>
        var test := TestEvents(config.silentMode, Telegram.Attempt(old(telegram.log)), telegram.rejections);
        var c := Cycle(old(db.Snapshot()), config.silentMode, Api.FetchWithRetry(network, Api.DefaultMaxRetries),
                       now, updatedAt, Telegram.Attempt(old(telegram.log)) + |test|, telegram.rejections);
        db.Snapshot() == c.0 && telegram.log == old(telegram.log) + test + c.1
    {
      if isRunning {
        return;
      }
      ghost var log0 := telegram.log;
      ghost var test := TestEvents(config.silentMode, Telegram.Attempt(log0), telegram.rejections);
      isRunning := true;
      Greet();
      ghost var log1 := telegram.log;
      assert log1 == log0 + test && Telegram.Attempt(log1) == Telegram.Attempt(log0) + |test|;
      CheckForNewChains(network, now, updatedAt);
      polling := true;
    }

    /** The optional test message of `start`; a failure to send it is ignored. */
    method Greet()
      modifies telegram
      ensures var test := TestEvents(config.silentMode, Telegram.Attempt(old(telegram.log)), telegram.rejections);
        && telegram.log == old(telegram.log) + test
        && Telegram.Attempt(telegram.log) == Telegram.Attempt(old(telegram.log)) + |test|
    {
      ghost var start := telegram.log;
      ghost var test := TestEvents(config.silentMode, Telegram.Attempt(start), telegram.rejections);
      if !config.silentMode {
        var _ := telegram.SendTestMessage();
      }
      assert telegram.log == start + test;
      Telegram.SendsAppend(start, test);
      if test != [] {
        assert test[..0] == [];
      }
    }

    /** `stop`: a no-op unless running; otherwise disarm the timer, close the store and mark stopped. */
    method Stop()
      requires Valid()
      modifies this, db
      ensures Valid()
      ensures !old(isRunning) ==> !isRunning && polling == old(polling) && db.Snapshot() == old(db.Snapshot())
      ensures old(isRunning) ==> !isRunning && !polling && db.Snapshot() == old(db.Snapshot()).(open := false)
    {
      if !isRunning {
        return;
      }
      polling := false;
      db.Close();
      isRunning := false;
    }
  }

  // ---------------------------------------------------------------------------
  // Properties of a cycle

  /** In silent mode a cycle sends nothing, whatever the fetch and the store do. */
  lemma SilentSendsNothing(d: Database.Db, fetched: Result<seq<Chain>, string>, now: Time, updatedAt: Time,
                           attempt: nat, rejections: map<nat, string>)
    ensures Cycle(d, true, fetched, now, updatedAt, attempt, rejections).1 == []
  {
  }

  /** A failed fetch leaves the table alone (nothing is reconciled) and is reported once unless silent. */
  lemma FetchFailureReported(d: Database.Db, silent: bool, e: string, now: Time, updatedAt: Time,
                             attempt: nat, rejections: map<nat, string>)
    ensures var c := Cycle(d, silent, Failure(e), now, updatedAt, attempt, rejections);
      && c.0 == d
      && Telegram.Sends(c.1) == (if silent then [] else [Telegram.ErrorMessage(e)])
  {
    var c := Cycle(d, silent, Failure(e), now, updatedAt, attempt, rejections);
    if !silent {
      assert c.1[..0] == [];
    }
  }

  /** On a closed store the cycle reports the connection error once, unless silent, and changes nothing. */
  lemma ClosedStoreReported(d: Database.Db, silent: bool, chains: seq<Chain>, now: Time, updatedAt: Time,
                            attempt: nat, rejections: map<nat, string>)
    requires !d.open
    ensures var c := Cycle(d, silent, Success(chains), now, updatedAt, attempt, rejections);
      && c.0 == d
      && Telegram.Sends(c.1) == (if silent then [] else [Telegram.ErrorMessage("The database connection is not open")])
  {
    Detector.ProcessFailsOnlyWhenClosed(d, chains, now, updatedAt);
    var c := Cycle(d, silent, Success(chains), now, updatedAt, attempt, rejections);
    if !silent {
      assert c.1[..0] == [];
    }
  }

  /**
   * On an open store, outside silent mode, the cycle announces exactly the
   * fetched chains that were absent from the table, in fetch order: a
   * summary first when there are several, then one message each.
   */
  lemma CycleAnnouncesNewChains(d: Database.Db, chains: seq<Chain>, now: Time, updatedAt: Time,
                                attempt: nat, rejections: map<nat, string>)
    requires d.open
    ensures var found := Detector.NewIn(chains, d.rows.Keys);
      Telegram.Sends(Cycle(d, false, Success(chains), now, updatedAt, attempt, rejections).1)
        == (if |found| > 1 then [Telegram.Summary(|found|)] else []) + Telegram.ChainMessages(found)
  {
    Detector.DetectionsIgnoreWrites(d, d.faulty, chains, now, updatedAt);
    var found := Detector.NewIn(chains, d.rows.Keys);
    var p := Detector.Process(d, chains, now, updatedAt);
    assert p.1.Success? && Detector.ChainsOf(p.1.value) == found;
    var events := Cycle(d, false, Success(chains), now, updatedAt, attempt, rejections).1;
    assert events == if |p.1.value| > 0 then Telegram.NotifyEvents(found, attempt, rejections) else [];
    Telegram.NotifySends(found, attempt, rejections);
  }

  /** Telegram plays no part in the table: the store after a cycle is the store after `processChains`. */
  lemma NotificationsLeaveStore(d: Database.Db, silent: bool, chains: seq<Chain>, now: Time, updatedAt: Time,
                                attempt: nat, rejections: map<nat, string>)
    ensures Cycle(d, silent, Success(chains), now, updatedAt, attempt, rejections).0
         == Detector.Process(d, chains, now, updatedAt).0
  {
  }

  /**
   * Two ticks that fetch the same list: when every write of the first
   * succeeds, the second announces nothing and stores no new id.
   */
  lemma SecondCycleQuiet(d: Database.Db, silent: bool, chains: seq<Chain>, now: Time, updatedAt: Time,
                         now2: Time, updatedAt2: Time, attempt: nat, attempt2: nat, rejections: map<nat, string>)
    requires d.open
    requires forall c :: c in chains ==> c.chain !in d.faulty
    ensures var d1 := Cycle(d, silent, Success(chains), now, updatedAt, attempt, rejections).0;
      var c2 := Cycle(d1, silent, Success(chains), now2, updatedAt2, attempt2, rejections);
      c2.1 == [] && c2.0.rows.Keys == d1.rows.Keys
  {
    Detector.ProcessTwice(d, chains, now, updatedAt, now2, updatedAt2);
  }
}
