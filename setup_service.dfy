/**
 * The `setup_service` management command of the Safe transaction service
 * (safe_transaction_service/history/management/commands/setup_service.py).
 *
 * It reconciles the database with a static configuration: it deletes old periodic tasks,
 * get-or-creates each configured task (with a shared interval schedule) and overwrites its
 * fields, and get-or-creates the Safe master-copy and proxy-factory rows of the detected
 * network. The database is a `Store` object whose tables are maps keyed the way the command
 * looks rows up. The network is a parameter, as is the `ETH_L2_NETWORK` setting.
 */
module SetupService {

  // ----- Rows and configuration ------------------------------------------------------------

  datatype Period = Days | Hours | Minutes | Seconds | Microseconds

  /** An interval schedule row is identified by its `(every, period)` pair. */
  datatype IntervalKey = IntervalKey(every: int, period: Period)

  /**
   * A periodic task row, keyed in the store by its `task` path. `name` holds what the
   * configuration calls the description; `totalRunCount` stands for the columns the command
   * never writes.
   */
  datatype PeriodicTask = PeriodicTask(name: string, interval: IntervalKey, enabled: bool, totalRunCount: nat)

  /** A Safe master-copy row, keyed by address. `txBlockNumber` is the indexing cursor. */
  datatype MasterCopy = MasterCopy(initialBlockNumber: int, txBlockNumber: int, version: string, l2: bool)

  /** A proxy-factory row, keyed by address. */
  datatype ProxyFactory = ProxyFactory(initialBlockNumber: int, txBlockNumber: int)

  /** `CeleryTaskConfiguration`: `name` is the task path, `description` the human name. */
  datatype TaskConfig = TaskConfig(name: string, description: string, interval: int, period: Period, enabled: bool)

  /** An `(address, initial_block_number, version)` entry of `MASTER_COPIES`. */
  datatype MasterCopyEntry = MasterCopyEntry(address: string, initialBlockNumber: int, version: string)

  /** An `(address, initial_block_number)` entry of `PROXY_FACTORIES`. */
  datatype ProxyFactoryEntry = ProxyFactoryEntry(address: string, initialBlockNumber: int)

  /** A network, by the name of its `EthereumNetwork` member. */
  type Network = string

  const APOTHEM: Network := "APOTHEM"

  /** The prefix of the bulk delete at the start of the command. */
  const TASK_PREFIX: string := "safe_transaction_service"

  /** The version suffix that marks a master copy as the L2 (event-indexed) flavour. */
  const L2_SUFFIX: string := "+L2"

  predicate StartsWith(s: string, prefix: string) {
    |prefix| <= |s| && s[..|prefix|] == prefix
  }

  predicate EndsWith(s: string, suffix: string) {
    |suffix| <= |s| && s[|s| - |suffix|..] == suffix
  }

  function ScheduleOf(cfg: TaskConfig): IntervalKey {
    IntervalKey(cfg.interval, cfg.period)
  }

  // ----- The static tables -----------------------------------------------------------------

  /**
   * `TASKS`, for a given `ETH_L2_NETWORK` setting: trace-based indexing runs on L1 networks,
   * event-based indexing and proxy indexing on L2 networks, everything else always.
   */
  function Tasks(ethL2Network: bool): (r: seq<TaskConfig>)
    ensures |r| == 8
    ensures r[0].enabled == !ethL2Network && r[1].enabled == ethL2Network && r[2].enabled == ethL2Network
    ensures forall i | 3 <= i < |r| :: r[i].enabled
  {
    [ TaskConfig(TASK_PREFIX + ".history.tasks.index_internal_txs_task",
                 "Index Internal Txs", 13, Seconds, !ethL2Network),
      TaskConfig(TASK_PREFIX + ".history.tasks.index_safe_events_task",
                 "Index Safe events (L2)", 13, Seconds, ethL2Network),
      TaskConfig(TASK_PREFIX + ".history.tasks.index_new_proxies_task",
                 "Index new Proxies", 15, Seconds, ethL2Network),
      TaskConfig(TASK_PREFIX + ".history.tasks.process_decoded_internal_txs_task",
                 "Process Internal Txs", 2, Minutes, true),
      TaskConfig(TASK_PREFIX + ".history.tasks.check_reorgs_task",
                 "Check Reorgs", 3, Minutes, true),
      TaskConfig(TASK_PREFIX + ".contracts.tasks.create_missing_contracts_with_metadata_task",
                 "Index contract names and ABIs", 1, Hours, true),
      TaskConfig(TASK_PREFIX + ".contracts.tasks.reindex_contracts_without_metadata",
                 "Reindex contracts with missing names or ABIs", 7, Days, true),
      TaskConfig(TASK_PREFIX + ".tokens.tasks.fix_pool_tokens_task",
                 "Fix Pool Token Names", 1, Hours, true) ]
  }

  /** No two configured tasks share a task path. */
  lemma TaskPathsDistinct(ethL2Network: bool)
    ensures forall i, j | 0 <= i < j < |Tasks(ethL2Network)| :: Tasks(ethL2Network)[i].name != Tasks(ethL2Network)[j].name
  {
    var r := Tasks(ethL2Network);
    // Only the two L2 indexers have task paths of the same length; they part at "safe"/"new".
    var n := |TASK_PREFIX|;
    assert |r[0].name| == n + 38 && |r[1].name| == n + 37 && |r[2].name| == n + 37;
    assert |r[3].name| == n + 48 && |r[4].name| == n + 32 && |r[5].name| == n + 60;
    assert |r[6].name| == n + 51 && |r[7].name| == n + 34;
    assert r[1].name[n + 21] != r[2].name[n + 21];
  }

  /**
   * Every task path lies in the `safe_transaction_service` namespace, but no task's `name`
   * column (its description) does.
   */
  lemma TaskNamespaces(ethL2Network: bool)
    ensures forall i | 0 <= i < |Tasks(ethL2Network)| :: StartsWith(Tasks(ethL2Network)[i].name, TASK_PREFIX)
    ensures forall i | 0 <= i < |Tasks(ethL2Network)| :: !StartsWith(Tasks(ethL2Network)[i].description, TASK_PREFIX)
  {
    var r := Tasks(ethL2Network);
    // Every description starts with a capital letter, the prefix with 's'.
    assert TASK_PREFIX[0] == 's';
    assert r[0].description[0] == r[1].description[0] == r[2].description[0] == 'I';
    assert r[3].description[0] == 'P' && r[4].description[0] == 'C' && r[5].description[0] == 'I';
    assert r[6].description == "Reindex contracts with missing names or ABIs";
    assert "Reindex contracts with missing names or ABIs"[0] == 'R';
    assert r[7].description == "Fix Pool Token Names";
  }

  const MASTER_COPIES: map<Network, seq<MasterCopyEntry>> :=
    map[APOTHEM := [MasterCopyEntry("0xa73db6fc68A22da7774369FA0e43d507679C62BB", 21844862, "1.3.0+L2")]]

  const PROXY_FACTORIES: map<Network, seq<ProxyFactoryEntry>> :=
    map[APOTHEM := [ProxyFactoryEntry("0xEa79c1354B319E867A024f399405148F772aeB3b", 21917812)]]

  /** The command warns unless the network has both a master-copy and a proxy-factory list. */
  predicate NetworkWarning(network: Network) {
    !(network in MASTER_COPIES && network in PROXY_FACTORIES)
  }

  /** Only APOTHEM has address lists: one master copy, an L2 one, and one proxy factory. */
  lemma AddressTables(network: Network)
    ensures network in MASTER_COPIES <==> network == APOTHEM
    ensures network in PROXY_FACTORIES <==> network == APOTHEM
    ensures NetworkWarning(network) <==> network != APOTHEM
    ensures network == APOTHEM ==> |MASTER_COPIES[network]| == 1 && |PROXY_FACTORIES[network]| == 1
    ensures network == APOTHEM ==> NewMasterCopy(MASTER_COPIES[network][0]).l2
  {
    var e := MASTER_COPIES[APOTHEM][0];
    assert e.version[|e.version| - 3..] == L2_SUFFIX;
  }

  // ----- Periodic tasks --------------------------------------------------------------------

  /** The bulk delete: rows whose `name` (not their `task`) starts with the prefix go. */
  function RemoveOldTasks(tasks: map<string, PeriodicTask>): (r: map<string, PeriodicTask>)
    ensures forall t | t in r :: t in tasks && r[t] == tasks[t] && !StartsWith(r[t].name, TASK_PREFIX)
    ensures forall t | t in tasks && !StartsWith(tasks[t].name, TASK_PREFIX) :: t in r
  {
    map t | t in tasks && !StartsWith(tasks[t].name, TASK_PREFIX) :: tasks[t]
  }

  /** The row `create_task` leaves under `cfg.name`, given the rows before it. */
  function Configured(tasks: map<string, PeriodicTask>, cfg: TaskConfig): PeriodicTask {
    PeriodicTask(cfg.description, ScheduleOf(cfg), cfg.enabled,
                 if cfg.name in tasks then tasks[cfg.name].totalRunCount else 0)
  }

  /**
   * `create_task` on the task table: get-or-create by `task` with the configured fields as
   * defaults; a row that already existed has `name`, `interval` and `enabled` overwritten.
   */
  function UpsertTask(tasks: map<string, PeriodicTask>, cfg: TaskConfig): (r: map<string, PeriodicTask>)
    ensures cfg.name in r
    ensures r[cfg.name].name == cfg.description && r[cfg.name].interval == ScheduleOf(cfg)
    ensures r[cfg.name].enabled == cfg.enabled
    ensures r[cfg.name].totalRunCount == if cfg.name in tasks then tasks[cfg.name].totalRunCount else 0
    ensures forall t | t != cfg.name :: (t in r <==> t in tasks) && (t in tasks ==> r[t] == tasks[t])
  {
    if cfg.name !in tasks then
      tasks[cfg.name := PeriodicTask(cfg.description, ScheduleOf(cfg), cfg.enabled, 0)]
    else
      var task := tasks[cfg.name];
      tasks[cfg.name := task.(name := cfg.description, interval := ScheduleOf(cfg), enabled := cfg.enabled)]
  }

  /** The loop over the configuration, one `create_task` after another. */
  function ApplyTasks(tasks: map<string, PeriodicTask>, cfgs: seq<TaskConfig>): map<string, PeriodicTask>
    decreases |cfgs|
  {
    if cfgs == [] then tasks
    else UpsertTask(ApplyTasks(tasks, cfgs[..|cfgs| - 1]), cfgs[|cfgs| - 1])
  }

  /** The interval schedules the loop get-or-creates. */
  function ScheduleKeys(cfgs: seq<TaskConfig>): set<IntervalKey>
    decreases |cfgs|
  {
    if cfgs == [] then {} else ScheduleKeys(cfgs[..|cfgs| - 1]) + {ScheduleOf(cfgs[|cfgs| - 1])}
  }

  function TaskNames(cfgs: seq<TaskConfig>): set<string>
    decreases |cfgs|
  {
    if cfgs == [] then {} else TaskNames(cfgs[..|cfgs| - 1]) + {cfgs[|cfgs| - 1].name}
  }

  /** The last configuration for task path `t`: the one whose fields end up in the row. */
  function LastConfig(cfgs: seq<TaskConfig>, t: string): (r: TaskConfig)
    requires t in TaskNames(cfgs)
    ensures r.name == t
    decreases |cfgs|
  {
    var last := cfgs[|cfgs| - 1];
    if last.name == t then last else LastConfig(cfgs[..|cfgs| - 1], t)
  }

  lemma {:induction false} TaskNamesMembers(cfgs: seq<TaskConfig>, t: string)
    ensures t in TaskNames(cfgs) <==> exists i :: 0 <= i < |cfgs| && cfgs[i].name == t
    decreases |cfgs|
  {
    if cfgs != [] {
      var p := cfgs[..|cfgs| - 1];
      TaskNamesMembers(p, t);
      if exists i :: 0 <= i < |p| && p[i].name == t {
        var i :| 0 <= i < |p| && p[i].name == t;
        assert cfgs[i].name == t;
      }
      if exists i :: 0 <= i < |cfgs| && cfgs[i].name == t {
        var i :| 0 <= i < |cfgs| && cfgs[i].name == t;
        if i < |p| { assert p[i].name == t; }
      }
    }
  }

  /** With pairwise distinct task paths, entry `i` is the configuration its row ends up with. */
  lemma {:induction false} LastConfigOfDistinct(cfgs: seq<TaskConfig>, i: nat)
    requires i < |cfgs|
    requires forall j, k | 0 <= j < k < |cfgs| :: cfgs[j].name != cfgs[k].name
    ensures cfgs[i].name in TaskNames(cfgs) && LastConfig(cfgs, cfgs[i].name) == cfgs[i]
    decreases |cfgs|
  {
    TaskNamesMembers(cfgs, cfgs[i].name);
    if i < |cfgs| - 1 {
      LastConfigOfDistinct(cfgs[..|cfgs| - 1], i);
    }
  }

  /**
   * What the loop leaves under each task path: configured paths hold their last configuration
   * (keeping the run count of a row that existed before), every other row is as it was.
   */
  lemma {:induction false} ApplyTasksAt(tasks: map<string, PeriodicTask>, cfgs: seq<TaskConfig>, t: string)
    ensures t in ApplyTasks(tasks, cfgs) <==> t in tasks || t in TaskNames(cfgs)
    ensures t in tasks && t !in TaskNames(cfgs) ==> ApplyTasks(tasks, cfgs)[t] == tasks[t]
    ensures t in TaskNames(cfgs) ==> ApplyTasks(tasks, cfgs)[t] == Configured(tasks, LastConfig(cfgs, t))
    decreases |cfgs|
  {
    if cfgs != [] {
      ApplyTasksAt(tasks, cfgs[..|cfgs| - 1], t);
    }
  }

  /** Running the loop a second time with the same configuration changes nothing. */
  lemma ApplyTasksIdempotent(tasks: map<string, PeriodicTask>, cfgs: seq<TaskConfig>)
    ensures ApplyTasks(ApplyTasks(tasks, cfgs), cfgs) == ApplyTasks(tasks, cfgs)
  {
    var once := ApplyTasks(tasks, cfgs);
    var twice := ApplyTasks(once, cfgs);
    forall t ensures t in twice <==> t in once {
      ApplyTasksAt(tasks, cfgs, t);
      ApplyTasksAt(once, cfgs, t);
    }
    forall t | t in twice ensures twice[t] == once[t] {
      ApplyTasksAt(tasks, cfgs, t);
      ApplyTasksAt(once, cfgs, t);
    }
  }

  // ----- Master copies and proxy factories -------------------------------------------------

  /** The defaults `get_or_create` gives a new master copy. */
  function NewMasterCopy(e: MasterCopyEntry): (r: MasterCopy)
    ensures r.initialBlockNumber == e.initialBlockNumber && r.txBlockNumber == e.initialBlockNumber
    ensures r.version == e.version
    ensures r.l2 <==> EndsWith(e.version, L2_SUFFIX)
  {
    MasterCopy(e.initialBlockNumber, e.initialBlockNumber, e.version, EndsWith(e.version, L2_SUFFIX))
  }

  /**
   * One iteration of `_setup_safe_master_copies`. When the stored version or initial block
   * differs, the code assigns the block number to `version`, then the version to `version`, and
   * saves `initial_block_number` and `version`: only the version changes.
   */
  function SetupMasterCopy(copies: map<string, MasterCopy>, e: MasterCopyEntry): (r: map<string, MasterCopy>)
    ensures e.address in r && r[e.address].version == e.version
    ensures e.address !in copies ==> r[e.address] == NewMasterCopy(e)
    ensures e.address in copies ==> r[e.address] == copies[e.address].(version := e.version)
    ensures forall a | a != e.address :: (a in r <==> a in copies) && (a in copies ==> r[a] == copies[a])
  {
    var mc := if e.address in copies then copies[e.address] else NewMasterCopy(e);
    if mc.version != e.version || mc.initialBlockNumber != e.initialBlockNumber then
      copies[e.address := mc.(version := e.version)]
    else
      copies[e.address := mc]
  }

  function ApplyMasterCopies(copies: map<string, MasterCopy>, entries: seq<MasterCopyEntry>): map<string, MasterCopy>
    decreases |entries|
  {
    if entries == [] then copies
    else SetupMasterCopy(ApplyMasterCopies(copies, entries[..|entries| - 1]), entries[|entries| - 1])
  }

  function MasterCopyAddresses(entries: seq<MasterCopyEntry>): set<string>
    decreases |entries|
  {
    if entries == [] then {} else MasterCopyAddresses(entries[..|entries| - 1]) + {entries[|entries| - 1].address}
  }

  /** The first entry for address `a`: the one that creates the row if it is missing. */
  function FirstMasterCopy(entries: seq<MasterCopyEntry>, a: string): (r: MasterCopyEntry)
    requires a in MasterCopyAddresses(entries)
    ensures r.address == a
    decreases |entries|
  {
    var p := entries[..|entries| - 1];
    if a in MasterCopyAddresses(p) then FirstMasterCopy(p, a) else entries[|entries| - 1]
  }

  /** The last entry for address `a`: the one whose version the row ends up with. */
  function LastMasterCopy(entries: seq<MasterCopyEntry>, a: string): (r: MasterCopyEntry)
    requires a in MasterCopyAddresses(entries)
    ensures r.address == a
    decreases |entries|
  {
    var last := entries[|entries| - 1];
    if last.address == a then last else LastMasterCopy(entries[..|entries| - 1], a)
  }

  /**
   * What `_setup_safe_master_copies` leaves under each address: a listed address holds the row
   * it had (or the one its first entry created) with the version of its last entry; every other
   * row is as it was.
   */
  lemma {:induction false} ApplyMasterCopiesAt(copies: map<string, MasterCopy>, entries: seq<MasterCopyEntry>, a: string)
    ensures a in ApplyMasterCopies(copies, entries) <==> a in copies || a in MasterCopyAddresses(entries)
    ensures a in copies && a !in MasterCopyAddresses(entries) ==> ApplyMasterCopies(copies, entries)[a] == copies[a]
    ensures a in MasterCopyAddresses(entries) ==>
      ApplyMasterCopies(copies, entries)[a] ==
        (if a in copies then copies[a] else NewMasterCopy(FirstMasterCopy(entries, a)))
          .(version := LastMasterCopy(entries, a).version)
    decreases |entries|
  {
    if entries != [] {
      ApplyMasterCopiesAt(copies, entries[..|entries| - 1], a);
    }
  }

  /**
   * Reconciliation never moves the indexing cursor of an existing master copy, nor its initial
   * block or L2 flag: only its version can change, and a listed address gets its last version.
   */
  lemma ExistingMasterCopyKeepsCursor(copies: map<string, MasterCopy>, entries: seq<MasterCopyEntry>, a: string)
    requires a in copies
    ensures a in ApplyMasterCopies(copies, entries)
    ensures ApplyMasterCopies(copies, entries)[a] == copies[a].(version := ApplyMasterCopies(copies, entries)[a].version)
    ensures a in MasterCopyAddresses(entries) ==>
      ApplyMasterCopies(copies, entries)[a].version == LastMasterCopy(entries, a).version
  {
  }

  lemma ApplyMasterCopiesIdempotent(copies: map<string, MasterCopy>, entries: seq<MasterCopyEntry>)
    ensures ApplyMasterCopies(ApplyMasterCopies(copies, entries), entries) == ApplyMasterCopies(copies, entries)
  {
    var once := ApplyMasterCopies(copies, entries);
    var twice := ApplyMasterCopies(once, entries);
    forall a ensures a in twice <==> a in once {
      ApplyMasterCopiesAt(copies, entries, a);
      ApplyMasterCopiesAt(once, entries, a);
    }
    forall a | a in twice ensures twice[a] == once[a] {
      ApplyMasterCopiesAt(copies, entries, a);
      ApplyMasterCopiesAt(once, entries, a);
    }
  }

  /** The defaults `get_or_create` gives a new proxy factory. */
  function NewProxyFactory(e: ProxyFactoryEntry): (r: ProxyFactory)
    ensures r.initialBlockNumber == e.initialBlockNumber && r.txBlockNumber == e.initialBlockNumber
  {
    ProxyFactory(e.initialBlockNumber, e.initialBlockNumber)
  }

  /** One iteration of `_setup_safe_proxy_factories`: a plain get-or-create. */
  function SetupProxyFactory(factories: map<string, ProxyFactory>, e: ProxyFactoryEntry): (r: map<string, ProxyFactory>)
    ensures e.address in r
    ensures e.address !in factories ==> r[e.address] == NewProxyFactory(e)
    ensures forall a | a in factories :: a in r && r[a] == factories[a]
    ensures forall a | a in r :: a in factories || a == e.address
  {
    if e.address in factories then factories else factories[e.address := NewProxyFactory(e)]
  }

  function ApplyProxyFactories(factories: map<string, ProxyFactory>, entries: seq<ProxyFactoryEntry>): map<string, ProxyFactory>
    decreases |entries|
  {
    if entries == [] then factories
    else SetupProxyFactory(ApplyProxyFactories(factories, entries[..|entries| - 1]), entries[|entries| - 1])
  }

  function ProxyFactoryAddresses(entries: seq<ProxyFactoryEntry>): set<string>
    decreases |entries|
  {
    if entries == [] then {} else ProxyFactoryAddresses(entries[..|entries| - 1]) + {entries[|entries| - 1].address}
  }

  function FirstProxyFactory(entries: seq<ProxyFactoryEntry>, a: string): (r: ProxyFactoryEntry)
    requires a in ProxyFactoryAddresses(entries)
    ensures r.address == a
    decreases |entries|
  {
    var p := entries[..|entries| - 1];
    if a in ProxyFactoryAddresses(p) then FirstProxyFactory(p, a) else entries[|entries| - 1]
  }

  /**
   * What `_setup_safe_proxy_factories` leaves: existing rows untouched, a missing listed address
   * created from its first entry, nothing else.
   */
  lemma {:induction false} ApplyProxyFactoriesAt(factories: map<string, ProxyFactory>, entries: seq<ProxyFactoryEntry>, a: string)
    ensures a in ApplyProxyFactories(factories, entries) <==> a in factories || a in ProxyFactoryAddresses(entries)
    ensures a in factories ==> ApplyProxyFactories(factories, entries)[a] == factories[a]
    ensures a !in factories && a in ProxyFactoryAddresses(entries) ==>
      ApplyProxyFactories(factories, entries)[a] == NewProxyFactory(FirstProxyFactory(entries, a))
    decreases |entries|
  {
    if entries != [] {
      ApplyProxyFactoriesAt(factories, entries[..|entries| - 1], a);
    }
  }

  lemma ApplyProxyFactoriesIdempotent(factories: map<string, ProxyFactory>, entries: seq<ProxyFactoryEntry>)
    ensures ApplyProxyFactories(ApplyProxyFactories(factories, entries), entries) == ApplyProxyFactories(factories, entries)
  {
    var once := ApplyProxyFactories(factories, entries);
    var twice := ApplyProxyFactories(once, entries);
    forall a ensures a in twice <==> a in once {
      ApplyProxyFactoriesAt(factories, entries, a);
      ApplyProxyFactoriesAt(once, entries, a);
    }
    forall a | a in twice ensures twice[a] == once[a] {
      ApplyProxyFactoriesAt(once, entries, a);
    }
  }

  // ----- The whole command -----------------------------------------------------------------

  datatype StoreState = StoreState(
    periodicTasks: map<string, PeriodicTask>,
    intervals: set<IntervalKey>,
    masterCopies: map<string, MasterCopy>,
    proxyFactories: map<string, ProxyFactory>)

  /** The store after `Command.handle` on `network` with the given `ETH_L2_NETWORK` setting. */
  function Reconcile(s: StoreState, ethL2Network: bool, network: Network): StoreState {
    var cfgs := Tasks(ethL2Network);
    StoreState(
      ApplyTasks(RemoveOldTasks(s.periodicTasks), cfgs),
      s.intervals + ScheduleKeys(cfgs),
      if network in MASTER_COPIES then ApplyMasterCopies(s.masterCopies, MASTER_COPIES[network]) else s.masterCopies,
      if network in PROXY_FACTORIES then ApplyProxyFactories(s.proxyFactories, PROXY_FACTORIES[network]) else s.proxyFactories)
  }

  /**
   * After the command every configured task is present, once, with the configured name,
   * schedule and enabled flag; a row that survived the delete keeps its run count.
   */
  lemma ReconcileConfiguresTasks(s: StoreState, ethL2Network: bool, network: Network, i: nat)
    requires i < |Tasks(ethL2Network)|
    ensures var cfg := Tasks(ethL2Network)[i];
      var kept := RemoveOldTasks(s.periodicTasks);
      var after := Reconcile(s, ethL2Network, network).periodicTasks;
      cfg.name in after && after[cfg.name] == Configured(kept, cfg)
  {
    var cfgs := Tasks(ethL2Network);
    TaskPathsDistinct(ethL2Network);
    LastConfigOfDistinct(cfgs, i);
    ApplyTasksAt(RemoveOldTasks(s.periodicTasks), cfgs, cfgs[i].name);
  }

  /**
   * The bulk delete filters on `name`, which holds the description, so the delete of the next
   * run removes none of the tasks this run configured.
   */
  lemma ConfiguredTasksSurviveNextDelete(s: StoreState, ethL2Network: bool, network: Network)
    ensures var after := Reconcile(s, ethL2Network, network).periodicTasks;
      RemoveOldTasks(after) == after
  {
    var cfgs := Tasks(ethL2Network);
    var kept := RemoveOldTasks(s.periodicTasks);
    var after := Reconcile(s, ethL2Network, network).periodicTasks;
    TaskPathsDistinct(ethL2Network);
    TaskNamespaces(ethL2Network);
    forall t | t in after ensures !StartsWith(after[t].name, TASK_PREFIX) {
      ApplyTasksAt(kept, cfgs, t);
      if t in TaskNames(cfgs) {
        TaskNamesMembers(cfgs, t);
        var i :| 0 <= i < |cfgs| && cfgs[i].name == t;
        LastConfigOfDistinct(cfgs, i);
      }
    }
  }

  /** Running the command twice on the same network and settings is running it once. */
  lemma ReconcileIdempotent(s: StoreState, ethL2Network: bool, network: Network)
    ensures Reconcile(Reconcile(s, ethL2Network, network), ethL2Network, network) == Reconcile(s, ethL2Network, network)
  {
    var cfgs := Tasks(ethL2Network);
    var once := Reconcile(s, ethL2Network, network);
    ConfiguredTasksSurviveNextDelete(s, ethL2Network, network);
    ApplyTasksIdempotent(RemoveOldTasks(s.periodicTasks), cfgs);
    if network in MASTER_COPIES {
      ApplyMasterCopiesIdempotent(s.masterCopies, MASTER_COPIES[network]);
    }
    if network in PROXY_FACTORIES {
      ApplyProxyFactoriesIdempotent(s.proxyFactories, PROXY_FACTORIES[network]);
    }
  }

  /**
   * On a network with no address lists no master-copy or proxy-factory row is created or
   * changed, and the warning is raised.
   */
  lemma UnknownNetworkTouchesNoAddresses(s: StoreState, ethL2Network: bool, network: Network)
    requires network != APOTHEM
    ensures Reconcile(s, ethL2Network, network).masterCopies == s.masterCopies
    ensures Reconcile(s, ethL2Network, network).proxyFactories == s.proxyFactories
    ensures NetworkWarning(network)
  {
  }

  // ----- The store and the command as it runs ----------------------------------------------

  /** The database tables the command touches. */
  class Store {
    var periodicTasks: map<string, PeriodicTask>
    var intervals: set<IntervalKey>
    var masterCopies: map<string, MasterCopy>
    var proxyFactories: map<string, ProxyFactory>

    /** Every task row points at an existing interval schedule. */
    ghost predicate Valid()
      reads this
    {
      forall t | t in periodicTasks :: periodicTasks[t].interval in intervals
    }

    function State(): StoreState
      reads this
    {
      StoreState(periodicTasks, intervals, masterCopies, proxyFactories)
    }

    /** `CeleryTaskConfiguration.create_task`. */
    method CreateTask(cfg: TaskConfig) returns (created: bool)
      requires Valid()
      modifies this
      ensures Valid()
      ensures created <==> cfg.name !in old(periodicTasks)
      ensures intervals == old(intervals) + {ScheduleOf(cfg)}
      ensures periodicTasks == UpsertTask(old(periodicTasks), cfg)
      ensures masterCopies == old(masterCopies) && proxyFactories == old(proxyFactories)
    {
      var schedule := IntervalKey(cfg.interval, cfg.period);
      intervals := intervals + {schedule};
      created := cfg.name !in periodicTasks;
      if created {
        periodicTasks := periodicTasks[cfg.name := PeriodicTask(cfg.description, schedule, cfg.enabled, 0)];
      } else {
        var task := periodicTasks[cfg.name];
        task := task.(name := cfg.description);
        task := task.(interval := schedule);
        task := task.(enabled := cfg.enabled);
        periodicTasks := periodicTasks[cfg.name := task];
      }
    }

    /** `PeriodicTask.objects.filter(name__startswith='safe_transaction_service').delete()`. */
    method DeleteOldTasks()
      requires Valid()
      modifies this
      ensures Valid()
      ensures periodicTasks == RemoveOldTasks(old(periodicTasks))
      ensures intervals == old(intervals)
      ensures masterCopies == old(masterCopies) && proxyFactories == old(proxyFactories)
    {
      periodicTasks := map t | t in periodicTasks && !StartsWith(periodicTasks[t].name, TASK_PREFIX) :: periodicTasks[t];
    }

    /** `Command._setup_safe_master_copies`. */
    method SetupMasterCopies(entries: seq<MasterCopyEntry>)
      modifies this
      ensures masterCopies == ApplyMasterCopies(old(masterCopies), entries)
      ensures periodicTasks == old(periodicTasks) && intervals == old(intervals)
      ensures proxyFactories == old(proxyFactories)
    {
      for i := 0 to |entries|
        invariant masterCopies == ApplyMasterCopies(old(masterCopies), entries[..i])
        invariant periodicTasks == old(periodicTasks) && intervals == old(intervals)
        invariant proxyFactories == old(proxyFactories)
      {
        var e := entries[i];
        var mc: MasterCopy;
        if e.address in masterCopies {
          mc := masterCopies[e.address];
        } else {
          mc := NewMasterCopy(e);
          masterCopies := masterCopies[e.address := mc];
        }
        if mc.version != e.version || mc.initialBlockNumber != e.initialBlockNumber {
          mc := mc.(version := e.version);
          masterCopies := masterCopies[e.address := mc];
        }
        assert entries[..i + 1][..i] == entries[..i];
      }
      assert entries[..|entries|] == entries;
    }

    /** `Command._setup_safe_proxy_factories`. */
    method SetupProxyFactories(entries: seq<ProxyFactoryEntry>)
      modifies this
      ensures proxyFactories == ApplyProxyFactories(old(proxyFactories), entries)
      ensures periodicTasks == old(periodicTasks) && intervals == old(intervals)
      ensures masterCopies == old(masterCopies)
    {
      for i := 0 to |entries|
        invariant proxyFactories == ApplyProxyFactories(old(proxyFactories), entries[..i])
        invariant periodicTasks == old(periodicTasks) && intervals == old(intervals)
        invariant masterCopies == old(masterCopies)
      {
        var e := entries[i];
        if e.address !in proxyFactories {
          proxyFactories := proxyFactories[e.address := NewProxyFactory(e)];
        }
        assert entries[..i + 1][..i] == entries[..i];
      }
      assert entries[..|entries|] == entries;
    }

    /**
     * The `for task in TASKS` loop of `Command.handle`: `created[i]` is the flag reported for
     * `cfgs[i]`: the row was missing before the loop and no earlier entry created it. With
     * distinct task paths it says whether the row was missing before the loop.
     */
    method CreateTasks(cfgs: seq<TaskConfig>) returns (created: seq<bool>)
      requires Valid()
      modifies this
      ensures Valid()
      ensures periodicTasks == ApplyTasks(old(periodicTasks), cfgs)
      ensures intervals == old(intervals) + ScheduleKeys(cfgs)
      ensures masterCopies == old(masterCopies) && proxyFactories == old(proxyFactories)
      ensures |created| == |cfgs|
      ensures forall i | 0 <= i < |cfgs| ::
        created[i] <==> cfgs[i].name !in old(periodicTasks) && cfgs[i].name !in TaskNames(cfgs[..i])
      ensures (forall j, k | 0 <= j < k < |cfgs| :: cfgs[j].name != cfgs[k].name) ==>
        forall i | 0 <= i < |cfgs| :: created[i] <==> cfgs[i].name !in old(periodicTasks)
    {
      created := [];
      for i := 0 to |cfgs|
        invariant Valid()
        invariant periodicTasks == ApplyTasks(old(periodicTasks), cfgs[..i])
        invariant intervals == old(intervals) + ScheduleKeys(cfgs[..i])
        invariant masterCopies == old(masterCopies) && proxyFactories == old(proxyFactories)
        invariant |created| == i
        invariant forall j | 0 <= j < i ::
          created[j] <==> cfgs[j].name !in old(periodicTasks) && cfgs[j].name !in TaskNames(cfgs[..j])
      {
        ApplyTasksAt(old(periodicTasks), cfgs[..i], cfgs[i].name);
        var c := CreateTask(cfgs[i]);
        created := created + [c];
        assert cfgs[..i + 1][..i] == cfgs[..i];
      }
      assert cfgs[..|cfgs|] == cfgs;
      if forall j, k | 0 <= j < k < |cfgs| :: cfgs[j].name != cfgs[k].name {
        forall i | 0 <= i < |cfgs| ensures cfgs[i].name !in TaskNames(cfgs[..i]) {
          TaskNamesMembers(cfgs[..i], cfgs[i].name);
        }
      }
    }

    /**
     * `Command.handle`: `created[i]` is the flag reported for the i-th configured task, and
     * `warning` whether the invalid-network warning is written.
     */
    method Handle(ethL2Network: bool, network: Network) returns (created: seq<bool>, warning: bool)
      requires Valid()
      modifies this
      ensures Valid()
      ensures State() == Reconcile(old(State()), ethL2Network, network)
      ensures |created| == |Tasks(ethL2Network)|
      ensures forall i | 0 <= i < |created| ::
        created[i] <==> Tasks(ethL2Network)[i].name !in RemoveOldTasks(old(periodicTasks))
      ensures warning <==> NetworkWarning(network)
    {
      DeleteOldTasks();
      TaskPathsDistinct(ethL2Network);
      created := CreateTasks(Tasks(ethL2Network));
      if network in MASTER_COPIES {
        SetupMasterCopies(MASTER_COPIES[network]);
      }
      if network in PROXY_FACTORIES {
        SetupProxyFactories(PROXY_FACTORIES[network]);
      }
      warning := !(network in MASTER_COPIES && network in PROXY_FACTORIES);
    }
  }
}
