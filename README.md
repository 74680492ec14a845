# Safe transaction service setup and XinFin RPC proxy — a Dafny model

This project models two small pieces of the XinFin fork of the Safe transaction service and
proves properties of them.

**The JSON-RPC compatibility proxy** (`proxy/server.js`, module `ProxyRewrite`). XinFin nodes
write addresses as `xdc…` where Ethereum tooling expects `0x…`. The proxy rewrites every
string value nested in a response that starts with `xdc`. It rebuilds arrays and objects with
the same shape and leaves object keys and the top-level value alone. A response that does not
parse is answered as `{}`. On the way in, `eth_getTransactionCount` and `eth_call` requests
that ask about the `"pending"` block are changed to ask about `"latest"`. A JSON value is the
datatype `Json`. A number is kept as its literal text and never interpreted. The response
rewrite is a pair of mutually recursive functions, `Traverse` (`traverseObjRec`) and
`MapValue` (its inner `mapValue`). The request rule is a method that updates the `params`
array in place.

**The `setup_service` management command** (`safe_transaction_service/history/management/commands/setup_service.py`,
module `SetupService`). The command reconciles the database with a static configuration.
First it bulk-deletes old periodic tasks. Then it runs `create_task` for each entry of `TASKS`.
That call get-or-creates the `(every, period)` interval schedule. It also get-or-creates the
task row by its `task` path, and overwrites `name`, `interval` and `enabled` on a row that
already existed. Finally the command get-or-creates the master-copy and proxy-factory rows
listed for the detected network, and warns when the network is not in both tables. The
database is a `Store` object with four tables:
- `periodicTasks`: a map from task path to row;
- `intervals`: the set of `(every, period)` keys, so there is at most one schedule per pair;
- `masterCopies`: a map from address to row;
- `proxyFactories`: a map from address to row.

Each method has a pure specification function over the same maps (`UpsertTask`,
`ApplyTasks`, `ApplyMasterCopies`, …, and `Reconcile` for the whole command). The lemmas
characterise these functions entry by entry and prove the command idempotent.

The model follows the code as written; two of its behaviours are worth knowing:
- The bulk delete filters on the `name` column, which holds the human description
  (`setup_service.py:82`), not on the task path. No configured description starts with
  `safe_transaction_service`, but every configured task path does (`TaskNamespaces`). So the
  delete never removes a task that the command created (`ConfiguredTasksSurviveNextDelete`).
  Rows for task paths that were dropped from `TASKS` are not removed either.
- When a stored master copy differs in version or initial block, the code assigns the block
  number to `version` and then the version to `version` (`setup_service.py:117-118`). It then
  saves `initial_block_number` and `version`. Only the version changes. The stored initial
  block, the `tx_block_number` cursor and the `l2` flag stay as they were, even when the new
  version's `+L2` suffix disagrees with `l2` (`SetupMasterCopy`, `ExistingMasterCopyKeepsCursor`).
  Line 117 was evidently meant to assign `initial_block_number`; the model keeps the code as
  written.

## Model

| member | source | states |
|---|---|---|
| `ProxyRewrite.ReplaceXdcPrefix` | proxy/server.js:21-22 | replacing the leading `xdc` gives `0x` followed by the rest of the string, unchanged, so only the leading occurrence is replaced; the result no longer starts with `xdc` |
| `ProxyRewrite.MapValue` | proxy/server.js:20-30 | a nested string that starts with `xdc` is rewritten to `0x…`; other strings, numbers, booleans and `null` (which goes through `traverseObjRec`) come back unchanged |
| `ProxyRewrite.Traverse` | proxy/server.js:19-43 | arrays stay arrays and objects stay objects; any other top-level value, including a top-level `xdc…` string, is returned unchanged |
| `ProxyRewrite.TraverseShape` | proxy/server.js:32-39 | the result has the input's shape: arrays of the same length, objects with the same keys in the same order, equal non-string leaves |
| `ProxyRewrite.MapValueShape` | proxy/server.js:25-29 | a nested value keeps its shape under `mapValue` |
| `ProxyRewrite.TraverseAt` | proxy/server.js:32-39 | for every non-empty path, the result has a value at that path iff the input does, and it is `mapValue` of the input's value there |
| `ProxyRewrite.MapValueAt` | proxy/server.js:20-30 | the same pointwise statement for a nested value under `mapValue` |
| `ProxyRewrite.TraverseCleans` | proxy/server.js:19-43 | after the rewrite no nested string value starts with `xdc` |
| `ProxyRewrite.MapValueCleans` | proxy/server.js:20-30 | after `mapValue` neither the value nor anything below it is a string starting with `xdc` |
| `ProxyRewrite.TraverseFixpoint` | proxy/server.js:19-43 | the rewrite leaves a value unchanged iff no nested string value starts with `xdc` |
| `ProxyRewrite.MapValueFixpoint` | proxy/server.js:20-30 | `mapValue` leaves a value unchanged iff neither it nor anything below it starts with `xdc` |
| `ProxyRewrite.TraverseIdempotent` | proxy/server.js:19-43 | rewriting twice equals rewriting once |
| `ProxyRewrite.RewriteResponse` | proxy/server.js:75-82 | a body that fails to parse becomes `{}`; a parsed body becomes exactly its `Traverse` rewrite, so the lemmas about `Traverse` apply to it; it keeps its shape; no nested value of the answer starts with `xdc` |
| `ProxyRewrite.NormalizedParams` | proxy/server.js:55-60 | `params` keeps its length and every entry other than `params[1]`; it changes iff the method is `eth_getTransactionCount` or `eth_call` and `params[1]` is `"pending"`, and then `params[1]` becomes `"latest"` |
| `ProxyRewrite.NormalizedParamsIdempotent` | proxy/server.js:55-60 | applying the rule to its own output changes nothing |
| `ProxyRewrite.PreferLatest` | proxy/server.js:52-60 | the in-place update leaves the `params` array equal to `NormalizedParams` of its old contents; a missing `params` throws exactly when the method is one of the two |
| `SetupService.Tasks` | safe_transaction_service/history/management/commands/setup_service.py:40-62 | eight tasks; the internal-tx indexer is enabled iff the network is not L2; the Safe-events and new-proxies indexers iff it is L2; all others always |
| `SetupService.TaskPathsDistinct` | safe_transaction_service/history/management/commands/setup_service.py:40-62 | no two configured tasks share a task path |
| `SetupService.TaskNamespaces` | safe_transaction_service/history/management/commands/setup_service.py:40-62 | every task path starts with `safe_transaction_service` and no description does |
| `SetupService.RemoveOldTasks` | safe_transaction_service/history/management/commands/setup_service.py:82 | exactly the rows whose `name` starts with `safe_transaction_service` are removed; all other rows are kept unchanged |
| `SetupService.UpsertTask` | safe_transaction_service/history/management/commands/setup_service.py:23-37 | afterwards the row under the task path has `name` = description, the configured schedule and `enabled`, whether it was created or existed; an existing row keeps its other columns, a new one starts at zero runs; no other row changes |
| `SetupService.ApplyTasksAt` | safe_transaction_service/history/management/commands/setup_service.py:85-86 | after the loop a configured task path holds its last configuration, keeping the run count of the row it had before; every other row is unchanged |
| `SetupService.ApplyTasksIdempotent` | safe_transaction_service/history/management/commands/setup_service.py:85-86 | running the task loop twice equals running it once |
| `SetupService.LastConfigOfDistinct` | safe_transaction_service/history/management/commands/setup_service.py:85-86 | with distinct task paths, each entry is the configuration its row ends up with |
| `SetupService.NewMasterCopy` | safe_transaction_service/history/management/commands/setup_service.py:107-115 | a new master copy has `tx_block_number` = `initial_block_number` = the listed block and the listed version, and `l2` is true iff the version ends with `+L2` |
| `SetupService.SetupMasterCopy` | safe_transaction_service/history/management/commands/setup_service.py:106-119 | a missing address is created with the defaults; an existing row changes in its version only, to the listed one; no other row changes |
| `SetupService.ApplyMasterCopiesAt` | safe_transaction_service/history/management/commands/setup_service.py:105-119 | after the loop a listed address holds its old row, or the row its first entry created, with the version of its last entry; other rows are unchanged |
| `SetupService.ExistingMasterCopyKeepsCursor` | safe_transaction_service/history/management/commands/setup_service.py:116-119 | an existing master copy keeps `initial_block_number`, `tx_block_number` and `l2`; only its version can change |
| `SetupService.ApplyMasterCopiesIdempotent` | safe_transaction_service/history/management/commands/setup_service.py:105-119 | running the master-copy loop twice equals running it once |
| `SetupService.NewProxyFactory` | safe_transaction_service/history/management/commands/setup_service.py:123-127 | a new proxy factory has `tx_block_number` = `initial_block_number` = the listed block |
| `SetupService.SetupProxyFactory` | safe_transaction_service/history/management/commands/setup_service.py:122-127 | an existing proxy factory is never modified; a missing address is created with the defaults; nothing else is added |
| `SetupService.ApplyProxyFactoriesAt` | safe_transaction_service/history/management/commands/setup_service.py:121-127 | after the loop existing rows are unchanged and a missing listed address holds the row its first entry created |
| `SetupService.ApplyProxyFactoriesIdempotent` | safe_transaction_service/history/management/commands/setup_service.py:121-127 | running the proxy-factory loop twice equals running it once |
| `SetupService.ReconcileConfiguresTasks` | safe_transaction_service/history/management/commands/setup_service.py:82-86 | after the command every configured task is present with its description, schedule and `enabled` flag |
| `SetupService.ConfiguredTasksSurviveNextDelete` | safe_transaction_service/history/management/commands/setup_service.py:82 | because the delete filters on `name`, the next run's delete removes nothing the command left behind |
| `SetupService.AddressTables` | safe_transaction_service/history/management/commands/setup_service.py:64-74 | the `MASTER_COPIES` and `PROXY_FACTORIES` tables have an entry only for APOTHEM, one address each, the master copy an L2 one; `NetworkWarning` (line 102) holds iff the network is not APOTHEM |
| `SetupService.ReconcileIdempotent` | safe_transaction_service/history/management/commands/setup_service.py:80-127 | `Reconcile`, the whole command as a function of the store, applied twice with the same network and setting leaves the same store as applied once |
| `SetupService.UnknownNetworkTouchesNoAddresses` | safe_transaction_service/history/management/commands/setup_service.py:95-103 | on a network with no entry in `MASTER_COPIES` or `PROXY_FACTORIES`, `Reconcile` creates or changes no master-copy or proxy-factory row, and `NetworkWarning` holds |
| `SetupService.Store.CreateTask` | safe_transaction_service/history/management/commands/setup_service.py:23-37 | `created` is true iff no row had the task path; the interval set gains only the task's `(every, period)` key; the task table becomes `UpsertTask` of the old one; every task row still points at an existing schedule |
| `SetupService.Store.DeleteOldTasks` | safe_transaction_service/history/management/commands/setup_service.py:82 | the task table becomes `RemoveOldTasks` of the old one; the other tables are unchanged |
| `SetupService.Store.CreateTasks` | safe_transaction_service/history/management/commands/setup_service.py:85-90 | the task loop leaves `ApplyTasks` of the old table and adds the schedules of all tasks; for any list, the i-th `created` flag is true iff the i-th path was missing before the loop and not configured by an earlier entry; with distinct task paths, iff it was missing before the loop |
| `SetupService.Store.SetupMasterCopies` | safe_transaction_service/history/management/commands/setup_service.py:105-119 | the master-copy table becomes `ApplyMasterCopies` of the old one; nothing else changes |
| `SetupService.Store.SetupProxyFactories` | safe_transaction_service/history/management/commands/setup_service.py:121-127 | the proxy-factory table becomes `ApplyProxyFactories` of the old one; nothing else changes |
| `SetupService.Store.Handle` | safe_transaction_service/history/management/commands/setup_service.py:80-103 | the store becomes `Reconcile` of the old store (the whole command as a function, setup_service.py:80-127, over the `MASTER_COPIES` and `PROXY_FACTORIES` tables); the per-task `created` flags report whether the task survived the delete; the warning is raised iff the network is not in both address tables |

## Left out

- The Express wiring of the proxy is not modelled: `app.use`, CORS, the `access-control-allow-origin` header, the proxy target and options, `DEBUG` logging and `app.listen`. These are I/O plumbing over a library.
- JSON text is not modelled. `JSON.parse` is an `Option<Json>` input, `JSON.stringify` is left out, and numbers are opaque literals (no floating point).
- PreferLatest: `params` is either an array or missing. A `params` that is an object with key `"1"`, or a string, is not modelled. A batch request (a JSON array body) has no `method` field; this is represented by passing a method value that is neither name.
- Duplicate keys in a JSON object are outside the model. `JSON.parse` keeps only the last value of a repeated key, while a `JObject` may list a key twice.
- The JavaScript engine's ordering of integer-like object keys is not modelled. An object is a sequence of entries whose order the rewrite keeps.
- The price client (`safe_transaction_service/tokens/clients/kucoin_client.py`) is not modelled. It is one HTTP request and a floating-point parse.
- Network detection (`EthereumClientProvider().get_network()`) is a remote call. The detected network is a parameter, named by its enum member. The `ETH_L2_NETWORK` setting is a boolean parameter.
- Django and Celery persistence internals are not modelled: transactions, `save` beyond the columns written, database ids, races between concurrent `get_or_create` calls, and failures of the persistence layer. The uniqueness constraint on the `name` column of the periodic-task table, and the error `get_or_create` raises when several rows match, are also left out: each table is a map keyed by the column the command looks rows up by.
- A periodic-task row has only the columns the command writes, plus `totalRunCount`. That column stands for every column the command never writes.
- Console output is reduced to the per-task `created` flags and the `warning` flag.
