# Grant download permissions for past WooCommerce orders — a Dafny model

The plugin replaces WooCommerce's handler for
`woocommerce_process_product_file_download_paths`. Suppose an admin saves a
downloadable product (or one of its variations) with a changed set of files.
The handler then updates the download-permission rows of every past order
that already holds a permission row for that product (or variation) and can
be loaded. As the two filters allow:

- rows for removed files are deleted;
- a row is inserted for each added file where the order has none yet.

A past order with no row for the product gets nothing.

This project models that handler,
`WooCommerce_Legacy_Grant_Download_Permissions::grant_download_permissions`,
and proves what it does to the permissions table.

Files:

- `download_ids.dfy` (module `DownloadIds`): download ids and the key diff.
  `Diff` is `array_diff`, `Truthy` is `array_filter` without a callback, and
  `Added`/`Removed` are the two composed diffs that the handler computes.
- `permissions.dfy` (module `Permissions`): the permissions table. It is the
  class `PermissionsTable`, whose field `rows` is a multiset of
  `Row(order, product, download)` keys. A SQL table can hold the same key
  twice, and a `DELETE` removes every copy. The class has one method per
  query the handler issues:
  - the `GROUP BY` select of orders;
  - the `SELECT 1` existence check;
  - the `DELETE`;
  - the insert done by `wc_downloadable_file_permission`.
- `grant_download_permissions.dfy` (module `GrantDownloadPermissions`): the
  handler. It is a method with loops that works on the table in place.
  - `ReconcileOrders` is the `foreach` over orders.
  - `RevokeRemovedIds` and `GrantAddedIds` are the two inner `foreach` loops
    of one order.
  - The ghost function `Reconciled` says, per row key, how many copies the
    table holds after the call. The method's postcondition ties the new
    table to it, and the lemmas state the promised properties about it.
- `wrappers.dfy`, `sequences.dfy`: `Option`, `NoDuplicates`, `Elems`.

Everything the handler calls into is a parameter, the datatype `Host`:

- `findProduct` is `wc_get_product`, giving the keys of `get_downloads()`;
- `findOrder` is `wc_get_order`, which may fail;
- `removeAccess` and `grantAccess` are the two `apply_filters` gates.

Each gate is a predicate over (download id, target product id, order). A
download id is modelled as the PHP string form of the array key, because
`array_diff` compares keys in that form and the SQL binds them with `%s`.
The falsy keys `array_filter` drops are therefore `""` and `"0"`.

## Model

| member | source | states |
|---|---|---|
| GrantDownloadPermissions.TargetProduct | grant-download-permissions.php:67 | the variation id when it is non-zero, the product id otherwise |
| DownloadIds.Diff | grant-download-permissions.php:78-79 | an id is in `array_diff(a, b)` exactly when it is in a and not in b; the result is no longer than a |
| DownloadIds.Truthy | grant-download-permissions.php:78-79 | an id survives `array_filter` exactly when it is not falsy (`""`, `"0"`) |
| DownloadIds.Added | grant-download-permissions.php:76-78 | an id is added exactly when it is a submitted key, not an existing key, and not falsy |
| DownloadIds.Removed | grant-download-permissions.php:76-79 | an id is removed exactly when it is an existing key, not a submitted key, and not falsy |
| DownloadIds.AddedRemovedDisjoint | grant-download-permissions.php:78-79 | no id is both added and removed |
| DownloadIds.NoChangeIffSameIds | grant-download-permissions.php:76-82 | both diffs are empty exactly when the old and new key lists hold the same truthy ids |
| DownloadIds.DiffKeepsDistinct | grant-download-permissions.php:78-79 | the diff of a duplicate-free list is duplicate-free |
| DownloadIds.TruthyKeepsDistinct | grant-download-permissions.php:78-79 | filtering a duplicate-free list leaves it duplicate-free |
| DownloadIds.AddedDistinct | grant-download-permissions.php:77-78 | distinct submitted keys give distinct added ids, so each is handled once per order |
| DownloadIds.RemovedDistinct | grant-download-permissions.php:76-79 | distinct existing keys give distinct removed ids |
| GrantDownloadPermissions.PlanFor | grant-download-permissions.php:67-79 | no plan exactly when the target product cannot be loaded; otherwise the target is the chosen product and the added and removed ids are as characterised above |
| Permissions.PermissionsTable.OrdersWithProduct | grant-download-permissions.php:84-89 | each order holding a row for the product, listed once, and no other order; the table is not changed |
| Permissions.PermissionsTable.HasPermission | grant-download-permissions.php:119-126 | true exactly when a row (order, product, id) exists |
| Permissions.PermissionsTable.Revoke | grant-download-permissions.php:102-109 | every copy of the row (order, product, id) is gone, all other rows unchanged |
| Permissions.PermissionsTable.Grant | grant-download-permissions.php:129 | one row (order, target, id) is added, all other rows unchanged |
| GrantDownloadPermissions.RevokeRemovedIds | grant-download-permissions.php:99-112 | for one order, rows of removed ids that the remove filter lets go are deleted; all other rows unchanged |
| GrantDownloadPermissions.GrantAddedIds | grant-download-permissions.php:115-133 | for one order, each added id the grant filter allows gets one row if it had none; all other rows unchanged |
| GrantDownloadPermissions.ProcessOrderStep | grant-download-permissions.php:92-133 | handling one more order, deletions then grants, gives the per-row result for the enlarged set of processed orders |
| GrantDownloadPermissions.ReconcileOrders | grant-download-permissions.php:91-134 | after the loop over orders, every row count is the one `CountAfter` gives for the listed orders |
| GrantDownloadPermissions.GrantDownloadPermissions | grant-download-permissions.php:63-136 | the table afterwards holds, for every key, exactly the count `Reconciled` gives for the old table |
| GrantDownloadPermissions.ProductMissingLeavesTable | grant-download-permissions.php:70-73 | if the product lookup fails, every row stays as it was |
| GrantDownloadPermissions.SameIdsLeaveTable | grant-download-permissions.php:82 | if old and new lists hold the same truthy ids, nothing is added or removed and every row stays |
| GrantDownloadPermissions.OtherProductsUnchanged | grant-download-permissions.php:104-108 | rows of any product other than the target stay as they were |
| GrantDownloadPermissions.OtherIdsUnchanged | grant-download-permissions.php:99-133 | rows whose id is neither added nor removed stay as they were |
| GrantDownloadPermissions.UntouchedOrdersUnchanged | grant-download-permissions.php:84-96 | rows of an order that is not the loaded form of a listed order stay as they were |
| GrantDownloadPermissions.TouchedOrdersHeldRows | grant-download-permissions.php:84-96 | when each order lookup returns an order with the id it was given, the orders worked on are exactly those that held a row for the target and could be loaded |
| GrantDownloadPermissions.MissingOrderUnchanged | grant-download-permissions.php:92-96 | rows of an order whose lookup fails stay as they were |
| GrantDownloadPermissions.RevokedRowsGone | grant-download-permissions.php:99-111 | for a listed, loaded order and a removed id the remove filter lets go, no row (order, target, id) remains |
| GrantDownloadPermissions.GrantedRowsPresent | grant-download-permissions.php:115-131 | for a listed, loaded order and an added id the grant filter allows, exactly one row exists afterwards if there was none, otherwise the existing rows stay as they were |
| GrantDownloadPermissions.NeverDuplicates | grant-download-permissions.php:118-130 | a count only grows from zero to one: the call never creates a duplicate row |
| GrantDownloadPermissions.SaveAddsNoOrders | grant-download-permissions.php:84-134 | when each order lookup returns an order with the id it was given, every order holding a target row afterwards held one before |
| GrantDownloadPermissions.SaveTwiceIsSaveOnce | grant-download-permissions.php:63-136 | a second call with the same inputs and deterministic filters leaves the table as the first call left it |

## Left out

- Hook wiring and bootstrap are plugin plumbing with no behaviour to state: the `ABSPATH` guard, the WooCommerce presence check, `remove_action`/`add_action`, the singleton `get_instance` and the `admin_init` registration (lines 16-54 and 139).
- The SQL text, `$wpdb->prepare` escaping and query execution are not modelled. Each query is an operation on the multiset of row keys.
- The internals of `wc_get_product`, `get_downloads`, `wc_get_order`, the filter callbacks and `wc_downloadable_file_permission` are foreign code. The filters are arbitrary total predicates, so they are assumed deterministic and free of side effects on the table.
- The other columns that `wc_downloadable_file_permission` writes (expiry, downloads remaining and so on) are not modelled. Only the key triple is inserted.
- The values of the submitted file map (names, URLs) are not modelled. The handler reads only its keys.
- PHP's loose typing beyond the falsy-key drop is not modelled. Ids are their string forms. The variation id is an integer whose only falsy value is 0; `null`, `""` and `"0"` as variation ids are not represented.
- The order in which the database returns the `GROUP BY` rows is unspecified. The model proves that the result does not depend on it.
- Concurrent admin requests and races on the table are left out. The handler has no concurrency logic.
- TouchedOrdersHeldRows: needs `ConsistentOrderIds` (the order loaded for an id has that id). Without it, a loaded order may carry another id, and the ids worked on need not be listed orders.
- SaveAddsNoOrders: needs `ConsistentOrderIds`. Without it, a grant written under `$order->get_id()` can give a row to an order that held none before.
- MissingOrderUnchanged: needs `ConsistentOrderIds`, because rows are written under `$order->get_id()`. Without it, another listed order that loads with that id could still change the failed order's rows.
- SaveTwiceIsSaveOnce: needs `ConsistentOrderIds` (the order loaded for an id has that id) and relies on the same product lookup and filters in both calls. If `get_id()` could differ from its id, a granted row could bring a new order into the second call's list.
