# woocommerce-admin report core, in Dafny

This project models three pieces of the woocommerce-admin analytics back end and proves what they promise.

- **The category report data store** (`CategoriesReport`, with the clause-map query builder `SqlQueryModel`). `get_data` works in this order:
  - merges defaults into the caller's arguments;
  - consults the report cache;
  - on a miss, builds a grouped subquery clause by clause;
  - for an explicit category include-list, wraps that subquery in an outer query that RIGHT JOINs a derived table of the requested ids;
  - runs the statement against an abstract database;
  - pages the grouped rows in memory, attaches `extended_info` to each row, and caches the result.
  
  The data store is a class that owns two query objects (`SqlQuery`, a map from clause kind to fragments) and the cache. A page of rows is enriched in place in an array.
- **The reports sync orchestrator** (`ReportsSync`). A class holds the options store, the transient cache, the Action Scheduler queue (a log of scheduling and cancelling events) and the batch engine's "importing" flag. It has three operations:
  - `regenerate_report_data` refuses while an import runs. Otherwise it resets the import counters and totals, updates the "imported-from" watermark, and for each sync in order either runs its batch init at once or queues it behind its dependency.
  - `delete_report_data` cancels the plugin's jobs, schedules the order-then-customer delete chain and removes the five import options.
  - `clear_stock_count_cache` drops the stock-count transients.
- **The customers batch sync worker** (`CustomersSync`). It works over an abstract users table and the customer lookup table:
  - `get_items` is paged, ascending retrieval of customer-role user ids. It takes an optional day horizon and an optional "skip already imported" anti-join, which it adds to the user query through a hook.
  - `import` is an opaque upsert.
  - `delete` removes the smallest `batch_size` lookup ids, one at a time.
  - `get_total_imported` is the row count.

`Basics` holds what the three share:
- `Option` and `Result`;
- day arithmetic on opaque integer timestamps;
- ascending enumeration of a finite id set;
- PHP `implode`, `strpos` and truthiness.

The functions are the specification. Each method that changes state is proved against them (`ensures` ties the new state to a function of the old), and the lemmas prove the system's promises about those functions.

## Model

| member | source | states |
|---|---|---|
| SqlQueryModel.AddClause | src/API/Reports/Categories/DataStore.php:96-97 | `add_sql_clause` appends the fragment at the end of its kind's list |
| SqlQueryModel.AddClauseFrame | src/API/Reports/Categories/DataStore.php:96-97 | adding a fragment under one kind leaves the fragments of every other kind as they were |
| SqlQueryModel.SqlQuery.AddSqlClause | src/API/Reports/Categories/DataStore.php:304-306 | the query object's clause map becomes the old one with the fragment appended under its kind |
| SqlQueryModel.RenderedContainsFragment | src/API/Reports/Categories/DataStore.php:254 | every fragment added under any kind occurs in the rendered statement (`Render`, the model's `get_query_statement()`), so a wrapped subquery carries all its filters into the outer statement |
| Basics.StartOfDay | src/ReportsSync.php:98 | `date( 'Y-m-d 00:00:00', t )` is the start of t's day: at most t, within one day of it, on a day boundary |
| Basics.Ascending | src/Sync/CustomersSync.php:57-58 | `ORDER BY ID ASC` over a set: every member exactly once, strictly ascending, nothing else |
| CategoriesReport.ParseArgsIdempotent | src/API/Reports/Categories/DataStore.php:213-224 | `wp_parse_args` with the defaults: merging a second time changes nothing, and `categories` is always present afterwards |
| CategoriesReport.NormalizeOrderByRenames | src/API/Reports/Categories/DataStore.php:149-157 | `'date'` becomes `'time_interval'`, `'category'` becomes `'_terms.name'`, every other key is returned unchanged, and normalising twice equals once |
| CategoriesReport.NormalizeOrderByNeedsTerms | src/API/Reports/Categories/DataStore.php:133 | the normalised key contains `_terms` (so the `_terms` JOIN is added) exactly when sorting by category or by a raw key that mentions `_terms` |
| CategoriesReport.IncludedCategoriesArray | src/API/Reports/Categories/DataStore.php:165-170 | the result is the `categories` argument when it is set, an array and non-empty, and the empty array otherwise (both directions) |
| CategoriesReport.IdListSqlTruthy | src/API/Reports/Categories/DataStore.php:99-100 | the imploded id list is truthy exactly when the list is non-empty and is not the single id 0 |
| CategoriesReport.ArraySlice | src/API/Reports/Categories/DataStore.php:182 | `array_slice` yields at most `length` items; for a non-negative offset it is the clamped slice `data[offset..offset+length]` |
| CategoriesReport.PageRecords | src/API/Reports/Categories/DataStore.php:180-183 | `page_records(data, p, n)` has at most n rows and for p >= 1 equals `data[(p-1)*n .. min((p-1)*n+n, \|data\|)]` |
| CategoriesReport.PageRecordsCover | src/API/Reports/Categories/DataStore.php:180-183 | every grouped row i is item `i % n` of page `i / n + 1` |
| CategoriesReport.TotalPages | src/API/Reports/Categories/DataStore.php:276-277 | `(int) ceil( record_count / per_page )`: the least page count whose pages hold all rows |
| CategoriesReport.ValidPageIsNonEmpty | src/API/Reports/Categories/DataStore.php:277-282 | for a page number of at least 1, it is at most the page count exactly when its page of rows is non-empty |
| CategoriesReport.ExtendedRowsProperties | src/API/Reports/Categories/DataStore.php:191-199 | `include_extended_info` keeps every row and its columns, adds the category name exactly when `extended_info` is set (an empty object otherwise), and is idempotent |
| CategoriesReport.ComputeReport | src/API/Reports/Categories/DataStore.php:272-290 | after the query: a null result is the `woocommerce_reports_categories_result_failed` error with status 500; a page out of range gives the zeroed result object; otherwise `total` is the count of all grouped rows, `pages` its ceiling quotient, `page_no` the page, and `data` the enriched page, which is non-empty and at most `per_page` long |
| CategoriesReport.EmptyResultIsNotAnError | src/API/Reports/Categories/DataStore.php:272-280 | an empty grouped result yields the empty result object, not the error |
| CategoriesReport.InitialSubqueryFragments | src/API/Reports/Categories/DataStore.php:301-307 | `initialize_queries` leaves no WHERE, ORDER BY or JOIN fragment and exactly the category GROUP BY |
| CategoriesReport.OrderByParamsEffect | src/API/Reports/Categories/DataStore.php:127-141 | the sort key and direction go on the outer query; the `_terms` JOIN goes on the target query when the key needs it, and on no other query; filters and grouping are untouched |
| CategoriesReport.QueryParamsFilters | src/API/Reports/Categories/DataStore.php:88-118 | the subquery's WHERE list gains, in order, the category filter when the include-list is truthy, the product filter when that list is truthy, and the NOT NULL filter; grouping is untouched |
| CategoriesReport.QueryParamsOrdering | src/API/Reports/Categories/DataStore.php:99-108 | with a truthy include-list the `_terms` JOIN (on the RIGHT JOINed id) goes on the outer query, without one on the subquery (on `category_tree_id`); the sort key goes on the outer query and the subquery's ORDER BY is untouched |
| CategoriesReport.OuterWrapEffect | src/API/Reports/Categories/DataStore.php:252-260 | wrapping puts the rendered subquery in the outer FROM and the id table in its RIGHT JOIN, and adds no ordering or JOIN |
| CategoriesReport.SubqueryAlwaysFiltersNullCategories | src/API/Reports/Categories/DataStore.php:117 | the built subquery always has the `category_tree_id IS NOT NULL` filter and groups by category alone |
| CategoriesReport.IncludeListFiltersSubquery | src/API/Reports/Categories/DataStore.php:100-105 | with an include-list the subquery has the `category_tree_id IN (...)` filter, also in its rendered text, and has no ORDER BY and no JOIN |
| CategoriesReport.IncludeListWrapsSubquery | src/API/Reports/Categories/DataStore.php:248-262 | with an include-list the outer query gets the sort key, the direction and any `_terms` JOIN, selects from the rendered subquery, RIGHT JOINs the id table, and is the statement executed |
| CategoriesReport.NoIncludeListRouting | src/API/Reports/Categories/DataStore.php:263-266 | without an include-list the subquery has no category filter, takes the outer ORDER BY text as its own ORDER BY, holds the `_terms` JOIN exactly when the key needs it, and is the statement executed; the outer query gains no JOIN |
| CategoriesReport.DataStore.InitializeQueries | src/API/Reports/Categories/DataStore.php:301-307 | a fresh subquery holding the category-id select, the lookup table and the category GROUP BY |
| CategoriesReport.DataStore.AddOrderByParams | src/API/Reports/Categories/DataStore.php:127-141 | the two query objects change exactly as `OrderByParams` says |
| CategoriesReport.DataStore.AddSqlQueryParams | src/API/Reports/Categories/DataStore.php:88-118 | the two query objects change exactly as `QueryParams` says |
| CategoriesReport.DataStore.IncludeExtendedInfo | src/API/Reports/Categories/DataStore.php:191-199 | the row array, updated in place, becomes the enriched rows |
| CategoriesReport.DataStore.BuildCategoriesQuery | src/API/Reports/Categories/DataStore.php:235-266 | the query objects end as `BuiltQueries` says, and the statement returned is the one `CategoriesStatement` routes to |
| CategoriesReport.DataStore.PagedReport | src/API/Reports/Categories/DataStore.php:282-290 | for a page in range, the slice enriched in an array is the report `ComputeReport` gives |
| CategoriesReport.DataStore.FinishReport | src/API/Reports/Categories/DataStore.php:272-292 | returns `ComputeReport`, and caches it under the key exactly when the query succeeded and the page was in range |
| CategoriesReport.DataStore.GetData | src/API/Reports/Categories/DataStore.php:207-296 | on a cache hit, returns the stored value and builds nothing; on a miss, runs the routed statement, returns `ComputeReport` of its rows and caches only a served page |
| CategoriesReport.DataStore.RepeatedGetData | src/API/Reports/Categories/DataStore.php:231-295 | two requests with the same arguments against the same database: once a report has been served, the second request returns the same report from the cache |
| ReportsSync.ReadMark | src/ReportsSync.php:97 | reading back a stored watermark gives the watermark that was written |
| ReportsSync.CurrentMark | src/ReportsSync.php:98 | the new watermark is "everything" (`-1`) exactly when `days` is falsy; otherwise it is the start of the day that holds the moment `days` days ago: a day boundary, at most that moment and less than a day before it |
| ReportsSync.NextMark | src/ReportsSync.php:100-102 | the kept watermark is one of the previous and the new mark, and no later than either |
| ReportsSync.MarkWriteAgrees | src/ReportsSync.php:100-102 | the update condition as written and as corrected agree whenever the stored date is not `-1` |
| ReportsSync.AsWrittenMovesWatermarkLater | src/ReportsSync.php:100-102 | the condition as written replaces a stored `-1` by a 30-day horizon, which is later; the corrected one keeps `-1` |
| ReportsSync.ImportOptionNames | src/ReportsSync.php:169-173 | the five import options are stored under five distinct names, the ones the reset writes and the delete removes |
| ReportsSync.ImportTotalsKeys | src/ReportsSync.php:112-122 | the totals have a key for exactly the sync names |
| ReportsSync.ImportTotalsValues | src/ReportsSync.php:116-119 | each name's total is the `get_items( 1, 1, days, skip )->total` of the last sync with that name |
| ReportsSync.ResetOptions | src/ReportsSync.php:89-103 | after the reset both counts are 0, the customers and orders totals are the sync totals (null when absent), the watermark reads back as the older of the previous and the new mark (the new one when there was none; corrected condition, see Findings), and every other option is unchanged |
| ReportsSync.WatermarkNeverMovesLater | src/ReportsSync.php:97-102 | with a stored watermark, the one after a reset is no later than it |
| ReportsSync.RegenerateEventsInOrder | src/ReportsSync.php:70-78 | one event per sync in `get_syncs` order: a truthy `DEPENDENCY` queues `import_batch_init( days, skip )` behind it, and otherwise the init runs at once |
| ReportsSync.DeleteLeavesOnlyDeleteChain | src/ReportsSync.php:160-166 | whatever was pending before, afterwards the plugin's group holds exactly the order delete init in 5 seconds and, after it, the dependent customer delete init |
| ReportsSync.WithoutKeepsOthers | src/ReportsSync.php:146-150 | cancelling one queue group leaves the pending jobs of every other group as they were, in order |
| ReportsSync.DeleteSparesOtherGroups | src/ReportsSync.php:158-166 | `delete_report_data` leaves the pending jobs of every group other than the plugin's unchanged |
| ReportsSync.ReportsSync.IsImporting | src/ReportsSync.php:53-55 | the abstract `BatchSync` import flag, read as the field `importing` |
| ReportsSync.ReportsSync.GetImportTotals | src/ReportsSync.php:112-122 | the loop over the syncs builds `ImportTotals` |
| ReportsSync.ReportsSync.ResetImportStats | src/ReportsSync.php:89-103 | options become `ResetOptions` of the old options and the totals; transients, queue and flag are unchanged |
| ReportsSync.ReportsSync.InitSyncs | src/ReportsSync.php:70-78 | the queue gains `RegenerateEvents`, in order; nothing else changes |
| ReportsSync.ReportsSync.RegenerateReportData | src/ReportsSync.php:64-81 | while importing, the `wc_admin_import_in_progress` error with options and queue unchanged; otherwise the rebuild message, the reset options and the sync events appended |
| ReportsSync.ReportsSync.ClearQueuedActions | src/ReportsSync.php:127-151 | appends one cancel of the plugin's queue group; nothing else changes |
| ReportsSync.ReportsSync.DeleteReportData | src/ReportsSync.php:158-176 | the queue gains the cancel, the scheduled order delete and the dependent customer delete, in that order; the five import options are removed and no other option changes; returns the delete message |
| ReportsSync.ReportsSync.ClearStockCountCache | src/ReportsSync.php:184-191 | removes the low-stock, product-count and per-status stock-count transients and changes nothing else |
| CustomersSync.MatchingIds | src/Sync/CustomersSync.php:54-63 | the user query returns only ids of existing users |
| CustomersSync.UserPage | src/Sync/CustomersSync.php:59-60 | with a positive `number` and `paged` of at least 1, a page is the slice of the full result from offset `(paged - 1) * number`, clamped, so at most `number` ids; a `number` of at most 0 gives the full result |
| CustomersSync.UserPageSlice | src/Sync/CustomersSync.php:57-60 | a page holds only ids of the full result, and is ascending when the full result is |
| CustomersSync.UserPageCover | src/Sync/CustomersSync.php:59-60 | item i of the full result is item `i % number` of page `i / number + 1`, so paging misses no id |
| CustomersSync.SatisfiesAll | src/Sync/CustomersSync.php:43-63 | a user matches exactly when it holds a listed role (any user when the filtered role list is empty, as `role__in` then places no restriction), registered after the horizon when `days` is an integer, and has no lookup row when excluding |
| CustomersSync.GetItemsSelects | src/Sync/CustomersSync.php:42-71 | the ids ascend, number at most `limit`, and each is a user holding a listed role (any user for an empty role list), registered after the horizon when `days` is an integer, and not yet imported when skipping existing |
| CustomersSync.GetItemsPage | src/Sync/CustomersSync.php:54-63 | the ids are exactly page `page` of the ascending matching set: the `limit` ids from offset `(page - 1) * limit`, or the whole set for a `limit` of at most 0 |
| CustomersSync.GetItemsCover | src/Sync/CustomersSync.php:54-70 | the i-th matching id in ascending order is returned as item `i % limit` of page `i / limit + 1` |
| CustomersSync.GetItemsTotal | src/Sync/CustomersSync.php:67-68 | `total` is the size of the whole matching set, the same for every `limit` and `page` |
| CustomersSync.GetItemsCounts | src/Sync/CustomersSync.php:80-87 | when skipping existing, no counted id has a lookup row; with no `days` and no skip, exactly the users holding a listed role are counted, and every user when the role list is empty |
| CustomersSync.GetItemsIgnoresDays | src/Sync/CustomersSync.php:43-63 | one customer registered at time 0, asked for ten days later with `days = 1`: as written it is returned and counted, with the date query applied it is not |
| CustomersSync.NextCustomerId | src/Sync/CustomersSync.php:103-105 | a new lookup row gets an id not yet in the table |
| CustomersSync.UpsertCustomer | src/Sync/CustomersSync.php:103-105 | after `import` the user has a lookup row, every existing row is kept unchanged, and the table grows by one row only when the user had none |
| CustomersSync.UpsertCustomerIdempotent | src/Sync/CustomersSync.php:103-105 | importing the same user twice is the same as once |
| CustomersSync.ImportedUserIsSkipped | src/Sync/CustomersSync.php:80-87 | after importing a user, the skip-existing query matches the same users minus that one |
| CustomersSync.DeleteCount | src/Sync/CustomersSync.php:116-121 | the `LIMIT` selects no more rows than the table has |
| CustomersSync.DeleteRemovesCount | src/Sync/CustomersSync.php:116-121 | the selected ids are lookup rows, `min( batch_size, rows )` distinct ones |
| CustomersSync.DeleteShrinksTable | src/Sync/CustomersSync.php:113-126 | removing the batch leaves exactly `rows - min( batch_size, rows )` rows |
| CustomersSync.DeleteRemovesSmallest | src/Sync/CustomersSync.php:116-125 | every removed id is smaller than every id that stays |
| CustomersSync.ExcludeExistingCustomersFromQuery | src/Sync/CustomersSync.php:80-87 | the user query's WHERE gains the lookup anti-join at its end |
| CustomersSync.CustomersSyncWorker.GetItems | src/Sync/CustomersSync.php:42-71 | the result is `GetItemsResult` (whose page contents `GetItemsPage` states), excluding imported users when asked to or when the hook was already attached; afterwards the hook is detached and the tables are unchanged |
| CustomersSync.CustomersSyncWorker.Import | src/Sync/CustomersSync.php:103-105 | the lookup table becomes `UpsertCustomer` of the old one |
| CustomersSync.CustomersSyncWorker.TotalImported | src/Sync/CustomersSync.php:92-95 | `get_total_imported` is the lookup table's row count (`SELECT COUNT(*)`), which counts guest rows too and so is at least the number of distinct users imported; `Delete` and `DeleteShrinksTable` state how it changes |
| CustomersSync.CustomersSyncWorker.Delete | src/Sync/CustomersSync.php:113-126 | the lookup table loses exactly the `SmallestCustomerIds` batch, and `get_total_imported` (`TotalImported`, the table's row count) drops by `min( batch_size, rows )` |
| CustomersSync.CustomersSyncWorker.DeleteCustomers | src/Sync/CustomersSync.php:123-125 | deleting each id in turn leaves the table minus those ids |

## Left out

- Time: time zones, `normalize_timezones` and the `TimeInterval` defaults are left out. A timestamp is an integer number of seconds, and a day starts at a multiple of 86400. `time()` is the parameter `now`, and the default `before`/`after` and `posts_per_page` are fields of `Env`.
- SQL is not interpreted. `$wpdb->get_results` is the function `Env.db` from a statement's clause map to rows or null. `WP_User_Query` is modelled by the conditions it filters on and their meaning over the users map.
- Base-class helpers that are not part of this model are simple stand-ins producing fixed shapes:
  - `selected_columns`, `get_fields`, `format_join_selections`, `get_ids_table`, `add_time_period_sql_params`;
  - `add_order_by_clause` and `add_orderby_order_clause`, taken as putting the normalised key and the direction on the outer query;
  - `get_included_categories` and `get_included_products`, taken as `implode( ',', ... )` of the id arrays.
- The order-status filter (`add_order_status_clause`) is left out: its rules live in the base class.
- `get_cache_key` is modelled as the context together with the full merged arguments. `set_cached_data` and `get_cached_data` are a map field, with no expiry.
- `SqlQuery`'s own rendering is a stand-in: `Render` joins each kind's fragments with spaces and the kinds in a fixed order. The real class's clause merging, clause filters and formatting are not part of this model.
- Casts are left out. `cast_numbers` and the `floatval`/`intval` casts of `column_types` are kept as tags (`ColumnTypes`); row values stay uninterpreted strings.
- `get_the_category_by_ID` is the parameter `categoryName`.
- `delete_customer` is the removal of the row with that customer id. `update_registered_customer` is an unconditional upsert keyed on the user id (`UpsertCustomer`): its own rules for which users qualify are not modelled.
- `clear_queued_actions` is modelled as one cancel of the plugin's queue group. The Action Scheduler store-type and version dispatch between its three cancel APIs is left out.
- `class ReportsSync` (src/ReportsSync.php:19) has no parent class, trait or interface. So `self::QUEUE_GROUP`, `self::queue()`, `self::queue_dependent_action()` and the `self::*_ACTION` / `self::*_INIT` constants it uses (src/ReportsSync.php:133-149, 163, 166) do not resolve. As written, `clear_queued_actions` and therefore `delete_report_data` stop with a PHP Error before changing anything. `ClearQueuedActions`, `DeleteReportData`, `DeleteLeavesOnlyDeleteChain` and `DeleteSparesOtherGroups` model the evidently intended behaviour, with these names taken from the batch-sync classes:
  - `QueueGroup`: the group's value `"wc-admin-data"` is assumed;
  - `queue_dependent_action` is taken to queue into the plugin's group.
- A sync's own `import_batch_init` appears only as the event that it ran. What it queues is left out.
- `BatchSync::is_importing` is the field `importing`.
- `get_import_totals` calls each sync's `get_items( 1, 1, days, skip )`. It is the parameter `itemsTotal`, one total per sync. The customers sync's `get_items` is modelled separately.
- `clear_stock_count_cache( $id )` does not use its `$id`, and the model drops it. `wc_get_product_stock_status_options` is the parameter `statuses`.
- Hook registration (`init`, `add_action`) and the translation of messages are left out.
- ReadMark: of the integer values, only `-1` is read as a previous watermark. Other integers (including `0`) and `null`, which PHP's `! $previous_import_date` treats as absent, read as "no previous date". Only `-1` and dates are ever stored under that key.
- UserPage: a `paged` value below 1 yields no ids, as for the negative `LIMIT` offset the query would carry. `WP_User_Query`'s own clamping of `paged` is not modelled.
- DeleteCount: a `LIMIT` of zero or less selects no rows. A negative `LIMIT` is an SQL error in the source.
- CategoriesReport.Served: for a `per_page` of 0, PHP 7's `/` gives INF or NAN with a warning, and `(int)` of either is 0, so no page is served. PHP 8 raises a `DivisionByZeroError` there instead, which is not modelled.
- GetData: its postcondition states the routed statement (`CategoriesStatement`) but not the final contents of both query objects; `BuildCategoriesQuery` states those.
- ReportsSync.ReportsSync.ResetImportStats uses the corrected watermark condition; the condition as written is `MarkWriteAsWritten` (see Findings).
- CustomersSync.CustomersSyncWorker.GetItems passes the date query, as intended; the code as written is `GetItemsAsWritten` (see Findings).
- CustomersSync.CustomersSyncWorker.GetItems takes every argument explicitly: the defaults `$limit = 10, $page = 1, $days = false, $skip_existing = false` are not modelled.
- A `$days` of `true`, which the documented `int|bool` type allows, cannot be represented; only `false` (`NoLimit`) and integers are.

## Findings

| source | as written | input that shows it | evidently intended | confidence | as-written member | corrected member |
|---|---|---|---|---|---|---|
| src/Sync/CustomersSync.php:43-63 | `$query_args['date_query']` is built when `days` is an integer, but `WP_User_Query` receives a literal argument array without it, so `days` never restricts the users | one customer registered at time 0, `days = 1`, ten days later: the user is returned and counted (`GetItemsIgnoresDays`) | only users registered after the day horizon are returned and counted | high; not executed | CustomersSync.GetItemsAsWritten, CustomersSync.GetItemsIgnoresDays | CustomersSync.GetItemsResult, CustomersSync.GetItemsSelects |
| src/ReportsSync.php:100-102 | when the stored watermark is `-1`, it is compared as `new \DateTime( '-1' )`, which is about the current time, so any numeric-days horizon overwrites it | a full import (stored `-1`), then a 30-day regenerate: the watermark moves from "everything" to 30 days ago (`AsWrittenMovesWatermarkLater`) | the older watermark is kept, with `-1` the oldest (`WatermarkNeverMovesLater`) | low (rests on PHP's parsing of `'-1'`); not executed | ReportsSync.MarkWriteAsWritten, ReportsSync.AsWrittenMovesWatermarkLater | ReportsSync.MarkWrite, ReportsSync.WatermarkNeverMovesLater |

About the integer `days`: `0` is falsy for the watermark (it stores `-1`). For the customers query, `0` is still an integer, so in the corrected model a horizon of today applies (as written, no horizon applies at all; see Findings).

About the category list: a list of only the id `0` implodes to the falsy string `"0"`. So the subquery gets no `IN` filter, and a `_terms` JOIN goes on the subquery. The data store still wraps the subquery in the outer query, because that test uses the array's count. `IdListSqlTruthy` states the first test.
