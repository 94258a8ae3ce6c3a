/** The reports sync orchestrator (`ReportsSync`): it regenerates and deletes
    the report lookup data by writing to WordPress's options store, its
    transient cache and the Action Scheduler job queue. All three, and the
    batch engine's "importing" flag, are fields of one object here. */
module ReportsSync {
  import opened Basics

  // ---------------------------------------------------------------------
  // Keys, identifiers and messages.
  // ---------------------------------------------------------------------

  /** Keys of the options store: the five an import keeps its progress in,
      and every other option by its name. */
  datatype OptionKey =
    | CustomersCountKey | OrdersCountKey | CustomersTotalKey | OrdersTotalKey | ImportedFromKey
    | OtherOption(name: string)

  /** The option names WordPress stores them under. */
  function OptionName(k: OptionKey): string
  {
    match k
    case CustomersCountKey => "wc_admin_import_customers_count"
    case OrdersCountKey => "wc_admin_import_orders_count"
    case CustomersTotalKey => "wc_admin_import_customers_total"
    case OrdersTotalKey => "wc_admin_import_orders_total"
    case ImportedFromKey => "wc_admin_imported_from_date"
    case OtherOption(name) => name
  }

  const ImportOptionKeys: set<OptionKey> :=
    {CustomersCountKey, OrdersCountKey, CustomersTotalKey, OrdersTotalKey, ImportedFromKey}

  /** The five import options are stored under five distinct names, the ones
      `reset_import_stats` writes and `delete_report_data` deletes. */
  lemma ImportOptionNames()
    ensures (set k | k in ImportOptionKeys :: OptionName(k)) ==
      {"wc_admin_import_customers_count", "wc_admin_import_orders_count",
       "wc_admin_import_customers_total", "wc_admin_import_orders_total",
       "wc_admin_imported_from_date"}
    ensures forall k1, k2 :: k1 in ImportOptionKeys && k2 in ImportOptionKeys && OptionName(k1) == OptionName(k2) ==> k1 == k2
  {
  }

  const ImportInProgressCode: string := "wc_admin_import_in_progress"
  const RegenerateMessage: string := "Report table data is being rebuilt.  Please allow some time for data to fully populate."
  const DeleteMessage: string := "Report table data is being deleted."

  const LowStockKey: string := "wc_admin_stock_count_lowstock"
  const ProductCountKey: string := "wc_admin_product_count"
  const StockCountPrefix: string := "wc_admin_stock_count_"

  /** The Action Scheduler group of every job this plugin queues. */
  const QueueGroup: string := "wc-admin-data"

  /** Seconds between `delete_report_data` and the order delete it schedules. */
  const DeleteDelay: int := 5

  // ---------------------------------------------------------------------
  // Stored values, syncs and jobs.
  // ---------------------------------------------------------------------

  /** A value in the options store: an integer, a `Y-m-d 00:00:00` date
      (as its timestamp) or PHP `null`. */
  datatype OptionValue = IntOption(n: int) | DateOption(t: int) | NullOption

  /** One registered sync type: its `NAME` and its `DEPENDENCY` ("" for none). */
  datatype SyncDescriptor = SyncDescriptor(name: string, dependency: string)

  datatype Action = ImportBatchInit(sync: string) | OrdersDeleteBatchInit | CustomersDeleteBatchInit

  /** What a dependent job waits for: another sync's initialisation, or an action. */
  datatype Prerequisite = AfterSync(dependency: string) | AfterAction(action: Action)

  datatype JobArgs = NoArgs | ImportArgs(days: Days, skipExisting: bool)

  /** What the orchestrator does to the queue, in order. `RanImportBatchInit`
      is a sync's `import_batch_init` called at once (what it queues itself is
      not modelled). */
  datatype QueueEvent =
    | ScheduledSingle(at: int, action: Action, args: JobArgs, group: string)
    | QueuedDependent(action: Action, args: JobArgs, prerequisite: Prerequisite)
    | RanImportBatchInit(sync: string, days: Days, skipExisting: bool)
    | CancelledGroup(group: string)

  // ---------------------------------------------------------------------
  // The job queue's reading of the event log.
  // ---------------------------------------------------------------------

  /** The group a queued job belongs to; dependent jobs go to the plugin's group. */
  function GroupOf(e: QueueEvent): string
  {
    match e
    case ScheduledSingle(_, _, _, g) => g
    case CancelledGroup(g) => g
    case _ => QueueGroup
  }

  /** The jobs of `jobs` outside group `g`, in order. */
  function Without(jobs: seq<QueueEvent>, g: string): (r: seq<QueueEvent>)
    ensures forall e :: e in r ==> e in jobs && GroupOf(e) != g
  {
    if jobs == [] then []
    else if GroupOf(jobs[0]) == g then Without(jobs[1..], g)
    else [jobs[0]] + Without(jobs[1..], g)
  }

  /** The jobs of `jobs` inside group `g`, in order. */
  function InGroup(jobs: seq<QueueEvent>, g: string): seq<QueueEvent>
  {
    if jobs == [] then []
    else if GroupOf(jobs[0]) == g then [jobs[0]] + InGroup(jobs[1..], g)
    else InGroup(jobs[1..], g)
  }

  /** One event's effect on the pending jobs: scheduling appends a job,
      cancelling a group drops that group's jobs, running `import_batch_init`
      queues nothing itself. */
  function ApplyEvent(pending: seq<QueueEvent>, e: QueueEvent): seq<QueueEvent>
  {
    match e
    case ScheduledSingle(_, _, _, _) => pending + [e]
    case QueuedDependent(_, _, _) => pending + [e]
    case RanImportBatchInit(_, _, _) => pending
    case CancelledGroup(g) => Without(pending, g)
  }

  /** The jobs still pending after the whole log. */
  function Pending(log: seq<QueueEvent>): seq<QueueEvent>
    decreases |log|
  {
    if log == [] then [] else ApplyEvent(Pending(log[..|log| - 1]), log[|log| - 1])
  }

  lemma PendingSnoc(log: seq<QueueEvent>, e: QueueEvent)
    ensures Pending(log + [e]) == ApplyEvent(Pending(log), e)
  {
    assert (log + [e])[..|log|] == log;
  }

  lemma {:induction false} InGroupAppend(a: seq<QueueEvent>, b: seq<QueueEvent>, g: string)
    ensures InGroup(a + b, g) == InGroup(a, g) + InGroup(b, g)
    decreases |a|
  {
    if a == [] {
      assert a + b == b;
    } else {
      assert (a + b)[0] == a[0];
      assert (a + b)[1..] == a[1..] + b;
      InGroupAppend(a[1..], b, g);
    }
  }

  lemma {:induction false} InGroupOfWithout(jobs: seq<QueueEvent>, g: string)
    ensures InGroup(Without(jobs, g), g) == []
    decreases |jobs|
  {
    if jobs != [] {
      InGroupOfWithout(jobs[1..], g);
      if GroupOf(jobs[0]) != g {
        InGroupAppend([jobs[0]], Without(jobs[1..], g), g);
      }
    }
  }

  // ---------------------------------------------------------------------
  // The imported-from watermark.
  // ---------------------------------------------------------------------

  /** A watermark: `-1` ("everything") or the first day imported. */
  datatype Mark = Everything | From(day: int)

  /** `a` is no later than `b`; "everything" is earlier than any date. */
  predicate NotLater(a: Mark, b: Mark)
  {
    a.Everything? || (b.From? && a.day <= b.day)
  }

  /** How a mark is stored: `-1` or the date. */
  function MarkValue(m: Mark): OptionValue
  {
    match m
    case Everything => IntOption(-1)
    case From(d) => DateOption(d)
  }

  /** How `get_option` reads the stored mark. PHP's `! $previous_import_date`
      treats an absent option (and `0` or `null`) as "no previous date";
      other integers are never stored under this key and read as absent. */
  function ReadMark(v: Option<OptionValue>): (m: Option<Mark>)
    ensures forall n :: v == Some(MarkValue(n)) ==> m == Some(n)
  {
    match v
    case Some(IntOption(n)) => if n == -1 then Some(Everything) else None
    case Some(DateOption(t)) => Some(From(t))
    case _ => None
  }

  function Lookup(opts: map<OptionKey, OptionValue>, key: OptionKey): Option<OptionValue>
  {
    if key in opts then Some(opts[key]) else None
  }

  /** PHP truthiness of `$days`: `false` and `0` are falsy. */
  predicate DaysTruthy(days: Days)
  {
    days.Days? && days.n != 0
  }

  /** `$current_import_date`: the start of the day `days` days ago, or `-1`. */
  function CurrentMark(days: Days, now: int): (m: Mark)
    ensures m.Everything? <==> !DaysTruthy(days)
    ensures m.From? ==> m.day <= now - DaySeconds * days.n < m.day + DaySeconds
    ensures m.From? ==> m.day % DaySeconds == 0
  {
    if DaysTruthy(days) then From(Horizon(now, days.n)) else Everything
  }

  /** The update condition of `reset_import_stats` as written: with a
      previous `-1`, `new DateTime( '-1' )` is the current time, so any
      horizon in the past replaces "everything". */
  predicate MarkWriteAsWritten(previous: Option<Mark>, current: Mark, now: int)
  {
    match previous
    case None => true
    case Some(p) =>
      current.Everything? ||
      (match p
       case Everything => now > current.day
       case From(d) => d > current.day)
  }

  /** The update condition with "everything" as the earliest watermark. */
  predicate MarkWrite(previous: Option<Mark>, current: Mark)
  {
    previous.None? || !NotLater(previous.value, current)
  }

  /** The watermark after a regenerate that finds `previous`: the older of the two. */
  function NextMark(previous: Mark, current: Mark): (m: Mark)
    ensures NotLater(m, previous) && NotLater(m, current)
    ensures m == previous || m == current
  {
    if MarkWrite(Some(previous), current) then current else previous
  }

  /** The conditions agree except on a previous "everything". */
  lemma MarkWriteAgrees(previous: Option<Mark>, current: Mark, now: int)
    requires previous != Some(Everything)
    ensures MarkWriteAsWritten(previous, current, now) <==> MarkWrite(previous, current)
  {
  }

  /** The input that shows the difference: after an "everything" import, a
      30-day regenerate moves the watermark from "everything" to a date. */
  lemma AsWrittenMovesWatermarkLater(now: int)
    ensures var current := CurrentMark(Days(30), now);
      && MarkWriteAsWritten(Some(Everything), current, now)
      && !NotLater(current, Everything)
      && !MarkWrite(Some(Everything), current)
  {
    var h := now - DaySeconds * 30;
    assert StartOfDay(h) <= h;
  }

  // ---------------------------------------------------------------------
  // Totals and the reset of the import options.
  // ---------------------------------------------------------------------

  /** `get_import_totals`: `$totals[ NAME ] = get_items( 1, 1, days, skip )->total`
      for each sync in turn, `itemsTotal` standing for each sync's `get_items`. */
  function ImportTotals(syncs: seq<SyncDescriptor>, days: Days, skipExisting: bool,
                        itemsTotal: (SyncDescriptor, Days, bool) -> nat): map<string, nat>
    decreases |syncs|
  {
    if syncs == [] then map[]
    else
      var last := syncs[|syncs| - 1];
      ImportTotals(syncs[..|syncs| - 1], days, skipExisting, itemsTotal)[last.name := itemsTotal(last, days, skipExisting)]
  }

  predicate NamesSync(syncs: seq<SyncDescriptor>, name: string)
  {
    exists i :: 0 <= i < |syncs| && syncs[i].name == name
  }

  /** Every sync name gets a total and no other key does. */
  lemma {:induction false} ImportTotalsKeys(syncs: seq<SyncDescriptor>, days: Days, skipExisting: bool,
                                            itemsTotal: (SyncDescriptor, Days, bool) -> nat)
    ensures forall name :: name in ImportTotals(syncs, days, skipExisting, itemsTotal) <==> NamesSync(syncs, name)
    decreases |syncs|
  {
    if syncs != [] {
      var init := syncs[..|syncs| - 1];
      var last := syncs[|syncs| - 1];
      ImportTotalsKeys(init, days, skipExisting, itemsTotal);
      forall name
        ensures name in ImportTotals(syncs, days, skipExisting, itemsTotal) <==> NamesSync(syncs, name)
      {
        if NamesSync(init, name) {
          var i :| 0 <= i < |init| && init[i].name == name;
          assert syncs[i].name == name;
        }
        if NamesSync(syncs, name) && name != last.name {
          var i :| 0 <= i < |syncs| && syncs[i].name == name;
          assert i < |init| && init[i].name == name;
        }
        assert syncs[|syncs| - 1].name == last.name;
      }
    }
  }

  /** A name's total is the one the last sync of that name reported. */
  lemma {:induction false} ImportTotalsValues(syncs: seq<SyncDescriptor>, days: Days, skipExisting: bool,
                                              itemsTotal: (SyncDescriptor, Days, bool) -> nat)
    ensures var t := ImportTotals(syncs, days, skipExisting, itemsTotal);
      forall i :: 0 <= i < |syncs| && (forall j :: i < j < |syncs| ==> syncs[j].name != syncs[i].name) ==>
        syncs[i].name in t && t[syncs[i].name] == itemsTotal(syncs[i], days, skipExisting)
    decreases |syncs|
  {
    if syncs != [] {
      var init := syncs[..|syncs| - 1];
      ImportTotalsValues(init, days, skipExisting, itemsTotal);
      var t := ImportTotals(syncs, days, skipExisting, itemsTotal);
      forall i | 0 <= i < |syncs| && (forall j :: i < j < |syncs| ==> syncs[j].name != syncs[i].name)
        ensures syncs[i].name in t && t[syncs[i].name] == itemsTotal(syncs[i], days, skipExisting)
      {
        if i < |init| {
          assert init[i] == syncs[i];
          assert forall j :: i < j < |init| ==> init[j] == syncs[j];
        }
      }
    }
  }

  /** `$totals[ name ]` as `update_option` receives it: `null` when absent. */
  function TotalValue(totals: map<string, nat>, name: string): OptionValue
  {
    if name in totals then IntOption(totals[name]) else NullOption
  }

  /** The options store after `reset_import_stats` (with the corrected
      watermark condition). */
  function ResetOptions(opts: map<OptionKey, OptionValue>, totals: map<string, nat>, days: Days, now: int)
    : (r: map<OptionKey, OptionValue>)
    ensures CustomersCountKey in r && r[CustomersCountKey] == IntOption(0)
    ensures OrdersCountKey in r && r[OrdersCountKey] == IntOption(0)
    ensures CustomersTotalKey in r && r[CustomersTotalKey] == TotalValue(totals, "customers")
    ensures OrdersTotalKey in r && r[OrdersTotalKey] == TotalValue(totals, "orders")
    ensures ImportedFromKey in r
    ensures var previous := ReadMark(Lookup(opts, ImportedFromKey));
      var current := CurrentMark(days, now);
      ReadMark(Some(r[ImportedFromKey])) == Some(if previous.None? then current else NextMark(previous.value, current))
    ensures forall k :: k !in ImportOptionKeys ==> (k in r <==> k in opts)
    ensures forall k :: k in opts && k !in ImportOptionKeys ==> r[k] == opts[k]
  {
    var o := opts[CustomersCountKey := IntOption(0)][OrdersCountKey := IntOption(0)]
                 [CustomersTotalKey := TotalValue(totals, "customers")][OrdersTotalKey := TotalValue(totals, "orders")];
    var previous := ReadMark(Lookup(opts, ImportedFromKey));
    var current := CurrentMark(days, now);
    if MarkWrite(previous, current) then o[ImportedFromKey := MarkValue(current)] else o
  }

  /** Never later: with numeric `days` the stored watermark only moves earlier. */
  lemma WatermarkNeverMovesLater(opts: map<OptionKey, OptionValue>, totals: map<string, nat>, days: Days, now: int)
    requires ReadMark(Lookup(opts, ImportedFromKey)).Some?
    ensures var before := ReadMark(Lookup(opts, ImportedFromKey)).value;
      var after := ReadMark(Lookup(ResetOptions(opts, totals, days, now), ImportedFromKey));
      after.Some? && NotLater(after.value, before)
  {
  }

  // ---------------------------------------------------------------------
  // What a regenerate queues.
  // ---------------------------------------------------------------------

  /** The event for one sync: a truthy `DEPENDENCY` queues its
      `import_batch_init` after that dependency, otherwise it runs at once. */
  function SyncEvent(sync: SyncDescriptor, days: Days, skipExisting: bool): QueueEvent
  {
    if PhpTruthy(sync.dependency) then
      QueuedDependent(ImportBatchInit(sync.name), ImportArgs(days, skipExisting), AfterSync(sync.dependency))
    else RanImportBatchInit(sync.name, days, skipExisting)
  }

  /** The events of the `foreach` over the syncs, in order. */
  function RegenerateEvents(syncs: seq<SyncDescriptor>, days: Days, skipExisting: bool): seq<QueueEvent>
    decreases |syncs|
  {
    if syncs == [] then []
    else RegenerateEvents(syncs[..|syncs| - 1], days, skipExisting) + [SyncEvent(syncs[|syncs| - 1], days, skipExisting)]
  }

  /** One event per sync, in `get_syncs` order; a sync with a dependency is
      only ever queued behind it and one without is only ever run at once. */
  lemma {:induction false} RegenerateEventsInOrder(syncs: seq<SyncDescriptor>, days: Days, skipExisting: bool)
    ensures var ev := RegenerateEvents(syncs, days, skipExisting);
      && |ev| == |syncs|
      && (forall i :: 0 <= i < |syncs| && PhpTruthy(syncs[i].dependency) ==>
            ev[i] == QueuedDependent(ImportBatchInit(syncs[i].name), ImportArgs(days, skipExisting), AfterSync(syncs[i].dependency)))
      && (forall i :: 0 <= i < |syncs| && !PhpTruthy(syncs[i].dependency) ==>
            ev[i] == RanImportBatchInit(syncs[i].name, days, skipExisting))
    decreases |syncs|
  {
    if syncs != [] {
      var init := syncs[..|syncs| - 1];
      RegenerateEventsInOrder(init, days, skipExisting);
      assert forall i :: 0 <= i < |init| ==> init[i] == syncs[i];
    }
  }

  /** The events of `delete_report_data`. */
  function DeleteEvents(now: int): seq<QueueEvent>
  {
    [CancelledGroup(QueueGroup),
     ScheduledSingle(now + DeleteDelay, OrdersDeleteBatchInit, NoArgs, QueueGroup),
     QueuedDependent(CustomersDeleteBatchInit, NoArgs, AfterAction(OrdersDeleteBatchInit))]
  }

  /** Whatever was pending before, after `delete_report_data` the plugin's
      group holds exactly the order delete and, behind it, the customer delete. */
  lemma DeleteLeavesOnlyDeleteChain(log: seq<QueueEvent>, now: int)
    ensures InGroup(Pending(log + DeleteEvents(now)), QueueGroup) ==
      [ScheduledSingle(now + DeleteDelay, OrdersDeleteBatchInit, NoArgs, QueueGroup),
       QueuedDependent(CustomersDeleteBatchInit, NoArgs, AfterAction(OrdersDeleteBatchInit))]
  {
    var e0 := CancelledGroup(QueueGroup);
    var e1 := ScheduledSingle(now + DeleteDelay, OrdersDeleteBatchInit, NoArgs, QueueGroup);
    var e2 := QueuedDependent(CustomersDeleteBatchInit, NoArgs, AfterAction(OrdersDeleteBatchInit));
    assert log + DeleteEvents(now) == ((log + [e0]) + [e1]) + [e2];
    PendingSnoc(log, e0);
    PendingSnoc(log + [e0], e1);
    PendingSnoc((log + [e0]) + [e1], e2);
    var cleared := Without(Pending(log), QueueGroup);
    InGroupOfWithout(Pending(log), QueueGroup);
    InGroupAppend(cleared, [e1], QueueGroup);
    InGroupAppend(cleared + [e1], [e2], QueueGroup);
  }

  /** Cancelling one group leaves the jobs of every other group as they were, in order. */
  lemma {:induction false} WithoutKeepsOthers(jobs: seq<QueueEvent>, g: string, h: string)
    requires g != h
    ensures InGroup(Without(jobs, g), h) == InGroup(jobs, h)
    decreases |jobs|
  {
    if jobs != [] {
      WithoutKeepsOthers(jobs[1..], g, h);
      if GroupOf(jobs[0]) != g {
        InGroupAppend([jobs[0]], Without(jobs[1..], g), h);
      }
    }
  }

  /** `delete_report_data` leaves the pending jobs of every other group untouched. */
  lemma DeleteSparesOtherGroups(log: seq<QueueEvent>, now: int, h: string)
    requires h != QueueGroup
    ensures InGroup(Pending(log + DeleteEvents(now)), h) == InGroup(Pending(log), h)
  {
    var e0 := CancelledGroup(QueueGroup);
    var e1 := ScheduledSingle(now + DeleteDelay, OrdersDeleteBatchInit, NoArgs, QueueGroup);
    var e2 := QueuedDependent(CustomersDeleteBatchInit, NoArgs, AfterAction(OrdersDeleteBatchInit));
    assert log + DeleteEvents(now) == ((log + [e0]) + [e1]) + [e2];
    PendingSnoc(log, e0);
    PendingSnoc(log + [e0], e1);
    PendingSnoc((log + [e0]) + [e1], e2);
    var cleared := Without(Pending(log), QueueGroup);
    WithoutKeepsOthers(Pending(log), QueueGroup, h);
    InGroupAppend(cleared, [e1], h);
    InGroupAppend(cleared + [e1], [e2], h);
  }

  /** The stock-count transients `clear_stock_count_cache` deletes. */
  function StockCountKeys(statuses: seq<string>): set<string>
  {
    {LowStockKey, ProductCountKey} + set s | s in statuses :: StockCountPrefix + s
  }

  // ---------------------------------------------------------------------
  // The orchestrator.
  // ---------------------------------------------------------------------

  class ReportsSync {
    /** `get_syncs()`, in order. */
    const syncs: seq<SyncDescriptor>
    var options: map<OptionKey, OptionValue>
    var transients: map<string, string>
    /** Everything queued or cancelled so far. */
    var queue: seq<QueueEvent>
    /** `BatchSync::is_importing()`. */
    var importing: bool

    constructor (syncs: seq<SyncDescriptor>, options: map<OptionKey, OptionValue>,
                 transients: map<string, string>, importing: bool)
      ensures this.syncs == syncs && this.options == options && this.transients == transients
      ensures this.importing == importing && queue == []
    {
      this.syncs := syncs;
      this.options := options;
      this.transients := transients;
      this.importing := importing;
      queue := [];
    }

    /** `is_importing`: the batch engine's import flag. */
    function IsImporting(): (b: bool)
      reads this
      ensures b <==> importing
    {
      importing
    }

    /** `get_import_totals`. */
    method GetImportTotals(days: Days, skipExisting: bool, itemsTotal: (SyncDescriptor, Days, bool) -> nat)
      returns (totals: map<string, nat>)
      ensures totals == ImportTotals(syncs, days, skipExisting, itemsTotal)
    {
      totals := map[];
      for i := 0 to |syncs|
        invariant totals == ImportTotals(syncs[..i], days, skipExisting, itemsTotal)
      {
        assert syncs[..i + 1][..i] == syncs[..i];
        var items := itemsTotal(syncs[i], days, skipExisting);
        totals := totals[syncs[i].name := items];
      }
      assert syncs[..|syncs|] == syncs;
    }

    /** `reset_import_stats`. */
    method ResetImportStats(days: Days, skipExisting: bool, now: int,
                            itemsTotal: (SyncDescriptor, Days, bool) -> nat)
      modifies this
      ensures options == ResetOptions(old(options), ImportTotals(syncs, days, skipExisting, itemsTotal), days, now)
      ensures transients == old(transients) && queue == old(queue) && importing == old(importing)
    {
      var totals := GetImportTotals(days, skipExisting, itemsTotal);
      options := options[CustomersCountKey := IntOption(0)];
      options := options[OrdersCountKey := IntOption(0)];
      options := options[CustomersTotalKey := TotalValue(totals, "customers")];
      options := options[OrdersTotalKey := TotalValue(totals, "orders")];

      var previousImportDate := ReadMark(Lookup(options, ImportedFromKey));
      var currentImportDate := CurrentMark(days, now);
      if MarkWrite(previousImportDate, currentImportDate) {
        options := options[ImportedFromKey := MarkValue(currentImportDate)];
      }
    }

    /** The `foreach` of `regenerate_report_data` over the syncs. */
    method InitSyncs(days: Days, skipExisting: bool)
      modifies this
      ensures queue == old(queue) + RegenerateEvents(syncs, days, skipExisting)
      ensures options == old(options) && transients == old(transients) && importing == old(importing)
    {
      for i := 0 to |syncs|
        invariant queue == old(queue) + RegenerateEvents(syncs[..i], days, skipExisting)
        invariant options == old(options) && transients == old(transients) && importing == old(importing)
      {
        assert syncs[..i + 1][..i] == syncs[..i];
        var sync := syncs[i];
        if PhpTruthy(sync.dependency) {
          queue := queue + [QueuedDependent(ImportBatchInit(sync.name), ImportArgs(days, skipExisting), AfterSync(sync.dependency))];
        } else {
          queue := queue + [RanImportBatchInit(sync.name, days, skipExisting)];
        }
      }
      assert syncs[..|syncs|] == syncs;
    }

    /** `regenerate_report_data`. */
    method RegenerateReportData(days: Days, skipExisting: bool, now: int,
                                itemsTotal: (SyncDescriptor, Days, bool) -> nat)
      returns (r: Result<string, string>)
      modifies this
      ensures transients == old(transients) && importing == old(importing)
      ensures old(importing) ==>
        r == Err(ImportInProgressCode) && options == old(options) && queue == old(queue)
      ensures !old(importing) ==>
        && r == Ok(RegenerateMessage)
        && options == ResetOptions(old(options), ImportTotals(syncs, days, skipExisting, itemsTotal), days, now)
        && queue == old(queue) + RegenerateEvents(syncs, days, skipExisting)
    {
      if IsImporting() {
        return Err(ImportInProgressCode);
      }
      ResetImportStats(days, skipExisting, now, itemsTotal);
      InitSyncs(days, skipExisting);
      r := Ok(RegenerateMessage);
    }

    /** `clear_queued_actions`, as one cancel of the plugin's group. */
    method ClearQueuedActions()
      modifies this
      ensures queue == old(queue) + [CancelledGroup(QueueGroup)]
      ensures options == old(options) && transients == old(transients) && importing == old(importing)
    {
      queue := queue + [CancelledGroup(QueueGroup)];
    }

    /** `delete_report_data`. */
    method DeleteReportData(now: int) returns (message: string)
      modifies this
      ensures queue == old(queue) + DeleteEvents(now)
      ensures options == old(options) - ImportOptionKeys
      ensures transients == old(transients) && importing == old(importing)
      ensures message == DeleteMessage
    {
      ClearQueuedActions();
      queue := queue + [ScheduledSingle(now + DeleteDelay, OrdersDeleteBatchInit, NoArgs, QueueGroup)];
      queue := queue + [QueuedDependent(CustomersDeleteBatchInit, NoArgs, AfterAction(OrdersDeleteBatchInit))];
      options := options - {CustomersCountKey};
      options := options - {OrdersCountKey};
      options := options - {CustomersTotalKey};
      options := options - {OrdersTotalKey};
      options := options - {ImportedFromKey};
      message := DeleteMessage;
    }

    /** `clear_stock_count_cache`, given the store's stock status keys. */
    method ClearStockCountCache(statuses: seq<string>)
      modifies this
      ensures transients == old(transients) - StockCountKeys(statuses)
      ensures options == old(options) && queue == old(queue) && importing == old(importing)
    {
      transients := transients - {LowStockKey};
      transients := transients - {ProductCountKey};
      for i := 0 to |statuses|
        invariant transients == old(transients) - ({LowStockKey, ProductCountKey} + set s | s in statuses[..i] :: StockCountPrefix + s)
        invariant options == old(options) && queue == old(queue) && importing == old(importing)
      {
        assert statuses[..i + 1] == statuses[..i] + [statuses[i]];
        transients := transients - {StockCountPrefix + statuses[i]};
      }
      assert statuses[..|statuses|] == statuses;
    }
  }
}
