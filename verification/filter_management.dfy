/** `src/hooks/useFilterManagement.ts`: the filter-change screen's data. The
    change history is listed with defaults for missing fields; the customers
    whose next service is due are listed with how many whole days they are
    overdue and a priority; four counters summarise both lists. Times are
    integer milliseconds; `instant` stands for `new Date(s).getTime()`. */
module FilterManagement {
  import opened Text
  import opened Records
  import opened ListOps
  import opened CivilDate
  import opened Cron

  datatype Priority = High | Medium | Low

  /** `max(0, floor((now - due) / one day))`; Dafny's `/` by a positive
      divisor rounds down, as `Math.floor` does. */
  function DaysOverdue(nowMs: int, dueMs: int): (d: nat)
  {
    if (nowMs - dueMs) / DayMs < 0 then 0 else (nowMs - dueMs) / DayMs
  }

  /** The count is the number of whole days elapsed since the due time, and
      zero when it is less than a day ago or in the future. */
  lemma DaysOverdueSpec(nowMs: int, dueMs: int)
    ensures var d := DaysOverdue(nowMs, dueMs);
      (nowMs - dueMs >= 0 ==> d * DayMs <= nowMs - dueMs < (d + 1) * DayMs)
      && (d == 0 <==> nowMs - dueMs < DayMs)
  {
  }

  /** Later means at least as overdue. */
  lemma DaysOverdueMonotone(now1: int, now2: int, dueMs: int)
    requires now1 <= now2
    ensures DaysOverdue(now1, dueMs) <= DaysOverdue(now2, dueMs)
  {
  }

  function PriorityOf(daysOverdue: nat): Priority
  {
    if daysOverdue > 10 then High
    else if daysOverdue > 3 then Medium
    else Low
  }

  /** High exactly above ten days, Medium from four to ten, Low up to three. */
  lemma PriorityThresholds(daysOverdue: nat)
    ensures PriorityOf(daysOverdue) == High <==> daysOverdue > 10
    ensures PriorityOf(daysOverdue) == Medium <==> 3 < daysOverdue <= 10
    ensures PriorityOf(daysOverdue) == Low <==> daysOverdue <= 3
  {
  }

  /** More overdue never means a lower priority. */
  lemma PriorityMonotone(d1: nat, d2: nat)
    requires d1 <= d2
    ensures PriorityOf(d1) == High ==> PriorityOf(d2) == High
    ensures PriorityOf(d1) == Medium ==> PriorityOf(d2) != Low
  {
  }

  /** One row of the change history as the store returns it (`customers.name`
      comes through the join and may be missing). */
  datatype HistoryRow = HistoryRow(
    customerName: Option<string>, filterType: string, changeDate: string, nextDue: string,
    technician: Option<string>, status: Option<string>)

  datatype HistoryEntry = HistoryEntry(
    customerName: string, filterType: string, changeDate: string, nextDue: string,
    technician: string, status: string)

  datatype PendingFilter = PendingFilter(
    customerName: string, phone: string, filterType: string, dueDate: string,
    daysOverdue: nat, priority: Priority)

  function HistoryEntryFor(row: HistoryRow): (e: HistoryEntry)
    ensures e.customerName == (if row.customerName.Some? && row.customerName.value != "" then row.customerName.value else "Unknown")
    ensures e.technician == (if row.technician.Some? && row.technician.value != "" then row.technician.value else "Unassigned")
    ensures e.status == (if row.status.Some? && row.status.value != "" then row.status.value else "Completed")
    ensures e.filterType == row.filterType && e.changeDate == row.changeDate && e.nextDue == row.nextDue
  {
    HistoryEntry(Or(row.customerName, "Unknown"), row.filterType, row.changeDate, row.nextDue,
                 Or(row.technician, "Unassigned"), Or(row.status, "Completed"))
  }

  function HistoryEntries(rows: seq<HistoryRow>): (es: seq<HistoryEntry>)
    ensures |es| == |rows|
    ensures forall i :: 0 <= i < |rows| ==> es[i] == HistoryEntryFor(rows[i])
  {
    if rows == [] then [] else [HistoryEntryFor(rows[0])] + HistoryEntries(rows[1..])
  }

  /** The pending entry for a customer whose next service is due. */
  function PendingFor(c: Customer, nowMs: int, instant: string -> int): (p: PendingFilter)
    requires c.nextService.Some?
    ensures p.customerName == (if c.name != "" then c.name else "Unknown")
    ensures p.phone == c.phone && p.dueDate == c.nextService.value
    ensures p.filterType == (if c.filterType.Some? && c.filterType.value != "" then c.filterType.value else "N/A")
    ensures p.daysOverdue == DaysOverdue(nowMs, instant(c.nextService.value))
    ensures p.priority == PriorityOf(p.daysOverdue)
  {
    var days := DaysOverdue(nowMs, instant(c.nextService.value));
    PendingFilter(if c.name != "" then c.name else "Unknown", c.phone, Or(c.filterType, "N/A"),
                  c.nextService.value, days, PriorityOf(days))
  }

  function PendingFilters(due: seq<Customer>, nowMs: int, instant: string -> int): (ps: seq<PendingFilter>)
    requires forall i :: 0 <= i < |due| ==> due[i].nextService.Some?
    ensures |ps| == |due|
    ensures forall i :: 0 <= i < |due| ==> ps[i] == PendingFor(due[i], nowMs, instant)
  {
    if due == [] then [] else [PendingFor(due[0], nowMs, instant)] + PendingFilters(due[1..], nowMs, instant)
  }

  /** The number of pending entries with (`zero`) or without a zero overdue count. */
  function CountOverdue(ps: seq<PendingFilter>, zero: bool): nat
  {
    if ps == [] then 0
    else CountOverdue(ps[1..], zero) + (if (ps[0].daysOverdue == 0) == zero then 1 else 0)
  }

  /** Every pending entry is either due today or overdue, never both. */
  lemma {:induction false} CountOverdueSplit(ps: seq<PendingFilter>)
    ensures CountOverdue(ps, true) + CountOverdue(ps, false) == |ps|
  {
    if ps != [] {
      CountOverdueSplit(ps[1..]);
    }
  }

  datatype FilterStat = FilterStat(caption: string, value: nat, color: string)

  function FilterStats(pending: seq<PendingFilter>, history: seq<HistoryEntry>): seq<FilterStat>
  {
    [ FilterStat("Due Today", CountOverdue(pending, true), "bg-red-500"),
      FilterStat("Due This Week", CountOverdue(pending, false), "bg-orange-500"),
      FilterStat("Due This Month", |pending|, "bg-blue-500"),
      FilterStat("Completed This Month", |history|, "bg-green-500") ]
  }

  /** 'Due Today' and 'Due This Week' together make 'Due This Month', which
      is the number of pending entries; 'Completed This Month' is the length
      of the history. */
  lemma FilterStatsIdentity(pending: seq<PendingFilter>, history: seq<HistoryEntry>)
    ensures var s := FilterStats(pending, history);
      |s| == 4 && s[0].value + s[1].value == s[2].value == |pending| && s[3].value == |history|
  {
    CountOverdueSplit(pending);
  }

  /** The due customers all have a next service date. */
  lemma DueHaveNextService(customers: seq<Customer>, today: Today)
    ensures forall i :: 0 <= i < |Selection(FilterRule, customers, today)| ==> Selection(FilterRule, customers, today)[i].nextService.Some?
  {
    var due := Selection(FilterRule, customers, today);
    forall i | 0 <= i < |due| ensures due[i].nextService.Some?
    {
      assert due[i] in due;
    }
  }

  /** What the hook publishes. */
  datatype FilterState = FilterState(
    filterStats: seq<FilterStat>, pendingFilters: seq<PendingFilter>, filterHistory: seq<HistoryEntry>,
    loading: bool, error: Option<string>)

  const InitialFilterState := FilterState([], [], [], true, None)

  /** `fetchData`: the history query, then the due-customers query (the
      customers whose `next_service` is present and not after today, as the
      daily job selects them). A failure of either query sets `error` and
      publishes nothing else. */
  function FetchFilterData(st: FilterState, history: Reply<Option<seq<HistoryRow>>>, customers: Reply<seq<Customer>>,
                           today: Today, nowMs: int, instant: string -> int): (r: FilterState)
    ensures !r.loading
    ensures history.Err? ==>
      r == st.(loading := false, error := Some(Describe(history.failure, "Failed to fetch filter data")))
    ensures history.Ok? && customers.Err? ==>
      r == st.(loading := false, error := Some(Describe(customers.failure, "Failed to fetch filter data")))
    ensures history.Ok? && customers.Ok? ==>
      var entries := HistoryEntries(if history.data.Some? then history.data.value else []);
      var due := Selection(FilterRule, customers.data, today);
      r.error == st.error && r.filterHistory == entries
      && |r.pendingFilters| == |due|
      && (forall i :: 0 <= i < |due| ==> due[i].nextService.Some?)
      && (forall i :: 0 <= i < |due| ==> r.pendingFilters[i] == PendingFor(due[i], nowMs, instant))
      && r.filterStats == FilterStats(r.pendingFilters, entries)
  {
    match history
    case Err(failure) => st.(loading := false, error := Some(Describe(failure, "Failed to fetch filter data")))
    case Ok(rows) =>
      var entries := HistoryEntries(if rows.Some? then rows.value else []);
      match customers
      case Err(failure) => st.(loading := false, error := Some(Describe(failure, "Failed to fetch filter data")))
      case Ok(all) =>
        var due := Selection(FilterRule, all, today);
        DueHaveNextService(all, today);
        var pending := PendingFilters(due, nowMs, instant);
        FilterState(FilterStats(pending, entries), pending, entries, false, st.error)
  }
}
