/** `src/hooks/useDashboardStats.ts`: the dashboard's counters, the five most
    recent messages as activities with a relative time, and four fixed
    upcoming tasks, one of whose priority depends on the number of pending
    reviews. The count queries are store calls whose answers (a count, or
    none when the query failed) are inputs; times are integer milliseconds,
    with `instant` standing for `new Date(s).getTime()`. */
module DashboardStats {
  import opened Text
  import opened Records
  import opened ListOps
  import opened CivilDate
  import opened Cron

  /** `getRelativeTime`: the whole minutes elapsed, shown in the largest unit
      that fits; anything under a minute, including a time in the future, is
      "Just now". */
  function RelativeTime(nowMs: int, thenMs: int): string
  {
    var minutes := (nowMs - thenMs) / MinuteMs;
    if minutes < 1 then "Just now"
    else if minutes < 60 then DecimalString(minutes) + " minutes ago"
    else if minutes < 1440 then DecimalString(minutes / 60) + " hours ago"
    else DecimalString(minutes / 1440) + " days ago"
  }

  /** Rounding to whole minutes first and then to hours or days gives the
      whole hours or days elapsed: each bucket shows the elapsed time
      truncated to its unit, and the hour count is between 1 and 23. */
  lemma RelativeTimeBuckets(nowMs: int, thenMs: int)
    ensures var e := nowMs - thenMs;
      (e < MinuteMs ==> RelativeTime(nowMs, thenMs) == "Just now")
      && (MinuteMs <= e < HourMs ==> RelativeTime(nowMs, thenMs) == DecimalString(e / MinuteMs) + " minutes ago")
      && (HourMs <= e < DayMs ==>
            RelativeTime(nowMs, thenMs) == DecimalString(e / HourMs) + " hours ago" && 1 <= e / HourMs <= 23)
      && (DayMs <= e ==> RelativeTime(nowMs, thenMs) == DecimalString(e / DayMs) + " days ago")
  {
    var e := nowMs - thenMs;
    if e >= 0 {
      NestedDivision(e);
    }
  }

  /** Whole minutes, then whole hours (or days) of those, are the whole
      hours (or days) elapsed. */
  lemma NestedDivision(e: nat)
    ensures (e / MinuteMs) / 60 == e / HourMs
    ensures (e / MinuteMs) / 1440 == e / DayMs
  {
  }

  /** Whether a row read for the birthday count is a birthday today (an empty
      or missing date is not). */
  function BirthdayTest(today: Today): Customer -> bool
  {
    (c: Customer) => IsBirthdayToday(c, today)
  }

  /** The number of customers whose birthday is today. */
  function CountBirthdays(customers: seq<Customer>, today: Today): nat
  {
    if customers == [] then 0
    else CountBirthdays(customers[1..], today) + (if IsBirthdayToday(customers[0], today) then 1 else 0)
  }

  /** The dashboard counts exactly the customers the daily job greets. */
  lemma {:induction false} BirthdaysAgreeWithJob(customers: seq<Customer>, today: Today)
    ensures CountBirthdays(customers, today) == |Selection(BirthdayRule, customers, today)|
  {
    if customers != [] {
      BirthdaysAgreeWithJob(customers[1..], today);
    }
  }

  /** `birthdaysToday || 0`, with no rows when the query failed. */
  function BirthdaysToday(rows: Option<seq<Customer>>, today: Today): (n: nat)
    ensures rows.None? ==> n == 0
    ensures rows.Some? ==> n == |Selection(BirthdayRule, rows.value, today)|
  {
    match rows
    case None => 0
    case Some(customers) =>
      BirthdaysAgreeWithJob(customers, today);
      CountBirthdays(customers, today)
  }

  datatype Activity = Activity(kind: string, message: string, time: string)

  /** One activity per message: the lower-cased type, a sentence naming the
      recipient, and the age of the row. */
  function Activities(rows: seq<ScheduledMessage>, nowMs: int, instant: string -> int): (acts: seq<Activity>)
    ensures |acts| == |rows|
    ensures forall i :: 0 <= i < |rows| ==>
      acts[i] == Activity(Lower(rows[i].messageType), rows[i].messageType + " message sent to " + rows[i].recipientName,
                          RelativeTime(nowMs, instant(rows[i].createdAt)))
  {
    if rows == [] then []
    else [Activity(Lower(rows[0].messageType), rows[0].messageType + " message sent to " + rows[0].recipientName,
                   RelativeTime(nowMs, instant(rows[0].createdAt)))]
         + Activities(rows[1..], nowMs, instant)
  }

  datatype TaskPriority = High | Medium | Low

  datatype Task = Task(task: string, dueDate: string, priority: TaskPriority)

  /** The four upcoming tasks. Only the review follow-up varies: it is high
      when more than ten reviews are pending, and low otherwise, also when
      the count is unknown. */
  function UpcomingTasks(pendingReviews: Option<nat>): (tasks: seq<Task>)
    ensures |tasks| == 4
    ensures tasks[0].priority == High && tasks[1].priority == Medium && tasks[3].priority == Medium
    ensures tasks[2].priority == High <==> pendingReviews.Some? && pendingReviews.value > 10
    ensures tasks[2].priority != Medium
  {
    [ Task("Send weekly filter change reminders", "Tomorrow", High),
      Task("Generate monthly service report", "In 2 days", Medium),
      Task("Follow up on pending reviews", "In 3 days",
           if pendingReviews.Some? && pendingReviews.value > 10 then High else Low),
      Task("Review customer feedback responses", "Next week", Medium) ]
  }

  /** `count || 0`. */
  function CountOrZero(count: Option<nat>): (n: nat)
    ensures count.None? ==> n == 0
    ensures count.Some? ==> n == count.value
  {
    if count.Some? then count.value else 0
  }

  datatype Stats = Stats(
    totalCustomers: nat, birthdaysToday: nat, filterChangesDue: nat, messagesSent: nat,
    pendingReviews: nat, guaranteesActive: nat, recentActivities: seq<Activity>, upcomingTasks: seq<Task>)

  const InitialStats := Stats(0, 0, 0, 0, 0, 0, [], [])

  /** The answers of the dashboard's queries: five counts (none when the query
      failed), the customers with a birth date, and the messages newest first
      (none when the query failed). */
  datatype Answers = Answers(
    totalCustomers: Option<nat>, withBirthDate: Option<seq<Customer>>, filterChangesDue: Option<nat>,
    messagesSent: Option<nat>, pendingReviews: Option<nat>, guaranteesActive: Option<nat>,
    recentMessages: Option<seq<ScheduledMessage>>)

  /** `fetchDashboardStats`: failed queries read as zero counts or no rows;
      the recent activities are the first five (or fewer) recent messages, in
      the order the query returned them, each described in full. */
  function FetchDashboardStats(answers: Answers, today: Today, nowMs: int, instant: string -> int): (s: Stats)
    ensures s.totalCustomers == CountOrZero(answers.totalCustomers)
    ensures s.filterChangesDue == CountOrZero(answers.filterChangesDue)
    ensures s.messagesSent == CountOrZero(answers.messagesSent)
    ensures s.pendingReviews == CountOrZero(answers.pendingReviews)
    ensures s.guaranteesActive == CountOrZero(answers.guaranteesActive)
    ensures answers.withBirthDate.None? ==> s.birthdaysToday == 0
    ensures answers.withBirthDate.Some? ==>
      s.birthdaysToday == |Selection(BirthdayRule, answers.withBirthDate.value, today)|
    ensures answers.recentMessages.None? ==> s.recentActivities == []
    ensures answers.recentMessages.Some? ==>
      var rows := answers.recentMessages.value;
      |s.recentActivities| == (if |rows| < 5 then |rows| else 5)
      && forall i :: 0 <= i < |s.recentActivities| ==>
           s.recentActivities[i] == Activity(Lower(rows[i].messageType), rows[i].messageType + " message sent to " + rows[i].recipientName,
                                             RelativeTime(nowMs, instant(rows[i].createdAt)))
    ensures s.upcomingTasks == UpcomingTasks(answers.pendingReviews)
  {
    var birthdays := BirthdaysToday(answers.withBirthDate, today);
    var recent := if answers.recentMessages.Some? then answers.recentMessages.value else [];
    var limited := if |recent| < 5 then recent else recent[..5];
    Stats(CountOrZero(answers.totalCustomers), birthdays, CountOrZero(answers.filterChangesDue),
          CountOrZero(answers.messagesSent), CountOrZero(answers.pendingReviews), CountOrZero(answers.guaranteesActive),
          Activities(limited, nowMs, instant), UpcomingTasks(answers.pendingReviews))
  }
}
