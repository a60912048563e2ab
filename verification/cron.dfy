/** The `automated-messaging-cron` edge function: once a day it runs three
    rules in turn (birthdays, filters due, guarantees expiring in a week). For
    each customer a rule selects, it personalises the rule's Active template,
    sends it on WhatsApp, records a `Sent` or `Failed` row in
    `scheduled_messages`, bumps one of two counters and notes the outcome. */
module Cron {
  import opened Text
  import opened Records
  import opened CivilDate
  import opened ListOps
  import opened Dispatch
  import opened BulkWhatsApp

  /** "Today" as the job sees it: a date whose week ahead still has a
      four-digit year. */
  type Today = d: Date | Valid(d) && d.year <= 9990 witness Date(2000, 1, 1)

  datatype Rule = BirthdayRule | FilterRule | GuaranteeRule

  // ------------------------------------------------------------ selection

  /** Birthday: a `birth_date` is present and its month and day are today's;
      the year plays no part. */
  predicate IsBirthdayToday(c: Customer, today: Today)
  {
    c.birthDate.Some? && c.birthDate.value != "" &&
    var b := ParseDate(c.birthDate.value);
    b.Some? && b.value.month == today.month && b.value.day == today.day
  }

  /** Filter due: `next_service` is present and not after today, compared as
      `YYYY-MM-DD` text. */
  predicate IsFilterDue(c: Customer, today: Today)
  {
    c.nextService.Some? && LexLe(c.nextService.value, FormatDate(today))
  }

  /** Guarantee: `guarantee_expiry` is exactly the date a week from today. */
  predicate IsGuaranteeDue(c: Customer, today: Today)
  {
    c.guaranteeExpiry == Some(FormatDate(AddDays(today, 7)))
  }

  predicate Selects(rule: Rule, c: Customer, today: Today)
  {
    match rule
    case BirthdayRule => IsBirthdayToday(c, today)
    case FilterRule => IsFilterDue(c, today)
    case GuaranteeRule => IsGuaranteeDue(c, today)
  }

  function SelectsOn(rule: Rule, today: Today): Customer -> bool
  {
    (c: Customer) => Selects(rule, c, today)
  }

  /** The customers a rule processes, in table order. */
  function Selection(rule: Rule, customers: seq<Customer>, today: Today): (sel: seq<Customer>)
    ensures forall c :: c in sel <==> c in customers && Selects(rule, c, today)
  {
    Filter(customers, SelectsOn(rule, today))
  }

  /** For a stored full-date, the birthday rule fires exactly on the same month
      and day in any year. */
  lemma BirthdayIgnoresYear(c: Customer, today: Today, born: Date)
    requires Valid(born) && c.birthDate == Some(FormatDate(born))
    ensures IsBirthdayToday(c, today) <==> born.month == today.month && born.day == today.day
  {
    ParseFormat(born);
  }

  /** For a stored full-date, the text comparison the filter rule makes is the
      calendar comparison. */
  lemma FilterDueIsChronological(c: Customer, today: Today, due: Date)
    requires Valid(due) && c.nextService == Some(FormatDate(due))
    ensures IsFilterDue(c, today) <==> NotAfter(due, today)
  {
    FormatOrder(due, today);
  }

  /** For a stored full-date, the guarantee rule fires exactly when it is seven
      days ahead: six and eight days ahead are not selected. */
  lemma GuaranteeIsExact(c: Customer, today: Today, expiry: Date)
    requires Valid(expiry) && c.guaranteeExpiry == Some(FormatDate(expiry))
    ensures IsGuaranteeDue(c, today) <==> expiry == AddDays(today, 7)
    ensures expiry == AddDays(today, 6) || expiry == AddDays(today, 8) ==> !IsGuaranteeDue(c, today)
  {
    if IsGuaranteeDue(c, today) {
      FormatInjective(expiry, AddDays(today, 7));
    }
    AddDaysMonotone(today, 6, 7);
    AddDaysMonotone(today, 7, 8);
  }

  // ------------------------------------------------------------ templates and rendering

  function TemplateKind(rule: Rule): string
  {
    match rule
    case BirthdayRule => "birthday"
    case FilterRule => "filter_reminder"
    case GuaranteeRule => "guarantee"
  }

  function IsActiveOfKind(kind: string): MessageTemplate -> bool
  {
    (t: MessageTemplate) => t.kind == kind && t.status == "Active"
  }

  /** `.eq('type', kind).eq('status', 'Active').single()`: the template when
      exactly one Active template has the type, and none otherwise. */
  function SingleTemplate(templates: seq<MessageTemplate>, kind: string): (r: Option<MessageTemplate>)
    ensures r.Some? ==> r.value in templates && r.value.kind == kind && r.value.status == "Active"
    ensures r.Some? <==> |Filter(templates, IsActiveOfKind(kind))| == 1
  {
    var matches := Filter(templates, IsActiveOfKind(kind));
    if |matches| == 1 then Some(matches[0]) else None
  }

  /** The template text with every `[NAME]`, then every `[PHONE]`, then every
      `[FILTER_TYPE]` replaced by the customer's values (`Standard` when the
      filter type is absent or empty). */
  function Personalize(content: string, name: string, phone: string, filterType: Option<string>): string
  {
    ReplaceAll(ReplaceAll(ReplaceAll(content, "[NAME]", name), "[PHONE]", phone), "[FILTER_TYPE]", Or(filterType, "Standard"))
  }

  /** Text with none of the three placeholders is sent as it is. */
  lemma PersonalizeWithoutTokens(content: string, name: string, phone: string, filterType: Option<string>)
    requires !Contains(content, "[NAME]") && !Contains(content, "[PHONE]") && !Contains(content, "[FILTER_TYPE]")
    ensures Personalize(content, name, phone, filterType) == content
  {
    ReplaceAllNoMatch(content, "[NAME]", name);
    ReplaceAllNoMatch(content, "[PHONE]", phone);
    ReplaceAllNoMatch(content, "[FILTER_TYPE]", Or(filterType, "Standard"));
  }

  /** Every `[NAME]` of a template gets the name, wherever it appears; the
      `[PHONE]` and `[FILTER_TYPE]` passes then work on that text, so a
      template with no other placeholder (nor one brought in by the name)
      reads the name in every place and nothing else changes. */
  lemma PersonalizeNameEverywhere(parts: seq<string>, name: string, phone: string, filterType: Option<string>)
    requires forall i :: 0 <= i < |parts| ==> !Contains(parts[i], "[NAME]")
    ensures Personalize(Join(parts, "[NAME]"), name, phone, filterType)
      == ReplaceAll(ReplaceAll(Join(parts, name), "[PHONE]", phone), "[FILTER_TYPE]", Or(filterType, "Standard"))
    ensures !Contains(Join(parts, name), "[PHONE]") && !Contains(Join(parts, name), "[FILTER_TYPE]")
      ==> Personalize(Join(parts, "[NAME]"), name, phone, filterType) == Join(parts, name)
  {
    ReplaceAllJoin(parts, "[NAME]", name);
    if !Contains(Join(parts, name), "[PHONE]") && !Contains(Join(parts, name), "[FILTER_TYPE]") {
      ReplaceAllNoMatch(Join(parts, name), "[PHONE]", phone);
      ReplaceAllNoMatch(Join(parts, name), "[FILTER_TYPE]", Or(filterType, "Standard"));
    }
  }

  // ------------------------------------------------------------ sending

  datatype SendResult = SendResult(success: bool, messageId: Option<string>, error: Option<string>, to: string)

  /** `sendWhatsAppMessage`: without credentials, or when the request throws,
      the failure carries the number as given; a provider answer carries the
      formatted recipient. */
  function SendWhatsAppMessage(to: string, config: MetaConfig, reply: ProviderReply): (r: SendResult)
    ensures !Configured(config) ==> r == SendResult(false, None, Some("Meta WhatsApp credentials not configured"), to)
    ensures Configured(config) ==> (r.success <==> reply.Accepted?)
    ensures Configured(config) && reply.Raised? ==> r.to == to && r.error == Some(reply.exception)
    ensures Configured(config) && !reply.Raised? ==> r.to == FormatRecipient(to)
    ensures !r.success ==> r.error.Some?
  {
    if !Configured(config) then SendResult(false, None, Some("Meta WhatsApp credentials not configured"), to)
    else
      match reply
      case Accepted(id) => SendResult(true, id, None, FormatRecipient(to))
      case Rejected(message) => SendResult(false, None, Some(Or(message, "Unknown error")), FormatRecipient(to))
      case Raised(message) => SendResult(false, None, Some(message), to)
  }

  // ------------------------------------------------------------ bookkeeping

  /** What the job has accumulated so far. */
  datatype CronState = CronState(totalMessagesSent: nat, totalErrors: nat, results: seq<string>, inserted: seq<NewScheduledMessage>)

  /** Everything the job reads: the calendar day, the timestamp it stamps rows
      with, the two tables and the Meta credentials. */
  datatype CronEnv = CronEnv(today: Today, stamp: string, customers: seq<Customer>, templates: seq<MessageTemplate>, config: MetaConfig)

  function RowFor(rule: Rule, template: MessageTemplate, c: Customer, r: SendResult, stamp: string): (row: NewScheduledMessage)
    ensures row.status == Sent <==> r.success
    ensures row.status == Failed <==> !r.success
    ensures row.sentAt.Some? <==> r.success
  {
    NewScheduledMessage(
      Some(c.id), template.id, c.name, c.phone, TemplateKind(rule), WhatsApp,
      Personalize(template.content, c.name, c.phone, c.filterType), stamp,
      if r.success then Sent else Failed, if r.success then Some(stamp) else None)
  }

  /** The `${messageResult.error}` of a failure note (`undefined` if absent). */
  function ErrorText(r: SendResult): string
  {
    if r.error.Some? then r.error.value else "undefined"
  }

  function NoteFor(rule: Rule, c: Customer, r: SendResult): string
  {
    match rule
    case BirthdayRule =>
      if r.success then "Birthday message sent to " + c.name
      else "Failed to send birthday message to " + c.name + ": " + ErrorText(r)
    case FilterRule =>
      if r.success then "Filter reminder sent to " + c.name
      else "Failed to send filter reminder to " + c.name + ": " + ErrorText(r)
    case GuaranteeRule =>
      if r.success then "Guarantee reminder sent to " + c.name
      else "Failed to send guarantee reminder to " + c.name + ": " + ErrorText(r)
  }

  function ErrorNote(rule: Rule, message: string): string
  {
    match rule
    case BirthdayRule => "Birthday messaging error: " + message
    case FilterRule => "Filter reminder error: " + message
    case GuaranteeRule => "Guarantee reminder error: " + message
  }

  /** What sending to one customer produces: whether it succeeded, the note
      for `results`, and the row to insert. */
  datatype Step = Step(success: bool, note: string, row: NewScheduledMessage)

  /** A step's row is `Sent` exactly when the send succeeded, else `Failed`. */
  predicate Consistent(st: Step)
  {
    (st.row.status == Sent <==> st.success) && (st.row.status == Failed <==> !st.success)
  }

  function StepFor(rule: Rule, template: MessageTemplate, c: Customer, reply: ProviderReply, env: CronEnv): (st: Step)
    ensures Consistent(st)
    ensures st.row.customerId == Some(c.id) && st.row.templateId == template.id
    ensures st.row.recipientName == c.name && st.row.recipientPhone == c.phone
    ensures st.row.templateContent == Personalize(template.content, c.name, c.phone, c.filterType)
    ensures st.row.sentAt.Some? <==> st.success
    ensures st.success <==> SendWhatsAppMessage(c.phone, env.config, reply).success
  {
    var r := SendWhatsAppMessage(c.phone, env.config, reply);
    Step(r.success, NoteFor(rule, c, r), RowFor(rule, template, c, r, env.stamp))
  }

  /** The per-customer step of a rule block, as a function of the customer
      and of how its send ended. */
  function StepFn(rule: Rule, template: MessageTemplate, env: CronEnv): (Customer, ProviderReply) -> Step
  {
    (c: Customer, reply: ProviderReply) => StepFor(rule, template, c, reply, env)
  }

  /** The steps `step` takes over the customers, in order. */
  function StepsBy(sel: seq<Customer>, replies: seq<ProviderReply>, step: (Customer, ProviderReply) -> Step): (steps: seq<Step>)
    requires |sel| == |replies|
    ensures |steps| == |sel|
    ensures forall i :: 0 <= i < |sel| ==> steps[i] == step(sel[i], replies[i])
  {
    if sel == [] then []
    else [step(sel[0], replies[0])] + StepsBy(sel[1..], replies[1..], step)
  }

  /** The steps for the selected customers, in order. */
  function Steps(rule: Rule, template: MessageTemplate, sel: seq<Customer>, replies: seq<ProviderReply>, env: CronEnv): (steps: seq<Step>)
    requires |sel| == |replies|
    ensures |steps| == |sel|
    ensures forall i :: 0 <= i < |sel| ==> steps[i] == StepFor(rule, template, sel[i], replies[i], env)
    ensures forall i :: 0 <= i < |steps| ==> Consistent(steps[i])
  {
    StepsBy(sel, replies, StepFn(rule, template, env))
  }

  /** The state after taking the first `n` steps. */
  function Accumulate(s: CronState, steps: seq<Step>, n: nat): CronState
    requires n <= |steps|
  {
    if n == 0 then s
    else
      var t := Accumulate(s, steps, n - 1);
      var st := steps[n - 1];
      CronState(
        t.totalMessagesSent + (if st.success then 1 else 0),
        t.totalErrors + (if st.success then 0 else 1),
        t.results + [st.note],
        t.inserted + [st.row])
  }

  /** Each step adds exactly one row, one note and one to exactly one of the
      two counters. */
  lemma {:induction false} AccumulateCounts(s: CronState, steps: seq<Step>, n: nat)
    requires n <= |steps|
    ensures var t := Accumulate(s, steps, n);
      |t.inserted| == |s.inserted| + n && |t.results| == |s.results| + n
      && t.totalMessagesSent >= s.totalMessagesSent && t.totalErrors >= s.totalErrors
      && (t.totalMessagesSent - s.totalMessagesSent) + (t.totalErrors - s.totalErrors) == n
  {
    if n > 0 {
      AccumulateCounts(s, steps, n - 1);
    }
  }

  /** Steps only append: the `i`-th step's row and note land at position
      `i` after what was there, which is kept as it was. */
  lemma {:induction false} AccumulateAppends(s: CronState, steps: seq<Step>, n: nat)
    requires n <= |steps|
    ensures var t := Accumulate(s, steps, n);
      |t.inserted| == |s.inserted| + n && |t.results| == |s.results| + n
      && t.inserted[..|s.inserted|] == s.inserted && t.results[..|s.results|] == s.results
      && (forall i :: 0 <= i < n ==> t.inserted[|s.inserted| + i] == steps[i].row)
      && (forall i :: 0 <= i < n ==> t.results[|s.results| + i] == steps[i].note)
  {
    if n > 0 {
      AccumulateAppends(s, steps, n - 1);
    }
  }

  /** The number of rows with the given status. */
  function CountStatus(rows: seq<NewScheduledMessage>, status: DeliveryStatus): nat
  {
    if rows == [] then 0
    else CountStatus(rows[..|rows| - 1], status) + (if rows[|rows| - 1].status == status then 1 else 0)
  }

  lemma CountStatusSnoc(rows: seq<NewScheduledMessage>, row: NewScheduledMessage, status: DeliveryStatus)
    ensures CountStatus(rows + [row], status) == CountStatus(rows, status) + (if row.status == status then 1 else 0)
  {
    assert (rows + [row])[..|rows|] == rows;
  }

  /** With consistent steps, rows and counters stay in step: each counter
      grows by the number of rows of its status. */
  lemma {:induction false} AccumulateStatusCounts(s: CronState, steps: seq<Step>, n: nat)
    requires n <= |steps|
    requires forall i :: 0 <= i < |steps| ==> Consistent(steps[i])
    requires CountStatus(s.inserted, Sent) == s.totalMessagesSent && CountStatus(s.inserted, Failed) == s.totalErrors
    ensures var t := Accumulate(s, steps, n);
      CountStatus(t.inserted, Sent) == t.totalMessagesSent && CountStatus(t.inserted, Failed) == t.totalErrors
  {
    if n > 0 {
      AccumulateStatusCounts(s, steps, n - 1);
      var t, st := Accumulate(s, steps, n - 1), steps[n - 1];
      assert Consistent(st);
      assert Accumulate(s, steps, n).inserted == t.inserted + [st.row];
      CountStatusSnoc(t.inserted, st.row, Sent);
      CountStatusSnoc(t.inserted, st.row, Failed);
    }
  }

  /** The effect of one rule block on the state. `replies` answer the sends in
      order. `fault` is an exception thrown inside the block before its first
      row is written, such as the `TypeError` of `.replace` on a template whose
      `content` is null; a failed query does not throw, it reads as no
      customers or no template. */
  function RuleEffect(rule: Rule, env: CronEnv, replies: seq<ProviderReply>, fault: Option<string>, s: CronState): CronState
    requires |replies| == |Selection(rule, env.customers, env.today)|
  {
    if fault.Some? then s.(results := s.results + [ErrorNote(rule, fault.value)])
    else
      var sel := Selection(rule, env.customers, env.today);
      var template := SingleTemplate(env.templates, TemplateKind(rule));
      if sel == [] || template.None? then s
      else Accumulate(s, Steps(rule, template.value, sel, replies, env), |sel|)
  }

  /** Rows and counters stay in step across a rule block: the job's
      `totalMessagesSent` is the number of `Sent` rows it inserted and
      `totalErrors` the number of `Failed` rows. */
  lemma RuleEffectBalance(rule: Rule, env: CronEnv, replies: seq<ProviderReply>, fault: Option<string>, s: CronState)
    requires |replies| == |Selection(rule, env.customers, env.today)|
    requires CountStatus(s.inserted, Sent) == s.totalMessagesSent && CountStatus(s.inserted, Failed) == s.totalErrors
    ensures var t := RuleEffect(rule, env, replies, fault, s);
      CountStatus(t.inserted, Sent) == t.totalMessagesSent && CountStatus(t.inserted, Failed) == t.totalErrors
  {
    var sel := Selection(rule, env.customers, env.today);
    var template := SingleTemplate(env.templates, TemplateKind(rule));
    if fault.None? && sel != [] && template.Some? {
      var steps := Steps(rule, template.value, sel, replies, env);
      assert RuleEffect(rule, env, replies, fault, s) == Accumulate(s, steps, |sel|);
      AccumulateStatusCounts(s, steps, |sel|);
    } else {
      RuleEffectQuiet(rule, env, replies, fault, s);
    }
  }

  /** A rule block that runs adds one row and one note per selected customer,
      in selection order, each row for that customer with the rendered
      template, `Sent` exactly when its send succeeded. */
  lemma RuleEffectRows(rule: Rule, env: CronEnv, replies: seq<ProviderReply>, s: CronState, i: nat)
    requires |replies| == |Selection(rule, env.customers, env.today)|
    requires i < |Selection(rule, env.customers, env.today)|
    requires SingleTemplate(env.templates, TemplateKind(rule)).Some?
    ensures var t := RuleEffect(rule, env, replies, None, s);
      var c := Selection(rule, env.customers, env.today)[i];
      var template := SingleTemplate(env.templates, TemplateKind(rule)).value;
      |t.inserted| == |s.inserted| + |Selection(rule, env.customers, env.today)|
      && t.inserted[..|s.inserted|] == s.inserted
      && t.inserted[|s.inserted| + i].customerId == Some(c.id)
      && t.inserted[|s.inserted| + i].templateContent == Personalize(template.content, c.name, c.phone, c.filterType)
      && (t.inserted[|s.inserted| + i].status == Sent <==> SendWhatsAppMessage(c.phone, env.config, replies[i]).success)
  {
    var sel := Selection(rule, env.customers, env.today);
    var template := SingleTemplate(env.templates, TemplateKind(rule)).value;
    var steps := Steps(rule, template, sel, replies, env);
    assert RuleEffect(rule, env, replies, None, s) == Accumulate(s, steps, |sel|);
    AccumulateAppends(s, steps, |sel|);
    assert steps[i] == StepFor(rule, template, sel[i], replies[i], env);
  }

  /** A rule with nobody selected, or without exactly one Active template,
      changes nothing; a failing rule block only adds its error note. */
  lemma RuleEffectQuiet(rule: Rule, env: CronEnv, replies: seq<ProviderReply>, fault: Option<string>, s: CronState)
    requires |replies| == |Selection(rule, env.customers, env.today)|
    ensures fault.None? && (Selection(rule, env.customers, env.today) == [] || SingleTemplate(env.templates, TemplateKind(rule)).None?)
      ==> RuleEffect(rule, env, replies, fault, s) == s
    ensures fault.Some? ==>
      RuleEffect(rule, env, replies, fault, s) == s.(results := s.results + [ErrorNote(rule, fault.value)])
  {
  }

  // ------------------------------------------------------------ the rule loop and the handler

  /** The per-customer loop of a rule block: take the customer's step
      (personalise, send, build the row and the note), record the row, bump
      one counter and note the outcome, customer after customer. */
  method SendToSelected(selected: seq<Customer>, replies: seq<ProviderReply>,
                        step: (Customer, ProviderReply) -> Step, s: CronState)
    returns (next: CronState)
    requires |replies| == |selected|
    ensures next == Accumulate(s, StepsBy(selected, replies, step), |selected|)
  {
    ghost var steps := StepsBy(selected, replies, step);
    var totalMessagesSent, totalErrors, results, inserted := s.totalMessagesSent, s.totalErrors, s.results, s.inserted;
    var i := 0;
    while i < |selected|
      invariant 0 <= i <= |selected|
      invariant CronState(totalMessagesSent, totalErrors, results, inserted) == Accumulate(s, steps, i)
    {
      var st := step(selected[i], replies[i]);
      inserted := inserted + [st.row];
      if st.success {
        totalMessagesSent := totalMessagesSent + 1;
      } else {
        totalErrors := totalErrors + 1;
      }
      results := results + [st.note];
      i := i + 1;
    }
    next := CronState(totalMessagesSent, totalErrors, results, inserted);
  }

  /** One rule block: when the block throws (`fault`) only the error note is
      added; otherwise, when someone is selected and the template is found,
      the loop runs over the selection. */
  method RunRule(rule: Rule, env: CronEnv, replies: seq<ProviderReply>, fault: Option<string>, s: CronState)
    returns (next: CronState)
    requires |replies| == |Selection(rule, env.customers, env.today)|
    ensures next == RuleEffect(rule, env, replies, fault, s)
  {
    if fault.Some? {
      return s.(results := s.results + [ErrorNote(rule, fault.value)]);
    }
    var selected := Selection(rule, env.customers, env.today);
    next := s;
    if |selected| > 0 {
      var template := SingleTemplate(env.templates, TemplateKind(rule));
      if template.Some? {
        next := SendToSelected(selected, replies, StepFn(rule, template.value, env), s);
      }
    }
  }

  /** The JSON answer of a run. */
  datatype CronResponse = CronResponse(
    success: bool, date: string, time: string, totalMessagesSent: nat, totalErrors: nat,
    results: seq<string>, message: string)

  /** The whole job: the three rule blocks in order, each on the state the
      previous one left, then the summary. The totals it reports are exactly
      the numbers of `Sent` and `Failed` rows it inserted. */
  method RunCron(env: CronEnv,
                 birthdayReplies: seq<ProviderReply>, birthdayFault: Option<string>,
                 filterReplies: seq<ProviderReply>, filterFault: Option<string>,
                 guaranteeReplies: seq<ProviderReply>, guaranteeFault: Option<string>)
    returns (response: CronResponse, inserted: seq<NewScheduledMessage>)
    requires |birthdayReplies| == |Selection(BirthdayRule, env.customers, env.today)|
    requires |filterReplies| == |Selection(FilterRule, env.customers, env.today)|
    requires |guaranteeReplies| == |Selection(GuaranteeRule, env.customers, env.today)|
    ensures var final := RuleEffect(GuaranteeRule, env, guaranteeReplies, guaranteeFault,
                           RuleEffect(FilterRule, env, filterReplies, filterFault,
                             RuleEffect(BirthdayRule, env, birthdayReplies, birthdayFault, CronState(0, 0, [], []))));
      inserted == final.inserted && response.results == final.results
      && response.totalMessagesSent == final.totalMessagesSent && response.totalErrors == final.totalErrors
    ensures response.success && response.date == FormatDate(env.today) && response.time == "12:30 AM IST"
    ensures response.message == Summary("Automated messaging completed", response.totalMessagesSent, response.totalErrors)
    ensures response.totalMessagesSent == CountStatus(inserted, Sent)
    ensures response.totalErrors == CountStatus(inserted, Failed)
  {
    var s := CronState(0, 0, [], []);
    RuleEffectBalance(BirthdayRule, env, birthdayReplies, birthdayFault, s);
    s := RunRule(BirthdayRule, env, birthdayReplies, birthdayFault, s);
    RuleEffectBalance(FilterRule, env, filterReplies, filterFault, s);
    s := RunRule(FilterRule, env, filterReplies, filterFault, s);
    RuleEffectBalance(GuaranteeRule, env, guaranteeReplies, guaranteeFault, s);
    s := RunRule(GuaranteeRule, env, guaranteeReplies, guaranteeFault, s);
    inserted := s.inserted;
    response := CronResponse(true, FormatDate(env.today), "12:30 AM IST", s.totalMessagesSent, s.totalErrors, s.results,
      Summary("Automated messaging completed", s.totalMessagesSent, s.totalErrors));
  }
}
