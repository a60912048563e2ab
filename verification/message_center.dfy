/** `src/components/MessageCenter.tsx`: the compose screen picks recipients by
    the same date rules as the daily job, personalises the chosen template for
    each of them, and either sends at once (recording a `Sent` or `Failed`
    row per outcome) or records one `Scheduled` row per message. Also the
    scheduled-message form's merge, the template list filter and the effect of
    choosing a compose template. Dialogs (`alert`, `confirm`) become an alert
    text and a `confirmed` input; store inserts become a failure position. */
module MessageCenter {
  import opened Text
  import opened Records
  import opened ListOps
  import opened CivilDate
  import opened Messaging
  import opened Cron

  // ------------------------------------------------------------ recipients

  /** The compose screen's filter-due test: unlike the daily job's query it
      also drops an empty `next_service`, which is falsy. */
  predicate IsFilterDueOnScreen(c: Customer, today: Today)
  {
    c.nextService.Some? && c.nextService.value != "" && LexLe(c.nextService.value, FormatDate(today))
  }

  /** Whether a customer is a recipient for the chosen recipient option. */
  predicate IsRecipient(option: string, c: Customer, today: Today)
  {
    if option == "birthday_today" then IsBirthdayToday(c, today)
    else if option == "filter_due" then IsFilterDueOnScreen(c, today)
    else true
  }

  function RecipientTest(option: string, today: Today): Customer -> bool
  {
    (c: Customer) => IsRecipient(option, c, today)
  }

  /** The recipient-filter effect: the customers the chosen option keeps. */
  function Recipients(option: string, customers: seq<Customer>, today: Today): seq<Customer>
  {
    Filter(customers, RecipientTest(option, today))
  }

  /** 'birthday_today' keeps exactly the customers whose birthday is today,
      'filter_due' exactly those whose non-empty next service is due, and any
      other option everybody; the survivors keep their order. */
  lemma RecipientsSpec(option: string, customers: seq<Customer>, today: Today)
    ensures IsSubsequence(Recipients(option, customers, today), customers)
    ensures option == "birthday_today" ==>
      forall c :: c in Recipients(option, customers, today) <==> c in customers && IsBirthdayToday(c, today)
    ensures option == "filter_due" ==>
      forall c :: c in Recipients(option, customers, today) <==> c in customers && IsFilterDueOnScreen(c, today)
    ensures option != "birthday_today" && option != "filter_due" ==> Recipients(option, customers, today) == customers
  {
    FilterIsSubsequence(customers, RecipientTest(option, today));
    if option != "birthday_today" && option != "filter_due" {
      FilterAll(customers, RecipientTest(option, today));
    }
  }

  /** The screen and the daily job agree on who is due, except for an empty
      `next_service`, which only the daily job selects. */
  lemma FilterDueAgreesWithJob(c: Customer, today: Today)
    ensures IsFilterDueOnScreen(c, today) ==> IsFilterDue(c, today)
    ensures IsFilterDue(c, today) && c.nextService != Some("") ==> IsFilterDueOnScreen(c, today)
    ensures c.nextService == Some("") ==> IsFilterDue(c, today) && !IsFilterDueOnScreen(c, today)
  {
  }

  // ------------------------------------------------------------ compose

  /** The compose form's fields. */
  datatype ComposeForm = ComposeForm(
    messageType: string, templateId: string, recipients: string,
    messageMethod: Method, scheduledFor: string, sendNow: bool)

  const InitialComposeForm := ComposeForm("birthday", "", "all", WhatsApp, "", true)

  /** `templates.find(t => t.id === id)`: the first template with this id. */
  function FindTemplate(templates: seq<MessageTemplate>, id: string): (r: Option<MessageTemplate>)
    ensures r.Some? ==> r.value in templates && r.value.id == id
    ensures r.None? ==> forall t :: t in templates ==> t.id != id
  {
    if templates == [] then None
    else if templates[0].id == id then Some(templates[0])
    else FindTemplate(templates[1..], id)
  }

  /** Choosing a compose template: when the id is set and names a template,
      the message type becomes that template's type. */
  function SelectTemplate(form: ComposeForm, templates: seq<MessageTemplate>): (r: ComposeForm)
    ensures r == form || (form.templateId != "" && FindTemplate(templates, form.templateId).Some?)
    ensures form.templateId != "" && FindTemplate(templates, form.templateId).Some? ==>
      r == form.(messageType := FindTemplate(templates, form.templateId).value.kind)
  {
    if form.templateId != "" then
      match FindTemplate(templates, form.templateId)
      case Some(t) => form.(messageType := t.kind)
      case None => form
    else form
  }

  /** One personalised message per selected customer, in order. */
  function ComposeMessages(selected: seq<Customer>, template: MessageTemplate, sendMethod: Method): (ms: seq<OutgoingMessage>)
    ensures |ms| == |selected|
    ensures forall i :: 0 <= i < |selected| ==>
      ms[i].to == selected[i].phone && ms[i].customerName == selected[i].name
      && ms[i].customerId == Some(selected[i].id) && ms[i].sendMethod == sendMethod
      && ms[i].message == Personalize(template.content, selected[i].name, selected[i].phone, selected[i].filterType)
  {
    if selected == [] then []
    else
      var c := selected[0];
      [OutgoingMessage(c.phone, Personalize(template.content, c.name, c.phone, c.filterType), sendMethod, c.name, Some(c.id))]
      + ComposeMessages(selected[1..], template, sendMethod)
  }

  /** `messages.find(m => m.customerId === id)?.message || ''`. */
  function MessageTextFor(messages: seq<OutgoingMessage>, id: Option<string>): string
  {
    if messages == [] then ""
    else if messages[0].customerId == id then messages[0].message
    else MessageTextFor(messages[1..], id)
  }

  /** With distinct customer ids, an entry's id finds its own message's text;
      an id no message carries finds the empty text. */
  lemma {:induction false} MessageTextForSpec(messages: seq<OutgoingMessage>, id: Option<string>)
    requires forall i, j :: 0 <= i < j < |messages| ==> messages[i].customerId != messages[j].customerId
    ensures forall i :: 0 <= i < |messages| && messages[i].customerId == id ==> MessageTextFor(messages, id) == messages[i].message
    ensures (forall m :: m in messages ==> m.customerId != id) ==> MessageTextFor(messages, id) == ""
  {
    if messages != [] && messages[0].customerId != id {
      MessageTextForSpec(messages[1..], id);
      forall i | 0 <= i < |messages| && messages[i].customerId == id
        ensures MessageTextFor(messages, id) == messages[i].message
      {
        assert messages[1..][i - 1] == messages[i];
      }
    }
  }

  /** Distinct customers give messages with distinct customer ids. */
  lemma ComposeIdsDistinct(selected: seq<Customer>, template: MessageTemplate, sendMethod: Method)
    requires forall i, j :: 0 <= i < j < |selected| ==> selected[i].id != selected[j].id
    ensures var ms := ComposeMessages(selected, template, sendMethod);
      forall i, j :: 0 <= i < j < |ms| ==> ms[i].customerId != ms[j].customerId
  {
  }

  /** The row recorded for a delivered message. */
  function SentRow(form: ComposeForm, messages: seq<OutgoingMessage>, e: SentEntry, now: string): NewScheduledMessage
  {
    NewScheduledMessage(e.customerId, form.templateId, e.customerName, e.to, form.messageType, form.messageMethod,
                        MessageTextFor(messages, e.customerId), now, Sent, Some(now))
  }

  /** The row recorded for a failed message; it too carries `sent_at`. */
  function FailedRow(form: ComposeForm, messages: seq<OutgoingMessage>, e: ErrorEntry, now: string): NewScheduledMessage
  {
    NewScheduledMessage(e.customerId, form.templateId, e.customerName, e.to, form.messageType, form.messageMethod,
                        MessageTextFor(messages, e.customerId), now, Failed, Some(now))
  }

  function SentRows(form: ComposeForm, messages: seq<OutgoingMessage>, es: seq<SentEntry>, now: string): (rows: seq<NewScheduledMessage>)
    ensures |rows| == |es|
    ensures forall i :: 0 <= i < |es| ==> rows[i] == SentRow(form, messages, es[i], now)
  {
    if es == [] then [] else [SentRow(form, messages, es[0], now)] + SentRows(form, messages, es[1..], now)
  }

  function FailedRows(form: ComposeForm, messages: seq<OutgoingMessage>, es: seq<ErrorEntry>, now: string): (rows: seq<NewScheduledMessage>)
    ensures |rows| == |es|
    ensures forall i :: 0 <= i < |es| ==> rows[i] == FailedRow(form, messages, es[i], now)
  {
    if es == [] then [] else [FailedRow(form, messages, es[0], now)] + FailedRows(form, messages, es[1..], now)
  }

  /** Send-now records the delivered messages first, then the failed ones. */
  function SendNowRows(form: ComposeForm, messages: seq<OutgoingMessage>, result: BulkMessageResult, now: string): seq<NewScheduledMessage>
  {
    SentRows(form, messages, result.results, now) + FailedRows(form, messages, result.errors, now)
  }

  /** One row per reported outcome: the first `|results|` are `Sent`, the
      rest `Failed`, each for its entry's customer and number; every row
      carries `sent_at`. */
  lemma SendNowRowsSpec(form: ComposeForm, messages: seq<OutgoingMessage>, result: BulkMessageResult, now: string)
    ensures var rows := SendNowRows(form, messages, result, now);
      |rows| == |result.results| + |result.errors|
      && (forall i :: 0 <= i < |result.results| ==>
            rows[i].status == Sent && rows[i].customerId == result.results[i].customerId && rows[i].recipientPhone == result.results[i].to)
      && (forall i :: 0 <= i < |result.errors| ==>
            var row := rows[|result.results| + i];
            row.status == Failed && row.customerId == result.errors[i].customerId && row.recipientPhone == result.errors[i].to)
      && (forall row :: row in rows ==> row.sentAt == Some(now) && row.templateId == form.templateId)
  {
  }

  /** When the bulk function cannot be invoked, every message is recorded as
      `Failed`, in order, for its own customer and number, with its own
      personalised text (customer ids being distinct). */
  lemma SendNowFallbackRows(form: ComposeForm, messages: seq<OutgoingMessage>, failure: Thrown, now: string)
    requires forall i, j :: 0 <= i < j < |messages| ==> messages[i].customerId != messages[j].customerId
    ensures var rows := SendNowRows(form, messages, SendBulkMessages(messages, InvokeFailed(failure)), now);
      |rows| == |messages|
      && forall i :: 0 <= i < |messages| ==>
           rows[i].status == Failed && rows[i].customerId == messages[i].customerId
           && rows[i].recipientPhone == messages[i].to && rows[i].templateContent == messages[i].message
  {
    var result := SendBulkMessages(messages, InvokeFailed(failure));
    var rows := SendNowRows(form, messages, result, now);
    assert SentRows(form, messages, result.results, now) == [];
    MessageTextForSpec(messages, None);
    forall i | 0 <= i < |messages|
      ensures rows[i].status == Failed && rows[i].customerId == messages[i].customerId
           && rows[i].recipientPhone == messages[i].to && rows[i].templateContent == messages[i].message
    {
      MessageTextForSpec(messages, messages[i].customerId);
      assert rows[i] == FailedRow(form, messages, result.errors[i], now);
    }
  }

  /** Schedule-later records one `Scheduled` row per message, at `at`. */
  function ScheduleRows(form: ComposeForm, messages: seq<OutgoingMessage>, at: string): (rows: seq<NewScheduledMessage>)
    ensures |rows| == |messages|
    ensures forall i :: 0 <= i < |messages| ==>
      rows[i].status == Scheduled && rows[i].sentAt == None && rows[i].scheduledFor == at
      && rows[i].customerId == messages[i].customerId && rows[i].recipientName == messages[i].customerName
      && rows[i].recipientPhone == messages[i].to && rows[i].templateContent == messages[i].message
      && rows[i].templateId == form.templateId && rows[i].messageType == form.messageType
      && rows[i].messageMethod == form.messageMethod
  {
    if messages == [] then []
    else
      var m := messages[0];
      [NewScheduledMessage(m.customerId, form.templateId, m.customerName, m.to, form.messageType, form.messageMethod,
                           m.message, at, Scheduled, None)]
      + ScheduleRows(form, messages[1..], at)
  }

  /** The insert loop: rows are inserted one at a time; when the insert at
      position `failAt` fails, the error propagates and no later row is
      attempted. `attempted` lists the inserts made, the failed one last. */
  method InsertRows(rows: seq<NewScheduledMessage>, failAt: Option<nat>) returns (attempted: seq<NewScheduledMessage>, stored: bool)
    ensures stored <==> !(failAt.Some? && failAt.value < |rows|)
    ensures stored ==> attempted == rows
    ensures !stored ==> attempted == rows[..failAt.value + 1]
  {
    attempted := [];
    var i := 0;
    while i < |rows|
      invariant 0 <= i <= |rows|
      invariant attempted == rows[..i]
      invariant failAt.Some? ==> i <= failAt.value
    {
      attempted := attempted + [rows[i]];
      if failAt == Some(i) {
        return attempted, false;
      }
      i := i + 1;
    }
    stored := true;
  }

  const NoCustomersAlert := "No customers selected for messaging"
  const NoTemplateAlert := "Please select a message template"
  const SendFailedAlert := "Failed to send messages. Please try again."

  /** `handleComposeSubmit`. `confirmed` is the answer to the confirmation
      dialog, `invocation` how the bulk edge function answered, `now` the
      current time as ISO text, `scheduledAt` the form's date as ISO text (none
      when it is not a valid date, which throws) and `failAt` the position of
      the first failing insert, if any. `dispatched` is the list handed to the
      bulk sender, if it was called. */
  method HandleComposeSubmit(form: ComposeForm, selected: seq<Customer>, templates: seq<MessageTemplate>,
                             confirmed: bool, invocation: Invocation<BulkMessageResult>, now: string,
                             scheduledAt: Option<string>, failAt: Option<nat>)
    returns (alert: Option<string>, dispatched: Option<seq<OutgoingMessage>>, inserted: seq<NewScheduledMessage>, nextForm: ComposeForm)
    ensures |selected| == 0 ==>
      alert == Some(NoCustomersAlert) && dispatched == None && inserted == [] && nextForm == form
    ensures |selected| > 0 && FindTemplate(templates, form.templateId).None? ==>
      alert == Some(NoTemplateAlert) && dispatched == None && inserted == [] && nextForm == form
    ensures |selected| > 0 && FindTemplate(templates, form.templateId).Some? && !confirmed ==>
      alert == None && dispatched == None && inserted == [] && nextForm == form
    ensures |selected| > 0 && FindTemplate(templates, form.templateId).Some? && confirmed ==>
      var messages := ComposeMessages(selected, FindTemplate(templates, form.templateId).value, form.messageMethod);
      var rows := if form.sendNow then SendNowRows(form, messages, SendBulkMessages(messages, invocation), now)
                  else if scheduledAt.Some? then ScheduleRows(form, messages, scheduledAt.value)
                  else [];
      var ok := (form.sendNow || scheduledAt.Some?) && !(failAt.Some? && failAt.value < |rows|);
      (dispatched == if form.sendNow then Some(messages) else None)
      && (ok ==> inserted == rows && nextForm == InitialComposeForm)
      && (!ok ==> alert == Some(SendFailedAlert) && nextForm == form
                  && inserted == (if form.sendNow || scheduledAt.Some? then rows[..failAt.value + 1] else []))
      && (ok && form.sendNow ==>
            var result := SendBulkMessages(messages, invocation);
            alert == Some("Messages sent! Success: " + DecimalString(result.successCount)
                          + ", Failed: " + DecimalString(result.errorCount)))
      && (ok && !form.sendNow ==> alert == Some(DecimalString(|messages|) + " messages scheduled successfully!"))
  {
    nextForm := form;
    dispatched := None;
    inserted := [];
    if |selected| == 0 {
      alert := Some(NoCustomersAlert);
      return;
    }
    var selectedTemplate := FindTemplate(templates, form.templateId);
    if selectedTemplate.None? {
      alert := Some(NoTemplateAlert);
      return;
    }
    if !confirmed {
      alert := None;
      return;
    }
    var messages := ComposeMessages(selected, selectedTemplate.value, form.messageMethod);
    var stored;
    if form.sendNow {
      dispatched := Some(messages);
      var result := SendBulkMessages(messages, invocation);
      inserted, stored := InsertRows(SendNowRows(form, messages, result, now), failAt);
      alert := Some("Messages sent! Success: " + DecimalString(result.successCount)
                    + ", Failed: " + DecimalString(result.errorCount));
    } else if scheduledAt.Some? {
      inserted, stored := InsertRows(ScheduleRows(form, messages, scheduledAt.value), failAt);
      alert := Some(DecimalString(|messages|) + " messages scheduled successfully!");
    } else {
      stored := false;
    }
    if stored {
      nextForm := InitialComposeForm;
    } else {
      alert := Some(SendFailedAlert);
    }
  }

  // ------------------------------------------------------------ scheduled form

  /** The scheduled-message form's fields. */
  datatype ScheduledForm = ScheduledForm(
    customerId: string, templateId: string, recipientName: string, messageType: string,
    scheduledFor: string, messageMethod: string, templateContent: string, recipientPhone: string)

  const EmptyScheduledForm := ScheduledForm("", "", "", "birthday", "", "whatsapp", "", "")

  /** `customers.find(c => c.id === id)`. */
  function FindCustomer(customers: seq<Customer>, id: string): (r: Option<Customer>)
    ensures r.Some? ==> r.value in customers && r.value.id == id
    ensures r.None? ==> forall c :: c in customers ==> c.id != id
  {
    if customers == [] then None
    else if customers[0].id == id then Some(customers[0])
    else FindCustomer(customers[1..], id)
  }

  /** The store request `handleScheduledSubmit` makes: an update of the row
      being edited, or an insert. */
  datatype ScheduledRequest = AddRequest(data: ScheduledForm) | UpdateRequest(id: string, data: ScheduledForm)

  /** The form merged with the chosen customer and template: name and phone
      from the customer, content and type from the template, each only when
      found and non-empty. */
  function MergeScheduled(form: ScheduledForm, customers: seq<Customer>, templates: seq<MessageTemplate>): ScheduledForm
  {
    var c := FindCustomer(customers, form.customerId);
    var t := FindTemplate(templates, form.templateId);
    form.(recipientName := Or(if c.Some? then Some(c.value.name) else None, form.recipientName),
          recipientPhone := Or(if c.Some? then Some(c.value.phone) else None, form.recipientPhone),
          templateContent := Or(if t.Some? then Some(t.value.content) else None, form.templateContent),
          messageType := Or(if t.Some? then Some(t.value.kind) else None, form.messageType))
  }

  function ScheduledSubmit(form: ScheduledForm, editing: Option<string>, customers: seq<Customer>, templates: seq<MessageTemplate>): ScheduledRequest
  {
    var data := MergeScheduled(form, customers, templates);
    if editing.Some? then UpdateRequest(editing.value, data) else AddRequest(data)
  }

  /** A found customer's non-empty name and phone, and a found template's
      non-empty content and type, replace the form's; otherwise the form's own
      values are kept, and the ids, method and date always are. An edit
      updates the edited row, anything else inserts. */
  lemma ScheduledSubmitSpec(form: ScheduledForm, editing: Option<string>, customers: seq<Customer>, templates: seq<MessageTemplate>)
    ensures var r := ScheduledSubmit(form, editing, customers, templates);
      var c := FindCustomer(customers, form.customerId);
      var t := FindTemplate(templates, form.templateId);
      (r.UpdateRequest? <==> editing.Some?) && (r.UpdateRequest? ==> r.id == editing.value)
      && r.data.customerId == form.customerId && r.data.templateId == form.templateId
      && r.data.scheduledFor == form.scheduledFor && r.data.messageMethod == form.messageMethod
      && r.data.recipientName == (if c.Some? && c.value.name != "" then c.value.name else form.recipientName)
      && r.data.recipientPhone == (if c.Some? && c.value.phone != "" then c.value.phone else form.recipientPhone)
      && r.data.templateContent == (if t.Some? && t.value.content != "" then t.value.content else form.templateContent)
      && r.data.messageType == (if t.Some? && t.value.kind != "" then t.value.kind else form.messageType)
  {
  }

  // ------------------------------------------------------------ template list

  function TypeTest(messageType: string): MessageTemplate -> bool
  {
    (t: MessageTemplate) => messageType == "all" || t.kind == messageType
  }

  /** `filteredTemplates`: the templates of the chosen type, or all of them. */
  function FilteredTemplates(templates: seq<MessageTemplate>, messageType: string): seq<MessageTemplate>
  {
    Filter(templates, TypeTest(messageType))
  }

  /** 'all' keeps every template; any other type keeps exactly the templates
      of that type, in order. */
  lemma FilteredTemplatesSpec(templates: seq<MessageTemplate>, messageType: string)
    ensures IsSubsequence(FilteredTemplates(templates, messageType), templates)
    ensures messageType == "all" ==> FilteredTemplates(templates, messageType) == templates
    ensures messageType != "all" ==>
      forall t :: t in FilteredTemplates(templates, messageType) <==> t in templates && t.kind == messageType
  {
    FilterIsSubsequence(templates, TypeTest(messageType));
    if messageType == "all" {
      FilterAll(templates, TypeTest(messageType));
    }
  }
}
