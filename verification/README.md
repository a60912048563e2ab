# Aro-Care customer service: a verified model of the notification pipeline

Aro-Care is a customer-service application for a water-filter business. It
keeps customers, message templates, scheduled messages, service reviews and
notification settings in a hosted database. It reminds customers by
WhatsApp or SMS: a daily job greets birthdays, reminds customers whose filter
change is due and warns those whose guarantee expires in a week, and a
message centre lets staff compose bulk messages. Two edge functions do the
bulk sending, one through Twilio and one through Meta's WhatsApp Graph API.

This project models, in Dafny, the rules underneath the screens and the edge
functions:

- the daily job's three date rules and its template personalisation;
- its per-customer bookkeeping: one `Sent` or `Failed` row, one counter and
  one note per customer;
- the compose screen's recipient filter, message construction and the rows
  it persists;
- the three phone-number normalisations and the phone-number validator;
- the two bulk-sending loops, which split their input into `results` and
  `errors`;
- the arithmetic of the filter and dashboard hooks;
- the in-memory caches the data hooks keep;
- the notification settings map and the settings screen;
- the customer screen's search and form.

Each core source file has its own module. Shared definitions live in four
helper modules:

| module | holds |
|---|---|
| `Text` | strings: digits, case, replace-all, text order, decimal numbers |
| `CivilDate` | dates in the `YYYY-MM-DD` form of section 5.6 of RFC 3339 |
| `Records` | the table rows of `src/lib/supabase.ts` |
| `ListOps` | filter and replace-by-id on lists |

The `Dispatch` module holds what the two bulk functions share, their
sending loop included.

Code that works step by step is imperative Dafny:

- the data hooks are classes whose methods reassign their cached list or map;
- the bulk loops, the daily job's per-customer loop, the compose screen's
  insert loop and the settings save loop are `while` loops with invariants,
  proved against specification functions.

Rules that are expressions are functions, with lemmas stating what they mean.

Everything outside the program is an input to the model:

- **The clock:** "today" is a calendar date, and "now" is integer
  milliseconds.
- **Date parsing:** `instant` stands for `new Date(s).getTime()`.
- **The database:** each store call is an answer, either data or an error.
- **Twilio and Meta:** each send is an outcome, either accepted, rejected or
  raised.

## Model

| member | source | states |
|---|---|---|
| Cron.Selection | supabase/functions/automated-messaging-cron/index.ts:40-44 | a rule's selection holds exactly the customers the rule's predicate accepts, drawn from the table |
| Cron.BirthdayIgnoresYear | supabase/functions/automated-messaging-cron/index.ts:40-44 | a customer whose birth date is a valid full-date is greeted exactly when its month and day are today's, whatever the year |
| Cron.FilterDueIsChronological | supabase/functions/automated-messaging-cron/index.ts:101-106 | the text test `next_service <= today` on a full-date holds exactly when the service date is not after today |
| Cron.GuaranteeIsExact | supabase/functions/automated-messaging-cron/index.ts:164-172 | the guarantee rule fires exactly when the expiry is today plus seven days; today plus six and today plus eight are never selected |
| Cron.SingleTemplate | supabase/functions/automated-messaging-cron/index.ts:48-55 | `.single()` yields a template only when exactly one Active template of the kind exists, and that template is Active and of the kind |
| Cron.PersonalizeWithoutTokens | supabase/functions/automated-messaging-cron/index.ts:57-60 | content holding none of `[NAME]`, `[PHONE]` or `[FILTER_TYPE]` is sent unchanged |
| Cron.PersonalizeNameEverywhere | supabase/functions/automated-messaging-cron/index.ts:57-60 | every `[NAME]` in any template is replaced by the customer's name, not only the first, before the `[PHONE]` and `[FILTER_TYPE]` passes; with no other placeholder the result is the template with the name in every place |
| Cron.SendWhatsAppMessage | supabase/functions/automated-messaging-cron/index.ts:261-316 | missing credentials and a thrown request give a failure carrying the raw number; a provider answer carries the normalised number; success exactly when the provider accepted; every failure has an error |
| Cron.RowFor | supabase/functions/automated-messaging-cron/index.ts:71-82 | the inserted row is `Sent` exactly when the send succeeded, `Failed` otherwise, and has `sent_at` exactly when it is `Sent` |
| Cron.StepFor | supabase/functions/automated-messaging-cron/index.ts:56-90 | one customer gives a row for that customer and template, with the personalised text, and its status agrees with the send's outcome |
| Cron.Steps | supabase/functions/automated-messaging-cron/index.ts:56-91 | one step per selected customer, in selection order, each consistent |
| Cron.AccumulateCounts | supabase/functions/automated-messaging-cron/index.ts:84-90 | each processed customer adds exactly one row and one note and raises exactly one of the two counters by one |
| Cron.AccumulateAppends | supabase/functions/automated-messaging-cron/index.ts:71-90 | processing only appends: earlier rows and notes stay, and the i-th customer's row and note land at their own positions |
| Cron.CountStatusSnoc | supabase/functions/automated-messaging-cron/index.ts:80 | appending a row adds one to the count of its own status and nothing to the other |
| Cron.AccumulateStatusCounts | supabase/functions/automated-messaging-cron/index.ts:80-90 | `totalMessagesSent` stays equal to the number of `Sent` rows and `totalErrors` to the number of `Failed` rows |
| Cron.RuleEffectBalance | supabase/functions/automated-messaging-cron/index.ts:33-97 | a whole rule block, including its error path, keeps the counters equal to the row counts |
| Cron.RuleEffectRows | supabase/functions/automated-messaging-cron/index.ts:56-91 | a rule block that runs adds one row per selected customer, in order, for that customer |
| Cron.RuleEffectQuiet | supabase/functions/automated-messaging-cron/index.ts:46-55 | with nobody selected or no single Active template, a rule inserts nothing and changes no counter; an exception adds only its error note |
| Cron.StepsBy | supabase/functions/automated-messaging-cron/index.ts:56-91 | one step per customer, in order, each the step for that customer and its reply |
| Cron.SendToSelected | supabase/functions/automated-messaging-cron/index.ts:56-91 | the per-customer loop leaves the state that taking every customer's step in order specifies: one row, one note and one counter bump per customer |
| Cron.RunRule | supabase/functions/automated-messaging-cron/index.ts:99-159 | one rule block: only its error note when the block throws, otherwise the loop over the selection when someone is selected and the template is found |
| Cron.RunCron | supabase/functions/automated-messaging-cron/index.ts:14-241 | the three blocks run in order, each on the previous state, and a failing block does not stop the later ones; the reported totals equal the `Sent` and `Failed` rows inserted |
| CivilDate.FormatDate | supabase/functions/automated-messaging-cron/index.ts:22 | the date text is ten characters with dashes at positions 4 and 7 |
| CivilDate.ParseDate | supabase/functions/automated-messaging-cron/index.ts:42 | a parsed date is a valid calendar date |
| CivilDate.ParseFormat | supabase/functions/automated-messaging-cron/index.ts:42-43 | parsing a formatted date gives the date back |
| CivilDate.FormatParse | supabase/functions/automated-messaging-cron/index.ts:42-43 | a string that parses is exactly the formatting of its date |
| CivilDate.MonthDayOrder | supabase/functions/automated-messaging-cron/index.ts:106 | the `MM-DD` tail sorts as text exactly as (month, day) sorts |
| CivilDate.FormatOrder | supabase/functions/automated-messaging-cron/index.ts:106 | full-dates compare as text exactly as they compare in time (section 5.1 of RFC 3339) |
| CivilDate.FormatInjective | supabase/functions/automated-messaging-cron/index.ts:172 | two dates with the same text are the same date |
| CivilDate.NextDay | supabase/functions/automated-messaging-cron/index.ts:165 | the next day is strictly later and at most one year on |
| CivilDate.AddDays | supabase/functions/automated-messaging-cron/index.ts:164-166 | adding days gives a valid, strictly later date |
| CivilDate.AddDaysMonotone | supabase/functions/automated-messaging-cron/index.ts:164-172 | adding more days gives a strictly later date |
| Text.OnlyDigits | supabase/functions/automated-messaging-cron/index.ts:270 | stripping non-digits leaves only digits and never lengthens the text |
| Text.OnlyDigitsKeepsDigits | supabase/functions/automated-messaging-cron/index.ts:270-272 | text that is already all digits is kept as it is |
| Text.RemoveSpaces | src/lib/messaging.ts:170 | the result holds no whitespace, and text without whitespace is unchanged |
| Text.RemoveSpacesConcat | src/lib/messaging.ts:170 | removing whitespace distributes over concatenation |
| Text.ReplaceAllNoMatch | supabase/functions/automated-messaging-cron/index.ts:58-60 | a global replace of a pattern that does not occur changes nothing |
| Text.ReplaceAllAfterClean | supabase/functions/automated-messaging-cron/index.ts:58 | the first occurrence after pattern-free text is replaced, and the scan continues after it |
| Text.ReplaceAllAtPattern | supabase/functions/automated-messaging-cron/index.ts:58 | an occurrence at the front is replaced and scanning resumes after it |
| Text.ReplaceAllKeepsFirst | supabase/functions/automated-messaging-cron/index.ts:58 | before an occurrence, a character of pattern-free text is kept |
| Text.ReplaceAllStep | supabase/functions/automated-messaging-cron/index.ts:58 | one scan step replaces a match at the front and otherwise keeps the first character |
| Text.NoMatchBeforePattern | supabase/functions/automated-messaging-cron/index.ts:58 | pattern-free text followed by the pattern does not start with the pattern when the pattern's first character is unique |
| Text.ReplaceAllJoin | supabase/functions/automated-messaging-cron/index.ts:58-60 | replace-all turns the pieces joined by the pattern into the same pieces joined by the replacement: every occurrence is replaced |
| Text.LexLeConcat | src/components/MessageCenter.tsx:86 | text order on equal-length prefixes is decided by the prefix, and by the rest when the prefixes are equal |
| Text.DigitsValue | supabase/functions/automated-messaging-cron/index.ts:22 | a digit string of width w has a value below 10^w |
| Text.PadDigits | supabase/functions/automated-messaging-cron/index.ts:22 | zero-padding gives exactly `width` digits |
| Text.PadDigitsValue | supabase/functions/automated-messaging-cron/index.ts:22 | the padded digits read back as the number |
| Text.DigitsValuePad | supabase/functions/automated-messaging-cron/index.ts:22 | padding a digit string's value to its own width gives the string back |
| Text.PadDigitsOrder | supabase/functions/automated-messaging-cron/index.ts:106 | zero-padded numbers of one width sort as text exactly as they sort as numbers |
| Text.DecimalString | src/hooks/useDashboardStats.ts:152-154 | a number's decimal text is non-empty and all digits |
| Text.DecimalStringValue | src/hooks/useDashboardStats.ts:152-154 | the decimal text reads back as the number and has no leading zero |
| BulkWhatsApp.FormatRecipientShape | supabase/functions/send-bulk-whatsapp/index.ts:44-46 | the recipient is all digits, starts with 91 and ends with all the digits of the input, adding at most the two digits of the code |
| BulkWhatsApp.FormatRecipientIdempotent | supabase/functions/send-bulk-whatsapp/index.ts:44-46 | normalising a normalised recipient changes nothing, for every input |
| BulkWhatsApp.FormatRecipientSplitsNumber | supabase/functions/send-bulk-whatsapp/index.ts:44-46 | a ten-digit number beginning with 91 is sent without the country code, while the same number written with `+91` gets it |
| BulkWhatsApp.IntendedRecipientAgrees | supabase/functions/send-bulk-whatsapp/index.ts:44-46 | the intended rule (the corrected half of the finding below) differs from the written one on ten-digit numbers only |
| BulkWhatsApp.IntendedRecipientShape | supabase/functions/send-bulk-whatsapp/index.ts:44-46 | under the intended rule too, the recipient is all digits, starts with 91 and ends with all the digits of the input |
| BulkWhatsApp.IntendedRecipientSameNumber | supabase/functions/send-bulk-whatsapp/index.ts:44-46 | under the intended rule, "+91 " plus any ten-digit number and the bare number reach the same recipient, 91 plus the number |
| BulkWhatsApp.OnlyDigitsConcat | supabase/functions/send-bulk-whatsapp/index.ts:44 | stripping non-digits distributes over concatenation |
| BulkWhatsApp.RequestFor | supabase/functions/send-bulk-whatsapp/index.ts:49-56 | the Graph API request goes to the normalised recipient with the message as its text body |
| BulkWhatsApp.EntryFor | supabase/functions/send-bulk-whatsapp/index.ts:70-105 | delivered exactly when the provider accepted; a rejection carries the normalised number and a non-empty error; an exception carries the raw number and its message |
| BulkWhatsApp.SendBulkWhatsApp | supabase/functions/send-bulk-whatsapp/index.ts:27-139 | missing credentials fail the request with no entries; otherwise success and error counts add up to the number of messages, and total pause time is at most 100 ms per message but the last |
| BulkMessages.RequestFor | supabase/functions/send-bulk-messages/index.ts:45-80 | the body is the message; WhatsApp goes to `whatsapp:` plus the '+91'-formatted number from the configured WhatsApp sender or the sandbox sender, SMS to that number from the configured number or the placeholder |
| BulkMessages.EntryFor | supabase/functions/send-bulk-messages/index.ts:84-119 | delivered exactly when the provider accepted; a rejection carries the formatted number and a non-empty error; an exception carries the raw number and its message |
| Dispatch.Outcomes | supabase/functions/send-bulk-messages/index.ts:40-120 | one entry per message, in input order, each what that message and its reply become |
| Dispatch.SendEach | supabase/functions/send-bulk-messages/index.ts:40-120 | the sending loop of both bulk functions (also send-bulk-whatsapp/index.ts:39-106): `results` and `errors` are the delivered and undelivered entries in input order, one request per message in order, and pauses only after messages that did not throw and are not last |
| BulkMessages.SendBulkMessages | supabase/functions/send-bulk-messages/index.ts:23-152 | missing Twilio credentials fail the request with no entries; otherwise `successCount + errorCount == totalMessages == messages.length`, and pause time is bounded by one pause per message but the last |
| Dispatch.PauseBounds | supabase/functions/send-bulk-messages/index.ts:105-108 | never more pauses than messages minus one; exactly one per message but the last when nothing throws |
| Messaging.PartitionCount | supabase/functions/send-bulk-messages/index.ts:122-127 | every input lands in exactly one of `results` and `errors` |
| Messaging.SentInInputOrder | supabase/functions/send-bulk-messages/index.ts:84-92 | `results` lists exactly the delivered inputs, at increasing input positions |
| Messaging.ErrorsInInputOrder | supabase/functions/send-bulk-messages/index.ts:93-119 | `errors` lists exactly the undelivered inputs, at increasing input positions |
| Messaging.SendMessage | src/lib/messaging.ts:38-73 | the result keeps the caller's method; a failed invocation gives `success=false` with the caller's own number |
| Messaging.BulkFallback | src/lib/messaging.ts:97-113 | a failed bulk invocation reports no successes and one error per input, in order, copying each input's customer, name, number and method, all with the same error |
| Messaging.SendBulkMessages | src/lib/messaging.ts:78-114 | the edge function's answer when it was reached, the uniform fallback otherwise |
| Messaging.UpdateScheduledMessageStatus | src/lib/messaging.ts:119-146 | the update always has `status` and `sent_at` (given, else now), has `error_message` exactly when a non-empty one was given, and nothing else |
| Messaging.FormatPhoneNumberShape | src/lib/messaging.ts:151-162 | a number starting with '+' is returned as is; any other becomes the country code followed by its digits |
| Messaging.FormatPhoneNumberIdempotent | src/lib/messaging.ts:151-162 | with a '+'-prefixed country code, formatting twice is formatting once |
| Messaging.CodeThenNumberShape | src/lib/messaging.ts:169 | a '+', a one-to-three-digit code and ten digits, with or without a dash, has one of the two international shapes |
| Messaging.ShapeCodeThenNumber | src/lib/messaging.ts:169 | each international shape is accepted by the pattern |
| Messaging.PhonePatternShape | src/lib/messaging.ts:167-171 | a number is valid exactly when, without whitespace, it is ten digits, '+' and 11 to 13 digits, or '+', 1 to 3 digits, '-' and ten digits |
| Messaging.ValidityIgnoresSpace | src/lib/messaging.ts:170 | inserting whitespace anywhere never changes the verdict |
| MessageCenter.RecipientsSpec | src/components/MessageCenter.tsx:67-94 | 'birthday_today' keeps exactly today's birthdays, 'filter_due' exactly the customers with a non-empty due `next_service`, any other option everyone; order is kept |
| MessageCenter.FilterDueAgreesWithJob | src/components/MessageCenter.tsx:83-87 | the screen's filter-due test agrees with the daily job's except on an empty `next_service`, which only the job selects |
| MessageCenter.FindTemplate | src/components/MessageCenter.tsx:99 | a found template is in the list with the id; none found means no template has the id |
| MessageCenter.SelectTemplate | src/components/MessageCenter.tsx:97-104 | choosing an existing template sets the message type to its type and changes nothing else; otherwise the form is kept |
| MessageCenter.ComposeMessages | src/components/MessageCenter.tsx:180-194 | one message per selected customer, in order, to the customer's phone, with the daily job's personalisation |
| MessageCenter.MessageTextForSpec | src/components/MessageCenter.tsx:210 | with distinct customer ids, looking up an entry's id finds its own message's text |
| MessageCenter.ComposeIdsDistinct | src/components/MessageCenter.tsx:180-194 | distinct customers give messages with distinct customer ids |
| MessageCenter.SentRows | src/components/MessageCenter.tsx:202-216 | one row per delivered entry, in order |
| MessageCenter.FailedRows | src/components/MessageCenter.tsx:219-233 | one row per failed entry, in order |
| MessageCenter.SendNowRowsSpec | src/components/MessageCenter.tsx:202-233 | rows inserted = results + errors: `Sent` rows first, then `Failed` rows, each for its entry's customer and number, all with `sent_at` |
| MessageCenter.SendNowFallbackRows | src/components/MessageCenter.tsx:197-233 | when the bulk call fails, every message is recorded `Failed`, in order, with its own customer, number and text |
| MessageCenter.ScheduleRows | src/components/MessageCenter.tsx:238-251 | one `Scheduled` row per message, without `sent_at`, carrying that message's customer, number and personalised text |
| MessageCenter.InsertRows | src/components/MessageCenter.tsx:202-251 | rows are inserted in order; a failing insert ends the loop and is the last one attempted |
| MessageCenter.HandleComposeSubmit | src/components/MessageCenter.tsx:159-268 | no selection or no template: an alert and no send and no insert; declined: nothing; confirmed: the send-now or schedule-later rows, the form reset on success and the failure alert otherwise |
| MessageCenter.FindCustomer | src/components/MessageCenter.tsx:125 | a found customer is in the list with the id; none found means no customer has the id |
| MessageCenter.ScheduledSubmitSpec | src/components/MessageCenter.tsx:122-141 | name and phone come from the found customer and content and type from the found template when non-empty, else the form's own; an edit updates, otherwise an insert |
| MessageCenter.FilteredTemplatesSpec | src/components/MessageCenter.tsx:303-305 | 'all' keeps every template; any other type keeps exactly the templates of that type, in order |
| FilterManagement.DaysOverdueSpec | src/hooks/useFilterManagement.ts:93 | the count is the whole days elapsed since the due time, never negative, and zero exactly when less than a day has elapsed |
| FilterManagement.DaysOverdueMonotone | src/hooks/useFilterManagement.ts:93 | later never means less overdue |
| FilterManagement.PriorityThresholds | src/hooks/useFilterManagement.ts:95-97 | High exactly above ten days, Medium from four to ten, Low up to three |
| FilterManagement.PriorityMonotone | src/hooks/useFilterManagement.ts:95-97 | more overdue never lowers the priority |
| FilterManagement.HistoryEntryFor | src/hooks/useFilterManagement.ts:72-79 | missing name, technician and status default to 'Unknown', 'Unassigned' and 'Completed'; the rest is copied |
| FilterManagement.HistoryEntries | src/hooks/useFilterManagement.ts:72-79 | one history entry per row, in order |
| FilterManagement.PendingFor | src/hooks/useFilterManagement.ts:90-107 | the entry's name defaults to 'Unknown' and its filter type to 'N/A'; its overdue count and priority follow the rules above |
| FilterManagement.PendingFilters | src/hooks/useFilterManagement.ts:90-107 | one pending entry per due customer, in order |
| FilterManagement.CountOverdueSplit | src/hooks/useFilterManagement.ts:111-113 | entries due today and overdue entries together are all the pending entries |
| FilterManagement.FilterStatsIdentity | src/hooks/useFilterManagement.ts:110-115 | 'Due Today' + 'Due This Week' = 'Due This Month' = pending count; 'Completed This Month' = history length |
| FilterManagement.DueHaveNextService | src/hooks/useFilterManagement.ts:82-86 | every due customer has a next service date |
| FilterManagement.FetchFilterData | src/hooks/useFilterManagement.ts:51-125 | a failed query sets the error and publishes nothing else; otherwise the history, the pending entries and the stats are published together |
| DashboardStats.RelativeTimeBuckets | src/hooks/useDashboardStats.ts:146-155 | under a minute, future times included, is 'Just now'; otherwise the elapsed time truncated to minutes, hours (1 to 23) or days |
| DashboardStats.NestedDivision | src/hooks/useDashboardStats.ts:149-154 | whole minutes then whole hours (or days) are the whole hours (or days) elapsed |
| DashboardStats.BirthdaysAgreeWithJob | src/hooks/useDashboardStats.ts:57-61 | the dashboard counts exactly the customers the daily job greets |
| DashboardStats.BirthdaysToday | src/hooks/useDashboardStats.ts:57-61 | the birthday count is the daily job's selection size, and zero without rows |
| DashboardStats.Activities | src/hooks/useDashboardStats.ts:98-102 | one activity per message, in order, with the lower-cased type and "<type> message sent to <name>" |
| DashboardStats.UpcomingTasks | src/hooks/useDashboardStats.ts:105-126 | always four tasks; the review follow-up is high exactly when more than ten reviews are pending, low otherwise, also when unknown |
| DashboardStats.CountOrZero | src/hooks/useDashboardStats.ts:128-134 | a missing count reads as zero |
| DashboardStats.FetchDashboardStats | src/hooks/useDashboardStats.ts:37-137 | every missing count is zero, the birthday count matches the daily job, the activities are exactly the first five (or fewer) recent messages in order, each fully described, and the fixed tasks |
| UseNotificationSettings.SettingsKeys | src/hooks/useNotificationSettings.ts:20-23 | the map's keys are exactly the setting types that occur in the rows |
| UseNotificationSettings.SettingsLast | src/hooks/useNotificationSettings.ts:20-23 | each type maps to the last row of that type |
| UseNotificationSettings.NotificationSettingsHook.constructor | src/hooks/useNotificationSettings.ts:5-9 | an empty map, loading, no error |
| UseNotificationSettings.NotificationSettingsHook.FetchSettings | src/hooks/useNotificationSettings.ts:11-31 | on success the map is folded from the rows (none read as no rows); on failure the map is kept and the error set |
| UseNotificationSettings.NotificationSettingsHook.UpdateSetting | src/hooks/useNotificationSettings.ts:33-65 | the upsert payload carries the arguments with conflict on `setting_type`; success replaces that key; failure keeps the map, sets the error and hands the failure back |
| UseNotificationSettings.UpsertKeepsOthers | src/hooks/useNotificationSettings.ts:55-58 | an upsert changes only its own key |
| UseNotificationSettings.FetchAfterUpsert | src/hooks/useNotificationSettings.ts:20-23 | fetching after an upsert stored as the last row equals the earlier map with that key replaced |
| UseNotificationSettings.PrefixFold | src/hooks/useNotificationSettings.ts:20-23 | the map over a prefix of the rows does not depend on the rows after it |
| NotificationSettingsPage.FlattenSpec | src/components/NotificationSettings.tsx:21-27 | `enabled` is always present and is the configuration's own when it has one; every other key is the configuration's |
| NotificationSettingsPage.Initialise | src/components/NotificationSettings.tsx:19-30 | with no settings loaded the local copy is kept; otherwise it is each category flattened |
| NotificationSettingsPage.UpdateLocalSettingSpec | src/components/NotificationSettings.tsx:32-40 | only that key of that category changes; other keys and categories are kept |
| NotificationSettingsPage.SaveRoundTrip | src/components/NotificationSettings.tsx:45-47 | initialising then splitting gives back the stored `enabled` and configuration when the configuration has no `enabled` key |
| NotificationSettingsPage.ToggleDaySpec | src/components/NotificationSettings.tsx:284-299 | checking appends the day; unchecking removes every occurrence of the day and keeps every occurrence of each other day, in order |
| NotificationSettingsPage.ToggleDayUndo | src/components/NotificationSettings.tsx:374-389 | checking an absent day and unchecking it again restores the list |
| NotificationSettingsPage.FilterAppendDropped | src/components/NotificationSettings.tsx:386 | removing a day just appended to a list without it gives the list back |
| NotificationSettingsPage.LeadingWrites | src/components/NotificationSettings.tsx:45-52 | the count of writes before the first failure: all before it succeeded, the one at it failed |
| NotificationSettingsPage.ApplyWritesSpec | src/components/NotificationSettings.tsx:45-48 | with distinct categories, each written category holds its returned row and everything else is as before |
| NotificationSettingsPage.SaveSettings | src/components/NotificationSettings.tsx:42-56 | categories are written in order; the first failing write ends the save with the failure alert, the writes before it stay in effect |
| CustomerManagement.SearchSpec | src/components/CustomerManagement.tsx:41-47 | the search keeps exactly the matching customers, in order, and an empty term keeps everyone |
| CustomerManagement.NameMatchIgnoresCase | src/components/CustomerManagement.tsx:43 | a customer whose name matches still matches after any change of case in the name and in the term |
| CustomerManagement.LowerIdempotent | src/components/CustomerManagement.tsx:43 | lower-casing twice is lower-casing once |
| CustomerManagement.ResetForm | src/components/CustomerManagement.tsx:94-109 | all fields empty, status 'Active', no customer being edited, form hidden |
| CustomerManagement.HandleEdit | src/components/CustomerManagement.tsx:67-82 | the form copies name, phone and status and shows each absent optional field as empty text |
| CustomerManagement.SubmitRequest | src/components/CustomerManagement.tsx:52-60 | editing updates that customer with the form; otherwise an insert with today's join date and status 'Active' when the form's is empty |
| CustomerManagement.HandleSubmit | src/components/CustomerManagement.tsx:49-65 | the form is reset after a successful store call and kept after a failed one |
| CustomerManagement.EditThenSubmit | src/components/CustomerManagement.tsx:52-80 | editing then saving unchanged sends the customer's own fields back for its id |
| UseCustomers.CustomersHook.constructor | src/hooks/useCustomers.ts:5-7 | an empty list, loading, no error |
| UseCustomers.CustomersHook.FetchCustomers | src/hooks/useCustomers.ts:9-24 | success sets the list to the rows or []; failure keeps the list and sets the error |
| UseCustomers.CustomersHook.AddCustomer | src/hooks/useCustomers.ts:26-43 | success prepends the stored row and keeps the rest; failure keeps the list, sets the error and hands it back |
| UseCustomers.CustomersHook.UpdateCustomer | src/hooks/useCustomers.ts:45-65 | the payload adds `updated_at`; success replaces every row with the id and keeps length and the other rows; failure keeps the list and sets the error |
| UseCustomers.CustomersHook.DeleteCustomer | src/hooks/useCustomers.ts:67-79 | success removes every row with the id, the others keeping their order; failure keeps the list and sets the error |
| UseMessageTemplates.MessageTemplatesHook.constructor | src/hooks/useMessageTemplates.ts:5-7 | an empty list, loading, no error |
| UseMessageTemplates.MessageTemplatesHook.FetchTemplates | src/hooks/useMessageTemplates.ts:9-24 | success sets the list to the rows or []; failure keeps the list and sets the error |
| UseMessageTemplates.MessageTemplatesHook.AddTemplate | src/hooks/useMessageTemplates.ts:26-41 | success prepends the stored template; failure keeps the list, sets the error and hands it back |
| UseMessageTemplates.MessageTemplatesHook.UpdateTemplate | src/hooks/useMessageTemplates.ts:43-61 | the payload adds `updated_at`; success replaces exactly the templates with the id; failure keeps the list |
| UseMessageTemplates.MessageTemplatesHook.DeleteTemplate | src/hooks/useMessageTemplates.ts:63-76 | success removes every template with the id, the others keeping their order; failure keeps the list |
| UseScheduledMessages.ScheduledMessagesHook.constructor | src/hooks/useScheduledMessages.ts:5-7 | an empty list, loading, no error |
| UseScheduledMessages.ScheduledMessagesHook.FetchScheduledMessages | src/hooks/useScheduledMessages.ts:9-24 | success sets the list to the rows or []; failure keeps the list and sets the error |
| UseScheduledMessages.ScheduledMessagesHook.AddScheduledMessage | src/hooks/useScheduledMessages.ts:26-41 | success prepends the stored row; failure keeps the list, sets the error and hands it back |
| UseScheduledMessages.ScheduledMessagesHook.UpdateScheduledMessage | src/hooks/useScheduledMessages.ts:43-61 | the payload is the updates as given, with no timestamp; success replaces exactly the rows with the id; failure keeps the list |
| UseScheduledMessages.ScheduledMessagesHook.DeleteScheduledMessage | src/hooks/useScheduledMessages.ts:63-76 | success removes every row with the id, the others keeping their order; failure keeps the list |
| UseServiceReviews.ServiceReviewsHook.constructor | src/hooks/useServiceReviews.ts:5-7 | an empty list, loading, no error |
| UseServiceReviews.ServiceReviewsHook.FetchReviews | src/hooks/useServiceReviews.ts:9-24 | success sets the list to the rows or []; failure keeps the list and sets the error |
| UseServiceReviews.ServiceReviewsHook.AddReview | src/hooks/useServiceReviews.ts:26-41 | success prepends the stored review; failure keeps the list, sets the error and hands it back |
| UseServiceReviews.ServiceReviewsHook.UpdateReview | src/hooks/useServiceReviews.ts:43-61 | the payload is the updates as given; success replaces exactly the reviews with the id; failure keeps the list |
| UseServiceReviews.ServiceReviewsHook.DeleteReview | src/hooks/useServiceReviews.ts:63-76 | success removes every review with the id, the others keeping their order; failure keeps the list |
| ListOps.Filter | src/hooks/useCustomers.ts:72 | the survivors are exactly the elements the test keeps, and never more than the input |
| ListOps.FilterIsSubsequence | src/hooks/useCustomers.ts:72 | filtering keeps the survivors in their original order |
| ListOps.FilterMultiplicity | src/components/NotificationSettings.tsx:294 | filtering keeps every occurrence of a kept value and none of a dropped one |
| ListOps.FilterAll | src/components/CustomerManagement.tsx:41-47 | a filter that keeps everything returns the list unchanged |
| ListOps.ReplaceWhere | src/hooks/useCustomers.ts:55-57 | same length; each element with the id is replaced and every other is kept |
| Records.Describe | src/hooks/useCustomers.ts:20 | an `Error` gives its message; anything else gives the fallback text |

## Left out

- The daily job's clock is an input. The UTC-to-IST shift, `toISOString` and
  `getMonth`/`getDate` on parsed strings are not modelled: "today" is a
  calendar date given to the job. The dashboard's and filter screen's "now"
  is integer milliseconds, and `instant` stands for `Date` parsing.
- Cron.Today: the date the job runs on has a year of at most 9990, so a
  week ahead still has a four-digit `YYYY-MM-DD` form.
- JavaScript `Date` parsing is lenient. The model parses only
  `YYYY-MM-DD`. Other strings are not dates for the birthday rule, and their
  text order is taken as it is for the filter rule.
- The '$' patterns of `String.replace` are not modelled: replacement values
  are taken literally. `toLowerCase` and `\s` cover ASCII only.
- Cron.RunRule: `fault` is an exception thrown inside a rule block before
  its first row is written. The one the code can meet is `.replace` on a
  template whose `content` is null, which throws for the first customer. The
  model lets a fault occur whatever the selection. A failed query does not
  throw: the code reads only `data`, so it reads as no customers or no
  template. The three rule blocks share one customer table, so a query that
  fails for one block alone is not modelled. A failed `scheduled_messages`
  insert is ignored, as the code ignores it.
- Cron.RunCron: the outer failure response (a 500 status) is not modelled.
  Nothing in the model throws there: the environment variables are inputs
  and Supabase client creation is not modelled.
- The daily job never reads `notification_settings`. The settings screen
  edits each category's `enabled` flag and `reminderDays`, but the job runs
  all three rules with its own fixed conditions, and the model follows the
  job.
- Cron.SingleTemplate: `.single()` with zero or several matching templates
  yields no template, which the job treats as "no template".
- The server-side count queries are not modelled: total customers, filter
  changes due, messages this month, pending reviews and active guarantees.
  Their answers are inputs. So are the recent-message query's ordering and
  its limit of five rows.
- MessageCenter.HandleComposeSubmit: every row it inserts goes through the
  scheduled-message hook's `addScheduledMessage`, which puts each stored row
  at the front of the cached list and records an `error` text when an insert
  fails. The model states the rows handed to that hook (`inserted`) and
  where the first failure stops them; it does not chain them through
  UseScheduledMessages.AddScheduledMessage, so the cache after a compose
  submit is not stated.
- NotificationSettingsPage.SaveSettings: `Object.entries` order is the
  `order` input. The `saving` flag is not modelled.
- DashboardStats.FetchDashboardStats: the exception path (a missing
  `message_type` making `toLowerCase` throw) is not modelled; every query
  failure reads as zero or no rows, as the code does.
- FilterManagement.DaysOverdueSpec: an invalid date gives NaN in the
  source. Here `instant` always gives an integer.
- The compose screen and the daily job disagree on one point. The screen's
  filter-due test drops an empty `next_service`, while the job's query keeps
  it. This is stated, not hidden: MessageCenter.FilterDueAgreesWithJob.
- BulkMessages.SendBulkMessages and BulkWhatsApp.SendBulkWhatsApp: the
  delay is counted, not timed. The model does not cover:
  - request parse failures;
  - OPTIONS and CORS handling;
  - the unused `messageType` field.
- `getMessageStatus` in `src/lib/messaging.ts` forwards to an edge function
  that is not part of this model, and does nothing else.
- The single-message edge functions `send-message` and
  `send-whatsapp-message` are not part of this model. Their phone formatting
  is the one the bulk functions use.
- The template and scheduled-message edit handlers of the message centre
  (`handleTemplateSubmit`, `handleEditTemplate`, `handleEditScheduled`, the
  delete confirmations) are not modelled. They only copy form state into
  the hooks.
- Not modelled:
  - rendering, dialogs and console logging;
  - the order in which React applies state updates;
  - two overlapping runs of the daily job, which the code does nothing to
    prevent.

## Findings

| source | as written | input that shows it | evidently intended | confidence | as-written member | corrected member |
|---|---|---|---|---|---|---|
| supabase/functions/send-bulk-whatsapp/index.ts:44-46 | the country code 91 is added only when the digits do not already start with 91 | `9123456789`, a ten-digit number that starts with 91, is sent as `9123456789`; written `+91 9123456789` it is sent as `919123456789` | a ten-digit national number always gets the code, so both writings reach `919123456789` | medium, not executed | BulkWhatsApp.FormatRecipientSplitsNumber | BulkWhatsApp.IntendedRecipientSameNumber |

The daily job's `sendWhatsAppMessage`
(supabase/functions/automated-messaging-cron/index.ts:270-272) uses the same
rule. `BulkWhatsApp.FormatRecipient` is the rule as written, and both
WhatsApp senders of the model use it, as the code does.
`BulkWhatsApp.IntendedRecipient` is the corrected rule. It differs from the
written one on ten-digit numbers only (BulkWhatsApp.IntendedRecipientAgrees),
and it is not idempotent on eight-digit input: `12345678` becomes
`9112345678`, a ten-digit number that gets the code again.
