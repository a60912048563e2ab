/** The `send-bulk-messages` edge function: sends each message through Twilio
    (as WhatsApp or SMS), one after the other with a one-second pause, and
    reports which were delivered and which failed. The HTTP calls are replaced
    by one `ProviderReply` per message; the environment by a `TwilioConfig`. */
module BulkMessages {
  import opened Text
  import opened Records
  import opened Messaging
  import opened Dispatch

  datatype TwilioConfig = TwilioConfig(
    accountSid: Option<string>, authToken: Option<string>,
    whatsAppNumber: Option<string>, phoneNumber: Option<string>)

  /** The form fields of one Twilio `Messages.json` request. */
  datatype TwilioRequest = TwilioRequest(from: string, to: string, body: string)

  const PauseMs: nat := 1000
  const SandboxWhatsAppSender: string := "whatsapp:+14155238886"
  const PlaceholderSmsSender: string := "+1234567890"

  /** Both the account SID and the auth token must be non-empty. */
  predicate Configured(config: TwilioConfig)
  {
    Or(config.accountSid, "") != "" && Or(config.authToken, "") != ""
  }

  /** The request for one message: WhatsApp goes to `whatsapp:<number>` from
      the configured WhatsApp sender (else the sandbox sender), SMS goes to the
      number from the configured phone number (else a placeholder). The
      number is `FormatPhoneNumber` with India's code. */
  function RequestFor(config: TwilioConfig, m: OutgoingMessage): (r: TwilioRequest)
    ensures r.body == m.message
    ensures m.sendMethod == WhatsApp ==> r.to == "whatsapp:" + FormatPhoneNumber(m.to, DefaultCountryCode)
    ensures m.sendMethod == Sms ==> r.to == FormatPhoneNumber(m.to, DefaultCountryCode)
    ensures m.sendMethod == WhatsApp ==> r.from == Or(config.whatsAppNumber, SandboxWhatsAppSender)
    ensures m.sendMethod == Sms ==> r.from == Or(config.phoneNumber, PlaceholderSmsSender)
  {
    var formattedTo := FormatPhoneNumber(m.to, DefaultCountryCode);
    match m.sendMethod
    case WhatsApp => TwilioRequest(Or(config.whatsAppNumber, SandboxWhatsAppSender), "whatsapp:" + formattedTo, m.message)
    case Sms => TwilioRequest(Or(config.phoneNumber, PlaceholderSmsSender), formattedTo, m.message)
  }

  /** What one message turns into. An exception records the number as the
      caller gave it; a provider answer records the formatted number. */
  function EntryFor(m: OutgoingMessage, reply: ProviderReply): (e: Entry)
    ensures e.Delivered? <==> reply.Accepted?
    ensures e.Delivered? ==>
      (e.sent.to == FormatPhoneNumber(m.to, DefaultCountryCode) && e.sent.success
       && e.sent.customerId == m.customerId && e.sent.sendMethod == m.sendMethod && e.sent.messageId == reply.messageId)
    ensures e.NotDelivered? ==> !e.failed.success && e.failed.customerId == m.customerId && e.failed.sendMethod == m.sendMethod
    ensures reply.Rejected? ==> e.failed.to == FormatPhoneNumber(m.to, DefaultCountryCode) && e.failed.error != ""
    ensures reply.Raised? ==> e.failed.to == m.to && e.failed.error == reply.exception
  {
    var formattedTo := FormatPhoneNumber(m.to, DefaultCountryCode);
    match reply
    case Accepted(sid) =>
      Delivered(SentEntry(m.customerId, m.customerName, formattedTo, m.sendMethod, sid, "sent", true))
    case Rejected(message) =>
      NotDelivered(ErrorEntry(m.customerId, m.customerName, formattedTo, m.sendMethod, Or(message, "Unknown error"), false))
    case Raised(message) =>
      NotDelivered(ErrorEntry(m.customerId, m.customerName, m.to, m.sendMethod, message, false))
  }

  /** The edge function. `replies[i]` is how the request for `messages[i]`
      ended. Without credentials nothing is sent and the answer is a failure;
      otherwise every message is attempted, in order, and the answer lists the
      delivered and the failed ones, which together account for every message.
      `pausedMs` is the total rate-limit pause. */
  method SendBulkMessages(messages: seq<OutgoingMessage>, config: TwilioConfig, replies: seq<ProviderReply>)
    returns (response: BulkResponse, requests: seq<TwilioRequest>, pausedMs: nat)
    requires |replies| == |messages|
    ensures !Configured(config) ==>
      response == RequestFailed("Twilio credentials not configured", "Failed to send bulk messages", None) && requests == [] && pausedMs == 0
    ensures Configured(config) ==>
      var es := Outcomes(messages, replies, EntryFor);
      response == Completed(
        BulkMessageResult(true, |messages|, |SentEntries(es)|, |ErrorEntries(es)|, SentEntries(es), ErrorEntries(es)),
        Summary("Bulk messaging completed", |SentEntries(es)|, |ErrorEntries(es)|), None)
      && |requests| == |messages|
      && (forall i :: 0 <= i < |messages| ==> requests[i] == RequestFor(config, messages[i]))
      && pausedMs == PauseMs * PausesUpTo(replies, |messages|, |messages|)
    ensures response.Completed? ==>
      response.result.successCount + response.result.errorCount == response.result.totalMessages == |messages|
    ensures pausedMs <= PauseMs * (if |messages| == 0 then 0 else |messages| - 1)
  {
    if !Configured(config) {
      return RequestFailed("Twilio credentials not configured", "Failed to send bulk messages", None), [], 0;
    }
    var results, errors, pauses;
    results, errors, requests, pauses := SendEach(messages, replies, (m: OutgoingMessage) => RequestFor(config, m), EntryFor);
    PartitionCount(Outcomes(messages, replies, EntryFor), |messages|);
    PauseBounds(replies, |messages|, |messages|);
    pausedMs := PauseMs * pauses;
    response := Completed(
      BulkMessageResult(true, |messages|, |results|, |errors|, results, errors),
      Summary("Bulk messaging completed", |results|, |errors|), None);
  }
}
