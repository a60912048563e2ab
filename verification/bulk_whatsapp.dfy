/** The `send-bulk-whatsapp` edge function: sends each message as a WhatsApp
    text through the Meta WhatsApp Business API, one after the other with a
    100 ms pause, and reports which were delivered and which failed. The HTTP
    calls are replaced by one `ProviderReply` per message; the environment by a
    `MetaConfig`. */
module BulkWhatsApp {
  import opened Text
  import opened Records
  import opened Messaging
  import opened Dispatch

  /** One message of the request (`messageType` is accepted but unused). */
  datatype WhatsAppMessage = WhatsAppMessage(
    to: string, message: string, customerName: string, customerId: Option<string>, messageType: Option<string>)

  datatype MetaConfig = MetaConfig(accessToken: Option<string>, phoneNumberId: Option<string>)

  /** The JSON body of one Graph API `messages` request (`messaging_product`
      is always "whatsapp" and `type` always "text"). */
  datatype MetaRequest = MetaRequest(to: string, textBody: string)

  const PauseMs: nat := 100
  const Provider: string := "Meta Business API"

  predicate Configured(config: MetaConfig)
  {
    Or(config.accessToken, "") != "" && Or(config.phoneNumberId, "") != ""
  }

  /** The digits start with India's calling code 91. */
  predicate HasIndiaCode(digits: string)
  {
    |digits| >= 2 && digits[0] == '9' && digits[1] == '1'
  }

  /** The recipient the Graph API is given: the digits of the number, with
      India's code 91 put in front unless the digits already start with 91. */
  function FormatRecipient(to: string): string
  {
    var digits := OnlyDigits(to);
    if HasIndiaCode(digits) then digits else "91" + digits
  }

  /** The recipient is all digits, starts with 91, and ends with every digit
      of the given number, of which it adds at most the two of the code. */
  lemma FormatRecipientShape(to: string)
    ensures var r := FormatRecipient(to);
      AllDigits(r) && "91" <= r
      && (|r| == |OnlyDigits(to)| || |r| == |OnlyDigits(to)| + 2)
      && r[|r| - |OnlyDigits(to)|..] == OnlyDigits(to)
  {
    var digits := OnlyDigits(to);
    if !HasIndiaCode(digits) {
      assert ("91" + digits)[2..] == digits;
    }
  }

  /** Formatting a formatted recipient changes nothing. */
  lemma FormatRecipientIdempotent(to: string)
    ensures FormatRecipient(FormatRecipient(to)) == FormatRecipient(to)
  {
    var r := FormatRecipient(to);
    FormatRecipientShape(to);
    OnlyDigitsKeepsDigits(r);
  }

  /** A ten-digit national number that itself begins with 91 is sent without
      the country code, while the same number written with `+91` gets it: the
      two writings of one number reach different recipients. */
  lemma FormatRecipientSplitsNumber(to: string)
    requires AllDigits(to) && |to| == 10 && HasIndiaCode(to)
    ensures FormatRecipient(to) == to
    ensures FormatRecipient("+91 " + to) == "91" + to
    ensures FormatRecipient(to) != FormatRecipient("+91 " + to)
  {
    WithCodeDigits(to);
    OnlyDigitsKeepsDigits(to);
  }

  /** The recipient rule as evidently intended: as `FormatRecipient`, except
      that ten digits are always a national number and always get the code. */
  function IntendedRecipient(to: string): string
  {
    var digits := OnlyDigits(to);
    if HasIndiaCode(digits) && |digits| != 10 then digits else "91" + digits
  }

  /** The intended rule differs from the written one on ten-digit numbers
      only. */
  lemma IntendedRecipientAgrees(to: string)
    requires |OnlyDigits(to)| != 10
    ensures IntendedRecipient(to) == FormatRecipient(to)
  {
  }

  /** Under the intended rule, too, the recipient is all digits, starts with
      91 and ends with every digit of the given number. */
  lemma IntendedRecipientShape(to: string)
    ensures var r := IntendedRecipient(to);
      AllDigits(r) && "91" <= r
      && (|r| == |OnlyDigits(to)| || |r| == |OnlyDigits(to)| + 2)
      && r[|r| - |OnlyDigits(to)|..] == OnlyDigits(to)
  {
    var digits := OnlyDigits(to);
    if !(HasIndiaCode(digits) && |digits| != 10) {
      assert ("91" + digits)[2..] == digits;
    }
  }

  /** Under the intended rule every ten-digit number reaches the same
      recipient, 91 followed by the number, whether or not it is written with
      `+91`. */
  lemma IntendedRecipientSameNumber(to: string)
    requires AllDigits(to) && |to| == 10
    ensures IntendedRecipient("+91 " + to) == IntendedRecipient(to) == "91" + to
  {
    WithCodeDigits(to);
    OnlyDigitsKeepsDigits(to);
  }

  /** The digits of `+91 ` followed by a number are 91 and the number's
      digits. */
  lemma WithCodeDigits(to: string)
    ensures OnlyDigits("+91 " + to) == "91" + OnlyDigits(to)
  {
    OnlyDigitsConcat("+91 ", to);
    assert OnlyDigits("+91 ") == "91" by {
      assert "+91 "[1..] == "91 ";
      assert "91 "[1..] == "1 ";
      assert "1 "[1..] == " ";
      assert " "[1..] == "";
    }
  }

  lemma {:induction false} OnlyDigitsConcat(a: string, b: string)
    ensures OnlyDigits(a + b) == OnlyDigits(a) + OnlyDigits(b)
  {
    if a != [] {
      assert (a + b)[0] == a[0];
      assert (a + b)[1..] == a[1..] + b;
      OnlyDigitsConcat(a[1..], b);
    } else {
      assert a + b == b;
    }
  }

  function RequestFor(m: WhatsAppMessage): (r: MetaRequest)
    ensures r.to == FormatRecipient(m.to) && r.textBody == m.message
  {
    MetaRequest(FormatRecipient(m.to), m.message)
  }

  /** What one message turns into; the method is always WhatsApp. An exception
      records the number as the caller gave it; a provider answer records the
      formatted recipient. */
  function EntryFor(m: WhatsAppMessage, reply: ProviderReply): (e: Entry)
    ensures e.Delivered? <==> reply.Accepted?
    ensures e.Delivered? ==>
      (e.sent.to == FormatRecipient(m.to) && e.sent.success && e.sent.sendMethod == WhatsApp
       && e.sent.customerId == m.customerId && e.sent.messageId == reply.messageId)
    ensures e.NotDelivered? ==> !e.failed.success && e.failed.customerId == m.customerId && e.failed.sendMethod == WhatsApp
    ensures reply.Rejected? ==> e.failed.to == FormatRecipient(m.to) && e.failed.error != ""
    ensures reply.Raised? ==> e.failed.to == m.to && e.failed.error == reply.exception
  {
    var formattedTo := FormatRecipient(m.to);
    match reply
    case Accepted(id) =>
      Delivered(SentEntry(m.customerId, m.customerName, formattedTo, WhatsApp, id, "sent", true))
    case Rejected(message) =>
      NotDelivered(ErrorEntry(m.customerId, m.customerName, formattedTo, WhatsApp, Or(message, "Unknown error"), false))
    case Raised(message) =>
      NotDelivered(ErrorEntry(m.customerId, m.customerName, m.to, WhatsApp, message, false))
  }

  /** The edge function. `replies[i]` is how the request for `messages[i]`
      ended. Without credentials nothing is sent and the answer is a failure;
      otherwise every message is attempted, in order, and the answer lists the
      delivered and the failed ones, which together account for every message.
      `pausedMs` is the total rate-limit pause. */
  method SendBulkWhatsApp(messages: seq<WhatsAppMessage>, config: MetaConfig, replies: seq<ProviderReply>)
    returns (response: BulkResponse, requests: seq<MetaRequest>, pausedMs: nat)
    requires |replies| == |messages|
    ensures !Configured(config) ==>
      response == RequestFailed("Meta WhatsApp credentials not configured", "Failed to send bulk WhatsApp messages", Some(Provider)) && requests == [] && pausedMs == 0
    ensures Configured(config) ==>
      var es := Outcomes(messages, replies, EntryFor);
      response == Completed(
        BulkMessageResult(true, |messages|, |SentEntries(es)|, |ErrorEntries(es)|, SentEntries(es), ErrorEntries(es)),
        Summary("Bulk WhatsApp messaging completed", |SentEntries(es)|, |ErrorEntries(es)|), Some(Provider))
      && |requests| == |messages|
      && (forall i :: 0 <= i < |messages| ==> requests[i] == RequestFor(messages[i]))
      && pausedMs == PauseMs * PausesUpTo(replies, |messages|, |messages|)
    ensures response.Completed? ==>
      response.result.successCount + response.result.errorCount == response.result.totalMessages == |messages|
    ensures pausedMs <= PauseMs * (if |messages| == 0 then 0 else |messages| - 1)
  {
    if !Configured(config) {
      return RequestFailed("Meta WhatsApp credentials not configured", "Failed to send bulk WhatsApp messages", Some(Provider)), [], 0;
    }
    var results, errors, pauses;
    results, errors, requests, pauses := SendEach(messages, replies, RequestFor, EntryFor);
    PartitionCount(Outcomes(messages, replies, EntryFor), |messages|);
    PauseBounds(replies, |messages|, |messages|);
    pausedMs := PauseMs * pauses;
    response := Completed(
      BulkMessageResult(true, |messages|, |results|, |errors|, results, errors),
      Summary("Bulk WhatsApp messaging completed", |results|, |errors|), Some(Provider));
  }
}
