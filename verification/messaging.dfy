/** `src/lib/messaging.ts`: the browser-side messaging client. It forwards
    single and bulk sends to the edge functions, turns a failed invocation into
    a uniform failure result, formats and validates phone numbers, and builds
    the status update for a scheduled message. The result shapes it declares
    (`MessageResult`, `BulkMessageResult`) are also what the two bulk edge
    functions return, so the partition of dispatch outcomes into `results` and
    `errors` is defined here once. */
module Messaging {
  import opened Text
  import opened Records

  // ------------------------------------------------------------ result shapes

  /** One message handed to bulk dispatch. */
  datatype OutgoingMessage = OutgoingMessage(
    to: string, message: string, sendMethod: Method, customerName: string, customerId: Option<string>)

  /** An entry of `results`. */
  datatype SentEntry = SentEntry(
    customerId: Option<string>, customerName: string, to: string, sendMethod: Method,
    messageId: Option<string>, status: string, success: bool)

  /** An entry of `errors`. */
  datatype ErrorEntry = ErrorEntry(
    customerId: Option<string>, customerName: string, to: string, sendMethod: Method,
    error: string, success: bool)

  datatype BulkMessageResult = BulkMessageResult(
    success: bool, totalMessages: nat, successCount: nat, errorCount: nat,
    results: seq<SentEntry>, errors: seq<ErrorEntry>)

  datatype MessageResult = MessageResult(
    success: bool, messageId: Option<string>, error: Option<string>, to: string, sendMethod: Method)

  /** What one message of a bulk send turned into. */
  datatype Entry = Delivered(sent: SentEntry) | NotDelivered(failed: ErrorEntry)

  /** The `results` list after the first `n` messages: the delivered
      entries, in input order. */
  function SentUpTo(es: seq<Entry>, n: nat): seq<SentEntry>
    requires n <= |es|
  {
    if n == 0 then []
    else SentUpTo(es, n - 1) + (if es[n - 1].Delivered? then [es[n - 1].sent] else [])
  }

  /** The `errors` list after the first `n` messages: the undelivered
      entries, in input order. */
  function ErrorsUpTo(es: seq<Entry>, n: nat): seq<ErrorEntry>
    requires n <= |es|
  {
    if n == 0 then []
    else ErrorsUpTo(es, n - 1) + (if es[n - 1].NotDelivered? then [es[n - 1].failed] else [])
  }

  function SentEntries(es: seq<Entry>): seq<SentEntry> { SentUpTo(es, |es|) }

  function ErrorEntries(es: seq<Entry>): seq<ErrorEntry> { ErrorsUpTo(es, |es|) }

  /** Positions, among the first `n`, of the delivered entries. */
  function SentPositions(es: seq<Entry>, n: nat): seq<nat>
    requires n <= |es|
  {
    if n == 0 then []
    else SentPositions(es, n - 1) + (if es[n - 1].Delivered? then [n - 1] else [])
  }

  /** Positions, among the first `n`, of the undelivered entries. */
  function ErrorPositions(es: seq<Entry>, n: nat): seq<nat>
    requires n <= |es|
  {
    if n == 0 then []
    else ErrorPositions(es, n - 1) + (if es[n - 1].NotDelivered? then [n - 1] else [])
  }

  /** Every input lands in exactly one of the two lists. */
  lemma {:induction false} PartitionCount(es: seq<Entry>, n: nat)
    requires n <= |es|
    ensures |SentUpTo(es, n)| + |ErrorsUpTo(es, n)| == n
  {
    if n > 0 {
      PartitionCount(es, n - 1);
    }
  }

  /** `results` lists the delivered inputs, each at its input position, in
      strictly increasing input order, and no other input. */
  lemma {:induction false} SentInInputOrder(es: seq<Entry>, n: nat)
    requires n <= |es|
    ensures |SentPositions(es, n)| == |SentUpTo(es, n)|
    ensures forall j :: 0 <= j < |SentPositions(es, n)| ==>
      SentPositions(es, n)[j] < n && es[SentPositions(es, n)[j]] == Delivered(SentUpTo(es, n)[j])
    ensures forall j, k :: 0 <= j < k < |SentPositions(es, n)| ==> SentPositions(es, n)[j] < SentPositions(es, n)[k]
    ensures forall i :: 0 <= i < n ==> (i in SentPositions(es, n) <==> es[i].Delivered?)
  {
    if n > 0 {
      SentInInputOrder(es, n - 1);
    }
  }

  /** `errors` lists the undelivered inputs, each at its input position, in
      strictly increasing input order, and no other input. */
  lemma {:induction false} ErrorsInInputOrder(es: seq<Entry>, n: nat)
    requires n <= |es|
    ensures |ErrorPositions(es, n)| == |ErrorsUpTo(es, n)|
    ensures forall j :: 0 <= j < |ErrorPositions(es, n)| ==>
      ErrorPositions(es, n)[j] < n && es[ErrorPositions(es, n)[j]] == NotDelivered(ErrorsUpTo(es, n)[j])
    ensures forall j, k :: 0 <= j < k < |ErrorPositions(es, n)| ==> ErrorPositions(es, n)[j] < ErrorPositions(es, n)[k]
    ensures forall i :: 0 <= i < n ==> (i in ErrorPositions(es, n) <==> es[i].NotDelivered?)
  {
    if n > 0 {
      ErrorsInInputOrder(es, n - 1);
    }
  }

  // ------------------------------------------------------------ invoking the edge functions

  /** What `supabase.functions.invoke` produced: the function's answer, or a
      failure (the reported invocation error is rethrown as an `Error`). */
  datatype Invocation<+T> = Answered(data: T) | InvokeFailed(failure: Thrown)

  /** The JSON answer of the single-send edge function. */
  datatype SendAnswer = SendAnswer(success: bool, messageId: Option<string>, to: string, error: Option<string>)

  /** `sendMessage`: the answer's fields with the caller's method; a failed
      invocation becomes `success=false` with the caller's own `to` and `method`. */
  function SendMessage(to: string, sendMethod: Method, invocation: Invocation<SendAnswer>): (r: MessageResult)
    ensures r.sendMethod == sendMethod
    ensures invocation.InvokeFailed? ==>
      !r.success && r.to == to && r.error == Some(Describe(invocation.failure, "Unknown error"))
    ensures invocation.Answered? ==>
      r.success == invocation.data.success && r.to == invocation.data.to && r.error == invocation.data.error
  {
    match invocation
    case Answered(data) => MessageResult(data.success, data.messageId, data.error, data.to, sendMethod)
    case InvokeFailed(failure) => MessageResult(false, None, Some(Describe(failure, "Unknown error")), to, sendMethod)
  }

  /** The failure result `sendBulkMessages` reports when the bulk edge function
      cannot be invoked: every message becomes an error entry carrying its own
      identity and the same error text. */
  function BulkFallback(messages: seq<OutgoingMessage>, error: string): (r: BulkMessageResult)
    ensures !r.success && r.results == []
    ensures r.successCount == 0 && r.errorCount == |messages| && r.totalMessages == |messages|
    ensures |r.errors| == |messages|
    ensures forall i :: 0 <= i < |messages| ==>
      r.errors[i] == ErrorEntry(messages[i].customerId, messages[i].customerName, messages[i].to,
                                messages[i].sendMethod, error, false)
  {
    BulkMessageResult(false, |messages|, 0, |messages|, [],
      seq(|messages|, i requires 0 <= i < |messages| =>
        ErrorEntry(messages[i].customerId, messages[i].customerName, messages[i].to, messages[i].sendMethod, error, false)))
  }

  /** `sendBulkMessages`: the edge function's answer, or the uniform failure. */
  function SendBulkMessages(messages: seq<OutgoingMessage>, invocation: Invocation<BulkMessageResult>): (r: BulkMessageResult)
    ensures invocation.Answered? ==> r == invocation.data
    ensures invocation.InvokeFailed? ==> r == BulkFallback(messages, Describe(invocation.failure, "Unknown error"))
  {
    match invocation
    case Answered(data) => data
    case InvokeFailed(failure) => BulkFallback(messages, Describe(failure, "Unknown error"))
  }

  // ------------------------------------------------------------ status update

  function StatusText(s: DeliveryStatus): string
  {
    match s
    case Scheduled => "Scheduled"
    case Sent => "Sent"
    case Failed => "Failed"
  }

  /** `updateScheduledMessageStatus`: the update object sent for the row. It
      always carries `status` and `sent_at` (the given time, else `now`), and
      carries `error_message` only when a non-empty one was supplied. A failed
      store call is only logged, so the operation returns no failure. */
  method UpdateScheduledMessageStatus(status: DeliveryStatus, sentAt: Option<string>, errorMessage: Option<string>, now: string)
    returns (updateData: Fields)
    requires status != Scheduled
    ensures "status" in updateData && updateData["status"] == StrValue(StatusText(status))
    ensures "sent_at" in updateData && updateData["sent_at"] == StrValue(if sentAt.Some? && sentAt.value != "" then sentAt.value else now)
    ensures ("error_message" in updateData) <==> (errorMessage.Some? && errorMessage.value != "")
    ensures "error_message" in updateData ==> updateData["error_message"] == StrValue(errorMessage.value)
    ensures updateData.Keys <= {"status", "sent_at", "error_message"}
  {
    updateData := map["status" := StrValue(StatusText(status)), "sent_at" := StrValue(Or(sentAt, now))];
    if errorMessage.Some? && errorMessage.value != "" {
      updateData := updateData["error_message" := StrValue(errorMessage.value)];
    }
  }

  // ------------------------------------------------------------ phone numbers

  /** `formatPhoneNumber`: a number already starting with '+' is kept as it
      is; otherwise the country code is put in front of its digits. */
  function FormatPhoneNumber(phone: string, countryCode: string): string
  {
    if "+" <= phone then phone else countryCode + OnlyDigits(phone)
  }

  /** A number with '+' is unchanged; any other becomes the country code
      followed by nothing but digits, never longer than the two together. */
  lemma FormatPhoneNumberShape(phone: string, countryCode: string)
    ensures "+" <= phone ==> FormatPhoneNumber(phone, countryCode) == phone
    ensures !("+" <= phone) ==>
      var r := FormatPhoneNumber(phone, countryCode);
      countryCode <= r && r[|countryCode|..] == OnlyDigits(phone)
      && AllDigits(r[|countryCode|..]) && |r| <= |countryCode| + |phone|
  {
    if !("+" <= phone) {
      assert (countryCode + OnlyDigits(phone))[|countryCode|..] == OnlyDigits(phone);
    }
  }

  const DefaultCountryCode: string := "+91"

  /** With a '+'-prefixed country code, formatting an already formatted number
      changes nothing. */
  lemma FormatPhoneNumberIdempotent(phone: string, countryCode: string)
    requires "+" <= countryCode
    ensures FormatPhoneNumber(FormatPhoneNumber(phone, countryCode), countryCode) == FormatPhoneNumber(phone, countryCode)
  {
    var r := FormatPhoneNumber(phone, countryCode);
    assert r[0] == '+';
    assert "+" <= r;
  }

  predicate TenDigits(s: string) { |s| == 10 && AllDigits(s) }

  /** After the '+': `\d{k}`, an optional `[- ]`, then `\d{10}` to the end. */
  predicate CodeThenNumber(s: string, k: nat)
  {
    |s| >= k && AllDigits(s[..k]) &&
    (TenDigits(s[k..]) || (|s| > k && (s[k] == '-' || s[k] == ' ') && TenDigits(s[k + 1..])))
  }

  /** `/^(\+\d{1,3}[- ]?)?\d{10}$/`, alternative by alternative. */
  predicate MatchesPhonePattern(s: string)
  {
    TenDigits(s) ||
    (|s| > 0 && s[0] == '+' && (CodeThenNumber(s[1..], 1) || CodeThenNumber(s[1..], 2) || CodeThenNumber(s[1..], 3)))
  }

  /** `isValidPhoneNumber`: the pattern, tested after removing whitespace. */
  predicate IsValidPhoneNumber(phone: string)
  {
    MatchesPhonePattern(RemoveSpaces(phone))
  }

  /** '+' followed by eleven to thirteen digits. */
  predicate PlusDigits(s: string)
  {
    12 <= |s| <= 14 && s[0] == '+' && AllDigits(s[1..])
  }

  /** '+', one to three digits, '-', then ten digits. */
  predicate PlusDashed(s: string)
  {
    13 <= |s| <= 15 && s[0] == '+' && AllDigits(s[1..|s| - 11]) && s[|s| - 11] == '-' && TenDigits(s[|s| - 10..])
  }

  /** The number shapes the pattern stands for, once whitespace is gone. */
  predicate PhoneShape(s: string)
  {
    TenDigits(s) || PlusDigits(s) || PlusDashed(s)
  }

  lemma CodeThenNumberShape(s: string, k: nat)
    requires |s| > 0 && s[0] == '+' && 1 <= k <= 3
    requires forall i :: 0 <= i < |s| ==> !IsSpace(s[i])
    requires CodeThenNumber(s[1..], k)
    ensures PlusDigits(s) || PlusDashed(s)
  {
    var t := s[1..];
    if TenDigits(t[k..]) {
      forall i | 0 <= i < |t| ensures IsDigit(t[i]) {
        if i < k { assert t[i] == t[..k][i]; } else { assert t[i] == t[k..][i - k]; }
      }
      assert PlusDigits(s);
    } else {
      assert !IsSpace(s[k + 1]);
      assert s[1..|s| - 11] == t[..k];
      assert s[|s| - 10..] == t[k + 1..];
      assert PlusDashed(s);
    }
  }

  lemma ShapeCodeThenNumber(s: string)
    requires PlusDigits(s) || PlusDashed(s)
    ensures MatchesPhonePattern(s)
  {
    var t := s[1..];
    if PlusDigits(s) {
      var k := |t| - 10;
      assert AllDigits(t[..k]) && TenDigits(t[k..]);
      assert CodeThenNumber(t, k);
    } else {
      var k := |s| - 12;
      assert s[1..|s| - 11] == t[..k];
      assert s[|s| - 10..] == t[k + 1..];
      assert CodeThenNumber(t, k);
    }
  }

  /** What the pattern accepts: ten digits; or '+' followed by eleven to
      thirteen digits; or '+', one to three digits, '-' and ten digits. The
      optional space separator of the pattern can never be used, because
      whitespace is removed before matching. */
  lemma PhonePatternShape(phone: string)
    ensures IsValidPhoneNumber(phone) <==> PhoneShape(RemoveSpaces(phone))
  {
    var s := RemoveSpaces(phone);
    if MatchesPhonePattern(s) && !TenDigits(s) {
      if CodeThenNumber(s[1..], 1) { CodeThenNumberShape(s, 1); }
      else if CodeThenNumber(s[1..], 2) { CodeThenNumberShape(s, 2); }
      else { CodeThenNumberShape(s, 3); }
    }
    if PlusDigits(s) || PlusDashed(s) {
      ShapeCodeThenNumber(s);
    }
  }

  /** Inserting a whitespace character anywhere never changes the verdict. */
  lemma {:induction false} ValidityIgnoresSpace(a: string, w: char, b: string)
    requires IsSpace(w)
    ensures IsValidPhoneNumber(a + [w] + b) == IsValidPhoneNumber(a + b)
  {
    RemoveSpacesConcat(a + [w], b);
    RemoveSpacesConcat(a, [w]);
    RemoveSpacesConcat(a, b);
    assert [w][1..] == [];
    assert RemoveSpaces([w]) == RemoveSpaces([]);
    assert RemoveSpaces(a + [w]) == RemoveSpaces(a);
  }
}
