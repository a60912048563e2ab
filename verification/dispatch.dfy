/** What the two bulk-sending edge functions (`send-bulk-messages` through
    Twilio, `send-bulk-whatsapp` through the Meta WhatsApp Business API) have in
    common: the per-message provider reply, the pause between messages, and the
    JSON envelope they answer with. */
module Dispatch {
  import opened Text
  import opened Messaging

  /** How one provider request ended: an `ok` response carrying the provider's
      message id (if any), a non-`ok` response carrying the provider's error text
      (if any), or an exception (network failure, unreadable body) with its
      message. */
  datatype ProviderReply =
    | Accepted(messageId: Option<string>)
    | Rejected(providerError: Option<string>)
    | Raised(exception: string)

  /** The HTTP answer of a bulk function: status 200 with the outcome, or
      status 500 when the request as a whole failed. */
  datatype BulkResponse =
    | Completed(result: BulkMessageResult, message: string, provider: Option<string>)
    | RequestFailed(error: string, message: string, provider: Option<string>)

  /** "<prefix>: <n> sent, <m> failed". */
  function Summary(prefix: string, sent: nat, failed: nat): string
  {
    prefix + ": " + DecimalString(sent) + " sent, " + DecimalString(failed) + " failed"
  }

  /** The number of pauses taken over the first `n` of `total` messages: one
      after each message except the last, unless its request threw (the pause
      sits inside the `try`). */
  function PausesUpTo(replies: seq<ProviderReply>, n: nat, total: nat): nat
    requires n <= |replies|
  {
    if n == 0 then 0
    else PausesUpTo(replies, n - 1, total) + (if n - 1 < total - 1 && !replies[n - 1].Raised? then 1 else 0)
  }

  /** There is never a pause after the last message, so at most `total - 1`
      pauses; and when no request throws there are exactly that many. */
  lemma {:induction false} PauseBounds(replies: seq<ProviderReply>, n: nat, total: nat)
    requires n <= |replies| <= total
    ensures PausesUpTo(replies, n, total) <= n
    ensures total > 0 ==> PausesUpTo(replies, n, total) <= total - 1
    ensures (n < total && forall j :: 0 <= j < n ==> !replies[j].Raised?) ==> PausesUpTo(replies, n, total) == n
    ensures (n == total > 0 && forall j :: 0 <= j < n ==> !replies[j].Raised?) ==> PausesUpTo(replies, n, total) == total - 1
  {
    if n > 0 {
      PauseBounds(replies, n - 1, total);
    }
  }

  /** What each message turns into, in input order, when `entry` says what
      one message and its reply become. */
  function Outcomes<M>(messages: seq<M>, replies: seq<ProviderReply>, entry: (M, ProviderReply) -> Entry): (es: seq<Entry>)
    requires |replies| == |messages|
    ensures |es| == |messages|
    ensures forall i :: 0 <= i < |messages| ==> es[i] == entry(messages[i], replies[i])
  {
    if messages == [] then []
    else [entry(messages[0], replies[0])] + Outcomes(messages[1..], replies[1..], entry)
  }

  /** The sending loop both bulk functions run: each message in turn gets its
      provider request (`request`), and lands in `results` or `errors`
      (`entry`), in input order; `pauses` counts the rate-limit pauses taken. */
  method SendEach<M, R>(messages: seq<M>, replies: seq<ProviderReply>, request: M -> R, entry: (M, ProviderReply) -> Entry)
    returns (results: seq<SentEntry>, errors: seq<ErrorEntry>, requests: seq<R>, pauses: nat)
    requires |replies| == |messages|
    ensures results == SentEntries(Outcomes(messages, replies, entry))
    ensures errors == ErrorEntries(Outcomes(messages, replies, entry))
    ensures |requests| == |messages| && forall i :: 0 <= i < |messages| ==> requests[i] == request(messages[i])
    ensures pauses == PausesUpTo(replies, |messages|, |messages|)
  {
    ghost var es := Outcomes(messages, replies, entry);
    results, errors, requests, pauses := [], [], [], 0;
    var i := 0;
    while i < |messages|
      invariant 0 <= i <= |messages|
      invariant results == SentUpTo(es, i) && errors == ErrorsUpTo(es, i)
      invariant |requests| == i && forall j :: 0 <= j < i ==> requests[j] == request(messages[j])
      invariant pauses == PausesUpTo(replies, i, |messages|)
    {
      requests := requests + [request(messages[i])];
      var e := entry(messages[i], replies[i]);
      match e {
        case Delivered(sent) => results := results + [sent];
        case NotDelivered(failed) => errors := errors + [failed];
      }
      if i < |messages| - 1 && !replies[i].Raised? {
        pauses := pauses + 1;
      }
      i := i + 1;
    }
  }
}
