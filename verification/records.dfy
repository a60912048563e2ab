/** The rows of the hosted database as the application sees them
    (`src/lib/supabase.ts`), and the shape of what a store call returns. */
module Records {
  import opened Text

  datatype Method = WhatsApp | Sms

  /** Delivery state of a `scheduled_messages` row. */
  datatype DeliveryStatus = Scheduled | Sent | Failed

  /** A loosely typed JSON value, as held in `configuration` objects and in
      partial-update payloads. */
  datatype Value = BoolValue(b: bool) | IntValue(i: int) | StrValue(s: string) | IntListValue(xs: seq<int>) | NullValue

  /** A JavaScript object with string keys, e.g. a `Partial<Customer>`. */
  type Fields = map<string, Value>

  datatype Customer = Customer(
    id: string, name: string, phone: string, email: Option<string>, address: Option<string>,
    joinDate: string, filterType: Option<string>, lastService: Option<string>,
    nextService: Option<string>, guaranteeExpiry: Option<string>, status: string,
    birthDate: Option<string>, createdAt: string, updatedAt: string)

  datatype MessageTemplate = MessageTemplate(
    id: string, kind: string, title: string, content: string, status: string,
    createdAt: string, updatedAt: string)

  datatype ScheduledMessage = ScheduledMessage(
    id: string, customerId: Option<string>, templateId: Option<string>,
    recipientName: string, recipientPhone: string, messageType: string,
    templateContent: Option<string>, messageMethod: Method, scheduledFor: string,
    status: string, sentAt: Option<string>, createdAt: string)

  /** The payload of one `scheduled_messages` insert made by the dispatch
      pipeline (the cron job or the compose screen). */
  datatype NewScheduledMessage = NewScheduledMessage(
    customerId: Option<string>, templateId: string, recipientName: string,
    recipientPhone: string, messageType: string, messageMethod: Method,
    templateContent: string, scheduledFor: string, status: DeliveryStatus,
    sentAt: Option<string>)

  datatype ServiceReview = ServiceReview(
    id: string, customerId: string, customerName: string, rating: int,
    serviceType: string, comment: Option<string>, technician: Option<string>,
    reviewDate: string, createdAt: string)

  datatype NotificationSetting = NotificationSetting(
    id: string, settingType: string, enabled: bool, configuration: Fields,
    createdAt: string, updatedAt: string)

  /** What a thrown value carries: an `Error` instance has a message; anything
      else (the plain error objects the store returns) does not. */
  datatype Thrown = ErrorObject(message: string) | PlainObject

  /** `err instanceof Error ? err.message : fallback`. */
  function Describe(t: Thrown, fallback: string): (r: string)
    ensures t.ErrorObject? ==> r == t.message
    ensures t.PlainObject? ==> r == fallback
  {
    if t.ErrorObject? then t.message else fallback
  }

  /** The answer of one store call: its data, or the error it reports. */
  datatype Reply<+T> = Ok(data: T) | Err(failure: Thrown)
}
