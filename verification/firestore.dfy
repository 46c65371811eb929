/** The parts of the document database that the app's logic observes: field
    values of a document, the outcome of a query or listener callback, and the
    outcome of one document write. Delivery timing, server clocks and the
    database itself are outside the model; they appear here only as values the
    caller supplies. */
module Firestore {
  import opened Wrappers

  /** A document field value, as far as the app distinguishes them: a string,
      a boolean, a server timestamp, or anything else. */
  datatype Value =
    | StringValue(str: string)
    | BoolValue(flag: bool)
    | TimestampValue(time: int)
    | OtherValue

  /** The `[String: Any]` dictionary of one document. */
  type Data = map<string, Value>

  /** The field names the app writes and reads (`FirebaseConstants`). */
  const FromIdKey := "fromId"
  const ToIdKey := "toId"
  const TextKey := "text"
  const TimestampKey := "timestamp"

  /** `data[key] as? String ?? ""`: the field when it is a string, otherwise
      the empty string. */
  function StringField(data: Data, key: string): string
  {
    if key in data && data[key].StringValue? then data[key].str else ""
  }

  /** What a listener or query callback receives: an error, or a snapshot
      that may itself be absent (the callback's `querySnapshot?`). */
  datatype QueryResult<C> =
    | QueryFailed(description: string)
    | QueryDelivered(snapshot: Option<seq<C>>)

  /** What the completion handler of one `setData` call receives. */
  datatype WriteResult = Written | WriteFailed(description: string)
}
