/** JSON values and documents as the handlers see them, and what a handler
    sends back. */
module Documents {

  /** A scalar JSON value. An absent field, `undefined` and `null` are all
      Null: the driver stores an undefined value as null, and an equality
      query on null also matches documents that lack the field. */
  datatype Value = Null | Bool(b: bool) | Num(n: int) | Str(s: string)

  /** A flat JSON object: a request body or a stored user. */
  type Doc = map<string, Value>

  /** The value of a field, Null when the field is absent. */
  function Get(d: Doc, field: string): Value
  {
    if field in d then d[field] else Null
  }

  /** `{ $set: { ...fields } }` applied to a document: every field of the
      update is written, every other field is kept. */
  ghost predicate IsSetOf(after: Doc, before: Doc, fields: Doc)
  {
    && after.Keys == before.Keys + fields.Keys
    && (forall k :: k in fields ==> after[k] == fields[k])
    && (forall k :: k in before && k !in fields ==> after[k] == before[k])
  }

  /** The acknowledgement of updateOne. */
  datatype WriteResult = WriteResult(matchedCount: nat, modifiedCount: nat, upsertedCount: nat)

  /** The outcome of a request. NoResponse is a handler that returns, or
      throws, without sending anything. After a throw, what the client sees
      depends on the Express and Node versions, which the server does not
      pin: Express 4 leaves the rejected promise unhandled (on Node 15 and
      later that ends the process), Express 5 answers with status 500. */
  datatype Response<T> = Sent(body: T) | BadAccess | NoResponse
}
