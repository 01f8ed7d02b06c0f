/**
 * What the two Supabase notification webhooks share: database lookup outcomes, the
 * HTTP response, the FCM message, and the outcome of one request to FCM.
 */
module Notify {
  import opened Wrappers

  /**
   * A supabase-js query result: an `error`, no `data` without an error, or a row
   * (for `.single()`) or the list of rows.
   */
  datatype Lookup<T> = LookupError(message: string) | NoRow | Row(value: T)

  /** The tables a handler queries, in the order it queries them. */
  datatype Table = Groups | Images | Users | Members

  /**
   * A response body: none, `JSON.stringify({ message })`, or the body Deno.serve
   * answers with when the handler throws.
   */
  datatype Body = NoBody | JsonMessage(message: string) | InternalServerError

  datatype Response = Response(status: int, body: Body)

  /** `new Response(null, { status })`. */
  function Empty(status: int): (r: Response) {
    Response(status, NoBody)
  }

  /** The response Deno.serve gives when the handler throws. */
  const CRASHED: Response := Response(500, InternalServerError)

  /** What came back from one `fetch` to FCM: `res.ok`, not ok, or an exception (fetch or `res.json()`). */
  datatype SendResult = SendOk | SendNotOk | SendThrew

  /** The `message` object of an FCM v1 send request. `body` None is a JSON null. */
  datatype Message = Message(token: string, title: string, body: Option<string>, kind: string, imageId: string, groupId: string)

  /** An `Images` row: `uploaded_by` and the nullable `description`. */
  datatype ImageRow = ImageRow(uploadedBy: string, description: Option<string>)

  /** A handler's observable outcome: the response, the tables queried, and the messages sent to FCM. */
  datatype Outcome = Outcome(response: Response, lookups: seq<Table>, sent: seq<Message>)

  /** A nullable text column interpolated into a template literal: null reads "null". */
  function Display(s: Option<string>): (text: string) {
    s.GetOr("null")
  }

  /** A notification title: a template literal with a fixed middle between two interpolated names. */
  function Template(left: string, middle: string, right: string): (t: string)
    ensures |t| == |left| + |middle| + |right|
    ensures t[..|left|] == left
    ensures t[|left|..|left| + |middle|] == middle
    ensures t[|left| + |middle|..] == right
  {
    left + middle + right
  }

  /** JavaScript truthiness of a nullable string: neither null nor empty. */
  predicate IsTruthy(s: Option<string>) {
    s.Some? && s.value != ""
  }
}
