/** The shape of a refused API request: a status and one keyed message. */
module Http {
  import opened Wrappers

  /**
   * A response that is not a success: its status, the key of the message
   * in the body ("error", "message", "detail" or a field name) and the text.
   */
  datatype Refusal = Refusal(status: nat, key: string, text: string)

  type Outcome<T> = Result<T, Refusal>

  const BAD_REQUEST := 400
  const FORBIDDEN := 403
  const NOT_FOUND := 404
  const SERVER_ERROR := 500

  /** The body `get_object_or_404` and `get_object` answer with. */
  const NOT_FOUND_DETAIL := Refusal(NOT_FOUND, "detail", "Not found.")

  /** The field error a required serializer field raises when it is absent. */
  function Required(field: string): (r: Refusal)
    ensures r.status == BAD_REQUEST && r.key == field
  {
    Refusal(BAD_REQUEST, field, "This field is required.")
  }

  /** The field error a `CharField` raises for a blank value. */
  function Blank(field: string): (r: Refusal)
    ensures r.status == BAD_REQUEST && r.key == field
  {
    Refusal(BAD_REQUEST, field, "This field may not be blank.")
  }
}
