/** Values shared by every component: optional values and JavaScript exceptions. */
module Common {

  /** A value that may be missing (`null`/`undefined` in the source). */
  datatype Option<+T> = None | Some(value: T)

  /** A thrown JavaScript value: its `message` property ("" when it has none)
      and what `String(err)` makes of it. */
  datatype Exception = Exception(message: string, text: string)

  /** How a call that may throw completed. */
  datatype Completion<+T> = Returned(value: T) | Threw(exception: Exception)

  /** `err?.message || String(err)`: the message when it is non-empty, the
      string form of the thrown value otherwise. */
  function ErrorText(e: Exception): (text: string)
    ensures e.message != "" ==> text == e.message
    ensures e.message == "" ==> text == e.text
    ensures text == "" <==> e.message == "" && e.text == ""
  {
    if e.message != "" then e.message else e.text
  }
}
