/** What the two browser scripts receive from the API, as input values: the
    scripts' `fetch` calls are not modelled, only what each `await` chain
    yields. */
module Browser {
  import opened ApplicationModel

  /** A parsed JSON body that should hold a list of applications: an array
      of application objects, or any other JSON value without a positive
      `length` (null, an object, a number). */
  datatype JsonList = JsonArray(items: seq<Record>) | JsonOther

  /** `await fetch(...)` then `await response.text()`: an exception (no
      connection, or the body could not be read), or the body text. The
      response status is not consulted. */
  datatype TextFetch = TextThrew | TextBody(text: string)

  /** `total || "0"`: the empty string is falsy and shows as "0". */
  function TotalText(body: string): (shown: string)
    ensures shown != ""
    ensures body == "" ==> shown == "0"
    ensures body != "" ==> shown == body
  {
    if body == "" then "0" else body
  }
}
