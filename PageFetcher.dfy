/** One GET of one page of points, and the classification of what came back
    (the nested `fetch_page` of both handlers). The HTTP exchange itself is
    an input: the model receives what `requests.get` produced. */
module PageFetcher {
  import opened Json

  /** An HTTP response: its status code and its body as `.json()` decodes it
      (`None` when decoding raises). */
  datatype Response = Response(status: int, body: Option<Json>)

  /** What one `requests.get` call produced: a response, or a raised
      exception (timeout, DNS failure, connection reset, ...). */
  datatype Outcome = Raised | Answered(response: Response)

  /** The outcome holds a status-200 response whose decoded body is a dict
      with an "items" key. */
  predicate HasItems(o: Outcome)
  {
    o.Answered? && o.response.status == 200 && o.response.body.Some?
    && o.response.body.value.Obj? && HasKey(o.response.body.value.fields, "items")
  }

  /** `fetch_page`: the page's `items` value for a 200 response whose body
      holds that key; every other case, including a raised exception, is
      caught and yields the empty list. It never raises. */
  function FetchPage(o: Outcome): (items: Json)
    ensures HasItems(o) ==> items == Lookup(o.response.body.value.fields, "items")
    ensures !HasItems(o) ==> items == EmptyList
  {
    match o
    case Raised => EmptyList
    case Answered(response) =>
      if response.status == 200 then
        match response.body
        case None => EmptyList  // `.json()` raised
        case Some(data) =>
          match Contains(data, "items")
          case None => EmptyList  // `"items" in data` raised
          case Some(found) =>
            if found then
              match Subscript(data, "items")
              case None => EmptyList  // `data["items"]` raised on a list or a string
              case Some(items) => items
            else
              EmptyList  // missing "items" key
      else
        EmptyList  // non-200 status
  }
}
