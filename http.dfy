/** What a request handler sends back: a status code and, for the JSON
    endpoints, the dict it serialises with json.dumps. send_error pages have
    no JSON body. */
module Http {
  import opened PyJson

  datatype HttpReply = HttpReply(code: int, body: Option<map<string, Json>>)

  /** send_error(404, "Not Found"). */
  const NotFound := HttpReply(404, None)
}
