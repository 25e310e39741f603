/** The provider's side of the HTTP exchanges: decoded JSON bodies, the
    requests the modelled code sends and the replies it gets. Sessions,
    transport and JSON text are not modelled; a reply arrives already
    decoded. */
module Http {
  import opened Wrappers
  import opened Errors

  /** A JSON value as far as the modelled code looks at it. */
  datatype Value = Str(s: string) | Int(i: int) | Null | Other

  type Json = map<string, Value>

  datatype Method = Get | Post

  /** What is sent: the method, the endpoint, the `Authorization` header
      and the form or query fields, in the order the source lists them. */
  datatype Request = Request(verb: Method, url: string, authorization: string,
                             fields: seq<(string, string)>)

  datatype Reply = Reply(status: int, body: Json)

  /** `Response.raise_for_status()` of `requests`: a 4xx or 5xx status
      raises, every other status passes. */
  function RaiseForStatus(status: int): (o: Outcome<Error>)
    ensures o.Fail? <==> 400 <= status < 600
    ensures o.Fail? ==> o.error == HttpError(status)
  {
    if 400 <= status < 600 then Fail(HttpError(status)) else Pass
  }

  /** `json[key]`: `KeyError` when the key is absent. */
  function Lookup(json: Json, key: string): (r: Result<Value, Error>)
    ensures r.Success? <==> key in json
    ensures r.Success? ==> r.value == json[key]
    ensures r.Failure? ==> r.error == KeyError
  {
    if key in json then Success(json[key]) else Failure(KeyError)
  }
}
