/** What the SDK hands to `requests` and what it gets back. The network
    itself is a function parameter (an oracle) wherever a call is made. */
module Http {
  import opened Wrappers
  import opened Values
  import opened Constants

  /** How the fields travel: a multipart body, a form body (`data=dict`) or
      the query string (`params=dict`). */
  datatype Carrier = Multipart | FormBody | QueryString

  /** One POST to the token endpoint. */
  datatype TokenRequest = TokenRequest(
    url: string,
    carrier: Carrier,
    fields: seq<(string, ConfigValue)>,
    headers: seq<(string, string)>,
    basicAuth: Option<(ConfigValue, ConfigValue)>)

  /** One GET of a resource, with the header map as it stood when sent. */
  datatype ResourceRequest = ResourceRequest(
    url: string,
    params: seq<(string, ConfigValue)>,
    headers: map<string, string>,
    retry: RetryPolicy)

  datatype Response<B> = Response(status: int, body: B)

  /** `raise_for_status()` raises for client (4xx) and server (5xx) errors only. */
  predicate IsErrorStatus(status: int)
  {
    400 <= status < 600
  }

  /** The names of the fields, in order. */
  function FieldNames(fields: seq<(string, ConfigValue)>): (names: seq<string>)
    ensures |names| == |fields|
    ensures forall i :: 0 <= i < |fields| ==> names[i] == fields[i].0
  {
    seq(|fields|, i requires 0 <= i < |fields| => fields[i].0)
  }

  /** The requests a call sent, in order, and what it returned or raised. */
  datatype Call<T> = Call(sent: seq<TokenRequest>, result: Result<T>)
}
