/** The request lower bound and the response checks of homework.py
    (get_api_answer without the HTTP call, and check_response). */
module Api {
  import opened Wrappers
  import opened Json
  import opened Failures

  /** What the HTTP call and `response.json()` produced: an answer with its
      status code and decoded body, or an exception raised on the way. */
  datatype Fetch = Answered(code: int, body: Value) | Failed(text: string)

  /** The `from_date` parameter, `current_timestamp or int(time.time())`:
      the cursor unless Python deems it falsy, in which case the clock. */
  function FromDate(cursor: Value, now: int): (r: Value)
    ensures Truthy(cursor) ==> r == cursor
    ensures !Truthy(cursor) ==> r == Int(now)
  {
    if Truthy(cursor) then cursor else Int(now)
  }

  /** The decoded body of a 200 answer; any other status code is
      EndpointHomeworkError, whatever the body says. */
  function GetApiAnswer(fetch: Fetch): (r: Result<Value, Failure>)
    ensures r.Ok? <==> fetch.Answered? && fetch.code == 200
    ensures r.Ok? ==> r.value == fetch.body
    ensures fetch.Answered? && fetch.code != 200 ==> r == Err(EndpointUnavailable)
    ensures fetch.Failed? ==> r == Err(Raised(fetch.text))
  {
    match fetch
    case Failed(text) => Err(Raised(text))
    case Answered(code, body) =>
      if code != 200 then Err(EndpointUnavailable) else Ok(body)
  }

  /** The keys check_response iterates over, in order. */
  const ResponseKeys: seq<string> := ["homeworks", "current_date"]

  /** check_response: the loop over ResponseKeys returns (or raises) while
      looking at the first key, so `current_date` is never examined. */
  function CheckResponse(response: Value): (r: Result<seq<Value>, Failure>)
    ensures r.Ok? <==>
      response.Dict? && "homeworks" in response.fields && response.fields["homeworks"].List?
    ensures r.Ok? ==> r.value == response.fields["homeworks"].items
    ensures !response.Dict? ==> r == Err(NotSubscriptable(TypeName(response)))
    ensures response.Dict? && "homeworks" !in response.fields ==> r == Err(MissingKey("homeworks"))
    ensures response.Dict? && "homeworks" in response.fields && !response.fields["homeworks"].List? ==>
      r == Err(TypeValue(TypeName(response.fields["homeworks"])))
  {
    var key := ResponseKeys[0];
    match Get(response, key)
    case None =>
      if response.Dict? then Err(MissingKey(key)) else Err(NotSubscriptable(TypeName(response)))
    case Some(homeworks) =>
      if homeworks.List? then Ok(homeworks.items) else Err(TypeValue(TypeName(homeworks)))
  }

  /** Whether `current_date` is present, absent or malformed makes no
      difference to check_response. */
  lemma CheckResponseIgnoresCurrentDate(fields: map<string, Value>, date: Value)
    ensures CheckResponse(Dict(fields - {"current_date"})) == CheckResponse(Dict(fields))
    ensures CheckResponse(Dict(fields["current_date" := date])) == CheckResponse(Dict(fields))
  {
  }
}
