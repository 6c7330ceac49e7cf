/**
 * The request decision of save_score.php: a cascade of guards that ends in
 * one insert into the scores table. PHP's runtime is abstracted: the decoded
 * JSON body is a map from keys to values (or absent when the body does not
 * decode to an object), `is_numeric` is a predicate the caller supplies, and
 * the outcomes of connecting to MySQL and of executing the insert are inputs.
 */
module SaveScore {
  import opened Options

  /** A decoded JSON value: `null`, or some other value. */
  datatype Json<V> = Null | Value(v: V)

  /** The request method (`REQUEST_METHOD`) and the decoded body; `None` when `json_decode`
      does not yield an array with keys. */
  datatype Request<V> = Request(verb: string, body: Option<map<string, Json<V>>>)

  /** The JSON message the script echoes. */
  datatype Message = MethodNotAllowed | InvalidData | ConnectionFailed | SaveFailed | Saved

  datatype Response = Response(status: int, message: Message, insertAttempted: bool)

  /** A row of the `scores` table. */
  datatype Row<V> = Row(score: V, timestamp: V, duration: V)

  /** The response, and the table after the request. */
  datatype Outcome<V> = Outcome(response: Response, table: seq<Row<V>>)

  /** PHP's `isset($data[key])`: the key is present and its value is not null. */
  predicate IsSet<V>(body: Option<map<string, Json<V>>>, key: string) {
    body.Some? && key in body.value && body.value[key].Value?
  }

  function Field<V>(body: Option<map<string, Json<V>>>, key: string): V
    requires IsSet(body, key)
  {
    body.value[key].v
  }

  /** What the script accepts: a numeric score, a timestamp of any content,
      and a numeric duration. */
  predicate WellFormed<V>(body: Option<map<string, Json<V>>>, isNumeric: V -> bool) {
    && IsSet(body, "score") && isNumeric(Field(body, "score"))
    && IsSet(body, "timestamp")
    && IsSet(body, "duration") && isNumeric(Field(body, "duration"))
  }

  /** The row the insert binds from a well-formed body. */
  function RowOf<V>(body: Option<map<string, Json<V>>>): Row<V>
    requires IsSet(body, "score") && IsSet(body, "timestamp") && IsSet(body, "duration")
  {
    Row(Field(body, "score"), Field(body, "timestamp"), Field(body, "duration"))
  }

  /** The script, from the method check to the insert. The default status is 200. */
  function HandleSaveScore<V>(req: Request<V>, isNumeric: V -> bool,
                              connects: bool, executes: bool, table: seq<Row<V>>): (out: Outcome<V>)
    ensures out.response.status == 405 <==> req.verb != "POST"
    ensures out.response.status == 400 <==> req.verb == "POST" && !WellFormed(req.body, isNumeric)
    ensures out.response.insertAttempted <==>
      req.verb == "POST" && WellFormed(req.body, isNumeric) && connects
    ensures out.response.status == 500 <==>
      req.verb == "POST" && WellFormed(req.body, isNumeric) && !(connects && executes)
    ensures out.response.status == 200 <==> out.response.insertAttempted && executes
    ensures out.response.status in {200, 400, 405, 500}
    ensures out.response.status == 200 ==>
      out.response.message == Saved && out.table == table + [RowOf(req.body)]
    ensures out.response.status != 200 ==> out.table == table
    ensures out.response.status == 405 ==> out.response.message == MethodNotAllowed
    ensures out.response.status == 400 ==> out.response.message == InvalidData
    ensures out.response.status == 500 ==>
      out.response.message == if connects then SaveFailed else ConnectionFailed
  {
    var body := req.body;
    if req.verb != "POST" then
      Outcome(Response(405, MethodNotAllowed, false), table)
    else if !IsSet(body, "score") || !isNumeric(Field(body, "score"))
         || !IsSet(body, "timestamp") || !IsSet(body, "duration") || !isNumeric(Field(body, "duration")) then
      Outcome(Response(400, InvalidData, false), table)
    else if !connects then
      Outcome(Response(500, ConnectionFailed, false), table)
    else if executes then
      Outcome(Response(200, Saved, true), table + [RowOf(body)])
    else
      Outcome(Response(500, SaveFailed, true), table)
  }

  /** Only the presence of the timestamp is checked: two requests that differ
      only in the timestamp's value get the same response. */
  lemma TimestampContentIgnored<V>(req: Request<V>, t: V, isNumeric: V -> bool,
                                   connects: bool, executes: bool, table: seq<Row<V>>)
    requires IsSet(req.body, "timestamp")
    ensures var other := req.(body := Some(req.body.value["timestamp" := Value(t)]));
      HandleSaveScore(other, isNumeric, connects, executes, table).response ==
        HandleSaveScore(req, isNumeric, connects, executes, table).response
  {
  }

  /** Nothing is deduplicated: the same well-formed request saved twice adds
      two equal rows. */
  lemma NoDeduplication<V>(req: Request<V>, isNumeric: V -> bool, table: seq<Row<V>>)
    requires req.verb == "POST" && WellFormed(req.body, isNumeric)
    ensures var first := HandleSaveScore(req, isNumeric, true, true, table);
      var second := HandleSaveScore(req, isNumeric, true, true, first.table);
      && second.response == first.response
      && second.table == table + [RowOf(req.body), RowOf(req.body)]
  {
  }

  /** A non-numeric score is rejected with 400 and nothing is inserted,
      whatever the database would do. */
  lemma NonNumericScoreRejected<V>(req: Request<V>, isNumeric: V -> bool,
                                   connects: bool, executes: bool, table: seq<Row<V>>)
    requires req.verb == "POST" && IsSet(req.body, "score") && !isNumeric(Field(req.body, "score"))
    ensures var out := HandleSaveScore(req, isNumeric, connects, executes, table);
      out.response == Response(400, InvalidData, false) && out.table == table
  {
  }
}
