/**
 * The interactions handler of the serverless deployment (netlify/functions/interactions.js):
 * answers the CORS preflight, reads, creates, updates and deletes interactions, passing request
 * bodies to the store unchanged, and stamps every successful answer with the current time.
 */
module NetlifyInteractions {
  import opened Options
  import opened Http

  const Table := "interactions"

  const PreflightHeaders: map<string, string> := map[
    AllowOrigin := "*",
    "Access-Control-Allow-Methods" := "GET, POST, PUT, DELETE, OPTIONS",
    "Access-Control-Allow-Headers" := "Content-Type"]

  const Preflight := Response(204, PreflightHeaders, Text(""))

  const NotAllowed := Response(405, map[],
    Json(Obj(map["success" := Bool(false), "message" := Str("Method Not Allowed or Missing Data/ID")])))

  function AnswerFirst(reply: StoreReply, status: int, fields: map<string, Value>, now: string): (r: Response)
    requires status == 200 || status == 201
    ensures r.statusCode == status ==> reply.Ok? && r.headers == CorsJsonHeaders
    ensures r.statusCode != status ==> r.statusCode == 500 && r.headers == map[]
    ensures reply.Failed? ==> r == InternalError(reply.message)
  {
    match reply
    case Failed(m) => InternalError(m)
    case Ok(data) =>
      match FirstRow(data)
      case Thrown(m) => InternalError(m)
      case Done(first) => StampedSuccess(status, WithOptional(fields, "data", first), now)
  }

  /** What every routed answer keeps to: a success only after a store call that succeeded,
      with the CORS header; anything else without headers, and a failing store call always a
      500 with its message. */
  predicate Answers(o: Outcome, reply: StoreReply) {
    && o.response.statusCode in {200, 201, 500}
    && (o.response.statusCode in {200, 201} ==> o.call != NoCall && reply.Ok? && o.response.headers == CorsJsonHeaders)
    && (o.response.statusCode == 500 ==> o.response.headers == map[])
    && (o.call != NoCall && reply.Failed? ==> o.response == InternalError(reply.message))
  }

  /** GET: one interaction by id, or every interaction newest first. */
  function Read(id: Option<string>, now: string, reply: StoreReply): (o: Outcome)
    ensures Answers(o, reply) && o.call != NoCall
  {
    var call := if id.Some? then SelectById(Table, id.value) else SelectAllDesc(Table, "created_at");
    match reply
    case Failed(m) => Outcome(call, InternalError(m))
    case Ok(data) => Outcome(call, StampedSuccess(200, map["data" := data], now))
  }

  /** POST with a body: insert the parsed body as it is. */
  function Create(parsed: Parsed, now: string, reply: StoreReply): (o: Outcome)
    ensures Answers(o, reply)
    ensures o.call != NoCall <==> !parsed.ParseFailed?
  {
    match BodyValue(parsed)
    case Thrown(m) => Outcome(NoCall, InternalError(m))
    case Done(record) => Outcome(InsertRows(Table, [record]), AnswerFirst(reply, 201, map[], now))
  }

  /** PUT with an id and a body: update that interaction with the parsed body as it is. */
  function Update(id: string, parsed: Parsed, now: string, reply: StoreReply): (o: Outcome)
    ensures Answers(o, reply)
    ensures o.call != NoCall <==> !parsed.ParseFailed?
  {
    match BodyValue(parsed)
    case Thrown(m) => Outcome(NoCall, InternalError(m))
    case Done(changes) =>
      Outcome(UpdateById(Table, id, changes),
              AnswerFirst(reply, 200, map["message" := Str("Interaction " + id + " updated.")], now))
  }

  /** DELETE of an id. */
  function Remove(id: string, now: string, reply: StoreReply): (o: Outcome)
    ensures Answers(o, reply) && o.call == DeleteById(Table, id)
  {
    match reply
    case Failed(m) => Outcome(DeleteById(Table, id), InternalError(m))
    case Ok(_) => Outcome(DeleteById(Table, id), StampedSuccess(200, map["message" := Str("Interaction " + id + " deleted.")], now))
  }

  /** `exports.handler`: the store call issued for `req` and the response built from `reply`;
      `now` is the ISO time of the answer. */
  function Handle(req: Request, now: string, reply: StoreReply): (o: Outcome)
    ensures o.response.statusCode in {200, 201, 204, 405, 500}
    ensures req.httpMethod == "OPTIONS" <==> o.response == Preflight
    ensures o.response.statusCode in {200, 201} ==> o.call != NoCall && reply.Ok? && o.response.headers == CorsJsonHeaders
    ensures o.response.statusCode in {405, 500} ==> o.response.headers == map[]
    ensures o.call != NoCall && reply.Failed? ==> o.response == InternalError(reply.message)
  {
    var id := ExtractId(req.path);
    if req.httpMethod == "OPTIONS" then Outcome(NoCall, Preflight)
    else if req.httpMethod == "GET" then Read(id, now, reply)
    else if req.httpMethod == "POST" && HasBody(req) then Create(req.parsed, now, reply)
    else if req.httpMethod == "PUT" && id.Some? && HasBody(req) then Update(id.value, req.parsed, now, reply)
    else if req.httpMethod == "DELETE" && id.Some? then Remove(id.value, now, reply)
    else Outcome(NoCall, NotAllowed)
  }

  /** The preflight never reaches the store. */
  lemma PreflightWithoutCall(req: Request, now: string, reply: StoreReply)
    requires req.httpMethod == "OPTIONS"
    ensures Handle(req, now, reply).call == NoCall
  {
  }

  /** A POST with a body inserts the parsed body unchanged and answers 201 with the first row. */
  lemma PostInsertsBody(req: Request, now: string, rows: seq<Value>)
    requires req.httpMethod == "POST" && HasBody(req) && req.parsed.ParsedObject?
    requires rows != []
    ensures Handle(req, now, Ok(Arr(rows))) ==
      Outcome(InsertRows(Table, [Obj(req.parsed.fields)]), StampedSuccess(201, map["data" := rows[0]], now))
  {
  }

  /** A PUT needs both an id and a body, and hands the body to the store untouched. */
  lemma PutPassesBody(req: Request, now: string, reply: StoreReply)
    requires req.httpMethod == "PUT" && ExtractId(req.path).Some? && HasBody(req) && req.parsed.ParsedObject?
    ensures Handle(req, now, reply).call == UpdateById(Table, ExtractId(req.path).value, Obj(req.parsed.fields))
  {
  }

  /** A write without the data or id it needs is refused with 405 and no store call. */
  lemma MissingDataRefused(req: Request, now: string, reply: StoreReply)
    requires || (req.httpMethod == "POST" && !HasBody(req))
             || (req.httpMethod == "PUT" && (ExtractId(req.path).None? || !HasBody(req)))
             || (req.httpMethod == "DELETE" && ExtractId(req.path).None?)
             || req.httpMethod !in {"OPTIONS", "GET", "POST", "PUT", "DELETE"}
    ensures Handle(req, now, reply) == Outcome(NoCall, NotAllowed)
  {
  }

  /** Every successful answer is stamped with `now` and says `success: true`. */
  lemma SuccessStamped(req: Request, now: string, reply: StoreReply)
    requires Handle(req, now, reply).response.statusCode in {200, 201}
    ensures var r := Handle(req, now, reply).response;
      && r.body.Json? && r.body.value.Obj?
      && "timestamp" in r.body.value.fields && r.body.value.fields["timestamp"] == Str(now)
      && "success" in r.body.value.fields && r.body.value.fields["success"] == Bool(true)
  {
  }

  /** When no store call is made the reply cannot matter. */
  lemma ReplyUnusedWithoutCall(req: Request, now: string, r1: StoreReply, r2: StoreReply)
    requires Handle(req, now, r1).call == NoCall
    ensures Handle(req, now, r2) == Handle(req, now, r1)
  {
  }
}
