/**
 * The stand-alone posts handler at the top of the repository (posts.js): the same routes as the
 * serverless posts handler, but without validation or defaults.  POST inserts whatever the body
 * parses to, PUT stamps the body with the date part of the current time, and the list answer
 * carries the number of rows.
 */
module PostsHandler {
  import opened Options
  import opened Text
  import opened Http

  const Table := "posts"

  const NotAllowed := Response(405, map[],
    Json(Obj(map["success" := Bool(false), "message" := Str("Method Not Allowed or Missing ID")])))

  /** `new Date().toISOString().split('T')[0]`: the text of `now` before its first `T`, or all
      of it when there is none. */
  function DatePart(now: string): (r: string)
    ensures 'T' !in r && r <= now
    ensures |r| < |now| ==> now[|r|] == 'T'
  {
    SplitFirst(now, 'T');
    Split(now, 'T')[0]
  }

  /** The date part of an ISO time is everything before the `T`. */
  lemma DatePartOfIso(date: string, time: string)
    requires 'T' !in date
    ensures DatePart(date + "T" + time) == date
  {
    var tail := "T" + time;
    SplitPiece(date, 'T', tail);
    assert tail[1..] == time;
    assert Split(tail, 'T')[0] == "";
    assert date + "T" + time == date + tail;
    assert date + "" == date;
  }

  /** `updateData.modified_date = date`: throws on `null`, sets the field on an object. */
  function Stamp(parsed: Parsed, date: string): (r: Eval<Value>)
    ensures parsed.ParsedObject? ==> r == Done(Obj(parsed.fields["modified_date" := Str(date)]))
    ensures parsed.ParseFailed? ==> r == Thrown(parsed.message)
    ensures r.Thrown? <==> !parsed.ParsedObject?
  {
    match parsed
    case ParseFailed(m) => Thrown(m)
    case ParsedNull => Thrown("Cannot set properties of null (setting 'modified_date')")
    case ParsedObject(fields) => Done(Obj(fields["modified_date" := Str(date)]))
  }

  /** The response for a write answered with rows: `{ success, data: data[0] }`. */
  function AnswerFirst(reply: StoreReply, status: int, now: string): (r: Response)
    requires status == 200 || status == 201
    ensures r.statusCode == status ==> reply.Ok? && r.headers == CorsJsonHeaders
    ensures r.statusCode != status ==> r.statusCode == 500 && r.headers == map[]
    ensures reply.Failed? ==> r == InternalError(reply.message)
  {
    match reply
    case Failed(m) => InternalError(m)
    case Ok(data) =>
      match FirstRow(data)
      case Thrown(m) => InternalError(m)
      case Done(first) => StampedSuccess(status, WithOptional(map[], "data", first), now)
  }

  /** What every routed answer keeps to: a success only after a store call that succeeded,
      with the CORS header; a 500 without headers, carrying the message of a failing store
      call. */
  predicate Answers(o: Outcome, reply: StoreReply) {
    && o.response.statusCode in {200, 201, 500}
    && (o.response.statusCode in {200, 201} ==> o.call != NoCall && reply.Ok? && o.response.headers == CorsJsonHeaders)
    && (o.response.statusCode == 500 ==> o.response.headers == map[])
    && (o.call != NoCall && reply.Failed? ==> o.response == InternalError(reply.message))
  }

  /** GET: one post by id, or every post newest first with their number. */
  function Read(id: Option<string>, now: string, reply: StoreReply): (o: Outcome)
    ensures Answers(o, reply) && o.call != NoCall && o.response.statusCode != 201
  {
    if id.Some? then
      var call := SelectById(Table, id.value);
      match reply
      case Failed(m) => Outcome(call, InternalError(m))
      case Ok(data) => Outcome(call, StampedSuccess(200, map["data" := data], now))
    else
      var call := SelectAllDesc(Table, "created_date");
      match reply
      case Failed(m) => Outcome(call, InternalError(m))
      case Ok(data) =>
        match Length(data)
        case Thrown(m) => Outcome(call, InternalError(m))
        case Done(count) => Outcome(call, StampedSuccess(200, WithOptional(map["data" := data], "count", count), now))
  }

  /** POST: insert the parsed body as it is. */
  function Create(parsed: Parsed, now: string, reply: StoreReply): (o: Outcome)
    ensures Answers(o, reply) && o.response.statusCode in {201, 500}
  {
    match BodyValue(parsed)
    case Thrown(m) => Outcome(NoCall, InternalError(m))
    case Done(record) => Outcome(InsertRows(Table, [record]), AnswerFirst(reply, 201, now))
  }

  /** PUT to an id: update that post with the body stamped with today's date. */
  function Update(id: string, parsed: Parsed, now: string, reply: StoreReply): (o: Outcome)
    ensures Answers(o, reply) && o.response.statusCode != 201
  {
    match Stamp(parsed, DatePart(now))
    case Thrown(m) => Outcome(NoCall, InternalError(m))
    case Done(changes) => Outcome(UpdateById(Table, id, changes), AnswerFirst(reply, 200, now))
  }

  /** DELETE of an id. */
  function Remove(id: string, now: string, reply: StoreReply): (o: Outcome)
    ensures Answers(o, reply) && o.call == DeleteById(Table, id) && o.response.statusCode != 201
  {
    match reply
    case Failed(m) => Outcome(DeleteById(Table, id), InternalError(m))
    case Ok(_) => Outcome(DeleteById(Table, id), StampedSuccess(200, map["message" := Str("Post " + id + " deleted.")], now))
  }

  /** `exports.handler`: the store call issued for `req` and the response built from `reply`;
      `now` is the ISO time of the answer. */
  function Handle(req: Request, now: string, reply: StoreReply): (o: Outcome)
    ensures o.response.statusCode in {200, 201, 405, 500}
    ensures o.response.statusCode == 201 ==> req.httpMethod == "POST"
    ensures req.httpMethod == "POST" ==> o.response.statusCode in {201, 500}
    ensures o.response.statusCode in {200, 201} ==> o.call != NoCall && reply.Ok? && o.response.headers == CorsJsonHeaders
    ensures o.response.statusCode in {405, 500} ==> o.response.headers == map[]
    ensures o.call != NoCall && reply.Failed? ==> o.response == InternalError(reply.message)
    ensures o.response.statusCode == 405 <==> o.response == NotAllowed
  {
    var id := ExtractId(req.path);
    if req.httpMethod == "GET" then Read(id, now, reply)
    else if req.httpMethod == "POST" then Create(req.parsed, now, reply)
    else if req.httpMethod == "PUT" && id.Some? then Update(id.value, req.parsed, now, reply)
    else if req.httpMethod == "DELETE" && id.Some? then Remove(id.value, now, reply)
    else Outcome(NoCall, NotAllowed)
  }

  /** Every successful answer is stamped with `now` and says `success: true`. */
  lemma SuccessStamped(req: Request, now: string, reply: StoreReply)
    requires Handle(req, now, reply).response.statusCode in {200, 201}
    ensures var r := Handle(req, now, reply).response;
      && r.body.Json? && r.body.value.Obj?
      && "timestamp" in r.body.value.fields && r.body.value.fields["timestamp"] == Str(now)
      && "success" in r.body.value.fields && r.body.value.fields["success"] == Bool(true)
  {
  }

  /** The list answer counts the rows it returns. */
  lemma ListCounts(req: Request, now: string, rows: seq<Value>)
    requires req.httpMethod == "GET" && ExtractId(req.path).None?
    ensures Handle(req, now, Ok(Arr(rows))) ==
      Outcome(SelectAllDesc(Table, "created_date"), StampedSuccess(200, map["data" := Arr(rows), "count" := Num(|rows|)], now))
  {
  }

  /** A list answered with `null` fails on `data.length`. */
  lemma ListOfNullFails(req: Request, now: string)
    requires req.httpMethod == "GET" && ExtractId(req.path).None?
    ensures Handle(req, now, Ok(Null)).response.statusCode == 500
  {
  }

  /** POST inserts the parsed body unvalidated, even an empty object. */
  lemma PostInsertsUnvalidated(req: Request, now: string, reply: StoreReply)
    requires req.httpMethod == "POST" && req.parsed.ParsedObject?
    ensures Handle(req, now, reply).call == InsertRows(Table, [Obj(req.parsed.fields)])
  {
  }

  /** A PUT with an ISO time stamps the body with its date only. */
  lemma PutStampsDate(req: Request, date: string, time: string, reply: StoreReply)
    requires req.httpMethod == "PUT" && ExtractId(req.path).Some? && req.parsed.ParsedObject?
    requires 'T' !in date
    ensures Handle(req, date + "T" + time, reply).call ==
      UpdateById(Table, ExtractId(req.path).value, Obj(req.parsed.fields["modified_date" := Str(date)]))
  {
    DatePartOfIso(date, time);
  }

  /** A PUT whose body is `null` throws before the store is called. */
  lemma PutOfNullFails(req: Request, now: string, reply: StoreReply)
    requires req.httpMethod == "PUT" && ExtractId(req.path).Some? && req.parsed.ParsedNull?
    ensures Handle(req, now, reply) ==
      Outcome(NoCall, InternalError("Cannot set properties of null (setting 'modified_date')"))
  {
  }

  /** Without an id, PUT and DELETE are refused, as is every other method, without a store call. */
  lemma RefusedWithoutCall(req: Request, now: string, reply: StoreReply)
    requires req.httpMethod !in {"GET", "POST"}
    requires req.httpMethod !in {"PUT", "DELETE"} || ExtractId(req.path).None?
    ensures Handle(req, now, reply) == Outcome(NoCall, NotAllowed)
  {
  }

  /** When no store call is made the reply cannot matter. */
  lemma ReplyUnusedWithoutCall(req: Request, now: string, r1: StoreReply, r2: StoreReply)
    requires Handle(req, now, r1).call == NoCall
    ensures Handle(req, now, r2) == Handle(req, now, r1)
  {
  }
}
