/**
 * The posts handler of the serverless deployment (netlify/functions/posts.js): reads, creates
 * (with validation and defaults), updates (without touching the primary key, stamping the
 * modification time) and deletes posts, mapping the store's answer to a JSON response.
 */
module NetlifyPosts {
  import opened Options
  import opened Http

  const Table := "posts"

  /** `{ success: false, error: 'Internal Server Error', details }`. */
  function ServerError(details: string): (r: Response)
    ensures r.statusCode == 500 && r.headers == JsonHeaders && AllowOrigin !in r.headers
  {
    Response(500, JsonHeaders, Json(Obj(map["success" := Bool(false), "error" := Str("Internal Server Error"), "details" := Str(details)])))
  }

  /** A successful answer: the branch's fields plus `success: true`, with the CORS header. */
  function Success(status: int, fields: map<string, Value>): (r: Response)
    ensures r.statusCode == status && r.headers == CorsJsonHeaders
    ensures r.body.Json? && r.body.value.Obj? && "success" in r.body.value.fields
    ensures r.body.value.fields["success"] == Bool(true)
  {
    Response(status, CorsJsonHeaders, Json(Obj(fields["success" := Bool(true)])))
  }

  const NotAllowed := Response(405, JsonHeaders,
    Json(Obj(map["success" := Bool(false), "message" := Str("Method Not Allowed or Missing ID")])))

  const MissingFields := Response(400, map[],
    Json(Obj(map["success" := Bool(false), "details" := Str("Title and content are required")])))

  /** The row a valid POST inserts: title and content as sent, category and author defaulted
      when falsy, and status 'published'; nothing else of the body is kept. */
  function NewRow(fields: map<string, Value>): (row: map<string, Value>)
    requires !Incomplete(fields)
    ensures row.Keys == {"title", "content", "category", "author", "status"}
    ensures row["title"] == fields["title"] && row["content"] == fields["content"]
    ensures row["category"] == (if Truthy(Field(fields, "category")) then fields["category"] else Str("general"))
    ensures row["author"] == (if Truthy(Field(fields, "author")) then fields["author"] else Str("Manager"))
    ensures row["status"] == Str("published")
    ensures forall k :: k in row ==> Truthy(Some(row[k]))
  {
    map["title" := fields["title"], "content" := fields["content"],
        "category" := Or(Field(fields, "category"), Str("general")),
        "author" := Or(Field(fields, "author"), Str("Manager")),
        "status" := Str("published")]
  }

  /** `{ ...postData without id, modified_date: now }`. */
  function Changes(fields: map<string, Value>, now: string): (changes: map<string, Value>)
    ensures "id" !in changes
    ensures "modified_date" in changes && changes["modified_date"] == Str(now)
    ensures forall k :: k != "id" && k != "modified_date" ==> (k in changes <==> k in fields)
    ensures forall k :: k in changes && k != "modified_date" ==> changes[k] == fields[k]
  {
    (fields - {"id"})["modified_date" := Str(now)]
  }

  /** `{ success: true, data: data[0], message }`, or a 500 when the store failed or `data[0]`
      threw. */
  function AnswerFirst(reply: StoreReply, status: int, message: string): (r: Response)
    requires status == 200 || status == 201
    ensures r.statusCode == status ==> reply.Ok? && r.headers == CorsJsonHeaders
    ensures r.statusCode != status ==> r.statusCode == 500 && AllowOrigin !in r.headers
    ensures reply.Failed? ==> r == ServerError(reply.message)
  {
    match reply
    case Failed(m) => ServerError(m)
    case Ok(data) =>
      match FirstRow(data)
      case Thrown(m) => ServerError(m)
      case Done(first) => Success(status, WithOptional(map["message" := Str(message)], "data", first))
  }

  /** What every routed answer keeps to: a success only after a store call that succeeded,
      with the CORS header; a failing store call always becomes a 500 with its message. */
  predicate Answers(o: Outcome, reply: StoreReply) {
    && o.response.statusCode in {200, 201, 400, 500}
    && (o.response.statusCode in {200, 201} ==> o.call != NoCall && reply.Ok? && o.response.headers == CorsJsonHeaders)
    && (o.response.statusCode !in {200, 201} ==> AllowOrigin !in o.response.headers)
    && (o.call != NoCall && reply.Failed? ==> o.response == ServerError(reply.message))
  }

  /** GET: one post by id, or every post newest first. */
  function Read(id: Option<string>, reply: StoreReply): (o: Outcome)
    ensures Answers(o, reply) && o.call != NoCall
  {
    var call := if id.Some? then SelectById(Table, id.value) else SelectAllDesc(Table, "created_date");
    match reply
    case Failed(m) => Outcome(call, ServerError(m))
    case Ok(data) => Outcome(call, Success(200, map["data" := data]))
  }

  /** POST: validate the parsed body and insert its defaulted row. */
  function Create(parsed: Parsed, reply: StoreReply): (o: Outcome)
    ensures Answers(o, reply)
    ensures o.call != NoCall <==> parsed.ParsedObject? && !Incomplete(parsed.fields)
  {
    match parsed
    case ParseFailed(m) => Outcome(NoCall, ServerError(m))
    case ParsedNull => Outcome(NoCall, ServerError("Cannot read properties of null (reading 'title')"))
    case ParsedObject(fields) =>
      if Incomplete(fields) then Outcome(NoCall, MissingFields)
      else Outcome(InsertRows(Table, [Obj(NewRow(fields))]), AnswerFirst(reply, 201, "Post created successfully."))
  }

  /** PUT to an id: update that post with the stamped body. */
  function Update(id: string, parsed: Parsed, now: string, reply: StoreReply): (o: Outcome)
    ensures Answers(o, reply)
    ensures o.call != NoCall <==> parsed.ParsedObject?
  {
    match parsed
    case ParseFailed(m) => Outcome(NoCall, ServerError(m))
    case ParsedNull => Outcome(NoCall, ServerError("Cannot convert undefined or null to object"))
    case ParsedObject(fields) =>
      Outcome(UpdateById(Table, id, Obj(Changes(fields, now))), AnswerFirst(reply, 200, "Post " + id + " updated."))
  }

  /** DELETE of an id. */
  function Remove(id: string, reply: StoreReply): (o: Outcome)
    ensures Answers(o, reply) && o.call == DeleteById(Table, id)
  {
    match reply
    case Failed(m) => Outcome(DeleteById(Table, id), ServerError(m))
    case Ok(_) => Outcome(DeleteById(Table, id), Success(200, map["message" := Str("Post " + id + " deleted.")]))
  }

  /** `exports.handler`: the store call issued for `req` (`now` is the ISO time) and the
      response built from the store's `reply`. */
  function Handle(req: Request, now: string, reply: StoreReply): (o: Outcome)
    ensures o.response.statusCode in {200, 201, 400, 405, 500}
    ensures o.response.statusCode in {200, 201} ==> o.call != NoCall && reply.Ok? && o.response.headers == CorsJsonHeaders
    ensures o.response.statusCode !in {200, 201} ==> AllowOrigin !in o.response.headers
    ensures o.call != NoCall && reply.Failed? ==> o.response == ServerError(reply.message)
    ensures o.response.statusCode == 405 <==> o.response == NotAllowed
  {
    var id := ExtractId(req.path);
    if req.httpMethod == "GET" then Read(id, reply)
    else if req.httpMethod == "POST" then Create(req.parsed, reply)
    else if req.httpMethod == "PUT" && id.Some? then Update(id.value, req.parsed, now, reply)
    else if req.httpMethod == "DELETE" && id.Some? then Remove(id.value, reply)
    else Outcome(NoCall, NotAllowed)
  }

  /** GET reads one post when the path names one and otherwise every post, newest first, and
      answers 200 with the data as the store gave it. */
  lemma GetReads(req: Request, now: string, data: Value)
    requires req.httpMethod == "GET"
    ensures var id := ExtractId(req.path);
      Handle(req, now, Ok(data)) ==
        Outcome(if id.Some? then SelectById(Table, id.value) else SelectAllDesc(Table, "created_date"),
                Success(200, map["data" := data]))
  {
  }

  /** A POST without a truthy title or content is refused with 400 before any store call. */
  lemma PostValidates(req: Request, now: string, reply: StoreReply)
    requires req.httpMethod == "POST" && req.parsed.ParsedObject? && Incomplete(req.parsed.fields)
    ensures Handle(req, now, reply) == Outcome(NoCall, MissingFields)
  {
  }

  /** A valid POST inserts exactly the defaulted row and answers 201 with the first row back. */
  lemma PostInserts(req: Request, now: string, rows: seq<Value>)
    requires req.httpMethod == "POST" && req.parsed.ParsedObject? && !Incomplete(req.parsed.fields)
    requires rows != []
    ensures Handle(req, now, Ok(Arr(rows))) ==
      Outcome(InsertRows(Table, [Obj(NewRow(req.parsed.fields))]),
              Success(201, map["message" := Str("Post created successfully."), "data" := rows[0]]))
  {
  }

  /** A PUT to a post's path updates that post with the body minus its id, stamped with `now`. */
  lemma PutStampsAndStrips(req: Request, now: string, reply: StoreReply)
    requires req.httpMethod == "PUT" && ExtractId(req.path).Some? && req.parsed.ParsedObject?
    ensures var o := Handle(req, now, reply);
      && o.call.UpdateById? && o.call.id == ExtractId(req.path).value
      && o.call.changes == Obj(Changes(req.parsed.fields, now))
      && "id" !in o.call.changes.fields
  {
  }

  /** Without an id, PUT and DELETE are refused, as is every other method, without a store call. */
  lemma RefusedWithoutCall(req: Request, now: string, reply: StoreReply)
    requires req.httpMethod !in {"GET", "POST"}
    requires req.httpMethod !in {"PUT", "DELETE"} || ExtractId(req.path).None?
    ensures Handle(req, now, reply) == Outcome(NoCall, NotAllowed)
  {
  }

  /** When no store call is made the reply cannot matter. */
  lemma ReplyUnusedWithoutCall(req: Request, now: string, r1: StoreReply, r2: StoreReply)
    requires Handle(req, now, r1).call == NoCall
    ensures Handle(req, now, r2) == Handle(req, now, r1)
  {
  }

  /** A body that does not parse gives 500 without a store call. */
  lemma ParseErrorIsServerError(req: Request, now: string, reply: StoreReply)
    requires req.httpMethod == "POST" || (req.httpMethod == "PUT" && ExtractId(req.path).Some?)
    requires req.parsed.ParseFailed?
    ensures Handle(req, now, reply) == Outcome(NoCall, ServerError(req.parsed.message))
  {
  }
}
