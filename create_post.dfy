/**
 * The single-purpose create handler of the serverless deployment
 * (netlify/functions/create-post.js): accepts only POST, requires a title and a content, and
 * inserts one row with the category and author defaulted.
 */
module CreatePost {
  import opened Options
  import opened Http

  const Table := "posts"

  const NotAllowed := Response(405, map[], Text("Method Not Allowed"))

  const MissingFields := Response(400, map[], Json(Obj(map["error" := Str("Title and content are required")])))

  /** The one failure answer: the store's or the parser's message is not shown. */
  const Failure := Response(500, map[], Json(Obj(map["success" := Bool(false), "error" := Str("Failed to create post")])))

  /** The inserted row: title and content as sent, category and author defaulted when falsy;
      nothing else of the body is kept. */
  function NewRow(fields: map<string, Value>): (row: map<string, Value>)
    requires !Incomplete(fields)
    ensures row.Keys == {"title", "content", "category", "author"}
    ensures row["title"] == fields["title"] && row["content"] == fields["content"]
    ensures row["category"] == (if Truthy(Field(fields, "category")) then fields["category"] else Str("general"))
    ensures row["author"] == (if Truthy(Field(fields, "author")) then fields["author"] else Str("Manager"))
    ensures forall k :: k in row ==> Truthy(Some(row[k]))
  {
    map["title" := fields["title"], "content" := fields["content"],
        "category" := Or(Field(fields, "category"), Str("general")),
        "author" := Or(Field(fields, "author"), Str("Manager"))]
  }

  /** `exports.handler`: the store call issued for `req` and the response built from `reply`. */
  function Handle(req: Request, reply: StoreReply): (o: Outcome)
    ensures o.response.statusCode in {201, 400, 405, 500}
    ensures o.response.headers == map[]
    ensures o.response.statusCode == 405 <==> req.httpMethod != "POST"
    ensures o.call != NoCall <==> req.httpMethod == "POST" && req.parsed.ParsedObject? && !Incomplete(req.parsed.fields)
    ensures o.response.statusCode == 201 ==> o.call != NoCall && reply.Ok?
    ensures o.response.statusCode == 500 ==> o.response == Failure
  {
    if req.httpMethod != "POST" then
      Outcome(NoCall, NotAllowed)
    else
      match req.parsed
      case ParseFailed(_) => Outcome(NoCall, Failure)
      case ParsedNull => Outcome(NoCall, Failure)
      case ParsedObject(fields) =>
        if Incomplete(fields) then Outcome(NoCall, MissingFields)
        else
          var call := InsertRows(Table, [Obj(NewRow(fields))]);
          match reply
          case Failed(_) => Outcome(call, Failure)
          case Ok(data) =>
            match FirstRow(data)
            case Thrown(_) => Outcome(call, Failure)
            case Done(first) =>
              Outcome(call, Response(201, map[], Json(Obj(WithOptional(map["success" := Bool(true)], "data", first)))))
  }

  /** A valid POST inserts exactly the defaulted row and answers 201 with the first row back. */
  lemma PostInserts(req: Request, rows: seq<Value>)
    requires req.httpMethod == "POST" && req.parsed.ParsedObject? && !Incomplete(req.parsed.fields)
    requires rows != []
    ensures Handle(req, Ok(Arr(rows))) ==
      Outcome(InsertRows(Table, [Obj(NewRow(req.parsed.fields))]),
              Response(201, map[], Json(Obj(map["success" := Bool(true), "data" := rows[0]]))))
  {
  }

  /** A POST without a truthy title or content is refused with 400 before any store call. */
  lemma PostValidates(req: Request, reply: StoreReply)
    requires req.httpMethod == "POST" && req.parsed.ParsedObject? && Incomplete(req.parsed.fields)
    ensures Handle(req, reply) == Outcome(NoCall, MissingFields)
  {
  }

  /** Every failure, whether of the parser, the store or reading the first row, looks the same. */
  lemma FailuresLookAlike(req: Request, m1: string, m2: string)
    ensures Handle(req, Failed(m1)) == Handle(req, Failed(m2))
  {
  }
}
