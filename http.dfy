/**
 * What the serverless handlers share: JSON values and JavaScript truthiness, the request and
 * response records, the one store call a handler may issue and the reply it gets, and the
 * rule that extracts a record id from the request path.
 */
module Http {
  import opened Options
  import opened Text
  import opened Seqs

  /** A JSON value.  Numbers are integers in this model. */
  datatype Value =
    | Null
    | Bool(b: bool)
    | Num(n: int)
    | Str(s: string)
    | Arr(items: seq<Value>)
    | Obj(fields: map<string, Value>)

  /** JavaScript truthiness of a property read; `None` is `undefined`. */
  predicate Truthy(v: Option<Value>) {
    match v
    case None => false
    case Some(Null) => false
    case Some(Bool(b)) => b
    case Some(Num(n)) => n != 0
    case Some(Str(s)) => s != ""
    case Some(_) => true
  }

  /** `x || fallback`. */
  function Or(x: Option<Value>, fallback: Value): (r: Value)
    ensures Truthy(x) ==> Some(r) == x
    ensures !Truthy(x) ==> r == fallback
  {
    if Truthy(x) then x.value else fallback
  }

  /** Reading a property of a parsed object; an absent key reads as `undefined`. */
  function Field(fields: map<string, Value>, key: string): (r: Option<Value>)
    ensures r.Some? <==> key in fields
    ensures r.Some? ==> r.value == fields[key]
  {
    if key in fields then Some(fields[key]) else None
  }

  /** What `JSON.parse(body)` gave: an object, `null` (also what a missing body parses to),
      or a `SyntaxError` with its message. */
  datatype Parsed = ParsedObject(fields: map<string, Value>) | ParsedNull | ParseFailed(message: string)

  /** A request as the platform hands it to a handler; `body` is `None` when there is none. */
  datatype Request = Request(httpMethod: string, path: string, body: Option<string>, parsed: Parsed)

  /** `if (body)`: a present, non-empty body. */
  predicate HasBody(req: Request) {
    req.body.Some? && req.body.value != ""
  }

  /** The single store request a handler makes, if any. */
  datatype StoreCall =
    | NoCall
    | SelectById(table: string, id: string)                  // select('*').eq('id', id).single()
    | SelectAllDesc(table: string, column: string)           // select('*').order(column, descending)
    | InsertRows(table: string, rows: seq<Value>)            // insert(rows).select()
    | UpdateById(table: string, id: string, changes: Value)  // update(changes).eq('id', id).select()
    | DeleteById(table: string, id: string)                  // delete().eq('id', id)

  /** The store's answer: `{ data }` or `{ error }`. */
  datatype StoreReply = Ok(data: Value) | Failed(message: string)

  datatype Body = Json(value: Value) | Text(text: string)

  datatype Response = Response(statusCode: int, headers: map<string, string>, body: Body)

  /** The call a handler issued and the response it returned. */
  datatype Outcome = Outcome(call: StoreCall, response: Response)

  const ContentType := "Content-Type"
  const AllowOrigin := "Access-Control-Allow-Origin"
  const JsonHeaders: map<string, string> := map[ContentType := "application/json"]
  const CorsJsonHeaders: map<string, string> := map[ContentType := "application/json", AllowOrigin := "*"]

  /** `{ ...fields, key: value }` when `value` is defined, `fields` otherwise (JSON output drops
      undefined members). */
  function WithOptional(fields: map<string, Value>, key: string, value: Option<Value>): (r: map<string, Value>)
    ensures value.Some? ==> r == fields[key := value.value]
    ensures value.None? ==> r == fields
  {
    if value.Some? then fields[key := value.value] else fields
  }

  /** The outcome of evaluating an expression that may throw: a value, or an error message. */
  datatype Eval<T> = Done(value: T) | Thrown(message: string)

  /** `data[0]`: the first row of an array result; `undefined` for an empty array or for data
      that is neither an array, a string nor `null`; a `TypeError` on `null`. */
  function FirstRow(data: Value): (r: Eval<Option<Value>>)
    ensures data.Arr? ==> r == Done(if data.items == [] then None else Some(data.items[0]))
    ensures r.Thrown? <==> data.Null?
  {
    match data
    case Null => Thrown("Cannot read properties of null (reading '0')")
    case Arr(items) => Done(if items == [] then None else Some(items[0]))
    case Str(s) => Done(if s == "" then None else Some(Str([s[0]])))
    case _ => Done(None)
  }

  /** `data.length`: the length of an array or string, a `TypeError` on `null`, `undefined`
      otherwise. */
  function Length(data: Value): (r: Eval<Option<Value>>)
    ensures data.Arr? ==> r == Done(Some(Num(|data.items|)))
    ensures r.Thrown? <==> data.Null?
  {
    match data
    case Null => Thrown("Cannot read properties of null (reading 'length')")
    case Arr(items) => Done(Some(Num(|items|)))
    case Str(s) => Done(Some(Num(|s|)))
    case _ => Done(None)
  }

  /** `{ success: false, error: 'Internal Server Error', details }` without headers: what the
      interactions handler and posts.js answer to anything thrown. */
  function InternalError(details: string): (r: Response)
    ensures r.statusCode == 500 && r.headers == map[]
  {
    Response(500, map[], Json(Obj(map["success" := Bool(false), "error" := Str("Internal Server Error"), "details" := Str(details)])))
  }

  /** `{ ...responseData, timestamp }` with `success: true`, and the CORS header. */
  function StampedSuccess(status: int, fields: map<string, Value>, now: string): (r: Response)
    ensures r.statusCode == status && r.headers == CorsJsonHeaders
    ensures r.body.Json? && r.body.value.Obj?
    ensures var out := r.body.value.fields;
      && "success" in out && out["success"] == Bool(true)
      && "timestamp" in out && out["timestamp"] == Str(now)
      && forall k :: k !in {"success", "timestamp"} ==> (k in out <==> k in fields) && (k in fields ==> out[k] == fields[k])
  {
    Response(status, CorsJsonHeaders, Json(Obj(fields["success" := Bool(true)]["timestamp" := Str(now)])))
  }

  /** The parsed body as the store receives it, or the parse error. */
  function BodyValue(parsed: Parsed): (r: Eval<Value>)
    ensures parsed.ParsedObject? ==> r == Done(Obj(parsed.fields))
    ensures parsed.ParsedNull? ==> r == Done(Null)
    ensures parsed.ParseFailed? ==> r == Thrown(parsed.message)
  {
    match parsed
    case ParsedObject(fields) => Done(Obj(fields))
    case ParsedNull => Done(Null)
    case ParseFailed(m) => Thrown(m)
  }

  /** `!postData.title || !postData.content`. */
  predicate Incomplete(fields: map<string, Value>) {
    !Truthy(Field(fields, "title")) || !Truthy(Field(fields, "content"))
  }

  // ---------------------------------------------------------------- id from the path

  predicate NonEmpty(s: string) {
    s != ""
  }

  /** `path.split('/').filter(Boolean)`: the non-empty pieces between slashes, in order, all
      of them. */
  function Segments(path: string): (r: seq<string>)
    ensures IsSubsequence(r, Split(path, '/')) && |r| == CountWhere(Split(path, '/'), NonEmpty)
    ensures forall k :: 0 <= k < |r| ==> r[k] != "" && '/' !in r[k]
  {
    var pieces := Split(path, '/');
    var r := Filter(pieces, NonEmpty);
    FilterMembers(pieces, NonEmpty);
    assert forall k :: 0 <= k < |r| ==> r[k] in pieces;
    r
  }

  /** `segments.length > 2 ? segments[segments.length - 1] : null`. */
  function ExtractId(path: string): (id: Option<string>)
    ensures id.Some? <==> |Segments(path)| > 2
    ensures id.Some? ==> id.value != "" && '/' !in id.value
  {
    var segments := Segments(path);
    if |segments| > 2 then Some(segments[|segments| - 1]) else None
  }

  /** The id is the last non-empty piece of the path: every piece after it is empty. */
  lemma ExtractIdIsLast(path: string)
    requires ExtractId(path).Some?
    ensures exists k :: 0 <= k < |Split(path, '/')| && Split(path, '/')[k] == ExtractId(path).value
                        && forall m :: k < m < |Split(path, '/')| ==> Split(path, '/')[m] == ""
  {
    var pieces := Split(path, '/');
    FilterLast(pieces, NonEmpty);
    var k :| 0 <= k < |pieces| && LastKeptAt(pieces, NonEmpty, k);
    assert pieces[k] == ExtractId(path).value;
  }

  /** `"/" + collection + "/" + name` for names without slashes. */
  function ResourcePath(prefix: string, collection: string, name: string): string {
    "/" + prefix + "/" + collection + "/" + name
  }

  /** A request path built for a record yields that record's id. */
  lemma ExtractIdOfResource(prefix: string, collection: string, name: string)
    requires prefix != "" && collection != "" && name != ""
    requires '/' !in prefix && '/' !in collection && '/' !in name
    ensures ExtractId(ResourcePath(prefix, collection, name)) == Some(name)
  {
    var parts := ["", prefix, collection, name];
    assert Join(parts, '/') == ResourcePath(prefix, collection, name) by {
      assert Join(parts[3..], '/') == name;
      assert Join(parts[2..], '/') == collection + "/" + name;
      assert Join(parts[1..], '/') == prefix + "/" + collection + "/" + name;
    }
    SplitJoin(parts, '/');
    assert parts[3..][1..] == [];
    assert Filter(parts[3..], NonEmpty) == [name];
    assert parts[2..][1..] == parts[3..];
    assert Filter(parts[2..], NonEmpty) == [collection, name];
    assert parts[1..][1..] == parts[2..];
    assert Filter(parts[1..], NonEmpty) == [prefix, collection, name];
    assert Filter(parts, NonEmpty) == [prefix, collection, name];
  }

  /** A collection path has no id. */
  lemma ExtractIdOfCollection(prefix: string, collection: string)
    requires prefix != "" && collection != ""
    requires '/' !in prefix && '/' !in collection
    ensures ExtractId("/" + prefix + "/" + collection) == None
  {
    var parts := ["", prefix, collection];
    assert Join(parts, '/') == "/" + prefix + "/" + collection by {
      assert Join(parts[2..], '/') == collection;
      assert Join(parts[1..], '/') == prefix + "/" + collection;
    }
    SplitJoin(parts, '/');
    assert parts[2..][1..] == [];
    assert Filter(parts[2..], NonEmpty) == [collection];
    assert parts[1..][1..] == parts[2..];
    assert Filter(parts[1..], NonEmpty) == [prefix, collection];
    assert Filter(parts, NonEmpty) == [prefix, collection];
  }
}
