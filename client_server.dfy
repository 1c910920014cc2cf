/**
 * How the dashboard's save request is understood by the interactions handler it is sent to:
 * a new interaction is inserted, and an edited one updates the record whose id the form held.
 */
module ClientServer {
  import opened Options
  import opened Http
  import Platform
  import NetlifyInteractions

  /** The JSON object `saveInteraction` serialises: the three form fields, and `id` on an edit. */
  function BodyFields(b: Platform.SaveBody): (fields: map<string, Value>)
    ensures fields.Keys == {"title", "content", "tags"} + (if b.id.Some? then {"id"} else {})
    ensures fields["title"] == Str(b.title) && fields["content"] == Str(b.content) && fields["tags"] == Str(b.tags)
    ensures b.id.Some? ==> fields["id"] == Str(b.id.value)
  {
    var common := map["title" := Str(b.title), "content" := Str(b.content), "tags" := Str(b.tags)];
    if b.id.Some? then common["id" := Str(b.id.value)] else common
  }

  /** The request as the handler receives it; `text` is the serialised body, never empty. */
  function Received(r: Platform.ClientRequest, text: string): Request {
    Request(r.httpMethod, r.url, Some(text), ParsedObject(BodyFields(r.body)))
  }

  /** Saving from an empty form inserts the form's fields as a new interaction. */
  lemma CreateIsInserted(title: string, content: string, tags: string, text: string, now: string, reply: StoreReply)
    requires text != ""
    ensures var r := Platform.SaveRequest("", title, content, tags);
      NetlifyInteractions.Handle(Received(r, text), now, reply).call ==
        InsertRows(NetlifyInteractions.Table, [Obj(BodyFields(r.body))])
  {
  }

  /** The URL of an edit names the interaction being edited. */
  lemma EditPathId(formId: string)
    requires formId != "" && '/' !in formId
    ensures ExtractId(Platform.InteractionsEndpoint + "/" + formId) == Some(formId)
  {
    assert Platform.InteractionsEndpoint + "/" + formId == ResourcePath("api", "interactions", formId);
    ExtractIdOfResource("api", "interactions", formId);
  }

  /** Saving an edited interaction updates the record with the form's id, for any id the path
      can carry (non-empty, without a slash). */
  lemma EditUpdatesThatRecord(formId: string, title: string, content: string, tags: string, text: string,
                              now: string, reply: StoreReply)
    requires formId != "" && '/' !in formId && text != ""
    ensures var r := Platform.SaveRequest(formId, title, content, tags);
      NetlifyInteractions.Handle(Received(r, text), now, reply).call ==
        UpdateById(NetlifyInteractions.Table, formId, Obj(BodyFields(r.body)))
  {
    var r := Platform.SaveRequest(formId, title, content, tags);
    EditPathId(formId);
    NetlifyInteractions.PutPassesBody(Received(r, text), now, reply);
  }
}
