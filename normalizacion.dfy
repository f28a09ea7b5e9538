/** The request normaliser `parse_event`: an API-gateway event carries its
    payload as a JSON string in `body` plus optional `pathParameters`; any
    other event is already the flat payload. */
module Normalizacion {
  import opened Valores

  /** The JSON decoder applied to a string body; None means the text did not
      decode (the source catches the exception and uses an empty object). */
  type Json = string -> Option<Fields>

  /** The event has a `body` field holding a string. */
  predicate HasStringBody(event: Fields)
  {
    "body" in event && event["body"].Str?
  }

  /** The decoded body, or the empty object when decoding fails. */
  function Body(event: Fields, json: Json): Fields
    requires HasStringBody(event)
  {
    match json(event["body"].s)
    case Some(m) => m
    case None => map[]
  }

  /** `event.get("pathParameters") or {}` when that is an object; a truthy
      value of another kind contributes nothing. */
  function PathParams(event: Fields): Fields
  {
    var p := if Present(Get(event, "pathParameters")) then event["pathParameters"] else Obj(map[]);
    if p.Obj? then p.fields else map[]
  }

  /** The normalised event: the body over the path parameters (the body wins
      on a shared key), or the event itself when it has no string body. */
  function Normalize(event: Fields, json: Json): Fields
  {
    if HasStringBody(event) then PathParams(event) + Body(event, json) else event
  }

  /** `parse_event`: decode the body, then `setdefault` each path parameter
      into it, one key at a time. */
  method ParseEvent(event: Fields, json: Json) returns (r: Fields)
    ensures r == Normalize(event, json)
    ensures HasStringBody(event) ==>
              r.Keys == Body(event, json).Keys + PathParams(event).Keys
    ensures HasStringBody(event) ==>
              forall k :: k in Body(event, json) ==> r[k] == Body(event, json)[k]
    ensures HasStringBody(event) ==>
              forall k :: k in r && k !in Body(event, json) ==> r[k] == PathParams(event)[k]
    ensures !HasStringBody(event) ==> r == event
  {
    if !("body" in event && event["body"].Str?) {
      return event;
    }
    var body := match json(event["body"].s) case Some(m) => m case None => map[];
    ghost var decoded := body;
    var pathParams := if Present(Get(event, "pathParameters")) then event["pathParameters"] else Obj(map[]);
    if pathParams.Obj? {
      var params := pathParams.fields;
      var pending := params.Keys;
      while pending != {}
        invariant pending <= params.Keys
        invariant body.Keys == decoded.Keys + (params.Keys - pending)
        invariant forall k :: k in decoded ==> body[k] == decoded[k]
        invariant forall k :: k in body && k !in decoded ==> body[k] == params[k]
        decreases pending
      {
        var k :| k in pending;
        if k !in body {
          body := body[k := params[k]];
        }
        pending := pending - {k};
      }
    }
    r := body;
  }

  /** A body that does not decode leaves exactly the path parameters. */
  lemma UnparseableBody(event: Fields, json: Json)
    requires HasStringBody(event) && json(event["body"].s) == None
    ensures Normalize(event, json) == PathParams(event)
    ensures !("pathParameters" in event && event["pathParameters"].Obj?) ==> Normalize(event, json) == map[]
  {
    assert Body(event, json) == map[];
    assert PathParams(event) + map[] == PathParams(event);
  }

  /** An event without a string body is passed through unchanged. */
  lemma NoStringBody(event: Fields, json: Json)
    requires !HasStringBody(event)
    ensures Normalize(event, json) == event
  {
  }

  /** On a shared key the body's value wins over the path parameter's. */
  lemma BodyWins(event: Fields, json: Json, k: string)
    requires HasStringBody(event)
    requires k in Body(event, json) && k in PathParams(event)
    ensures Normalize(event, json)[k] == Body(event, json)[k]
  {
  }
}
