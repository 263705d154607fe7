/** The glue both handlers share: the HTTP response envelope, reading the
    request body of an API Gateway event, and Python's failures on that body. */
module LambdaHttp {
  import opened Wrappers
  import opened JsonValue

  type Byte = x: int | 0 <= x < 256
  type Bytes = seq<Byte>

  /** The two library codecs, as oracles: `json.loads` and `base64.b64decode`.
      Each returns a value or fails with the text of the exception it raises. */
  datatype Codecs = Codecs(loads: string -> Result<Json>, b64decode: Json -> Result<Bytes>)

  /** What a handler returns to API Gateway. `body` is the object that
      `json.dumps` serialises. */
  datatype Response = Response(statusCode: int, headers: map<string, string>, body: Json)

  const ContentType: string := "application/json"

  /** The only header either handler sets. */
  predicate JsonEnvelope(r: Response)
  {
    r.headers == map["Content-Type" := ContentType]
  }

  /** `_resp(code, obj)`. */
  function Resp(code: int, obj: Json): (r: Response)
    ensures JsonEnvelope(r)
    ensures r.statusCode == code && r.body == obj
  {
    Response(code, map["Content-Type" := ContentType], obj)
  }

  /** `{"error": message}`, the body of every 500. */
  function ErrorBody(message: string): Json
  {
    JObj(map["error" := JStr(message)])
  }

  predicate IsErrorBody(b: Json)
  {
    b.JObj? && b.fields.Keys == {"error"} && b.fields["error"].JStr?
  }

  /** `{"message": message}`, the body of a 404 or 422. */
  function MessageBody(message: string): Json
  {
    JObj(map["message" := JStr(message)])
  }

  /** The request body: a string body is parsed as JSON, any other truthy
      body is used as it is, and a missing or falsy body becomes `{}`.
      `bodyRaw` is the event's `body`, `None` when the key is missing. */
  function DecodeBody(bodyRaw: Option<Json>, loads: string -> Result<Json>): (r: Result<Json>)
    ensures bodyRaw.Some? && bodyRaw.value.JStr? ==> r == loads(bodyRaw.value.s)
    ensures bodyRaw.Some? && !bodyRaw.value.JStr? && Truthy(bodyRaw.value) ==> r == Ok(bodyRaw.value)
    ensures bodyRaw.None? || (!bodyRaw.value.JStr? && !Truthy(bodyRaw.value)) ==> r == Ok(EmptyObject)
    ensures r.Err? ==> bodyRaw.Some? && bodyRaw.value.JStr?
  {
    match bodyRaw
    case Some(JStr(text)) => loads(text)
    case Some(v) => if Truthy(v) then Ok(v) else Ok(EmptyObject)
    case None => Ok(EmptyObject)
  }

  /** `str(e)` of the KeyError raised by `d[key]`: the key's repr. */
  function KeyErrorText(key: string): string
  {
    "'" + key + "'"
  }

  /** `str(e)` of the TypeError CPython (3.11 and later) raises for `v[key]`
      with a string key when `v` is not a dict. */
  function SubscriptErrorText(v: Json): string
  {
    match v
    case JStr(_) => "string indices must be integers, not 'str'"
    case JArr(_) => "list indices must be integers or slices, not str"
    case _ => "'" + PyTypeName(v) + "' object is not subscriptable"
  }

  /** `str(e)` of the AttributeError raised by `v.items()` when `v` is not a dict. */
  function NoItemsText(v: Json): string
  {
    "'" + PyTypeName(v) + "' object has no attribute 'items'"
  }

  /** `body[key]`: the value when `body` is an object holding the key, a
      KeyError when the object lacks it, a TypeError when `body` is no object. */
  function Subscript(body: Json, key: string): (r: Result<Json>)
    ensures r.Ok? <==> body.JObj? && key in body.fields
    ensures r.Ok? ==> r.value == body.fields[key]
    ensures body.JObj? && key !in body.fields ==> r == Err(KeyErrorText(key))
    ensures !body.JObj? ==> r == Err(SubscriptErrorText(body))
  {
    match body
    case JObj(fields) => if key in fields then Ok(fields[key]) else Err(KeyErrorText(key))
    case _ => Err(SubscriptErrorText(body))
  }

  /** `d.get(key, default)` on an object. */
  function GetOr(fields: map<string, Json>, key: string, default: Json): (r: Json)
    ensures key in fields ==> r == fields[key]
    ensures key !in fields ==> r == default
  {
    if key in fields then fields[key] else default
  }
}
