/** The identification handler: search the collection for the face in the
    caller's photo, look the best match's face id up on the table's
    `face_id-index`, and return the stored item flattened, plus the score. */
module IdentifyPatient {
  import opened Wrappers
  import opened JsonValue
  import opened Dynamo
  import opened LambdaHttp
  import opened Aws

  const DefaultMatchThreshold: string := "95"

  /** The match threshold, read once at import: Python's `float` (here
      `toFloat`) of the `MATCH_THRESHOLD` setting, or of "95" when it is unset. */
  function MatchThreshold(setting: Option<string>, toFloat: string -> Result<real>): (r: Result<real>)
    ensures setting.None? ==> r == toFloat(DefaultMatchThreshold)
    ensures setting.Some? ==> r == toFloat(setting.value)
  {
    match setting
    case None => toFloat(DefaultMatchThreshold)
    case Some(text) => toFloat(text)
  }

  /** `COLLECTION_ID`, `TABLE_NAME` and the parsed threshold. */
  datatype Config = Config(collectionId: string, tableName: string, threshold: real)

  /** The configuration the module builds at import; it exists only when the
      threshold setting parses. */
  function ConfigOf(collectionId: string, tableName: string, setting: Option<string>, toFloat: string -> Result<real>): (r: Result<Config>)
    ensures r.Ok? <==> MatchThreshold(setting, toFloat).Ok?
    ensures r.Ok? ==> r.value == Config(collectionId, tableName, MatchThreshold(setting, toFloat).value)
  {
    match MatchThreshold(setting, toFloat)
    case Err(m) => Err(m)
    case Ok(threshold) => Ok(Config(collectionId, tableName, threshold))
  }

  /** The replies of the two services. */
  datatype Services = Services(
    searchFaces: SearchFacesRequest -> Result<SearchFacesReply>,
    query: QueryRequest -> Result<QueryReply>)

  const NoMatchMessage: string := "No confident match"
  const NoRecordMessage: string := "Face mapped but no patient record"
  const FaceIndex: string := "face_id-index"

  /** What one invocation does: the response and the calls it issued. */
  datatype Invocation = Invocation(response: Response, calls: seq<Call>)

  /** The arguments of the `search_faces_by_image` call: the configured
      threshold, unchanged, and at most one match. */
  function SearchRequest(cfg: Config, image: Bytes): (r: SearchFacesRequest)
    ensures r.collectionId == cfg.collectionId && r.image == image
    ensures r.faceMatchThreshold == cfg.threshold && r.maxFaces == 1
  {
    SearchFacesRequest(cfg.collectionId, image, cfg.threshold, 1)
  }

  /** The arguments of the `query` call: one item of the face-id index whose
      `face_id` is `faceId`. */
  function LookupRequest(cfg: Config, faceId: string): (r: QueryRequest)
    ensures r.tableName == cfg.tableName && r.indexName == FaceIndex && r.limit == 1
    ensures r.keyConditionExpression == "face_id = :f"
    ensures r.expressionAttributeValues == map[":f" := S(faceId)]
  {
    QueryRequest(cfg.tableName, FaceIndex, "face_id = :f", map[":f" := S(faceId)], 1)
  }

  /** The item with each typed wrapper replaced by the single value inside it. */
  function Flatten(item: Item): map<string, Json>
  {
    map k | k in item :: JStr(item[k].Payload())
  }

  /** Wraps every value of a flat string map as `{'S': v}`. */
  function WrapStrings(m: map<string, Json>): Item
    requires forall k :: k in m ==> m[k].JStr?
  {
    map k | k in m :: S(m[k].s)
  }

  /** For an item of string values only, wrapping undoes flattening. */
  lemma {:induction false} FlattenWrapRoundTrip(item: Item)
    requires forall k :: k in item ==> item[k].S?
    ensures forall k :: k in Flatten(item) ==> Flatten(item)[k].JStr?
    ensures WrapStrings(Flatten(item)) == item
  {
    var back := WrapStrings(Flatten(item));
    forall k | k in item
      ensures k in back && back[k] == item[k]
    {
      assert item[k] == S(item[k].s);
    }
  }

  /** The 200 body: the flattened item with the match's score written over
      any stored attribute named `similarity`. */
  function Identified(item: Item, similarity: real): (r: map<string, Json>)
    ensures r.Keys == item.Keys + {"similarity"}
    ensures r["similarity"] == JFloat(similarity)
    ensures forall k :: k in item && k != "similarity" ==> r[k] == JStr(item[k].Payload())
  {
    Flatten(item)["similarity" := JFloat(similarity)]
  }

  /** Decode the body, then `body["image_base64"]`. */
  function ReadImage(bodyRaw: Option<Json>, loads: string -> Result<Json>): (r: Result<Json>)
    ensures r.Ok? <==>
      DecodeBody(bodyRaw, loads).Ok? &&
      DecodeBody(bodyRaw, loads).value.JObj? && "image_base64" in DecodeBody(bodyRaw, loads).value.fields
    ensures r.Ok? ==> r.value == DecodeBody(bodyRaw, loads).value.fields["image_base64"]
  {
    match DecodeBody(bodyRaw, loads)
    case Err(m) => Err(m)
    case Ok(body) => Subscript(body, "image_base64")
  }

  /** The whole handler, as a function of its inputs; `bodyRaw` is
      `event.get("body")`. */
  function Handle(cfg: Config, codecs: Codecs, services: Services, bodyRaw: Option<Json>): (o: Invocation)
    ensures JsonEnvelope(o.response)
    ensures o.response.statusCode in {200, 404, 500}
    ensures o.response.statusCode == 404 ==>
      o.response.body == MessageBody(NoMatchMessage) || o.response.body == MessageBody(NoRecordMessage)
    ensures o.response.statusCode == 500 ==> IsErrorBody(o.response.body)
    ensures o.response.statusCode == 200 ==>
      && |o.calls| == 2 && o.calls[0].SearchFaces? && o.calls[1].Query?
      && o.response.body.JObj? && "similarity" in o.response.body.fields
      && o.response.body.fields["similarity"].JFloat?
    ensures |o.calls| <= 2
    ensures |o.calls| >= 1 ==> o.calls[0].SearchFaces?
    ensures |o.calls| == 2 ==> o.calls[1].Query?
  {
    match ReadImage(bodyRaw, codecs.loads)
    case Err(m) => Invocation(Resp(500, ErrorBody(m)), [])
    case Ok(image) =>
      match codecs.b64decode(image)
      case Err(m) => Invocation(Resp(500, ErrorBody(m)), [])
      case Ok(bytes) =>
        var search := SearchRequest(cfg, bytes);
        match services.searchFaces(search)
        case Err(m) => Invocation(Resp(500, ErrorBody(m)), [SearchFaces(search)])
        case Ok(res) =>
          if res.faceMatches.None? || res.faceMatches.value == [] then
            Invocation(Resp(404, MessageBody(NoMatchMessage)), [SearchFaces(search)])
          else
            var best := res.faceMatches.value[0];
            var lookup := LookupRequest(cfg, best.faceId);
            match services.query(lookup)
            case Err(m) => Invocation(Resp(500, ErrorBody(m)), [SearchFaces(search), Query(lookup)])
            case Ok(q) =>
              if q.items.None? || q.items.value == [] then
                Invocation(Resp(404, MessageBody(NoRecordMessage)), [SearchFaces(search), Query(lookup)])
              else
                Invocation(
                  Resp(200, JObj(Identified(q.items.value[0], best.similarity))),
                  [SearchFaces(search), Query(lookup)])
  }

  /** A body that is not valid JSON gives 500 with the parser's text, and no
      service is called. */
  lemma InvalidJsonIs500(cfg: Config, codecs: Codecs, services: Services, text: string)
    requires codecs.loads(text).Err?
    ensures var o := Handle(cfg, codecs, services, Some(JStr(text)));
      o.response == Resp(500, ErrorBody(codecs.loads(text).message)) && o.calls == []
  {
  }

  /** A body object without `image_base64` gives 500 with the KeyError text. */
  lemma MissingImageIs500(cfg: Config, codecs: Codecs, services: Services, bodyRaw: Option<Json>)
    requires DecodeBody(bodyRaw, codecs.loads).Ok? && DecodeBody(bodyRaw, codecs.loads).value.JObj?
    requires "image_base64" !in DecodeBody(bodyRaw, codecs.loads).value.fields
    ensures var o := Handle(cfg, codecs, services, bodyRaw);
      o.response == Resp(500, ErrorBody(KeyErrorText("image_base64"))) && o.calls == []
  {
  }

  /** An image that does not decode gives 500 with the decoder's text, and no
      service is called. */
  lemma BadImageIs500(cfg: Config, codecs: Codecs, services: Services, bodyRaw: Option<Json>)
    requires ReadImage(bodyRaw, codecs.loads).Ok? && codecs.b64decode(ReadImage(bodyRaw, codecs.loads).value).Err?
    ensures var o := Handle(cfg, codecs, services, bodyRaw);
      o.response == Resp(500, ErrorBody(codecs.b64decode(ReadImage(bodyRaw, codecs.loads).value).message)) && o.calls == []
  {
  }

  /** The request reached the face search, with the image decoded to `bytes`. */
  predicate Searched(cfg: Config, codecs: Codecs, services: Services, bodyRaw: Option<Json>, bytes: Bytes)
  {
    ReadImage(bodyRaw, codecs.loads).Ok? && codecs.b64decode(ReadImage(bodyRaw, codecs.loads).value) == Ok(bytes)
  }

  /** A failing search gives 500 with its text. */
  lemma SearchFailureIs500(cfg: Config, codecs: Codecs, services: Services, bodyRaw: Option<Json>, bytes: Bytes)
    requires Searched(cfg, codecs, services, bodyRaw, bytes)
    requires services.searchFaces(SearchRequest(cfg, bytes)).Err?
    ensures var o := Handle(cfg, codecs, services, bodyRaw);
      && o.response == Resp(500, ErrorBody(services.searchFaces(SearchRequest(cfg, bytes)).message))
      && o.calls == [SearchFaces(SearchRequest(cfg, bytes))]
  {
  }

  /** No match, whether the key is missing or its list is empty: 404 "No
      confident match", and the table is never queried. */
  lemma NoMatchIs404(cfg: Config, codecs: Codecs, services: Services, bodyRaw: Option<Json>, bytes: Bytes)
    requires Searched(cfg, codecs, services, bodyRaw, bytes)
    requires var res := services.searchFaces(SearchRequest(cfg, bytes));
      res.Ok? && (res.value.faceMatches.None? || res.value.faceMatches.value == [])
    ensures var o := Handle(cfg, codecs, services, bodyRaw);
      && o.response == Resp(404, MessageBody(NoMatchMessage))
      && o.calls == [SearchFaces(SearchRequest(cfg, bytes))]
      && forall i :: 0 <= i < |o.calls| ==> !o.calls[i].Query?
  {
  }

  /** The search returned at least one match. */
  predicate Matched(cfg: Config, codecs: Codecs, services: Services, bodyRaw: Option<Json>, bytes: Bytes)
  {
    && Searched(cfg, codecs, services, bodyRaw, bytes)
    && var res := services.searchFaces(SearchRequest(cfg, bytes));
       res.Ok? && res.value.faceMatches.Some? && res.value.faceMatches.value != []
  }

  /** The first match of the search. */
  function BestMatch(cfg: Config, codecs: Codecs, services: Services, bodyRaw: Option<Json>, bytes: Bytes): FaceMatch
    requires Matched(cfg, codecs, services, bodyRaw, bytes)
  {
    services.searchFaces(SearchRequest(cfg, bytes)).value.faceMatches.value[0]
  }

  /** Whatever the setting, and 95 when it is unset: an invocation that
      reaches the search passes the configured threshold to it unchanged. */
  lemma ThresholdReachesSearch(collectionId: string, tableName: string, setting: Option<string>, toFloat: string -> Result<real>,
                               codecs: Codecs, services: Services, bodyRaw: Option<Json>, bytes: Bytes)
    requires ConfigOf(collectionId, tableName, setting, toFloat).Ok?
    requires Searched(ConfigOf(collectionId, tableName, setting, toFloat).value, codecs, services, bodyRaw, bytes)
    ensures var o := Handle(ConfigOf(collectionId, tableName, setting, toFloat).value, codecs, services, bodyRaw);
      && |o.calls| >= 1 && o.calls[0].SearchFaces?
      && o.calls[0].search.faceMatchThreshold == MatchThreshold(setting, toFloat).value
      && (setting.None? ==> o.calls[0].search.faceMatchThreshold == toFloat(DefaultMatchThreshold).value)
  {
  }

  /** Once a face matched, the second and last call is a query for exactly the
      first match's face id on `face_id-index`. */
  lemma LookupUsesFirstMatch(cfg: Config, codecs: Codecs, services: Services, bodyRaw: Option<Json>, bytes: Bytes)
    requires Matched(cfg, codecs, services, bodyRaw, bytes)
    ensures var o := Handle(cfg, codecs, services, bodyRaw);
      o.calls == [SearchFaces(SearchRequest(cfg, bytes)), Query(LookupRequest(cfg, BestMatch(cfg, codecs, services, bodyRaw, bytes).faceId))]
  {
  }

  /** A failing query gives 500 with its text. */
  lemma QueryFailureIs500(cfg: Config, codecs: Codecs, services: Services, bodyRaw: Option<Json>, bytes: Bytes)
    requires Matched(cfg, codecs, services, bodyRaw, bytes)
    requires services.query(LookupRequest(cfg, BestMatch(cfg, codecs, services, bodyRaw, bytes).faceId)).Err?
    ensures var o := Handle(cfg, codecs, services, bodyRaw);
      o.response == Resp(500, ErrorBody(services.query(LookupRequest(cfg, BestMatch(cfg, codecs, services, bodyRaw, bytes).faceId)).message))
  {
  }

  /** A face matched but the index holds no item for it: 404 "Face mapped but
      no patient record". */
  lemma NoRecordIs404(cfg: Config, codecs: Codecs, services: Services, bodyRaw: Option<Json>, bytes: Bytes)
    requires Matched(cfg, codecs, services, bodyRaw, bytes)
    requires var q := services.query(LookupRequest(cfg, BestMatch(cfg, codecs, services, bodyRaw, bytes).faceId));
      q.Ok? && (q.value.items.None? || q.value.items.value == [])
    ensures Handle(cfg, codecs, services, bodyRaw).response == Resp(404, MessageBody(NoRecordMessage))
  {
  }

  /** Success: 200 with the first returned item flattened and the first
      match's score as `similarity`, whatever that score is relative to the
      threshold: the handler compares nothing itself. */
  lemma IdentifiedIs200(cfg: Config, codecs: Codecs, services: Services, bodyRaw: Option<Json>, bytes: Bytes)
    requires Matched(cfg, codecs, services, bodyRaw, bytes)
    requires var q := services.query(LookupRequest(cfg, BestMatch(cfg, codecs, services, bodyRaw, bytes).faceId));
      q.Ok? && q.value.items.Some? && q.value.items.value != []
    ensures var o := Handle(cfg, codecs, services, bodyRaw);
      var best := BestMatch(cfg, codecs, services, bodyRaw, bytes);
      var item := services.query(LookupRequest(cfg, best.faceId)).value.items.value[0];
      && o.response == Resp(200, JObj(Identified(item, best.similarity)))
      && o.response.body.fields.Keys == item.Keys + {"similarity"}
      && o.response.body.fields["similarity"] == JFloat(best.similarity)
  {
  }
}
