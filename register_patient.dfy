/** The registration handler: index the caller's photo, then store one item
    keyed by `patient_id` holding the indexed face id, two timestamps and the
    caller's string attributes. */
module RegisterPatient {
  import opened Wrappers
  import opened JsonValue
  import opened Decimal
  import opened Dynamo
  import opened LambdaHttp
  import opened Aws

  /** `COLLECTION_ID` and `TABLE_NAME`, read from the environment at import. */
  datatype Config = Config(collectionId: string, tableName: string)

  /** The replies of the two services. `rejectImageId(v)` is the text of the
      parameter-validation error boto3 raises, before sending anything, when
      `index_faces` is given the non-string `v` as `ExternalImageId`. */
  datatype Services = Services(
    indexFaces: IndexFacesRequest -> Result<IndexFacesReply>,
    putItem: PutItemRequest -> Outcome,
    rejectImageId: Json -> string)

  const NoFaceMessage: string := "No face detected or poor quality."

  const FixedKeys: set<string> := {"patient_id", "face_id", "created_at", "updated_at"}

  /** The three fields the handler reads from the request body. */
  datatype Request = Request(image: Json, patientId: Json, attributes: Json)

  /** What one invocation does: the response, the calls it issued, and the item
      it wrote, if any. */
  datatype Invocation = Invocation(response: Response, calls: seq<Call>, written: Option<Item>)

  /** Decode the body, then `body["image_base64"]`, `body["patient_id"]` and
      `body.get("attributes", {})`, failing at the first that raises. */
  function ReadRequest(bodyRaw: Option<Json>, loads: string -> Result<Json>): (r: Result<Request>)
    ensures r.Ok? <==>
      DecodeBody(bodyRaw, loads).Ok? &&
      var body := DecodeBody(bodyRaw, loads).value;
      body.JObj? && "image_base64" in body.fields && "patient_id" in body.fields
    ensures r.Ok? ==>
      var fields := DecodeBody(bodyRaw, loads).value.fields;
      r.value == Request(fields["image_base64"], fields["patient_id"], GetOr(fields, "attributes", EmptyObject))
  {
    match DecodeBody(bodyRaw, loads)
    case Err(m) => Err(m)
    case Ok(body) =>
      match Subscript(body, "image_base64")
      case Err(m) => Err(m)
      case Ok(image) =>
        match Subscript(body, "patient_id")
        case Err(m) => Err(m)
        case Ok(patientId) => Ok(Request(image, patientId, GetOr(body.fields, "attributes", EmptyObject)))
  }

  /** The arguments of the `index_faces` call: at most one face, default
      attributes, automatic quality filter, the patient id as external id. */
  function IndexRequest(cfg: Config, image: Bytes, patientId: string): (r: IndexFacesRequest)
    ensures r.collectionId == cfg.collectionId && r.image == image && r.externalImageId == patientId
    ensures r.maxFaces == 1 && r.qualityFilter == "AUTO" && r.detectionAttributes == ["DEFAULT"]
  {
    IndexFacesRequest(cfg.collectionId, image, patientId, ["DEFAULT"], 1, "AUTO")
  }

  /** The four fields every stored item starts with: the two ids as strings,
      the two timestamps as numbers. */
  function FixedFields(patientId: string, faceId: string, createdMs: nat, updatedMs: nat): Item
  {
    map[
      "patient_id" := S(patientId),
      "face_id" := S(faceId),
      "created_at" := N(NatToDecimal(createdMs)),
      "updated_at" := N(NatToDecimal(updatedMs))]
  }

  /** The attributes among `keys` whose values are strings. */
  function StringKeys(attrs: map<string, Json>, keys: set<string>): set<string>
  {
    set k | k in keys && k in attrs && attrs[k].JStr?
  }

  /** `base` after copying in, as `{'S': v}`, every string attribute whose
      name is in `keys`. */
  function Overlay(base: Item, attrs: map<string, Json>, keys: set<string>): Item
  {
    map k | k in base.Keys + StringKeys(attrs, keys) ::
      if k in StringKeys(attrs, keys) then S(attrs[k].s) else base[k]
  }

  /** The item the handler stores: the fixed fields, then every string
      attribute written over them. */
  function StoredItem(patientId: string, faceId: string, createdMs: nat, updatedMs: nat, attrs: map<string, Json>): (item: Item)
    ensures item.Keys == FixedKeys + (set k | k in attrs && attrs[k].JStr?)
    ensures forall k :: k in attrs && attrs[k].JStr? ==> item[k] == S(attrs[k].s)
    ensures forall k :: k in attrs && !attrs[k].JStr? && k !in FixedKeys ==> k !in item
    ensures "patient_id" !in attrs || !attrs["patient_id"].JStr? ==> item["patient_id"] == S(patientId)
    ensures "face_id" !in attrs || !attrs["face_id"].JStr? ==> item["face_id"] == S(faceId)
    ensures "created_at" !in attrs || !attrs["created_at"].JStr? ==> item["created_at"] == N(NatToDecimal(createdMs))
    ensures "updated_at" !in attrs || !attrs["updated_at"].JStr? ==> item["updated_at"] == N(NatToDecimal(updatedMs))
    ensures forall k :: k in item && item[k].N? ==> k in {"created_at", "updated_at"}
    ensures item["patient_id"].S?
  {
    Overlay(FixedFields(patientId, faceId, createdMs, updatedMs), attrs, attrs.Keys)
  }

  /** Build the item: the fixed fields, then copy the string attributes
      in, one key at a time. */
  method ItemFor(patientId: string, faceId: string, createdMs: nat, updatedMs: nat, attrs: map<string, Json>)
    returns (item: Item)
    ensures item == StoredItem(patientId, faceId, createdMs, updatedMs, attrs)
  {
    ghost var base := FixedFields(patientId, faceId, createdMs, updatedMs);
    item := map[
      "patient_id" := S(patientId),
      "face_id" := S(faceId),
      "created_at" := N(NatToDecimal(createdMs)),
      "updated_at" := N(NatToDecimal(updatedMs))];
    var todo := attrs.Keys;
    while todo != {}
      invariant todo <= attrs.Keys
      invariant item == Overlay(base, attrs, attrs.Keys - todo)
      decreases todo
    {
      var k :| k in todo;
      ghost var done := attrs.Keys - todo;
      if attrs[k].JStr? {
        item := item[k := S(attrs[k].s)];
      }
      todo := todo - {k};
      assert attrs.Keys - todo == done + {k};
    }
  }

  /** The DynamoDB primary key of an item. */
  function PrimaryKey(item: Item): string
    requires "patient_id" in item && item["patient_id"].S?
  {
    item["patient_id"].s
  }

  /** The whole handler, as a function of its inputs: `bodyRaw` is
      `event.get("body")`, `createdMs` and `updatedMs` the two clock readings
      taken for the timestamps. */
  function Handle(cfg: Config, codecs: Codecs, services: Services, bodyRaw: Option<Json>, createdMs: nat, updatedMs: nat): (o: Invocation)
    ensures JsonEnvelope(o.response)
    ensures o.response.statusCode in {201, 422, 500}
    ensures o.written.Some? <==> o.response.statusCode == 201
    ensures o.response.statusCode == 422 ==> o.response.body == MessageBody(NoFaceMessage)
    ensures o.response.statusCode == 500 ==> IsErrorBody(o.response.body)
    ensures o.response.statusCode == 201 ==>
      && |o.calls| == 2 && o.calls[0].IndexFaces?
      && o.calls[1] == PutItem(PutItemRequest(cfg.tableName, o.written.value))
      && o.response.body.JObj? && o.response.body.fields.Keys == {"patient_id", "face_id"}
      && o.response.body.fields["patient_id"] == JStr(o.calls[0].index.externalImageId)
      && o.response.body.fields["face_id"].JStr?
    ensures o.written.Some? ==> FixedKeys <= o.written.value.Keys && o.written.value["patient_id"].S?
  {
    match ReadRequest(bodyRaw, codecs.loads)
    case Err(m) => Invocation(Resp(500, ErrorBody(m)), [], None)
    case Ok(req) =>
      match codecs.b64decode(req.image)
      case Err(m) => Invocation(Resp(500, ErrorBody(m)), [], None)
      case Ok(bytes) =>
        if !req.patientId.JStr? then
          Invocation(Resp(500, ErrorBody(services.rejectImageId(req.patientId))), [], None)
        else
          var ix := IndexRequest(cfg, bytes, req.patientId.s);
          match services.indexFaces(ix)
          case Err(m) => Invocation(Resp(500, ErrorBody(m)), [IndexFaces(ix)], None)
          case Ok(reply) =>
            if reply.faceRecords.None? || reply.faceRecords.value == [] then
              Invocation(Resp(422, MessageBody(NoFaceMessage)), [IndexFaces(ix)], None)
            else
              var faceId := reply.faceRecords.value[0].faceId;
              if !req.attributes.JObj? then
                Invocation(Resp(500, ErrorBody(NoItemsText(req.attributes))), [IndexFaces(ix)], None)
              else
                var item := StoredItem(req.patientId.s, faceId, createdMs, updatedMs, req.attributes.fields);
                var put := PutItemRequest(cfg.tableName, item);
                match services.putItem(put)
                case Fail(m) => Invocation(Resp(500, ErrorBody(m)), [IndexFaces(ix), PutItem(put)], None)
                case Pass =>
                  Invocation(
                    Resp(201, JObj(map["patient_id" := req.patientId, "face_id" := JStr(faceId)])),
                    [IndexFaces(ix), PutItem(put)],
                    Some(item))
  }

  /** A body that is not valid JSON fails before any call: 500 and no write. */
  lemma InvalidJsonIs500(cfg: Config, codecs: Codecs, services: Services, text: string, createdMs: nat, updatedMs: nat)
    requires codecs.loads(text).Err?
    ensures var o := Handle(cfg, codecs, services, Some(JStr(text)), createdMs, updatedMs);
      o.response == Resp(500, ErrorBody(codecs.loads(text).message)) && o.calls == [] && o.written == None
  {
  }

  /** A body object without `image_base64`, or with it but without
      `patient_id`, gives 500 with the KeyError text, before any call. */
  lemma MissingFieldIs500(cfg: Config, codecs: Codecs, services: Services, bodyRaw: Option<Json>, createdMs: nat, updatedMs: nat)
    requires DecodeBody(bodyRaw, codecs.loads).Ok? && DecodeBody(bodyRaw, codecs.loads).value.JObj?
    requires var fields := DecodeBody(bodyRaw, codecs.loads).value.fields;
      "image_base64" !in fields || "patient_id" !in fields
    ensures var fields := DecodeBody(bodyRaw, codecs.loads).value.fields;
      var o := Handle(cfg, codecs, services, bodyRaw, createdMs, updatedMs);
      && o.response == Resp(500, ErrorBody(KeyErrorText(if "image_base64" !in fields then "image_base64" else "patient_id")))
      && o.calls == [] && o.written == None
  {
  }

  /** An image that does not decode gives 500 with the decoder's text, and
      no service is called. */
  lemma BadImageIs500(cfg: Config, codecs: Codecs, services: Services, bodyRaw: Option<Json>, createdMs: nat, updatedMs: nat)
    requires ReadRequest(bodyRaw, codecs.loads).Ok?
    requires codecs.b64decode(ReadRequest(bodyRaw, codecs.loads).value.image).Err?
    ensures var o := Handle(cfg, codecs, services, bodyRaw, createdMs, updatedMs);
      && o.response == Resp(500, ErrorBody(codecs.b64decode(ReadRequest(bodyRaw, codecs.loads).value.image).message))
      && o.calls == [] && o.written == None
  {
  }

  /** A `patient_id` that is not a string is refused by boto3 before
      `index_faces` sends anything: 500 with that text, no call, no write. */
  lemma NonStringPatientIdIs500(cfg: Config, codecs: Codecs, services: Services, bodyRaw: Option<Json>, createdMs: nat, updatedMs: nat)
    requires ReadRequest(bodyRaw, codecs.loads).Ok?
    requires codecs.b64decode(ReadRequest(bodyRaw, codecs.loads).value.image).Ok?
    requires !ReadRequest(bodyRaw, codecs.loads).value.patientId.JStr?
    ensures var o := Handle(cfg, codecs, services, bodyRaw, createdMs, updatedMs);
      && o.response == Resp(500, ErrorBody(services.rejectImageId(ReadRequest(bodyRaw, codecs.loads).value.patientId)))
      && o.calls == [] && o.written == None
  {
  }

  /** The request reached `index_faces`, with `image` decoded to `bytes` and
      a string `patient_id`. */
  predicate Indexed(cfg: Config, codecs: Codecs, services: Services, bodyRaw: Option<Json>, bytes: Bytes)
  {
    && ReadRequest(bodyRaw, codecs.loads).Ok?
    && codecs.b64decode(ReadRequest(bodyRaw, codecs.loads).value.image) == Ok(bytes)
    && ReadRequest(bodyRaw, codecs.loads).value.patientId.JStr?
  }

  /** The `index_faces` call the handler issues once the body has been read. */
  function IndexCall(cfg: Config, codecs: Codecs, bodyRaw: Option<Json>, bytes: Bytes): IndexFacesRequest
    requires ReadRequest(bodyRaw, codecs.loads).Ok? && ReadRequest(bodyRaw, codecs.loads).value.patientId.JStr?
  {
    IndexRequest(cfg, bytes, ReadRequest(bodyRaw, codecs.loads).value.patientId.s)
  }

  /** An `index_faces` failure gives 500 with its text; nothing is written. */
  lemma IndexFailureIs500(cfg: Config, codecs: Codecs, services: Services, bodyRaw: Option<Json>, bytes: Bytes, createdMs: nat, updatedMs: nat)
    requires Indexed(cfg, codecs, services, bodyRaw, bytes)
    requires services.indexFaces(IndexCall(cfg, codecs, bodyRaw, bytes)).Err?
    ensures var o := Handle(cfg, codecs, services, bodyRaw, createdMs, updatedMs);
      && o.response == Resp(500, ErrorBody(services.indexFaces(IndexCall(cfg, codecs, bodyRaw, bytes)).message))
      && o.calls == [IndexFaces(IndexCall(cfg, codecs, bodyRaw, bytes))] && o.written == None
  {
  }

  /** No face record, whether the key is missing or its list is empty: 422,
      one call, and nothing written. */
  lemma NoFaceIs422(cfg: Config, codecs: Codecs, services: Services, bodyRaw: Option<Json>, bytes: Bytes, createdMs: nat, updatedMs: nat)
    requires Indexed(cfg, codecs, services, bodyRaw, bytes)
    requires var reply := services.indexFaces(IndexCall(cfg, codecs, bodyRaw, bytes));
      reply.Ok? && (reply.value.faceRecords.None? || reply.value.faceRecords.value == [])
    ensures var o := Handle(cfg, codecs, services, bodyRaw, createdMs, updatedMs);
      && o.response == Resp(422, MessageBody(NoFaceMessage))
      && o.calls == [IndexFaces(IndexCall(cfg, codecs, bodyRaw, bytes))] && o.written == None
  {
  }

  /** The request reached the attribute loop: a face was indexed. */
  predicate FaceIndexed(cfg: Config, codecs: Codecs, services: Services, bodyRaw: Option<Json>, bytes: Bytes)
  {
    && Indexed(cfg, codecs, services, bodyRaw, bytes)
    && var reply := services.indexFaces(IndexCall(cfg, codecs, bodyRaw, bytes));
       reply.Ok? && reply.value.faceRecords.Some? && reply.value.faceRecords.value != []
  }

  /** The face id of the first record `index_faces` returned. */
  function IndexedFaceId(cfg: Config, codecs: Codecs, services: Services, bodyRaw: Option<Json>, bytes: Bytes): string
    requires FaceIndexed(cfg, codecs, services, bodyRaw, bytes)
  {
    services.indexFaces(IndexCall(cfg, codecs, bodyRaw, bytes)).value.faceRecords.value[0].faceId
  }

  /** `attributes` that is not an object makes `.items()` raise after the face
      was indexed: 500, the face stays in the collection, nothing is stored. */
  lemma BadAttributesOrphanFace(cfg: Config, codecs: Codecs, services: Services, bodyRaw: Option<Json>, bytes: Bytes, createdMs: nat, updatedMs: nat)
    requires FaceIndexed(cfg, codecs, services, bodyRaw, bytes)
    requires !ReadRequest(bodyRaw, codecs.loads).value.attributes.JObj?
    ensures var o := Handle(cfg, codecs, services, bodyRaw, createdMs, updatedMs);
      && o.response == Resp(500, ErrorBody(NoItemsText(ReadRequest(bodyRaw, codecs.loads).value.attributes)))
      && o.calls == [IndexFaces(IndexCall(cfg, codecs, bodyRaw, bytes))] && o.written == None
  {
  }

  /** A face was indexed and the attributes are an object, so the handler
      builds its item. */
  predicate ItemBuilt(cfg: Config, codecs: Codecs, services: Services, bodyRaw: Option<Json>, bytes: Bytes)
  {
    && FaceIndexed(cfg, codecs, services, bodyRaw, bytes)
    && ReadRequest(bodyRaw, codecs.loads).value.attributes.JObj?
  }

  function BuiltItem(cfg: Config, codecs: Codecs, services: Services, bodyRaw: Option<Json>, bytes: Bytes, createdMs: nat, updatedMs: nat): Item
    requires ItemBuilt(cfg, codecs, services, bodyRaw, bytes)
  {
    var req := ReadRequest(bodyRaw, codecs.loads).value;
    StoredItem(req.patientId.s, IndexedFaceId(cfg, codecs, services, bodyRaw, bytes), createdMs, updatedMs, req.attributes.fields)
  }

  /** A failing `put_item` gives 500 with its text, and nothing is written. */
  lemma PutFailureIs500(cfg: Config, codecs: Codecs, services: Services, bodyRaw: Option<Json>, bytes: Bytes, createdMs: nat, updatedMs: nat)
    requires ItemBuilt(cfg, codecs, services, bodyRaw, bytes)
    requires services.putItem(PutItemRequest(cfg.tableName, BuiltItem(cfg, codecs, services, bodyRaw, bytes, createdMs, updatedMs))).Fail?
    ensures var o := Handle(cfg, codecs, services, bodyRaw, createdMs, updatedMs);
      var put := PutItemRequest(cfg.tableName, BuiltItem(cfg, codecs, services, bodyRaw, bytes, createdMs, updatedMs));
      && o.response == Resp(500, ErrorBody(services.putItem(put).message))
      && o.calls == [IndexFaces(IndexCall(cfg, codecs, bodyRaw, bytes)), PutItem(put)]
      && o.written == None
  {
  }

  /** Success: 201 with exactly the request's `patient_id` and the first
      record's face id, and the built item written to the table. */
  lemma RegisteredIs201(cfg: Config, codecs: Codecs, services: Services, bodyRaw: Option<Json>, bytes: Bytes, createdMs: nat, updatedMs: nat)
    requires ItemBuilt(cfg, codecs, services, bodyRaw, bytes)
    requires services.putItem(PutItemRequest(cfg.tableName, BuiltItem(cfg, codecs, services, bodyRaw, bytes, createdMs, updatedMs))).Pass?
    ensures var o := Handle(cfg, codecs, services, bodyRaw, createdMs, updatedMs);
      var req := ReadRequest(bodyRaw, codecs.loads).value;
      && o.response == Resp(201, JObj(map[
           "patient_id" := req.patientId,
           "face_id" := JStr(IndexedFaceId(cfg, codecs, services, bodyRaw, bytes))]))
      && o.written == Some(BuiltItem(cfg, codecs, services, bodyRaw, bytes, createdMs, updatedMs))
      && o.calls == [IndexFaces(IndexCall(cfg, codecs, bodyRaw, bytes)),
                     PutItem(PutItemRequest(cfg.tableName, BuiltItem(cfg, codecs, services, bodyRaw, bytes, createdMs, updatedMs)))]
  {
  }

  /** Attributes are applied after the fixed fields: a string attribute named
      `patient_id` or `face_id` replaces that field in the stored item, and so
      moves the item to another primary key, while the 201 body still reports
      the request's `patient_id` and the indexed face id. */
  lemma AttributesOverrideKeys(cfg: Config, codecs: Codecs, services: Services, bodyRaw: Option<Json>, bytes: Bytes, createdMs: nat, updatedMs: nat)
    requires ItemBuilt(cfg, codecs, services, bodyRaw, bytes)
    requires services.putItem(PutItemRequest(cfg.tableName, BuiltItem(cfg, codecs, services, bodyRaw, bytes, createdMs, updatedMs))).Pass?
    ensures var o := Handle(cfg, codecs, services, bodyRaw, createdMs, updatedMs);
      var attrs := ReadRequest(bodyRaw, codecs.loads).value.attributes.fields;
      && ("patient_id" in attrs && attrs["patient_id"].JStr? ==>
            PrimaryKey(o.written.value) == attrs["patient_id"].s
            && o.response.body.fields["patient_id"] == ReadRequest(bodyRaw, codecs.loads).value.patientId)
      && ("face_id" in attrs && attrs["face_id"].JStr? ==>
            o.written.value["face_id"] == S(attrs["face_id"].s)
            && o.response.body.fields["face_id"] == JStr(IndexedFaceId(cfg, codecs, services, bodyRaw, bytes)))
  {
    RegisteredIs201(cfg, codecs, services, bodyRaw, bytes, createdMs, updatedMs);
  }

  /** The table after an invocation that wrote `written`, if anything:
      `put_item` replaces whatever item had the same primary key. */
  function AfterWrite(items: map<string, Item>, written: Option<Item>): map<string, Item>
    requires written.Some? ==> "patient_id" in written.value && written.value["patient_id"].S?
  {
    match written
    case None => items
    case Some(item) => items[PrimaryKey(item) := item]
  }

  /** The patient table, keyed by `patient_id`. */
  class PatientTable {
    var items: map<string, Item>

    constructor (items: map<string, Item>)
      ensures this.items == items
    {
      this.items := items;
    }

    /** `ddb.put_item(Item=item)`: the item replaces the one under its key. */
    method PutItem(item: Item)
      requires "patient_id" in item && item["patient_id"].S?
      modifies this
      ensures items == old(items)[PrimaryKey(item) := item]
    {
      items := items[item["patient_id"].s := item];
    }
  }

  /** `handler(event, context)`, step by step, writing to `table` only on the
      success path. */
  method Handler(table: PatientTable, cfg: Config, codecs: Codecs, services: Services,
                 bodyRaw: Option<Json>, createdMs: nat, updatedMs: nat)
    returns (resp: Response, calls: seq<Call>)
    modifies table
    ensures var o := Handle(cfg, codecs, services, bodyRaw, createdMs, updatedMs);
      resp == o.response && calls == o.calls && table.items == AfterWrite(old(table.items), o.written)
  {
    calls := [];
    var req := ReadRequest(bodyRaw, codecs.loads);
    if req.Err? {
      return Resp(500, ErrorBody(req.message)), calls;
    }
    var image := codecs.b64decode(req.value.image);
    if image.Err? {
      return Resp(500, ErrorBody(image.message)), calls;
    }
    var patientId := req.value.patientId;
    if !patientId.JStr? {
      return Resp(500, ErrorBody(services.rejectImageId(patientId))), calls;
    }
    var ix := IndexRequest(cfg, image.value, patientId.s);
    var idx := services.indexFaces(ix);
    calls := calls + [IndexFaces(ix)];
    if idx.Err? {
      return Resp(500, ErrorBody(idx.message)), calls;
    }
    if idx.value.faceRecords.None? || idx.value.faceRecords.value == [] {
      return Resp(422, MessageBody(NoFaceMessage)), calls;
    }
    var faceId := idx.value.faceRecords.value[0].faceId;
    var attrs := req.value.attributes;
    if !attrs.JObj? {
      return Resp(500, ErrorBody(NoItemsText(attrs))), calls;
    }
    var item := ItemFor(patientId.s, faceId, createdMs, updatedMs, attrs.fields);
    var put := PutItemRequest(cfg.tableName, item);
    var written := services.putItem(put);
    calls := calls + [PutItem(put)];
    if written.Fail? {
      return Resp(500, ErrorBody(written.message)), calls;
    }
    table.PutItem(item);
    resp := Resp(201, JObj(map["patient_id" := patientId, "face_id" := JStr(faceId)]));
  }
}
