/** What the two handlers promise together: an item stored by registration,
    read back by identification, gives back what the caller registered. */
module CheckIn {
  import opened Wrappers
  import opened JsonValue
  import opened Decimal
  import opened Dynamo
  import opened LambdaHttp
  import opened Aws
  import Register = RegisterPatient
  import Identify = IdentifyPatient

  /** Flattening a registered item yields the patient id, the face id and
      every string attribute with its original value, plus the two timestamps
      as decimal text that reads back as the clock readings. */
  lemma FlattenRegistered(patientId: string, faceId: string, createdMs: nat, updatedMs: nat, attrs: map<string, Json>)
    ensures var flat := Identify.Flatten(Register.StoredItem(patientId, faceId, createdMs, updatedMs, attrs));
      && flat.Keys == Register.FixedKeys + (set k | k in attrs && attrs[k].JStr?)
      && (forall k :: k in attrs && attrs[k].JStr? ==> flat[k] == attrs[k])
      && ("patient_id" !in attrs || !attrs["patient_id"].JStr? ==> flat["patient_id"] == JStr(patientId))
      && ("face_id" !in attrs || !attrs["face_id"].JStr? ==> flat["face_id"] == JStr(faceId))
      && ("created_at" !in attrs || !attrs["created_at"].JStr? ==>
            flat["created_at"].s == NatToDecimal(createdMs) && DecimalValue(flat["created_at"].s) == createdMs)
      && ("updated_at" !in attrs || !attrs["updated_at"].JStr? ==>
            flat["updated_at"].s == NatToDecimal(updatedMs) && DecimalValue(flat["updated_at"].s) == updatedMs)
  {
    var item := Register.StoredItem(patientId, faceId, createdMs, updatedMs, attrs);
    var flat := Identify.Flatten(item);
    forall k | k in attrs && attrs[k].JStr?
      ensures flat[k] == attrs[k]
    {
      assert item[k] == S(attrs[k].s);
    }
    DecimalRoundTrip(createdMs);
    DecimalRoundTrip(updatedMs);
  }

  /** A successful registration followed by an identification whose search
      matches the reported face id and whose query returns the stored item
      answers 200 with that item's attributes, under the primary key it was
      stored under, and with the search's score. When no string attribute
      renamed it, that key is the patient id the registration reported. */
  lemma RegisterThenIdentify(
    rcfg: Register.Config, rcodecs: Codecs, rservices: Register.Services, rbody: Option<Json>, createdMs: nat, updatedMs: nat,
    icfg: Identify.Config, icodecs: Codecs, iservices: Identify.Services, ibody: Option<Json>, bytes: Bytes, similarity: real)
    requires Register.Handle(rcfg, rcodecs, rservices, rbody, createdMs, updatedMs).response.statusCode == 201
    requires Identify.Searched(icfg, icodecs, iservices, ibody, bytes)
    requires var o := Register.Handle(rcfg, rcodecs, rservices, rbody, createdMs, updatedMs);
      var faceId := o.response.body.fields["face_id"].s;
      && iservices.searchFaces(Identify.SearchRequest(icfg, bytes)) == Ok(SearchFacesReply(Some([FaceMatch(faceId, similarity)])))
      && iservices.query(Identify.LookupRequest(icfg, faceId)) == Ok(QueryReply(Some([o.written.value])))
    ensures var o := Register.Handle(rcfg, rcodecs, rservices, rbody, createdMs, updatedMs);
      var stored := o.written.value;
      var r := Identify.Handle(icfg, icodecs, iservices, ibody).response;
      && r.statusCode == 200
      && r.body.fields["similarity"] == JFloat(similarity)
      && (forall k :: k in stored && k != "similarity" ==> r.body.fields[k] == JStr(stored[k].Payload()))
      && r.body.fields["patient_id"] == JStr(Register.PrimaryKey(stored))
      && (var attrs := Register.ReadRequest(rbody, rcodecs.loads).value.attributes.fields;
          "patient_id" !in attrs || !attrs["patient_id"].JStr? ==>
            r.body.fields["patient_id"] == o.response.body.fields["patient_id"])
  {
    var o := Register.Handle(rcfg, rcodecs, rservices, rbody, createdMs, updatedMs);
    var req := Register.ReadRequest(rbody, rcodecs.loads).value;
    var image := rcodecs.b64decode(req.image).value;
    assert Register.ItemBuilt(rcfg, rcodecs, rservices, rbody, image);
    Register.RegisteredIs201(rcfg, rcodecs, rservices, rbody, image, createdMs, updatedMs);
    Identify.IdentifiedIs200(icfg, icodecs, iservices, ibody, bytes);
  }
}
