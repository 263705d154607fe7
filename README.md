# Patient check-in handlers, modelled in Dafny

The repository's own logic is two AWS Lambda handlers behind API Gateway:

- **Registration** (`build-register/register_patient.py`) reads `patient_id`,
  `image_base64` and `attributes` from the request body, decodes the photo,
  indexes it in a Rekognition collection, and stores one DynamoDB item keyed by
  `patient_id`. It answers 201 with `{patient_id, face_id}`, 422 when no face
  was indexed, and 500 with `{"error": str(e)}` for any exception.
- **Identification** (`build-identify/identify_patient.py`) decodes the photo,
  searches the collection for the best match, queries the table's
  `face_id-index` for that face id, and answers 200 with the item flattened to
  plain values plus `similarity`, 404 when nothing matched or no item was
  found, and 500 for any exception.

The model keeps what the handlers themselves decide: the routing to status
codes, the order of the external calls, the item built for the table (four
fixed fields, then the caller's string attributes written over them), the
flattening of a typed item, and the score written over it.

Every foreign call is an oracle, a total function passed in as a parameter:
`json.loads`, `base64.b64decode` (`LambdaHttp.Codecs`), `index_faces`,
`put_item` (`RegisterPatient.Services`), `search_faces_by_image` and `query`
(`IdentifyPatient.Services`). Each returns a reply or fails with the text of
its exception. A handler returns its response, the list of requests it handed
to the boto3 clients (`Aws.Call`) and, for registration, the item it wrote. "The store is never
queried" and "no service call on malformed input" are statements about that
list. Of boto3's own checks before sending, only the type check on
`ExternalImageId` is modelled as sending nothing; any other refusal is a
failure of the recorded call. Configuration read from the environment at import time (`COLLECTION_ID`,
`TABLE_NAME`, `MATCH_THRESHOLD`) is a `Config` record. The two clock readings
of `_now_ms()` are two `nat` parameters.

Registration is also modelled imperatively, as the source writes it.
`RegisterPatient.ItemFor` builds the item with a loop over the attributes.
`RegisterPatient.Handler` runs the steps in order against a
`RegisterPatient.PatientTable` object whose `items` map stands for the table.
The table changes only through `PutItem`, and only on the 201 path.
`ItemFor` is proved to build exactly the item `RegisterPatient.StoredItem`
describes; `Handler` is proved to return the response and calls, and to make
the write, that the pure description `RegisterPatient.Handle` gives.

Modules, one per concern: `Wrappers`, `JsonValue` (JSON values, Python
truthiness and type names), `Decimal` (`str` of a non-negative int),
`Dynamo` (typed attribute values `S`/`N` and items), `LambdaHttp` (the
`_resp` envelope, body decoding, subscripting and Python's error texts),
`Aws` (the arguments and replies of the four calls), `RegisterPatient`,
`IdentifyPatient`, and `CheckIn` (what the two handlers promise together).

Facts about the code that the model keeps as they are:
- the 201 body holds only `patient_id` and `face_id`, with no `status` or `timestamp`;
- malformed input (bad JSON, missing field, bad base64) answers 500; no path answers 400;
- registration has no confidence threshold of its own, only `QualityFilter='AUTO'` and `MaxFaces=1`;
- an existing `patient_id` is silently overwritten, because `put_item` has no condition;
- attributes may overwrite the four fixed fields, the primary key included (`RegisterPatient.AttributesOverrideKeys`).

## Model

| member | source | states |
|---|---|---|
| LambdaHttp.Resp | build-register/register_patient.py:11-16 | every response has exactly the header `Content-Type: application/json`, the given status code and the given body object (the identification handler's copy is build-identify/identify_patient.py:9-14) |
| LambdaHttp.DecodeBody | build-register/register_patient.py:21-22 | a string body is handed to `json.loads`; a truthy non-string body is used as it is; a missing or falsy body becomes `{}`; only a string body can fail |
| LambdaHttp.Subscript | build-register/register_patient.py:23-24 | `body[key]` succeeds exactly when the body is an object holding the key; otherwise it fails with the KeyError text `'key'` for an object, or with CPython's TypeError text for any other value |
| LambdaHttp.GetOr | build-register/register_patient.py:25 | `attributes` is the body's value when present and `{}` otherwise |
| Decimal.NatToDecimal | build-register/register_patient.py:47-48 | `str` of a timestamp is non-empty decimal digits, with a leading `0` only for zero |
| Decimal.DecimalRoundTrip | build-register/register_patient.py:47-48 | reading the decimal text of a timestamp back gives the timestamp |
| RegisterPatient.ReadRequest | build-register/register_patient.py:21-25 | the request is read exactly when the decoded body is an object holding `image_base64` and `patient_id`; `attributes` defaults to `{}` |
| RegisterPatient.StoredItem | build-register/register_patient.py:44-52 | the item's keys are the four fixed keys plus the string attributes; each string attribute is stored as `S(v)`; non-string attributes are dropped; a fixed field keeps its `S`/`N` value unless a string attribute of that name overwrites it; `N` appears only under the two timestamps |
| RegisterPatient.ItemFor | build-register/register_patient.py:44-52 | the loop over the attributes builds exactly `StoredItem`, in whatever order the keys are visited |
| RegisterPatient.Handle | build-register/register_patient.py:18-58 | the status is 201, 422 or 500; an item is written exactly on 201; a 422 carries "No face detected or poor quality."; a 500 carries `{"error": text}`; a 201 follows exactly an `index_faces` call and a `put_item` of the written item, and its body holds exactly `patient_id` (the string sent as `ExternalImageId`) and a string `face_id` |
| RegisterPatient.InvalidJsonIs500 | tests/test_register_patient.py:141-151 | a body string that `json.loads` rejects gives 500 with the parser's text, no call and no write |
| RegisterPatient.MissingFieldIs500 | tests/test_register_patient.py:157-169 | a body object without `image_base64` (checked first) or `patient_id` gives 500 with the KeyError text, no call and no write |
| RegisterPatient.BadImageIs500 | build-register/register_patient.py:27 | an image that does not decode gives 500 with the decoder's text, no call and no write |
| RegisterPatient.IndexRequest | build-register/register_patient.py:30-37 | the `index_faces` call goes to the configured collection with the decoded image, the patient id as `ExternalImageId`, at most one face, `DEFAULT` detection attributes and the `AUTO` quality filter |
| RegisterPatient.NonStringPatientIdIs500 | build-register/register_patient.py:30-37 | a `patient_id` that is not a string is refused by boto3's validation of `ExternalImageId` before `index_faces` sends anything: 500 with that text, no call and no write |
| RegisterPatient.IndexFailureIs500 | build-register/register_patient.py:30-37 | an `index_faces` exception gives 500 with its text; that one call was issued and nothing is written |
| RegisterPatient.NoFaceIs422 | build-register/register_patient.py:39-40 | a missing or empty `FaceRecords` gives 422 "No face detected or poor quality.", one call and no write |
| RegisterPatient.BadAttributesOrphanFace | build-register/register_patient.py:50-52 | when `attributes` is not an object, `.items()` raises after the face was indexed: 500 with the AttributeError text, the `index_faces` call stands and nothing is written |
| RegisterPatient.PutFailureIs500 | build-register/register_patient.py:54 | a `put_item` exception gives 500 with its text; both calls were issued and nothing is written |
| RegisterPatient.RegisteredIs201 | build-register/register_patient.py:42-55 | success answers 201 with exactly the request's `patient_id` and the first face record's `FaceId`, and writes `StoredItem` of them, the clock readings and the attributes; the calls are exactly the `IndexRequest` call and the `put_item` of that item to the configured table |
| RegisterPatient.AttributesOverrideKeys | build-register/register_patient.py:44-55 | a string attribute named `patient_id` moves the stored item to that primary key, and one named `face_id` replaces the stored face id, while the 201 body still reports the request's `patient_id` and the indexed face id |
| RegisterPatient.PatientTable.PutItem | build-register/register_patient.py:54 | the item replaces whatever the table held under its `patient_id` |
| RegisterPatient.Handler | build-register/register_patient.py:18-58 | the step-by-step handler returns `Handle`'s response and calls, and the table changes only by the item `Handle` writes |
| IdentifyPatient.ConfigOf | build-identify/identify_patient.py:5-7 | the configuration exists exactly when the threshold setting parses, and then holds the threshold `float` gives for `MATCH_THRESHOLD`, or for `"95"` when it is unset |
| IdentifyPatient.ThresholdReachesSearch | build-identify/identify_patient.py:7-29 | for a configuration built from any setting, an invocation that reaches the search issues it first, with that setting's threshold unchanged, and with `float("95")` when the setting is unset |
| IdentifyPatient.SearchRequest | build-identify/identify_patient.py:24-29 | the search sends the decoded image to the configured collection, with the configured threshold unchanged, and asks for at most one match |
| IdentifyPatient.LookupRequest | build-identify/identify_patient.py:38-44 | the query reads one item of `face_id-index` whose key condition is `face_id = :f` with `:f` bound to `S(faceId)`, in the configured table |
| IdentifyPatient.FlattenWrapRoundTrip | build-identify/identify_patient.py:49 | flattening an item of string values gives strings only, and wrapping each as `S(v)` gives the item back |
| IdentifyPatient.Identified | build-identify/identify_patient.py:48-50 | the 200 body's keys are the item's keys plus `similarity`; `similarity` is the match's score even if the item holds one; every other key maps to the value inside its typed wrapper |
| IdentifyPatient.ReadImage | build-identify/identify_patient.py:18-20 | the image is read exactly when the decoded body is an object holding `image_base64` |
| IdentifyPatient.Handle | build-identify/identify_patient.py:16-55 | the status is 200, 404 or 500; a 404 carries one of the two messages; a 500 carries `{"error": text}`; a 200 follows exactly a search and a query and carries a float `similarity`; on every path there are at most two calls, the first is always the search and the second always the query |
| IdentifyPatient.InvalidJsonIs500 | build-identify/identify_patient.py:19 | a body string that `json.loads` rejects gives 500 with the parser's text and no call |
| IdentifyPatient.MissingImageIs500 | tests/test_identify_patient.py:195-204 | a body object without `image_base64` gives 500 with the KeyError text and no call |
| IdentifyPatient.BadImageIs500 | tests/test_identify_patient.py:176-188 | an image that does not decode gives 500 with the decoder's text and no call |
| IdentifyPatient.SearchFailureIs500 | build-identify/identify_patient.py:24-29 | a search exception gives 500 with its text after that one call |
| IdentifyPatient.NoMatchIs404 | build-identify/identify_patient.py:31-32 | a missing or empty `FaceMatches` gives 404 "No confident match", and the table is never queried |
| IdentifyPatient.LookupUsesFirstMatch | build-identify/identify_patient.py:34-44 | once a face matched, the calls are the search and then one query for exactly the first match's `FaceId` on `face_id-index` |
| IdentifyPatient.QueryFailureIs500 | build-identify/identify_patient.py:38-44 | a query exception gives 500 with its text |
| IdentifyPatient.NoRecordIs404 | build-identify/identify_patient.py:45-46 | a match with a missing or empty `Items` gives 404 "Face mapped but no patient record" |
| IdentifyPatient.IdentifiedIs200 | build-identify/identify_patient.py:48-52 | success answers 200 with the first item flattened and the first match's score as `similarity`, whatever the score is relative to the threshold |
| CheckIn.FlattenRegistered | build-register/register_patient.py:44-52 | flattening a registered item yields every string attribute with its original value, `patient_id` and `face_id` unless overwritten, and the timestamps as decimal text that reads back as the clock readings |
| CheckIn.RegisterThenIdentify | build-identify/identify_patient.py:34-52 | a 201 registration, then an identification whose search matches the reported face id and whose query returns the stored item, answers 200 with that item's values, its primary key as `patient_id` (the reported one unless an attribute overwrote it) and the search's score |

## Left out

- The Rekognition and DynamoDB services: face detection, matching, indexing and storage are not modelled. Their replies and exceptions are oracle parameters, and `PatientTable` only records what `put_item` wrote.
- The consistency of the `face_id-index`: identification gets whatever items the query oracle returns. Eventual consistency and concurrent invocations are outside the model.
- `json.loads`, `json.dumps` and `base64.b64decode` are library codecs. Parsing and decoding are oracles.
- LambdaHttp.Resp: the body is the object that `json.dumps` serialises, not its text.
- `time.time()` is not modelled: the two readings of `_now_ms()` are parameters.
- IdentifyPatient.ConfigOf: `float` on the environment string is an oracle. A `MATCH_THRESHOLD` that does not parse fails the module import, not a request.
- Similarity scores and thresholds are opaque reals that are only passed on. No float arithmetic is modelled.
- Python's `str(e)` texts are exact only for the handlers' own exceptions: the KeyError for a missing field, the TypeError for subscripting a non-object body (CPython 3.11 and later), and the AttributeError for `.items()` on a non-object. All other texts come from the oracles.
- A non-string `patient_id` is rejected by boto3's client-side validation of `ExternalImageId` before `index_faces` sends anything. Its text is the oracle `Services.rejectImageId`, and no request is recorded. Every other refusal by boto3 (such as an empty `ExternalImageId`, below its minimum length) or by the service is a failure of the recorded `index_faces` call.
- Only the `S` and `N` attribute types are modelled, the only two the handlers write. A stored item with other types (`BOOL`, `L`, `M`, …) is not represented.
- JSON objects are maps, so key order is not modelled. It affects neither the stored item nor which keys the bodies hold.
- The `context` argument, logging, and the module-level boto3 client construction are not modelled.
