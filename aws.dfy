/** The four boto3 calls the handlers make, as records of their arguments and
    of the parts of their replies the handlers read. What the services do with
    a request is not modelled: each handler receives the replies as oracles. */
module Aws {
  import opened Wrappers
  import opened Dynamo
  import opened LambdaHttp

  /** `reko.index_faces(...)`; `externalImageId` is the request's `patient_id`,
      which boto3 only sends when it is a string. */
  datatype IndexFacesRequest = IndexFacesRequest(
    collectionId: string,
    image: Bytes,
    externalImageId: string,
    detectionAttributes: seq<string>,
    maxFaces: nat,
    qualityFilter: string)

  /** A face record; the handler reads only `['Face']['FaceId']`. */
  datatype FaceRecord = FaceRecord(faceId: string)

  /** `FaceRecords` may be absent from the reply. */
  datatype IndexFacesReply = IndexFacesReply(faceRecords: Option<seq<FaceRecord>>)

  /** `ddb.put_item(TableName=..., Item=...)`. */
  datatype PutItemRequest = PutItemRequest(tableName: string, item: Item)

  /** `reko.search_faces_by_image(...)`. */
  datatype SearchFacesRequest = SearchFacesRequest(
    collectionId: string,
    image: Bytes,
    faceMatchThreshold: real,
    maxFaces: nat)

  /** A match: `['Face']['FaceId']` and `['Similarity']` (a float, kept opaque). */
  datatype FaceMatch = FaceMatch(faceId: string, similarity: real)

  /** `FaceMatches` may be absent from the reply. */
  datatype SearchFacesReply = SearchFacesReply(faceMatches: Option<seq<FaceMatch>>)

  /** `ddb.query(...)` on a secondary index. */
  datatype QueryRequest = QueryRequest(
    tableName: string,
    indexName: string,
    keyConditionExpression: string,
    expressionAttributeValues: map<string, AttrValue>,
    limit: nat)

  /** `Items` may be absent from the reply. */
  datatype QueryReply = QueryReply(items: Option<seq<Item>>)

  /** One call a handler issued, in the order issued. */
  datatype Call =
    | IndexFaces(index: IndexFacesRequest)
    | PutItem(put: PutItemRequest)
    | SearchFaces(search: SearchFacesRequest)
    | Query(query: QueryRequest)
}
