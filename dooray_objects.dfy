/**
 * The response envelope `{header, result?, totalCount?}` and the id-only `Relation`
 * stub (src/dooray/DoorayObjects.py).
 */
module DoorayObjects {
  import opened Wrappers
  import opened DoorayExceptions
  import opened Json

  // ---- ResponseHeader

  datatype ResponseHeader = ResponseHeader(isSuccessful: Json, resultCode: Json, resultMessage: Json)

  const HeaderKeys: seq<string> := ["isSuccessful", "resultCode", "resultMessage"]

  /** Copies the three header fields; their values (even `isSuccessful == false`) never make it fail. */
  function DecodeResponseHeader(data: Json): (r: Result<ResponseHeader, Error>)
    ensures r.Ok? <==> HasKeys(data, HeaderKeys)
    ensures r.Ok? ==>
      && r.value.isSuccessful == data.fields["isSuccessful"]
      && r.value.resultCode == data.fields["resultCode"]
      && r.value.resultMessage == data.fields["resultMessage"]
    ensures r.Err? ==> r.error == FirstMissing(data, HeaderKeys)
  {
    var isSuccessful :- Get(data, "isSuccessful");
    var resultCode :- Get(data, "resultCode");
    var resultMessage :- Get(data, "resultMessage");
    Ok(ResponseHeader(isSuccessful, resultCode, resultMessage))
  }

  function EncodeResponseHeader(h: ResponseHeader): Json
  {
    JObj(map["isSuccessful" := h.isSuccessful, "resultCode" := h.resultCode, "resultMessage" := h.resultMessage])
  }

  lemma ResponseHeaderRoundTrip(h: ResponseHeader)
    ensures DecodeResponseHeader(EncodeResponseHeader(h)) == Ok(h)
  {
  }

  // ---- Relation

  datatype Relation = Relation(id: Json)

  /** `Relation(data)`: exactly `data['id']`. */
  function DecodeRelation(data: Json): (r: Result<Relation, Error>)
    ensures r.Ok? <==> data.JObj? && "id" in data.fields
    ensures r.Ok? ==> r.value.id == data.fields["id"]
    ensures r.Err? ==> r.error == (if data.JObj? then KeyError("id") else TypeError)
  {
    var id :- Get(data, "id");
    Ok(Relation(id))
  }

  function EncodeRelation(rel: Relation): Json
  {
    JObj(map["id" := rel.id])
  }

  lemma RelationRoundTrip(rel: Relation)
    ensures DecodeRelation(EncodeRelation(rel)) == Ok(rel)
  {
  }

  // ---- DoorayResponse

  /** `result` is `None` when no decoder was given (the attribute is never set). */
  datatype DoorayResponse<T> = DoorayResponse(header: ResponseHeader, result: Option<T>)

  /** The envelope is a dict whose `header` decodes. */
  predicate HasHeader(data: Json)
  {
    data.JObj? && "header" in data.fields && DecodeResponseHeader(data.fields["header"]).Ok?
  }

  function HeaderOf(data: Json): ResponseHeader
    requires HasHeader(data)
  {
    DecodeResponseHeader(data.fields["header"]).value
  }

  /**
   * `DoorayResponse(data, obj)`: the header always; `obj(data['result'])` only when a
   * decoder is given, so without one a body lacking `result` still decodes.
   */
  function DecodeResponse<T>(data: Json, obj: Option<Json -> Result<T, Error>>): (r: Result<DoorayResponse<T>, Error>)
    ensures obj.None? ==> (r.Ok? <==> HasHeader(data))
    ensures obj.Some? ==> (r.Ok? <==> HasHeader(data) && "result" in data.fields && obj.value(data.fields["result"]).Ok?)
    ensures r.Ok? ==> r.value.header == HeaderOf(data)
    ensures r.Ok? && obj.None? ==> r.value.result == None
    ensures r.Ok? && obj.Some? ==> r.value.result == Some(obj.value(data.fields["result"]).value)
    ensures r.Err? ==> !HasHeader(data) || r.error == (if "result" in data.fields then obj.value(data.fields["result"]).error else KeyError("result"))
  {
    var headerData :- Get(data, "header");
    var header :- DecodeResponseHeader(headerData);
    match obj
    case None => Ok(DoorayResponse(header, None))
    case Some(decode) =>
      var resultData :- Get(data, "result");
      var result :- decode(resultData);
      Ok(DoorayResponse(header, Some(result)))
  }

  /** The envelope of a call that decodes no `result`. */
  type Acknowledgement = DoorayResponse<()>

  /** The decoder of such a call: `DoorayResponse(resp.json())`. */
  function DecodeAcknowledgement(data: Json): (r: Result<Acknowledgement, Error>)
    ensures r.Ok? <==> HasHeader(data)
    ensures r.Ok? ==> r.value == DoorayResponse(HeaderOf(data), None)
  {
    DecodeResponse<()>(data, None)
  }

  // ---- DoorayListResponse

  datatype DoorayListResponse<T> = DoorayListResponse(
    header: ResponseHeader, totalCount: Json, page: Json, size: Json, result: seq<T>)

  /** The elements of `data['result']`, when it is iterable. */
  predicate HasElements(data: Json)
  {
    data.JObj? && "result" in data.fields && Iterate(data.fields["result"]).Ok?
  }

  function ElementsOf(data: Json): seq<Json>
    requires HasElements(data)
  {
    Iterate(data.fields["result"]).value
  }

  /**
   * `DoorayListResponse(data, obj, page, size)`: the header, `totalCount`, and one decoded
   * element per element of `data['result']`, in order. With `size` None the page is
   * reset to 0 and the size to the total count.
   */
  function DecodeListResponse<T>(data: Json, obj: Json -> Result<T, Error>, page: Json, size: Json)
    : (r: Result<DoorayListResponse<T>, Error>)
    ensures r.Ok? <==> HasHeader(data) && "totalCount" in data.fields && HasElements(data)
                       && DecodeEach(ElementsOf(data), obj).Ok?
    ensures r.Ok? ==> r.value.header == HeaderOf(data) && r.value.totalCount == data.fields["totalCount"]
    ensures r.Ok? ==> |r.value.result| == |ElementsOf(data)|
                      && forall i :: 0 <= i < |ElementsOf(data)| ==> obj(ElementsOf(data)[i]) == Ok(r.value.result[i])
    ensures r.Ok? && size == JNull ==> r.value.page == JInt(0) && r.value.size == r.value.totalCount
    ensures r.Ok? && size != JNull ==> r.value.page == page && r.value.size == size
  {
    var response :- DecodeResponse<T>(data, None);
    var totalCount :- Get(data, "totalCount");
    var resultData :- Get(data, "result");
    var elements :- Iterate(resultData);
    var result :- DecodeEach(elements, obj);
    if size == JNull then Ok(DoorayListResponse(response.header, totalCount, JInt(0), totalCount, result))
    else Ok(DoorayListResponse(response.header, totalCount, page, size, result))
  }

  /** The constructor as written: an append loop over `data['result']`, then the reset of page and size. */
  method NewDoorayListResponse<T>(data: Json, obj: Json -> Result<T, Error>, page: Json, size: Json)
    returns (r: Result<DoorayListResponse<T>, Error>)
    ensures r == DecodeListResponse(data, obj, page, size)
  {
    var response :- DecodeResponse<T>(data, None);
    var totalCount :- Get(data, "totalCount");
    var currentPage, currentSize := page, size;
    var resultData :- Get(data, "result");
    var elements :- Iterate(resultData);
    var result :- AppendDecoded(elements, obj);
    if currentSize == JNull {
      currentPage := JInt(0);
      currentSize := totalCount;
    }
    r := Ok(DoorayListResponse(response.header, totalCount, currentPage, currentSize, result));
  }

  /** With no page size the decoded list ignores the page the caller passed. */
  lemma UnpaginatedIgnoresPage<T>(data: Json, obj: Json -> Result<T, Error>, page1: Json, page2: Json)
    ensures DecodeListResponse(data, obj, page1, JNull) == DecodeListResponse(data, obj, page2, JNull)
  {
  }

  /**
   * The total count is the server's, whatever the number of returned elements and whatever
   * paging the caller asked for; with no size, the reported size is that total.
   */
  lemma TotalCountIndependentOfElements<T>(
    header: ResponseHeader, total: Json, xs: seq<Json>, obj: Json -> Result<T, Error>, page: Json, size: Json)
    requires DecodeEach(xs, obj).Ok?
    ensures var data := JObj(map["header" := EncodeResponseHeader(header), "totalCount" := total, "result" := JArr(xs)]);
            var r := DecodeListResponse(data, obj, page, size);
            r.Ok? && r.value.header == header && r.value.totalCount == total && |r.value.result| == |xs|
            && (size == JNull ==> r.value.page == JInt(0) && r.value.size == total)
            && (size != JNull ==> r.value.page == page && r.value.size == size)
  {
    ResponseHeaderRoundTrip(header);
  }
}
