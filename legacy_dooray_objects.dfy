/**
 * The older response envelope (dooray/DoorayObjects.py). Its header decode is the same code as
 * the current one (`DoorayObjects.DecodeResponseHeader`); the envelope never holds a `result`,
 * and the list envelope keeps the caller's paging as it is.
 */
module LegacyDoorayObjects {
  import opened Wrappers
  import opened DoorayExceptions
  import opened Json
  import opened DoorayObjects

  /**
   * The older `DoorayResponse(data)`: only the header is read, and `result` is always
   * `None`, whatever the body holds. It is the current envelope read with no decoder.
   */
  lemma LegacyResponseKeepsOnlyHeader<T>(data: Json, obj: Json -> Result<T, Error>)
    requires DecodeResponse(data, Some(obj)).Ok?
    ensures DecodeAcknowledgement(data).Ok?
    ensures DecodeAcknowledgement(data).value.header == DecodeResponse(data, Some(obj)).value.header
    ensures DecodeAcknowledgement(data).value.result == None
  {
  }

  /**
   * The older `DoorayListResponse(data, obj, page, size)`: the header, `totalCount`, and
   * one decoded element per element of `data['result']`, in order; `page` and `size` stay
   * the caller's, even when `size` is `None`.
   */
  function DecodeLegacyListResponse<T>(data: Json, obj: Json -> Result<T, Error>, page: Json, size: Json)
    : (r: Result<DoorayListResponse<T>, Error>)
    ensures r.Ok? <==> HasHeader(data) && "totalCount" in data.fields && HasElements(data)
                       && DecodeEach(ElementsOf(data), obj).Ok?
    ensures r.Ok? ==> r.value.header == HeaderOf(data) && r.value.totalCount == data.fields["totalCount"]
    ensures r.Ok? ==> |r.value.result| == |ElementsOf(data)|
                      && forall i :: 0 <= i < |ElementsOf(data)| ==> obj(ElementsOf(data)[i]) == Ok(r.value.result[i])
    ensures r.Ok? ==> r.value.page == page && r.value.size == size
  {
    var response :- DecodeResponse<T>(data, None);
    var totalCount :- Get(data, "totalCount");
    var resultData :- Get(data, "result");
    var elements :- Iterate(resultData);
    var result :- DecodeEach(elements, obj);
    Ok(DoorayListResponse(response.header, totalCount, page, size, result))
  }

  /** The constructor as written: the fields, then an append loop over `data['result']`. */
  method NewLegacyListResponse<T>(data: Json, obj: Json -> Result<T, Error>, page: Json, size: Json)
    returns (r: Result<DoorayListResponse<T>, Error>)
    ensures r == DecodeLegacyListResponse(data, obj, page, size)
  {
    var response :- DecodeResponse<T>(data, None);
    var totalCount :- Get(data, "totalCount");
    var resultData :- Get(data, "result");
    var elements :- Iterate(resultData);
    var result :- AppendDecoded(elements, obj);
    r := Ok(DoorayListResponse(response.header, totalCount, page, size, result));
  }

  /**
   * The two list envelopes accept the same bodies and agree on everything but the paging,
   * and on the paging too whenever a size is given; with no size only the newer one
   * resets the page to 0 and the size to the total count.
   */
  lemma ListResponsesDifferOnlyInPaging<T>(data: Json, obj: Json -> Result<T, Error>, page: Json, size: Json)
    ensures DecodeLegacyListResponse(data, obj, page, size).Ok? <==> DecodeListResponse(data, obj, page, size).Ok?
    ensures size != JNull ==> DecodeLegacyListResponse(data, obj, page, size) == DecodeListResponse(data, obj, page, size)
    ensures size == JNull && DecodeListResponse(data, obj, page, size).Ok? ==>
      var older, newer := DecodeLegacyListResponse(data, obj, page, size).value, DecodeListResponse(data, obj, page, size).value;
      && older.header == newer.header && older.totalCount == newer.totalCount && older.result == newer.result
      && older.page == page && older.size == JNull && newer.page == JInt(0) && newer.size == newer.totalCount
  {
  }
}
