/**
 * The response envelope of auth_backend/http.py.
 *
 * `format_response` builds the record `{"http_status": code, "data": payload}`;
 * for status 200 it returns the record, for every other status it raises a
 * `TypeError` whose message is the JSON text of that same record. The model
 * keeps the two exits apart: `Returned` is a normal return, `Raised` is the
 * exception, each carrying the record.
 */
module Http {

  /** The two-field record `{"http_status": ..., "data": ...}`. */
  datatype Response<+P> = Response(httpStatus: int, data: P)

  /** How `format_response` ends: a normal return, or the raised `TypeError`. */
  datatype Outcome<+P> = Returned(response: Response<P>) | Raised(response: Response<P>)

  const Ok: int := 200

  /**
   * The record holds exactly the given status and payload; it is returned
   * when the status is 200 and raised for every other status.
   */
  function FormatResponse<P>(httpStatusCode: int, payload: P): (r: Outcome<P>)
    ensures r.response.httpStatus == httpStatusCode
    ensures r.response.data == payload
    ensures r.Returned? <==> httpStatusCode == Ok
  {
    var response := Response(httpStatusCode, payload);
    if httpStatusCode == Ok then Returned(response) else Raised(response)
  }
}
