/** What a Flask view function hands back, and the `{"success": …}`
    envelopes the backend builds with `jsonify`. */
module Http {
  import opened PyJson

  datatype Response =
    /** `jsonify(body), status` */
    | JsonResponse(status: int, body: Json)
    /** A plain-text body, as in `return "Not Found", 404`. */
    | TextResponse(status: int, text: string)
    /** `send_from_directory(directory, filename)`. */
    | SendFile(directory: string, filename: string)
    /** An exception escaped the view: Flask answers with its own 500 page. */
    | Unhandled

  /** `jsonify({"success": True, **fields})` with status 200. */
  function Success(fields: map<string, Json>): (r: Response)
    requires "success" !in fields
    ensures r.JsonResponse? && r.status == 200 && r.body.JObj?
    ensures r.body.fields == fields["success" := JBool(true)]
  {
    JsonResponse(200, JObj(fields["success" := JBool(true)]))
  }

  /** `jsonify({"success": False, "error": error}), status`. */
  function Failure(status: int, error: string): (r: Response)
    ensures r.JsonResponse? && r.status == status
    ensures r.body == JObj(map["success" := JBool(false), "error" := JStr(error)])
  {
    JsonResponse(status, JObj(map["success" := JBool(false), "error" := JStr(error)]))
  }

  /** The response is a JSON envelope whose `"success"` is false. */
  predicate IsFailure(r: Response) {
    r.JsonResponse? && r.body.JObj? && "success" in r.body.fields
    && r.body.fields["success"] == JBool(false)
  }

  /** The response is a JSON envelope whose `"success"` is true. */
  predicate IsSuccess(r: Response) {
    r.JsonResponse? && r.body.JObj? && "success" in r.body.fields
    && r.body.fields["success"] == JBool(true)
  }
}
