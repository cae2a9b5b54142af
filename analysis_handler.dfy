/**
 * AnalysisHandler: the server's analysis response classified into exactly one of the four
 * callbacks (`onSuccess`, `onNoModismos`, `onPartialService`, `onError`).
 */
module AnalysisHandler {
  import opened Wrappers

  /**
   * The four fields the handler reads (and `original_text`), each as the value `optString`,
   * `optInt` or `optBoolean` finds for it, or `None` when it is absent or has no such value.
   */
  datatype ResponseJson = ResponseJson(
    status: Option<string>,
    totalModismos: Option<int>,
    betoAvailable: Option<bool>,
    phiAvailable: Option<bool>,
    originalText: Option<string>)

  datatype AnalysisResult = AnalysisResult(
    status: string,
    totalModismos: int,
    betoAvailable: bool,
    phiAvailable: bool,
    transcription: string)

  /** The callback the handler invokes, with its arguments. */
  datatype Outcome =
    | OnSuccess(result: AnalysisResult, jsonResponse: string)
    | OnNoModismos
    | OnPartialService(serviceName: string)
    | OnError(message: string)

  const InvalidResponse: string := "El servidor devolvió una respuesta inválida"
  const Unreadable: string := "No se pudo interpretar la respuesta del servidor"

  /** The result record: the fields with their defaults, and the transcription chosen by `audioPath`. */
  function ReadResult(json: ResponseJson, originalText: string, audioPath: Option<string>): (r: AnalysisResult)
    ensures json.status.None? ==> r.status == "unknown"
    ensures json.status.Some? ==> r.status == json.status.value
    ensures json.totalModismos.None? ==> r.totalModismos == 0
    ensures json.totalModismos.Some? ==> r.totalModismos == json.totalModismos.value
    ensures json.betoAvailable.None? ==> r.betoAvailable
    ensures json.betoAvailable.Some? ==> r.betoAvailable == json.betoAvailable.value
    ensures json.phiAvailable.None? ==> r.phiAvailable
    ensures json.phiAvailable.Some? ==> r.phiAvailable == json.phiAvailable.value
    ensures audioPath.None? ==> r.transcription == originalText
    ensures audioPath.Some? ==> r.transcription == json.originalText.GetOr("")
  {
    AnalysisResult(
      json.status.GetOr("unknown"),
      json.totalModismos.GetOr(0),
      json.betoAvailable.GetOr(true),
      json.phiAvailable.GetOr(true),
      if audioPath.Some? then json.originalText.GetOr("") else originalText)
  }

  /** The service reported as unavailable. */
  function ServiceName(betoAvailable: bool, phiAvailable: bool): (s: string)
    ensures s == "BETO y PHI" <==> !betoAvailable && !phiAvailable
    ensures s == "BETO" <==> !betoAvailable && phiAvailable
    ensures s == "PHI" <==> betoAvailable && !phiAvailable
    ensures s == "servicios" <==> betoAvailable && phiAvailable
  {
    if !betoAvailable && !phiAvailable then "BETO y PHI"
    else if !betoAvailable then "BETO"
    else if !phiAvailable then "PHI"
    else "servicios"
  }

  // The four cases of the decision table, each stated on its own, independently of the
  // order in which the `when` tries them.

  predicate SuccessCase(r: AnalysisResult) {
    r.status == "success" && r.totalModismos > 0 && r.betoAvailable && r.phiAvailable
  }

  predicate NoModismosCase(r: AnalysisResult) {
    r.status == "success" && r.totalModismos == 0
  }

  predicate PartialCase(r: AnalysisResult) {
    !NoModismosCase(r) && (r.status == "partial_success" || !r.betoAvailable || !r.phiAvailable)
  }

  predicate ErrorCase(r: AnalysisResult) {
    r.status != "partial_success" && r.betoAvailable && r.phiAvailable
    && (r.status != "success" || r.totalModismos < 0)
  }

  /** The `when`: the first case that applies picks the callback. */
  function Classify(r: AnalysisResult, jsonResponse: string): (o: Outcome)
    ensures o.OnSuccess? <==> SuccessCase(r)
    ensures o.OnNoModismos? <==> NoModismosCase(r)
    ensures o.OnPartialService? <==> PartialCase(r)
    ensures o.OnError? <==> ErrorCase(r)
    ensures o.OnSuccess? ==> o.result == r && o.jsonResponse == jsonResponse
    ensures o.OnPartialService? ==> o.serviceName == ServiceName(r.betoAvailable, r.phiAvailable)
    ensures o.OnError? ==> o.message == InvalidResponse
  {
    if r.status == "success" && r.totalModismos > 0 && r.betoAvailable && r.phiAvailable then
      OnSuccess(r, jsonResponse)
    else if r.status == "success" && r.totalModismos == 0 then
      OnNoModismos
    else if r.status == "partial_success" || !r.betoAvailable || !r.phiAvailable then
      OnPartialService(ServiceName(r.betoAvailable, r.phiAvailable))
    else
      OnError(InvalidResponse)
  }

  /** Exactly one case of the table applies to every result record. */
  lemma CasesPartition(r: AnalysisResult)
    ensures SuccessCase(r) || NoModismosCase(r) || PartialCase(r) || ErrorCase(r)
    ensures !(SuccessCase(r) && NoModismosCase(r)) && !(SuccessCase(r) && PartialCase(r))
    ensures !(SuccessCase(r) && ErrorCase(r)) && !(NoModismosCase(r) && PartialCase(r))
    ensures !(NoModismosCase(r) && ErrorCase(r)) && !(PartialCase(r) && ErrorCase(r))
  {
  }

  /**
   * `handleAnalysisResponse`: `parsed` is `None` when the response is not a JSON object
   * (the `JSONObject` constructor throws).
   */
  function HandleAnalysisResponse(parsed: Option<ResponseJson>, jsonResponse: string,
                                  originalText: string, audioPath: Option<string>): (o: Outcome)
    ensures parsed.None? ==> o == OnError(Unreadable)
    ensures parsed.Some? ==> o == Classify(ReadResult(parsed.value, originalText, audioPath), jsonResponse)
    ensures o.OnSuccess? ==> o.result.status == "success" && o.result.totalModismos > 0
    ensures o.OnSuccess? ==> o.result.transcription == (if audioPath.Some? then parsed.value.originalText.GetOr("") else originalText)
    ensures o.OnError? ==> o.message == InvalidResponse || o.message == Unreadable
  {
    match parsed
    case None => OnError(Unreadable)
    case Some(json) => Classify(ReadResult(json, originalText, audioPath), jsonResponse)
  }

  /** "success" with no idioms is `onNoModismos` even when a service reports itself down. */
  lemma NoModismosBeatsPartial(json: ResponseJson, jsonResponse: string, originalText: string, audioPath: Option<string>)
    requires json.status == Some("success") && json.totalModismos == Some(0)
    ensures HandleAnalysisResponse(Some(json), jsonResponse, originalText, audioPath) == OnNoModismos
  {
  }

  /** A response with none of the four fields falls to the error branch: status "unknown", both services up. */
  lemma EmptyResponseIsInvalid(jsonResponse: string, originalText: string, audioPath: Option<string>)
    ensures HandleAnalysisResponse(Some(ResponseJson(None, None, None, None, None)), jsonResponse, originalText, audioPath)
            == OnError(InvalidResponse)
  {
  }

  /** A negative total with status "success" and both services up is an invalid response. */
  lemma NegativeTotalIsInvalid(json: ResponseJson, jsonResponse: string, originalText: string, audioPath: Option<string>)
    requires json.status == Some("success") && json.totalModismos.Some? && json.totalModismos.value < 0
    requires json.betoAvailable != Some(false) && json.phiAvailable != Some(false)
    ensures HandleAnalysisResponse(Some(json), jsonResponse, originalText, audioPath) == OnError(InvalidResponse)
  {
  }
}
