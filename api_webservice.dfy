/**
  The response processing of the `WebService` protocol extension of the first
  API client (POEditorAPI/WebService.swift): its error type has no
  service-error case, so a "fail" status is reported as an unexpected response,
  and the result is looked up at the top level only.
*/
module ApiWebService {
  import opened Basics
  import opened Json
  import opened ApiCommon

  const NotADictionary := "JSON response was not a dictionary"

  /** `processResultJSON(object:resultKey:)` */
  function ProcessResult(body: Json, resultKey: string, kind: Expected, parse: string -> Option<Url>): (r: Outcome)
    ensures !body.JObject? ==> r == Failure(UnexpectedResponse(NotADictionary))
    ensures body.JObject? && AsObject(Lookup(body.fields, "response")).None? ==> r == Failure(UnexpectedResponse(NoResponseDictionary))
    ensures body.JObject? && AsObject(Lookup(body.fields, "response")).Some? && StatusIsFail(body.fields["response"].fields) ==>
      r == Failure(UnexpectedResponse(FailMessage(body.fields["response"].fields)))
    ensures body.JObject? && AsObject(Lookup(body.fields, "response")).Some? && !StatusIsFail(body.fields["response"].fields) ==>
      && (resultKey !in body.fields ==> r == Failure(UnexpectedResponse(CouldNotFind(resultKey))))
      && (resultKey in body.fields ==> r == CastTo(kind, body.fields[resultKey], parse))
    ensures r.Success? || r.Trap? ==>
      && body.JObject? && resultKey in body.fields
      && "response" in body.fields && body.fields["response"].JObject?
      && !StatusIsFail(body.fields["response"].fields)
      && r == CastTo(kind, body.fields[resultKey], parse)
    ensures r.Failure? ==> r.error.UnexpectedResponse?
  {
    match AsObject(Some(body))
    case None => Failure(UnexpectedResponse(NotADictionary))
    case Some(dictionary) =>
      match AsObject(Lookup(dictionary, "response"))
      case None => Failure(UnexpectedResponse(NoResponseDictionary))
      case Some(response) =>
        if StatusIsFail(response) then Failure(UnexpectedResponse(FailMessage(response)))
        else if resultKey !in dictionary then Failure(UnexpectedResponse(CouldNotFind(resultKey)))
        else CastTo(kind, dictionary[resultKey], parse)
  }

  /** `responseProcessingDataTask`: a transport error is handed on, anything delivered is processed. */
  function Complete(transport: Transport, resultKey: string, kind: Expected, parse: string -> Option<Url>): (r: Outcome)
    ensures transport.TransportFailed? ==> r == Failure(transport.error)
    ensures transport.Delivered? ==> r == ProcessResult(transport.body, resultKey, kind, parse)
    ensures transport.Delivered? && r.Failure? ==> r.error.UnexpectedResponse?
  {
    match transport
    case TransportFailed(error) => Failure(error)
    case Delivered(body) => ProcessResult(body, resultKey, kind, parse)
  }

  /**
    Whatever the service answers, this client never reports a service error: a
    service error can only be one the transport itself produced.
  */
  lemma NeverServiceError(transport: Transport, resultKey: string, kind: Expected, parse: string -> Option<Url>)
    ensures var r := Complete(transport, resultKey, kind, parse);
      r.Failure? && r.error.ServiceError? ==> transport == TransportFailed(r.error)
  {
  }
}
