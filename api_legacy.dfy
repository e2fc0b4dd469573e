/**
  The older copy of the first API client (POEditorAPI/POEditor.swift): its
  `processResultJSON` returns the value under the result key without looking at
  its type, and the completion handler converts it to the type asked for.
*/
module ApiLegacy {
  import opened Basics
  import opened Json
  import opened ApiCommon
  import ApiWebService

  const NotADictionary := "JSON response was not a dictionary"

  datatype Raw = Found(result: Json) | Thrown(error: ApiError)

  /** `processResultJSON(object:resultKey:)`: the raw value under the result key, or the error thrown. */
  function ProcessResult(body: Json, resultKey: string): (r: Raw)
    ensures r.Found? <==>
      && body.JObject? && resultKey in body.fields
      && "response" in body.fields && body.fields["response"].JObject?
      && !StatusIsFail(body.fields["response"].fields)
    ensures r.Found? ==> r.result == body.fields[resultKey]
    ensures r.Thrown? ==> r.error.UnexpectedResponse?
    ensures !body.JObject? ==> r == Thrown(UnexpectedResponse(NotADictionary))
    ensures body.JObject? && AsObject(Lookup(body.fields, "response")).None? ==>
      r == Thrown(UnexpectedResponse(NoResponseDictionary))
    ensures body.JObject? && AsObject(Lookup(body.fields, "response")).Some? && !StatusIsFail(body.fields["response"].fields) ==>
      resultKey !in body.fields ==> r == Thrown(UnexpectedResponse(CouldNotFind(resultKey)))
    ensures
      (body.JObject? && "response" in body.fields && body.fields["response"].JObject?
        && StatusIsFail(body.fields["response"].fields)) ==>
        r == Thrown(UnexpectedResponse(FailMessage(body.fields["response"].fields)))
  {
    match AsObject(Some(body))
    case None => Thrown(UnexpectedResponse(NotADictionary))
    case Some(dictionary) =>
      match AsObject(Lookup(dictionary, "response"))
      case None => Thrown(UnexpectedResponse(NoResponseDictionary))
      case Some(response) =>
        if StatusIsFail(response) then Thrown(UnexpectedResponse(FailMessage(response)))
        else if resultKey !in dictionary then Thrown(UnexpectedResponse(CouldNotFind(resultKey)))
        else Found(dictionary[resultKey])
  }

  /** `responseProcessingDataTask`: the raw result converted in the completion handler. */
  function Complete(transport: Transport, resultKey: string, kind: Expected, parse: string -> Option<Url>): (r: Outcome)
    ensures transport.TransportFailed? ==> r == Failure(transport.error)
    ensures transport.Delivered? && ProcessResult(transport.body, resultKey).Thrown? ==>
      r == Failure(ProcessResult(transport.body, resultKey).error)
    ensures transport.Delivered? && ProcessResult(transport.body, resultKey).Found? ==>
      r == CastTo(kind, ProcessResult(transport.body, resultKey).result, parse)
  {
    match transport
    case TransportFailed(error) => Failure(error)
    case Delivered(body) =>
      match ProcessResult(body, resultKey)
      case Thrown(error) => Failure(error)
      case Found(result) => CastTo(kind, result, parse)
  }

  /**
    Moving the conversion from `processResultJSON` into the completion handler
    changes nothing: this client and the protocol extension answer every
    delivery and every transport error alike.
  */
  lemma SameAsProtocolExtension(transport: Transport, resultKey: string, kind: Expected, parse: string -> Option<Url>)
    ensures Complete(transport, resultKey, kind, parse) == ApiWebService.Complete(transport, resultKey, kind, parse)
  {
  }
}
