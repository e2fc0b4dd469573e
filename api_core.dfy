/**
  The client of version 2 of the POEditor API (Core/Source/POEditor.swift):
  one path per call under "https://api.poeditor.com/v2/", and responses whose
  `result` dictionary holds the value under the call's result key.
*/
module ApiCore {
  import opened Basics
  import opened Json
  import opened Paths
  import opened ApiCommon

  const Endpoint := "https://api.poeditor.com/v2/"
  const NoResultDictionary := "JSON response did not contain result dictionary"
  const NotADictionary := "JSON response is not a dictionary"

  /** The path of each call, appended to the endpoint. */
  function PathOf(call: Call): string {
    match call
    case ListProjects => "projects/list"
    case CreateProject(_) => "projects/add"
    case ListProjectLanguages(_) => "languages/list"
    case ExportProjectTranslation(_, _, _) => "projects/export"
  }

  /** The key of the result inside the `result` dictionary. */
  function ResultKeyOf(call: Call): string {
    match call
    case ListProjects => "projects"
    case CreateProject(_) => "project"
    case ListProjectLanguages(_) => "languages"
    case ExportProjectTranslation(_, _, _) => "url"
  }

  /** The request each public method builds. */
  function MakeRequest(token: string, call: Call): (r: Request)
    ensures r.url == Endpoint + PathOf(call)
    ensures r.fields == CallFields(token, call)
    ensures r.resultKey == ResultKeyOf(call) && r.expected == ExpectedOf(call)
  {
    Request(AppendingPathComponent(Endpoint, PathOf(call)), CallFields(token, call), ResultKeyOf(call), ExpectedOf(call))
  }

  /** Every request goes to its own path below the endpoint and carries the token. */
  lemma RequestsCarryToken(token: string, call: Call)
    ensures StartsWith(MakeRequest(token, call).url, Endpoint)
    ensures MakeRequest(token, call).fields["api_token"] == TextField(token)
  {
  }

  /** `processResultJSON(dictionary:resultKey:)` */
  function ProcessResult(dictionary: map<string, Json>, resultKey: string, kind: Expected, parse: string -> Option<Url>): (r: Outcome)
    ensures AsObject(Lookup(dictionary, "response")).None? ==> r == Failure(UnexpectedResponse(NoResponseDictionary))
    ensures AsObject(Lookup(dictionary, "response")).Some? && StatusIsFail(dictionary["response"].fields) ==>
      r == Failure(ServiceError(FailMessage(dictionary["response"].fields)))
    ensures AsObject(Lookup(dictionary, "response")).Some? && !StatusIsFail(dictionary["response"].fields) ==>
      && (AsObject(Lookup(dictionary, "result")).None? ==> r == Failure(UnexpectedResponse(NoResultDictionary)))
      && (AsObject(Lookup(dictionary, "result")).Some? && resultKey !in dictionary["result"].fields ==>
            r == Failure(UnexpectedResponse(CouldNotFind(resultKey))))
      && (AsObject(Lookup(dictionary, "result")).Some? && resultKey in dictionary["result"].fields ==>
            r == CastTo(kind, dictionary["result"].fields[resultKey], parse))
    ensures r.Success? || r.Trap? ==>
      && "result" in dictionary && dictionary["result"].JObject?
      && resultKey in dictionary["result"].fields
      && r == CastTo(kind, dictionary["result"].fields[resultKey], parse)
    ensures r.Failure? && r.error.UnexpectedResponse? ==>
      r.error.message in {NoResponseDictionary, NoResultDictionary, CouldNotFind(resultKey), UnexpectedResultType}
    ensures r.Failure? ==> !r.error.NetworkError?
  {
    match AsObject(Lookup(dictionary, "response"))
    case None => Failure(UnexpectedResponse(NoResponseDictionary))
    case Some(response) =>
      if StatusIsFail(response) then Failure(ServiceError(FailMessage(response)))
      else match AsObject(Lookup(dictionary, "result"))
        case None => Failure(UnexpectedResponse(NoResultDictionary))
        case Some(resultDict) =>
          if resultKey !in resultDict then Failure(UnexpectedResponse(CouldNotFind(resultKey)))
          else CastTo(kind, resultDict[resultKey], parse)
  }

  /**
    The status is checked before the result is looked at: a "fail" status gives
    the service error whatever the `result` entry holds.
  */
  lemma FailIgnoresResult(dictionary: map<string, Json>, other: Json, resultKey: string, kind: Expected, parse: string -> Option<Url>)
    requires "response" in dictionary && dictionary["response"].JObject? && StatusIsFail(dictionary["response"].fields)
    ensures ProcessResult(dictionary["result" := other], resultKey, kind, parse) == ProcessResult(dictionary, resultKey, kind, parse)
    ensures ProcessResult(dictionary, resultKey, kind, parse).Failure?
  {
    assert dictionary["result" := other]["response"] == dictionary["response"];
  }

  /** The decision of `responseProcessingDataTask` for what the session delivered. */
  function Complete(transport: Transport, resultKey: string, kind: Expected, parse: string -> Option<Url>): (r: Outcome)
    ensures transport.TransportFailed? ==> r == Failure(transport.error)
    ensures r.Success? <==>
      && transport.Delivered? && transport.body.JObject?
      && "response" in transport.body.fields && transport.body.fields["response"].JObject?
      && !StatusIsFail(transport.body.fields["response"].fields)
      && "result" in transport.body.fields && transport.body.fields["result"].JObject?
      && resultKey in transport.body.fields["result"].fields
      && CastTo(kind, transport.body.fields["result"].fields[resultKey], parse).Success?
    ensures transport.Delivered? && !transport.body.JObject? ==> r == Failure(UnexpectedResponse(NotADictionary))
    ensures transport.Delivered? && transport.body.JObject? ==> r == ProcessResult(transport.body.fields, resultKey, kind, parse)
  {
    match transport
    case TransportFailed(error) => Failure(error)
    case Delivered(body) =>
      match AsObject(Some(body))
      case None => Failure(UnexpectedResponse(NotADictionary))
      case Some(dictionary) => ProcessResult(dictionary, resultKey, kind, parse)
  }

  /** A well-formed success response returns exactly the value it carries. */
  lemma SuccessReturnsValue(response: map<string, Json>, value: Value, resultKey: string, parse: string -> Option<Url>)
    requires !StatusIsFail(response)
    requires value.Address? ==> parse(value.url.text) == Some(value.url)
    requires value.Number? ==> FitsInt(value.n)
    ensures Complete(Delivered(JObject(map["response" := JObject(response), "result" := JObject(map[resultKey := Encode(value)])])),
      resultKey, KindOf(value), parse) == Success(value)
  {
    CastToEncoded(value, parse);
  }
}
