/**
  The client of the first POEditor API in the tool's own package
  (POEditorAPI/Source/POEditor.swift): every call goes to the single endpoint
  "https://poeditor.com/api/" with an `action` field, and the result is looked
  up at the top level of the response first and inside `response` second.
*/
module ApiSource {
  import opened Basics
  import opened Json
  import opened ApiCommon
  import ApiCore

  const Endpoint := "https://poeditor.com/api/"
  const NotADictionary := "JSON response is not a dictionary"

  /** The `action` field of each call. */
  function ActionOf(call: Call): string {
    match call
    case ListProjects => "list_projects"
    case CreateProject(_) => "create_project"
    case ListProjectLanguages(_) => "list_languages"
    case ExportProjectTranslation(_, _, _) => "export"
  }

  function ResultKeyOf(call: Call): string {
    match call
    case ListProjects => "list"
    case CreateProject(_) => "item"
    case ListProjectLanguages(_) => "list"
    case ExportProjectTranslation(_, _, _) => "item"
  }

  /** The request each public method builds: the call's fields and its action, posted to the endpoint. */
  function MakeRequest(token: string, call: Call): (r: Request)
    ensures r.url == Endpoint
    ensures "action" in r.fields && r.fields["action"] == TextField(ActionOf(call))
    ensures "api_token" in r.fields && r.fields["api_token"] == TextField(token)
  {
    Request(Endpoint, CallFields(token, call)["action" := TextField(ActionOf(call))], ResultKeyOf(call), ExpectedOf(call))
  }

  /**
    The two clients send the same fields for the same call, except that this one
    adds the action and posts everything to one address.
  */
  lemma FieldsAreVersionTwoFieldsWithAction(token: string, call: Call)
    ensures MakeRequest(token, call).fields == ApiCore.MakeRequest(token, call).fields["action" := TextField(ActionOf(call))]
    ensures MakeRequest(token, call).fields.Keys == ApiCore.MakeRequest(token, call).fields.Keys + {"action"}
    ensures MakeRequest(token, call).expected == ApiCore.MakeRequest(token, call).expected
  {
  }

  /** `dictionary[resultKey] ?? response[resultKey]` */
  function FindResult(dictionary: map<string, Json>, response: map<string, Json>, resultKey: string): (r: Option<Json>)
    ensures r.Some? <==> resultKey in dictionary || resultKey in response
    ensures resultKey in dictionary ==> r == Some(dictionary[resultKey])
    ensures resultKey !in dictionary && resultKey in response ==> r == Some(response[resultKey])
  {
    if resultKey in dictionary then Some(dictionary[resultKey]) else Lookup(response, resultKey)
  }

  /** `processResultJSON(dictionary:resultKey:)` */
  function ProcessResult(dictionary: map<string, Json>, resultKey: string, kind: Expected, parse: string -> Option<Url>): (r: Outcome)
    ensures AsObject(Lookup(dictionary, "response")).None? ==> r == Failure(UnexpectedResponse(NoResponseDictionary))
    ensures AsObject(Lookup(dictionary, "response")).Some? && StatusIsFail(dictionary["response"].fields) ==>
      r == Failure(ServiceError(FailMessage(dictionary["response"].fields)))
    ensures AsObject(Lookup(dictionary, "response")).Some? && !StatusIsFail(dictionary["response"].fields) ==>
      && (FindResult(dictionary, dictionary["response"].fields, resultKey).None? ==>
            r == Failure(UnexpectedResponse(CouldNotFind(resultKey))))
      && (FindResult(dictionary, dictionary["response"].fields, resultKey).Some? ==>
            r == CastTo(kind, FindResult(dictionary, dictionary["response"].fields, resultKey).value, parse))
    ensures r.Success? || r.Trap? ==>
      && "response" in dictionary && dictionary["response"].JObject?
      && FindResult(dictionary, dictionary["response"].fields, resultKey).Some?
      && r == CastTo(kind, FindResult(dictionary, dictionary["response"].fields, resultKey).value, parse)
    ensures r.Failure? && r.error.UnexpectedResponse? ==>
      r.error.message in {NoResponseDictionary, CouldNotFind(resultKey), UnexpectedResultType}
  {
    match AsObject(Lookup(dictionary, "response"))
    case None => Failure(UnexpectedResponse(NoResponseDictionary))
    case Some(response) =>
      if StatusIsFail(response) then Failure(ServiceError(FailMessage(response)))
      else match FindResult(dictionary, response, resultKey)
        case None => Failure(UnexpectedResponse(CouldNotFind(resultKey)))
        case Some(result) => CastTo(kind, result, parse)
  }

  /** A result key at the top level wins: what `response` holds under that key does not matter. */
  lemma TopLevelWins(dictionary: map<string, Json>, resultKey: string, other: Json, kind: Expected, parse: string -> Option<Url>)
    requires resultKey in dictionary && resultKey != "response"
    requires "response" in dictionary && dictionary["response"].JObject?
    requires resultKey != "status" && resultKey != "message"
    ensures var changed := dictionary["response" := JObject(dictionary["response"].fields[resultKey := other])];
      ProcessResult(changed, resultKey, kind, parse) == ProcessResult(dictionary, resultKey, kind, parse)
  {
    var response := dictionary["response"].fields;
    var changed := dictionary["response" := JObject(response[resultKey := other])];
    assert Lookup(response[resultKey := other], "status") == Lookup(response, "status");
    assert Lookup(response[resultKey := other], "message") == Lookup(response, "message");
    assert changed[resultKey] == dictionary[resultKey];
  }

  /** The decision of `responseProcessingDataTask` for what the session delivered. */
  function Complete(transport: Transport, resultKey: string, kind: Expected, parse: string -> Option<Url>): (r: Outcome)
    ensures transport.TransportFailed? ==> r == Failure(transport.error)
    ensures transport.Delivered? && !transport.body.JObject? ==> r == Failure(UnexpectedResponse(NotADictionary))
    ensures transport.Delivered? && transport.body.JObject? ==> r == ProcessResult(transport.body.fields, resultKey, kind, parse)
    ensures r.Success? ==>
      && transport.Delivered? && transport.body.JObject?
      && "response" in transport.body.fields && transport.body.fields["response"].JObject?
      && !StatusIsFail(transport.body.fields["response"].fields)
  {
    match transport
    case TransportFailed(error) => Failure(error)
    case Delivered(body) =>
      match AsObject(Some(body))
      case None => Failure(UnexpectedResponse(NotADictionary))
      case Some(dictionary) => ProcessResult(dictionary, resultKey, kind, parse)
  }

  /**
    On a response that holds no result anywhere both clients fail, and they
    report a service error on exactly the same responses.
  */
  lemma AgreesWithVersionTwoWithoutResult(dictionary: map<string, Json>, resultKey: string, kind: Expected, parse: string -> Option<Url>)
    requires "result" !in dictionary && resultKey !in dictionary
    requires "response" in dictionary && dictionary["response"].JObject? && resultKey !in dictionary["response"].fields
    ensures ProcessResult(dictionary, resultKey, kind, parse).Failure?
    ensures ApiCore.ProcessResult(dictionary, resultKey, kind, parse).Failure?
    ensures ProcessResult(dictionary, resultKey, kind, parse).error.ServiceError? <==>
      ApiCore.ProcessResult(dictionary, resultKey, kind, parse).error.ServiceError?
  {
  }
}
