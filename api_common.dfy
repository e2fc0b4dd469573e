/**
  What the four API clients share: the errors a request can end with, the kinds
  of result a caller can ask for, and the conversion of the value found under
  the result key into the kind asked for (`result as? T`, with the special case
  of a string where a URL is expected).
*/
module ApiCommon {
  import opened Basics
  import opened Json

  /** `WebServiceError`; the variants without a service-error case never produce `ServiceError`. */
  datatype ApiError =
    | NetworkError(cause: string)
    | ServiceError(message: string)
    | UnexpectedResponse(message: string)

  /** A URL, as far as this model needs one: `URL(string:)` is a parameter of type `string -> Option<Url>`. */
  datatype Url = Url(text: string)

  /** The result types the endpoints ask for: `[JSONDictionary]`, `Int` and `URL`. */
  datatype Expected = DictArray | Integer | Link

  /** A result of the kind asked for. */
  datatype Value = Dicts(dicts: seq<map<string, Json>>) | Number(n: int) | Address(url: Url)

  /** What reaches the completion handler; `Trap` is the crash of a forced cast. */
  datatype Outcome = Success(value: Value) | Failure(error: ApiError) | Trap

  /** What the session hands the response processing: the decoded body, or the transport's own error. */
  datatype Transport = Delivered(body: Json) | TransportFailed(error: ApiError)

  const NoResponseDictionary := "JSON response did not contain response dictionary"
  const UnexpectedResultType := "Unexpected result type"
  const UnknownError := "Unknown Error"

  /** The range of Swift's 64-bit `Int`: `as? Int` fails on a JSON number outside it. */
  const IntMin := -0x8000_0000_0000_0000
  const IntMax := 0x7FFF_FFFF_FFFF_FFFF

  predicate FitsInt(n: int) {
    IntMin <= n <= IntMax
  }

  function KindOf(v: Value): Expected {
    match v
    case Dicts(_) => DictArray
    case Number(_) => Integer
    case Address(_) => Link
  }

  /** The message for a missing result key. */
  function CouldNotFind(resultKey: string): (r: string)
    ensures StartsWith(r, "Could not find '") && EndsWith(r, "'")
    ensures |r| == |resultKey| + 17 && r[16..|r| - 1] == resultKey
  {
    "Could not find '" + resultKey + "'"
  }

  /** `response["status"] as? String == "fail"` */
  predicate StatusIsFail(response: map<string, Json>) {
    AsString(Lookup(response, "status")) == Some("fail")
  }

  /** `response["message"] as? String ?? "Unknown Error"` */
  function FailMessage(response: map<string, Json>): (r: string)
    ensures "message" in response && response["message"].JString? ==> r == response["message"].s
    ensures !("message" in response && response["message"].JString?) ==> r == UnknownError
  {
    AsString(Lookup(response, "message")).GetOr(UnknownError)
  }

  /**
    The value under the result key converted to the kind asked for: a value of
    that kind as it is (a number only within `Int`'s range), a string through
    `URL(string:)` when a URL is asked for (trapping when that gives nil),
    anything else "Unexpected result type".
  */
  function CastTo(kind: Expected, result: Json, parse: string -> Option<Url>): (r: Outcome)
    ensures r.Success? ==> KindOf(r.value) == kind
    ensures r.Failure? ==> r.error == UnexpectedResponse(UnexpectedResultType)
    ensures r.Trap? <==> kind == Link && result.JString? && parse(result.s).None?
    ensures r.Success? <==>
      || (kind == DictArray && result.JArray? && AllObjects(result.items))
      || (kind == Integer && result.JNumber? && FitsInt(result.n))
      || (kind == Link && result.JString? && parse(result.s).Some?)
    ensures r.Success? && kind == DictArray ==>
      |result.items| == |r.value.dicts| && forall i :: 0 <= i < |result.items| ==> result.items[i] == JObject(r.value.dicts[i])
    ensures r.Success? && kind == Integer ==> result == JNumber(r.value.n) && FitsInt(r.value.n)
    ensures r.Success? && kind == Link ==> result.JString? && parse(result.s) == Some(r.value.url)
  {
    match kind
    case DictArray =>
      (match AsObjectArray(Some(result))
       case Some(dicts) => Success(Dicts(dicts))
       case None => Failure(UnexpectedResponse(UnexpectedResultType)))
    case Integer =>
      if result.JNumber? && FitsInt(result.n) then Success(Number(result.n)) else Failure(UnexpectedResponse(UnexpectedResultType))
    case Link =>
      if result.JString? then
        match parse(result.s)
        case Some(url) => Success(Address(url))
        case None => Trap
      else Failure(UnexpectedResponse(UnexpectedResultType))
  }

  /** A value of the kind asked for, written as JSON, is returned unchanged. */
  lemma CastToEncoded(v: Value, parse: string -> Option<Url>)
    requires v.Address? ==> parse(v.url.text) == Some(v.url)
    requires v.Number? ==> FitsInt(v.n)
    ensures CastTo(KindOf(v), Encode(v), parse) == Success(v)
  {
    if v.Dicts? {
      var items := Encode(v).items;
      assert AllObjects(items);
      assert AsObjectArray(Some(Encode(v))).value == v.dicts;
    }
  }

  /** How a value of each kind appears in a JSON body (a URL as its string). */
  function Encode(v: Value): (r: Json)
    ensures r.JArray? || r.JNumber? || r.JString?
  {
    match v
    case Dicts(ds) => JArray(seq(|ds|, i requires 0 <= i < |ds| => JObject(ds[i])))
    case Number(n) => JNumber(n)
    case Address(url) => JString(url.text)
  }

  // ---------------------------------------------------------------- requests

  /** `ExportFileType` / `ExportType`: the formats an export can be requested in. */
  datatype ExportType =
    | Po | Pot | Mo | Xls | Csv | Resw | Resx | AndroidStrings | AppleStrings
    | Xliff | Properties | KeyValueJson | JsonFile

  /** The raw value of a format, which is also how it is written into a form field. */
  function RawValue(t: ExportType): string {
    match t
    case Po => "po"
    case Pot => "pot"
    case Mo => "mo"
    case Xls => "xls"
    case Csv => "csv"
    case Resw => "resw"
    case Resx => "resx"
    case AndroidStrings => "android_strings"
    case AppleStrings => "apple_strings"
    case Xliff => "xliff"
    case Properties => "properties"
    case KeyValueJson => "key_value_json"
    case JsonFile => "json"
  }

  /** The calls a client offers. */
  datatype Call =
    | ListProjects
    | CreateProject(name: string)
    | ListProjectLanguages(projectID: int)
    | ExportProjectTranslation(projectID: int, languageCode: string, fileType: ExportType)

  /** A form field: text, or an integer written in decimal. */
  datatype Field = TextField(text: string) | IntField(n: int)

  /** A form POST: the URL, its fields, and where and as what its result is expected. */
  datatype Request = Request(url: string, fields: map<string, Field>, resultKey: string, expected: Expected)

  /** The result type each call asks for. */
  function ExpectedOf(call: Call): Expected {
    match call
    case ListProjects => DictArray
    case CreateProject(_) => Integer
    case ListProjectLanguages(_) => DictArray
    case ExportProjectTranslation(_, _, _) => Link
  }

  /** The fields of a call besides the ones that select the action: the token and the call's own arguments. */
  function CallFields(token: string, call: Call): (r: map<string, Field>)
    ensures "api_token" in r && r["api_token"] == TextField(token)
    ensures "action" !in r
    ensures call.CreateProject? ==> r.Keys == {"api_token", "name"} && r["name"] == TextField(call.name)
    ensures call.ListProjectLanguages? ==> r.Keys == {"api_token", "id"} && r["id"] == IntField(call.projectID)
    ensures call.ExportProjectTranslation? ==>
      && r.Keys == {"api_token", "id", "language", "type"}
      && r["id"] == IntField(call.projectID)
      && r["language"] == TextField(call.languageCode)
      && r["type"] == TextField(RawValue(call.fileType))
    ensures call.ListProjects? ==> r.Keys == {"api_token"}
  {
    match call
    case ListProjects => map["api_token" := TextField(token)]
    case CreateProject(name) => map["api_token" := TextField(token), "name" := TextField(name)]
    case ListProjectLanguages(id) => map["api_token" := TextField(token), "id" := IntField(id)]
    case ExportProjectTranslation(id, language, fileType) =>
      map["api_token" := TextField(token), "id" := IntField(id), "language" := TextField(language), "type" := TextField(RawValue(fileType))]
  }
}
