/**
 * The file-info request of src/api/info.ts: the query and request options
 * built for `/info/`, and `info` resolving to the response's `data`.
 *
 * `prepareOptions` and `request` are not part of this model: `Info` takes
 * the transport as a function from the request options it is handed to the
 * settled response.
 */
module InfoApi {
  import opened Common

  /** The settings `info` reads itself. */
  datatype Settings = Settings(publicKey: Option<string>, source: Option<string>)

  /** `{}`, what `info` uses when no settings are passed. */
  const EmptySettings: Settings := Settings(None, None)

  /** A query object: parameter name to value. */
  type Query = map<string, string>

  /** The options object handed on to `prepareOptions`. */
  datatype RequestOptions = RequestOptions(path: string, query: Query)

  /** A file-info record, opaque to this module. */
  datatype FileInfo = FileInfo(fields: map<string, string>)

  datatype RequestResponse = RequestResponse(url: string, data: FileInfo)

  /** Why a request was rejected (a failed response, a cancellation). */
  datatype RequestError = RequestError(message: string)

  /** JavaScript truthiness of an optional string: present and not empty. */
  predicate Truthy(v: Option<string>) {
    v.Some? && v.value != ""
  }

  /** `query`, and `source` spread onto it when the settings carry a truthy one. */
  function GetRequestQuery(uuid: string, settings: Settings): (q: Query)
    ensures q.Keys == {"pub_key", "file_id"} + (if Truthy(settings.source) then {"source"} else {})
    ensures q["pub_key"] == settings.publicKey.GetOr("")
    ensures q["file_id"] == uuid
    ensures "source" in q <==> Truthy(settings.source)
    ensures "source" in q ==> q["source"] == settings.source.value
  {
    var query := map[
      "pub_key" := if Truthy(settings.publicKey) then settings.publicKey.value else "",
      "file_id" := uuid];
    if Truthy(settings.source) then query["source" := settings.source.value] else query
  }

  /** The `/info/` request description. */
  function GetRequestOptions(uuid: string, settings: Settings): (r: RequestOptions)
    ensures r.path == "/info/"
    ensures r.query == GetRequestQuery(uuid, settings)
    ensures "file_id" in r.query && r.query["file_id"] == uuid
    ensures r.query.Keys <= {"pub_key", "file_id", "source"}
  {
    RequestOptions("/info/", GetRequestQuery(uuid, settings))
  }

  /**
   * `info(uuid, settings = {})`: send the request built from the settings and
   * resolve to the response's `data`; a rejected request rejects `info`.
   */
  function Info(uuid: string, settings: Option<Settings>,
                request: RequestOptions -> Result<RequestResponse, RequestError>): (r: Result<FileInfo, RequestError>)
    ensures var sent := request(GetRequestOptions(uuid, settings.GetOr(EmptySettings)));
      && (sent.Success? ==> r == Success(sent.value.data))
      && (sent.Failure? ==> r == Failure(sent.error))
  {
    var options := GetRequestOptions(uuid, settings.GetOr(EmptySettings));
    match request(options)
    case Success(response) => Success(response.data)
    case Failure(e) => Failure(e)
  }

  /** Without settings the request carries an empty public key and only `pub_key` and `file_id`. */
  lemma InfoWithoutSettings(uuid: string)
    ensures var options := GetRequestOptions(uuid, Option<Settings>.None.GetOr(EmptySettings));
      && options.query == map["pub_key" := "", "file_id" := uuid]
  {
    var q := GetRequestOptions(uuid, EmptySettings).query;
    assert q.Keys == {"pub_key", "file_id"};
  }
}
