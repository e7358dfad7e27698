/**
 * Decimal text of integers, as a JavaScript template literal prints an
 * integral number, with the parser that inverts it.
 */
module Decimal {
  import opened Common

  predicate IsDigit(c: char) {
    '0' <= c <= '9'
  }

  predicate AllDigits(s: string) {
    forall i :: 0 <= i < |s| ==> IsDigit(s[i])
  }

  function DigitChar(d: nat): (c: char)
    requires d < 10
    ensures IsDigit(c) && c as int - '0' as int == d
  {
    ('0' as int + d) as char
  }

  /** The shortest decimal text of `n`. */
  function NatToDecimal(n: nat): (s: string)
    ensures |s| >= 1 && AllDigits(s)
    decreases n
  {
    if n < 10 then [DigitChar(n)] else NatToDecimal(n / 10) + [DigitChar(n % 10)]
  }

  /** `${n}` for an integral `n`: a minus sign before the digits of a negative number. */
  function IntToDecimal(n: int): (s: string)
    ensures |s| >= 1
    ensures forall i :: 0 <= i < |s| ==> IsDigit(s[i]) || (i == 0 && s[i] == '-')
  {
    if n < 0 then "-" + NatToDecimal(-n) else NatToDecimal(n)
  }

  /** The number a digit string stands for. */
  function ParseNat(s: string): nat
    requires AllDigits(s)
    decreases |s|
  {
    if s == [] then 0 else ParseNat(s[..|s| - 1]) * 10 + (s[|s| - 1] as int - '0' as int)
  }

  /** The integer an optionally signed digit string stands for. */
  function ParseInt(s: string): Option<int> {
    if |s| >= 2 && s[0] == '-' && AllDigits(s[1..]) then Some(-(ParseNat(s[1..]) as int))
    else if |s| >= 1 && AllDigits(s) then Some(ParseNat(s))
    else None
  }

  lemma {:induction false} ParseNatToDecimal(n: nat)
    ensures ParseNat(NatToDecimal(n)) == n
    decreases n
  {
    if n >= 10 {
      var s := NatToDecimal(n);
      assert s[..|s| - 1] == NatToDecimal(n / 10);
      ParseNatToDecimal(n / 10);
    }
  }

  /** Printing an integer loses nothing: parsing the text gives it back. */
  lemma ParseIntToDecimal(n: int)
    ensures ParseInt(IntToDecimal(n)) == Some(n)
  {
    if n < 0 {
      assert IntToDecimal(n)[1..] == NatToDecimal(-n);
      ParseNatToDecimal(-n);
    } else {
      ParseNatToDecimal(n);
    }
  }
}

/**
 * `multipartComplete` of src/api/multipartComplete.ts: the description of
 * the POST that asks the service to assemble an uploaded multipart file, and
 * the classification of its parsed answer into a file-info record or an
 * `UploadClientError`.
 *
 * `request`, `getUrl`, `getUserAgent`, `getFormData`, `camelizeKeys` and
 * `retryIfThrottled` are not part of this model: the request is described
 * by the arguments it hands to them.
 */
module MultipartComplete {
  import opened Common
  import opened Decimal

  /** `MultipartCompleteOptions`; `None` is an undefined property. */
  datatype Options = Options(
    publicKey: string,
    baseURL: Option<string>,
    signal: Option<nat>,
    source: Option<string>,
    integration: Option<string>,
    retryThrottledRequestMaxTimes: Option<int>)

  /** The fields of `defaultSettings` this request reads. */
  datatype Defaults = Defaults(baseURL: string, retryThrottledRequestMaxTimes: int)

  /** The arguments of `getUrl(base, path, query)`. */
  datatype Url = Url(base: string, path: string, query: map<string, int>)

  /** The arguments of `getUserAgent({ publicKey, integration })`. */
  datatype UserAgent = UserAgent(publicKey: string, integration: Option<string>)

  /** One attempt: the method, URL, user-agent header, ordered form fields and abort signal. */
  datatype Request = Request(httpMethod: string, url: Url, userAgent: UserAgent, form: seq<(string, string)>, signal: Option<nat>)

  /** `retryIfThrottled(() => request(...).then(settle), maxTimes)`. */
  datatype Call = RetryIfThrottled(attempt: Request, maxTimes: int)

  /** The service's `error` member, after key camelizing. */
  datatype ServiceError = ServiceError(statusCode: int, content: string)

  /** The camelized response body: an optional `error` member and the other members. */
  datatype Body = Body(error: Option<ServiceError>, fields: map<string, string>)

  datatype UploadClientError = UploadClientError(message: string, error: ServiceError, headers: map<string, string>)

  /** The names of the form fields, in order. */
  function FieldNames(form: seq<(string, string)>): (names: seq<string>)
    ensures |names| == |form| && forall i :: 0 <= i < |form| ==> names[i] == form[i].0
  {
    if form == [] then [] else [form[0].0] + FieldNames(form[1..])
  }

  /** The value of the first form field with that name. */
  function FieldValue(form: seq<(string, string)>, name: string): Option<string> {
    if form == [] then None
    else if form[0].0 == name then Some(form[0].1)
    else FieldValue(form[1..], name)
  }

  /**
   * The request: POST to `/multipart/complete/` with `jsonerrors=1`, the
   * form fields `uuid`, `UPLOADCARE_PUB_KEY`, `source` in that order, and
   * `baseURL`, `source` and the retry bound defaulted when undefined.
   */
  function CompleteCall(uuid: string, o: Options, d: Defaults): (c: Call)
    ensures c.attempt.httpMethod == "POST"
    ensures c.attempt.url == Url(o.baseURL.GetOr(d.baseURL), "/multipart/complete/", map["jsonerrors" := 1])
    ensures c.attempt.userAgent == UserAgent(o.publicKey, o.integration)
    ensures FieldNames(c.attempt.form) == ["uuid", "UPLOADCARE_PUB_KEY", "source"]
    ensures FieldValue(c.attempt.form, "uuid") == Some(uuid)
    ensures FieldValue(c.attempt.form, "UPLOADCARE_PUB_KEY") == Some(o.publicKey)
    ensures FieldValue(c.attempt.form, "source") == Some(o.source.GetOr("local"))
    ensures c.attempt.signal == o.signal
    ensures c.maxTimes == o.retryThrottledRequestMaxTimes.GetOr(d.retryThrottledRequestMaxTimes)
  {
    var baseURL := if o.baseURL.Some? then o.baseURL.value else d.baseURL;
    var source := if o.source.Some? then o.source.value else "local";
    var maxTimes := if o.retryThrottledRequestMaxTimes.Some? then o.retryThrottledRequestMaxTimes.value
                    else d.retryThrottledRequestMaxTimes;
    var form := [("uuid", uuid), ("UPLOADCARE_PUB_KEY", o.publicKey), ("source", source)];
    assert form[1..][1..] == [("source", source)];
    assert FieldValue(form[1..][1..], "source") == Some(source);
    assert FieldValue(form[1..], "source") == Some(source);
    RetryIfThrottled(
      Request("POST", Url(baseURL, "/multipart/complete/", map["jsonerrors" := 1]),
              UserAgent(o.publicKey, o.integration), form, o.signal),
      maxTimes)
  }

  /** `[${statusCode}] ${content}`: the message determines the service error it was made from. */
  function ErrorMessage(e: ServiceError): (m: string)
    ensures ParseErrorMessage(m) == Some(e)
  {
    var digits := IntToDecimal(e.statusCode);
    var m := "[" + digits + "] " + e.content;
    var j := 1 + |digits|;
    assert m[j] == ']' && m[j + 1] == ' ';
    assert forall k :: 1 <= k < j ==> m[k] == digits[k - 1];
    assert IndexOf(m, ']', 1) == Some(j);
    assert m[1..j] == digits;
    assert m[j + 2..] == e.content;
    ParseIntToDecimal(e.statusCode);
    m
  }

  /** The first index at or after `from` holding `c`. */
  function IndexOf(s: string, c: char, from: nat): (r: Option<nat>)
    ensures r.Some? ==> from <= r.value < |s| && s[r.value] == c
    ensures r.Some? ==> forall k :: from <= k < r.value ==> s[k] != c
    ensures r.None? ==> forall k :: from <= k < |s| ==> s[k] != c
    decreases |s| - from
  {
    if from >= |s| then None
    else if s[from] == c then Some(from)
    else IndexOf(s, c, from + 1)
  }

  /** Reads status code and content back out of an error message. */
  function ParseErrorMessage(m: string): Option<ServiceError> {
    if |m| == 0 || m[0] != '[' then None
    else
      match IndexOf(m, ']', 1)
      case None => None
      case Some(j) =>
        if j + 1 < |m| && m[j + 1] == ' ' then
          match ParseInt(m[1..j])
          case None => None
          case Some(code) => Some(ServiceError(code, m[j + 2..]))
        else None
  }

  /**
   * The `.then` of the request: a body with an `error` member is thrown as an
   * `UploadClientError` whose message is `[statusCode] content`; any other
   * body is the file info.
   */
  function Settle(body: Body, headers: map<string, string>): (r: Result<Body, UploadClientError>)
    ensures r.Failure? <==> body.error.Some?
    ensures r.Success? ==> r.value == body
    ensures r.Failure? ==> r.error.error == body.error.value && r.error.headers == headers
    ensures r.Failure? ==> ParseErrorMessage(r.error.message) == Some(body.error.value)
    ensures r.Failure? ==>
      r.error.message == "[" + IntToDecimal(body.error.value.statusCode) + "] " + body.error.value.content
  {
    if body.error.Some? then
      Failure(UploadClientError(ErrorMessage(body.error.value), body.error.value, headers))
    else Success(body)
  }
}
