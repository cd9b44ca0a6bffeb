/** The shared `Resource` base of the three facades: one generic `request`
    that hands a request to the HTTP transport, returns the response data
    unchanged on success, and on failure throws exactly the error that
    `handleError` classifies. The transport itself (axios) is a parameter. */
module Transport {
  import opened Wrappers
  import opened JsValues
  import opened Exceptions

  datatype Method = GET | POST

  /** What a facade passes to `request`: method, endpoint and optional body.
      No facade passes query parameters, so they are not part of the record. */
  datatype HttpRequest = HttpRequest(verb: Method, endpoint: string, data: Option<map<string, JsValue>>)

  /** A response the transport received: status code and decoded body. */
  datatype HttpResponse = HttpResponse(status: int, data: JsValue)

  /** What the transport can throw: an axios error, which carries its own
      message and the response if one arrived, or anything else, seen only
      through the text `${error}` gives for it. */
  datatype TransportError =
    | AxiosFailure(message: string, response: Option<HttpResponse>)
    | OtherFailure(text: string)

  /** How one transport call ends. */
  datatype Outcome = Completed(data: JsValue) | Failed(failure: TransportError)

  /** `error.response?.status`. */
  function StatusOf(f: TransportError): (s: Option<int>)
    requires f.AxiosFailure?
    ensures s.Some? <==> f.response.Some?
    ensures s.Some? ==> s.value == f.response.value.status
  {
    match f.response
    case None => None
    case Some(r) => Some(r.status)
  }

  /** `error.response?.data`: `undefined` when no response arrived. */
  function BodyOf(f: TransportError): (d: JsValue)
    requires f.AxiosFailure?
    ensures f.response.None? ==> d == JsUndefined
    ensures f.response.Some? ==> d == f.response.value.data
  {
    match f.response
    case None => JsUndefined
    case Some(r) => r.data
  }

  /** The status is present and truthy (`status && ...`): not absent, not 0. */
  predicate HasStatus(f: TransportError)
    requires f.AxiosFailure?
  {
    Truthy(match StatusOf(f) case None => JsUndefined case Some(s) => JsNumber(s))
  }

  /** `data?.error || data?.detail || error.message`. */
  function ExtractedMessage(f: TransportError): (m: JsValue)
    requires f.AxiosFailure?
    ensures Truthy(Get(BodyOf(f), "error")) ==> m == Get(BodyOf(f), "error")
    ensures !Truthy(Get(BodyOf(f), "error")) && Truthy(Get(BodyOf(f), "detail")) ==> m == Get(BodyOf(f), "detail")
    ensures !Truthy(Get(BodyOf(f), "error")) && !Truthy(Get(BodyOf(f), "detail")) ==> m == JsString(f.message)
  {
    Or(Or(Get(BodyOf(f), "error"), Get(BodyOf(f), "detail")), JsString(f.message))
  }

  /** The classification `handleError` throws for a failure. `handleError`
      never returns normally, so it is the total function from the failure
      to the one error it throws. */
  function HandleError(f: TransportError): (e: Error)
    // exactly one rule applies, decided by the status in the order of the if/else-if chain
    ensures e.AuthenticationError? <==> f.AxiosFailure? && StatusOf(f) in {Some(401), Some(403)}
    ensures e.BalanceError? <==> f.AxiosFailure? && StatusOf(f) == Some(402)
    ensures e.APIError? <==> f.AxiosFailure? && HasStatus(f) && StatusOf(f) !in {Some(401), Some(402), Some(403)}
    ensures e.PlexismsError? <==> f.OtherFailure? || !HasStatus(f)
    // an APIError carries the status and the raw body it was classified from
    ensures e.APIError? ==> e.statusCode == StatusOf(f) && e.responseBody == BodyOf(f)
  {
    match f
    case OtherFailure(text) => PlexismsError("Unexpected Error: " + text)
    case AxiosFailure(message, _) =>
      var status := StatusOf(f);
      var data := BodyOf(f);
      var m := Display(ExtractedMessage(f));
      if status == Some(401) || status == Some(403) then
        AuthenticationError("Unauthorized: " + m)
      else if status == Some(402) then
        BalanceError("Insufficient funds: " + m)
      else if status.Some? && status.value != 0 && status.value >= 500 then
        APIError("Server Error (" + IntToDecimal(status.value) + "): " + m, status, data)
      else if status.Some? && status.value != 0 then
        APIError("API Error (" + IntToDecimal(status.value) + "): " + m, status, data)
      else
        PlexismsError("Network Error: " + message)
  }

  /** `request`: send through the transport; return `response.data` unchanged,
      or throw the classified error. */
  function Request(transport: HttpRequest -> Outcome, req: HttpRequest): (r: Result<JsValue, Error>)
    ensures r.Success? <==> transport(req).Completed?
    ensures r.Success? ==> r.value == transport(req).data
    ensures r.Failure? ==> r.error == HandleError(transport(req).failure)
  {
    match transport(req)
    case Completed(data) => Success(data)
    case Failed(failure) => Failure(HandleError(failure))
  }

  // ---------------------------------------------------------------------
  // The classification rules one by one.

  /** 401 and 403 give an AuthenticationError, ahead of the later rules that a
      truthy status would otherwise meet. */
  lemma UnauthorizedRule(f: TransportError)
    requires f.AxiosFailure? && StatusOf(f) in {Some(401), Some(403)}
    ensures HasStatus(f)
    ensures HandleError(f) == AuthenticationError("Unauthorized: " + Display(ExtractedMessage(f)))
  {
  }

  lemma InsufficientFundsRule(f: TransportError)
    requires f.AxiosFailure? && StatusOf(f) == Some(402)
    ensures HandleError(f) == BalanceError("Insufficient funds: " + Display(ExtractedMessage(f)))
  {
  }

  lemma ServerErrorRule(f: TransportError)
    requires f.AxiosFailure? && StatusOf(f).Some? && StatusOf(f).value >= 500
    ensures var s := StatusOf(f).value;
      HandleError(f) == APIError("Server Error (" + IntToDecimal(s) + "): " + Display(ExtractedMessage(f)), Some(s), BodyOf(f))
  {
  }

  /** Any other truthy status, negative ones included. */
  lemma ClientErrorRule(f: TransportError)
    requires f.AxiosFailure? && HasStatus(f) && StatusOf(f).value < 500
    requires StatusOf(f) !in {Some(401), Some(402), Some(403)}
    ensures var s := StatusOf(f).value;
      HandleError(f) == APIError("API Error (" + IntToDecimal(s) + "): " + Display(ExtractedMessage(f)), Some(s), BodyOf(f))
  {
  }

  /** No response, or a status of 0: the transport's own message is used,
      not the one extracted from the body. */
  lemma NetworkErrorRule(f: TransportError)
    requires f.AxiosFailure? && !HasStatus(f)
    ensures HandleError(f) == PlexismsError("Network Error: " + f.message)
  {
  }

  lemma UnexpectedRule(f: TransportError)
    requires f.OtherFailure?
    ensures HandleError(f) == PlexismsError("Unexpected Error: " + f.text)
  {
  }

  /** A network error does not depend on the response body at all. */
  lemma NetworkErrorIgnoresBody(f1: TransportError, f2: TransportError)
    requires f1.AxiosFailure? && f2.AxiosFailure? && f1.message == f2.message
    requires !HasStatus(f1) && !HasStatus(f2)
    ensures HandleError(f1) == HandleError(f2)
  {
  }

  /** Without a response, all three tiers collapse to the transport's message. */
  lemma NoResponseUsesTransportMessage(f: TransportError)
    requires f.AxiosFailure? && f.response.None?
    ensures ExtractedMessage(f) == JsString(f.message)
  {
  }

  /** A text without `)` followed by `)` is fixed by the whole string. */
  lemma {:induction false} DelimitedPrefix(a: string, b: string, x: string, y: string)
    requires ')' !in a && ')' !in b
    requires a + ")" + x == b + ")" + y
    ensures a == b
  {
    var l := a + ")" + x;
    assert l == b + ")" + y;
    assert l[|a|] == ')' && l[|b|] == ')';
    assert forall k :: 0 <= k < |a| ==> l[k] == a[k];
    assert forall k :: 0 <= k < |b| ==> l[k] == b[k];
    assert a == l[..|a|] && b == l[..|b|];
  }

  /** The status is recoverable from an APIError's message: two APIErrors
      with the same message were classified from the same status, whatever
      their response bodies said. */
  lemma ApiMessageDeterminesStatus(f1: TransportError, f2: TransportError)
    requires HandleError(f1).APIError? && HandleError(f2).APIError?
    requires HandleError(f1).message == HandleError(f2).message
    ensures HandleError(f1).statusCode == HandleError(f2).statusCode
  {
    var s1, s2 := StatusOf(f1).value, StatusOf(f2).value;
    var m1, m2 := Display(ExtractedMessage(f1)), Display(ExtractedMessage(f2));
    var msg := HandleError(f1).message;
    var d1, d2 := IntToDecimal(s1), IntToDecimal(s2);
    var p := if s1 >= 500 then "Server Error (" else "API Error (";
    assert msg == p + d1 + "): " + m1;
    assert (s2 >= 500) == (s1 >= 500) by {
      assert s2 >= 500 ==> msg[0] == 'S';
      assert s2 < 500 ==> msg[0] == 'A';
    }
    assert msg == p + d2 + "): " + m2;
    assert msg[|p|..] == d1 + ")" + (": " + m1);
    assert msg[|p|..] == d2 + ")" + (": " + m2);
    DelimitedPrefix(d1, d2, ": " + m1, ": " + m2);
    IntToDecimalInjective(s1, s2);
  }
}
