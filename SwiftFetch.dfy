/**
 The `fetch` entry points (Sources/SwiftFetch/SwiftFetch.swift): the connectivity
 short-circuit, flattening the headers into the request, and up to three
 sequential attempts of which the first `ok` response, or else the last one, is
 delivered to the handler.

 The transport is the function `transport`: `transport(k)` is what the k-th
 attempt (counting from 0) reports. Reachability is the flag `connected`.
 */
module SwiftFetch {

  import opened Wrappers
  import opened Methods
  import opened Headers
  import opened Responses

  /** What one `dataTask` completion reports: an error, or data and a response. */
  datatype AttemptOutcome =
    | Failed(error: Error)
    | Completed(data: Option<Bytes>, response: HTTPURLResponse)

  /** The Response one attempt produces (the body of the `dataTask` completion). */
  function AttemptResponse(url: URL, outcome: AttemptOutcome): (r: Response)
    ensures WellFormed(r)
    ensures outcome.Failed? ==> r.status == -1 && r.error == Some(outcome.error) && r.url == url
    ensures outcome.Completed? ==>
      r.error.None? && r.response == Some(outcome.response) && r.body == outcome.data
    ensures outcome.Completed? ==> r == SuccessResponse(url, outcome.data, outcome.response)
  {
    match outcome
    case Failed(err) => FailureResponse(url, err)
    case Completed(data, res) => SuccessResponse(url, data, res)
  }

  /** A transport error is never ok, so it is always retried while attempts remain. */
  lemma TransportErrorsAreRetried(url: URL, error: Error)
    ensures !Ok(AttemptResponse(url, Failed(error)))
  {
    SentinelStatusesAreNotOk(url, error);
  }

  // ---------------------------------------------------------------------------
  // Header flattening: Dictionary(uniqueKeysWithValues: headers.map { $0.createHeader() })

  /** `headers.map { $0.createHeader() }`. */
  function Pairs(hs: seq<HTTPHeader>): (ps: seq<(string, string)>)
    ensures |ps| == |hs|
    ensures forall i :: 0 <= i < |hs| ==> ps[i] == CreateHeader(hs[i])
  {
    seq(|hs|, i requires 0 <= i < |hs| => CreateHeader(hs[i]))
  }

  /** The keys are pairwise distinct; otherwise `Dictionary(uniqueKeysWithValues:)` traps. */
  predicate DistinctKeys(ps: seq<(string, string)>) {
    forall i, j :: 0 <= i < j < |ps| ==> ps[i].0 != ps[j].0
  }

  function Keys(ps: seq<(string, string)>): set<string> {
    set i | 0 <= i < |ps| :: ps[i].0
  }

  lemma KeysOfTail(ps: seq<(string, string)>)
    requires ps != []
    ensures Keys(ps) == Keys(ps[1..]) + {ps[0].0}
  {
    forall n | n in Keys(ps) ensures n in Keys(ps[1..]) + {ps[0].0} {
      var i :| 0 <= i < |ps| && ps[i].0 == n;
      if i > 0 {
        assert ps[1..][i - 1].0 == n;
      }
    }
  }

  lemma HeadKeyNotInTail(ps: seq<(string, string)>)
    requires ps != [] && DistinctKeys(ps)
    ensures ps[0].0 !in Keys(ps[1..])
    ensures DistinctKeys(ps[1..])
  {
    forall i | 0 <= i < |ps| - 1 ensures ps[1..][i].0 != ps[0].0 {
      assert ps[1..][i] == ps[i + 1];
    }
  }

  /** `Dictionary(uniqueKeysWithValues:)`: every key maps to its value, and no pair is lost. */
  function UniqueKeysDictionary(ps: seq<(string, string)>): (m: map<string, string>)
    requires DistinctKeys(ps)
    ensures m.Keys == Keys(ps)
    ensures forall i :: 0 <= i < |ps| ==> m[ps[i].0] == ps[i].1
  {
    if ps == [] then map[]
    else
      HeadKeyNotInTail(ps);
      KeysOfTail(ps);
      var rest := UniqueKeysDictionary(ps[1..]);
      var m := rest[ps[0].0 := ps[0].1];
      assert forall i :: 0 < i < |ps| ==> ps[i] == ps[1..][i - 1];
      m
  }

  /** No pair is lost: the dictionary has one entry per pair. */
  lemma {:induction false} DictionaryKeepsEveryPair(ps: seq<(string, string)>)
    requires DistinctKeys(ps)
    ensures |UniqueKeysDictionary(ps)| == |ps|
  {
    if ps != [] {
      HeadKeyNotInTail(ps);
      DictionaryKeepsEveryPair(ps[1..]);
      var rest := UniqueKeysDictionary(ps[1..]);
      assert ps[0].0 !in rest;
      assert UniqueKeysDictionary(ps) == rest[ps[0].0 := ps[0].1];
    }
  }

  /** The names `createHeader` gives are pairwise distinct, which flattening needs. */
  predicate DistinctNames(hs: seq<HTTPHeader>) {
    DistinctKeys(Pairs(hs))
  }

  function Names(hs: seq<HTTPHeader>): set<string> {
    Keys(Pairs(hs))
  }

  /** The header dictionary of the request: each header's name maps to its value. */
  function FlattenHeaders(hs: seq<HTTPHeader>): (m: map<string, string>)
    requires DistinctNames(hs)
    ensures m.Keys == Names(hs)
    ensures forall i :: 0 <= i < |hs| ==> Name(hs[i]) in m && m[Name(hs[i])] == Value(hs[i])
  {
    var m := UniqueKeysDictionary(Pairs(hs));
    assert forall i :: 0 <= i < |hs| ==> Pairs(hs)[i] == (Name(hs[i]), Value(hs[i]));
    m
  }

  /** Every header contributes its own entry to the request. */
  lemma FlattenedHeadersCount(hs: seq<HTTPHeader>)
    requires DistinctNames(hs)
    ensures |FlattenHeaders(hs)| == |hs|
  {
    DictionaryKeepsEveryPair(Pairs(hs));
  }

  /** Two headers of the same non-custom case always clash: such a list traps. */
  lemma RepeatedStandardCaseTraps(a: HTTPHeader, b: HTTPHeader)
    requires !a.Custom? && CaseIndex(a) == CaseIndex(b)
    ensures !DistinctNames([a, b])
  {
    NameDependsOnlyOnCase(a, b);
    assert Pairs([a, b])[0].0 == Pairs([a, b])[1].0;
  }

  /** Repeating a name does not overwrite: `[("A", "1"), ("A", "2")]` traps rather than keeping "2". */
  lemma RepeatedCustomNameTraps()
    ensures !DistinctNames([Custom("A", "1"), Custom("A", "2")])
  {
    var hs := [Custom("A", "1"), Custom("A", "2")];
    assert Pairs(hs)[0].0 == Pairs(hs)[1].0;
  }

  /** A list of non-custom headers flattens without trapping exactly when no case repeats. */
  lemma StandardHeadersFlattenIffCasesDistinct(hs: seq<HTTPHeader>)
    requires forall i :: 0 <= i < |hs| ==> !hs[i].Custom?
    ensures DistinctNames(hs) <==> forall i, j :: 0 <= i < j < |hs| ==> CaseIndex(hs[i]) != CaseIndex(hs[j])
  {
    forall i, j | 0 <= i < j < |hs|
      ensures Name(hs[i]) == Name(hs[j]) <==> CaseIndex(hs[i]) == CaseIndex(hs[j])
    {
      StandardNamesAreDistinctTokens(hs[i], hs[j]);
    }
  }

  // ---------------------------------------------------------------------------
  // The request

  /** The fields of `URLRequest` the library sets. */
  datatype URLRequest = URLRequest(
    url: URL,
    headers: map<string, string>,
    httpMethod: string,
    httpBody: Option<Bytes>,
    timeoutInterval: int)

  /** `req.timeoutInterval = 60`, in seconds. */
  const RequestTimeout := 60

  /** The timeout a fresh `URLRequest` starts with, in seconds. */
  const FoundationDefaultTimeout := 60

  /** The request `fetch` builds and sends on every attempt. */
  function RequestFor(url: URL, hs: seq<HTTPHeader>, httpMethod: HTTPMethod, body: Option<Bytes>): (req: URLRequest)
    requires DistinctNames(hs)
    ensures req.url == url && req.httpBody == body && req.timeoutInterval == RequestTimeout
    ensures FromRawValue(req.httpMethod) == Some(httpMethod)
    ensures req.headers.Keys == Names(hs)
    ensures forall i :: 0 <= i < |hs| ==> req.headers[Name(hs[i])] == Value(hs[i])
  {
    RawValueRoundTrip(httpMethod);
    URLRequest(url, FlattenHeaders(hs), RawValue(httpMethod), body, RequestTimeout)
  }

  // ---------------------------------------------------------------------------
  // The retry loop

  const MaxAttempts: nat := 3

  /**
   Attempts from the i-th on: the Response delivered and how many attempts were
   made in all.
   */
  function RetryFrom(url: URL, transport: nat -> AttemptOutcome, i: nat): (Response, nat)
    requires i < MaxAttempts
    decreases MaxAttempts - i
  {
    var r := AttemptResponse(url, transport(i));
    if Ok(r) || i == MaxAttempts - 1 then (r, i + 1) else RetryFrom(url, transport, i + 1)
  }

  /**
   What the retry loop promises: at least one and at most three attempts; the
   delivered Response is that of the last attempt made; every earlier attempt
   was not ok; and the loop stopped because that attempt was ok or because the
   attempts ran out.
   */
  predicate RetryContract(url: URL, transport: nat -> AttemptOutcome, delivered: Response, attempts: nat) {
    && 1 <= attempts <= MaxAttempts
    && delivered == AttemptResponse(url, transport(attempts - 1))
    && (forall k :: 0 <= k < attempts - 1 ==> !Ok(AttemptResponse(url, transport(k))))
    && (Ok(delivered) || attempts == MaxAttempts)
  }

  lemma {:induction false} RetryFromMeetsContract(url: URL, transport: nat -> AttemptOutcome, i: nat)
    requires i < MaxAttempts
    requires forall k :: 0 <= k < i ==> !Ok(AttemptResponse(url, transport(k)))
    ensures RetryContract(url, transport, RetryFrom(url, transport, i).0, RetryFrom(url, transport, i).1)
    decreases MaxAttempts - i
  {
    var r := AttemptResponse(url, transport(i));
    if !(Ok(r) || i == MaxAttempts - 1) {
      RetryFromMeetsContract(url, transport, i + 1);
    }
  }

  /** The contract fixes the outcome: it has exactly one solution. */
  lemma RetryContractIsUnique(url: URL, transport: nat -> AttemptOutcome, r1: Response, n1: nat, r2: Response, n2: nat)
    requires RetryContract(url, transport, r1, n1) && RetryContract(url, transport, r2, n2)
    ensures n1 == n2 && r1 == r2
  {
  }

  /**
   The number of attempts is one more than the index of the first ok attempt
   when one of the three is ok, and otherwise three.
   */
  lemma AttemptsCount(url: URL, transport: nat -> AttemptOutcome, delivered: Response, attempts: nat)
    requires RetryContract(url, transport, delivered, attempts)
    ensures forall j :: 0 <= j < MaxAttempts && Ok(AttemptResponse(url, transport(j))) &&
                        (forall k :: 0 <= k < j ==> !Ok(AttemptResponse(url, transport(k))))
                        ==> attempts == j + 1
    ensures (forall j :: 0 <= j < MaxAttempts ==> !Ok(AttemptResponse(url, transport(j)))) ==> attempts == MaxAttempts
  {
  }

  /** Only the attempts actually made matter: transports that agree on them deliver the same. */
  lemma LaterOutcomesAreIgnored(url: URL, t1: nat -> AttemptOutcome, t2: nat -> AttemptOutcome)
    requires forall k :: 0 <= k < RetryFrom(url, t1, 0).1 ==> t1(k) == t2(k)
    ensures RetryFrom(url, t1, 0) == RetryFrom(url, t2, 0)
  {
    RetryFromMeetsContract(url, t1, 0);
    RetryFromMeetsContract(url, t2, 0);
    var (r1, n1) := RetryFrom(url, t1, 0);
    assert RetryContract(url, t2, r1, n1);
    RetryContractIsUnique(url, t2, r1, n1, RetryFrom(url, t2, 0).0, RetryFrom(url, t2, 0).1);
  }

  /**
   The body of the closure `fetch` dispatches: up to three attempts, the first ok
   Response, or else the last, being delivered.
   */
  method Attempts(url: URL, transport: nat -> AttemptOutcome) returns (delivered: Response, attempts: nat)
    ensures RetryContract(url, transport, delivered, attempts)
    ensures (delivered, attempts) == RetryFrom(url, transport, 0)
  {
    RetryFromMeetsContract(url, transport, 0);
    var response: Option<Response> := None;
    attempts := 0;
    while attempts < MaxAttempts
      invariant 0 <= attempts <= MaxAttempts
      invariant response.None? <==> attempts == 0
      invariant response.Some? ==> response.value == AttemptResponse(url, transport(attempts - 1))
      invariant forall k :: 0 <= k < attempts ==> !Ok(AttemptResponse(url, transport(k)))
    {
      response := Some(AttemptResponse(url, transport(attempts)));
      attempts := attempts + 1;
      if Ok(response.value) {
        delivered := response.value;
        RetryContractIsUnique(url, transport, delivered, attempts, RetryFrom(url, transport, 0).0, RetryFrom(url, transport, 0).1);
        return;
      }
    }
    delivered := response.value;
    RetryContractIsUnique(url, transport, delivered, attempts, RetryFrom(url, transport, 0).0, RetryFrom(url, transport, 0).1);
  }

  /** The Response the handler receives. */
  function Delivered(url: URL, connected: bool, transport: nat -> AttemptOutcome): Response {
    if !connected then FailureResponse(url, NoNetworkConnectionError, -3)
    else RetryFrom(url, transport, 0).0
  }

  /**
   `fetch(_ url: URL, headers:method:body:_ handler:)`: the Response passed to the
   handler, how many attempts reached the transport, and the request sent (none
   when offline).
   */
  method Fetch(url: URL, headers: seq<HTTPHeader>, httpMethod: HTTPMethod, body: Option<Bytes>,
               connected: bool, transport: nat -> AttemptOutcome)
    returns (delivered: Response, attempts: nat, request: Option<URLRequest>)
    requires connected ==> DistinctNames(headers)
    ensures !connected ==>
      && delivered == FailureResponse(url, NoNetworkConnectionError, -3)
      && attempts == 0 && request.None?
    ensures connected ==>
      && request == Some(RequestFor(url, headers, httpMethod, body))
      && RetryContract(url, transport, delivered, attempts)
    ensures connected ==> (delivered, attempts) == RetryFrom(url, transport, 0)
    ensures delivered == Delivered(url, connected, transport)
  {
    if !connected {
      return FailureResponse(url, NoNetworkConnectionError, -3), 0, None;
    }

    var h := FlattenHeaders(headers);
    var req := URLRequest(url, h, RawValue(httpMethod), body, FoundationDefaultTimeout);
    req := req.(timeoutInterval := RequestTimeout);
    request := Some(req);
    delivered, attempts := Attempts(url, transport);
  }

  /** The synchronous `fetch(_ url: URL, ...) -> Response`: exactly what the handler received. */
  method FetchSync(url: URL, headers: seq<HTTPHeader>, httpMethod: HTTPMethod, body: Option<Bytes>,
                   connected: bool, transport: nat -> AttemptOutcome)
    returns (response: Response)
    requires connected ==> DistinctNames(headers)
    ensures response == Delivered(url, connected, transport)
  {
    var delivered, _, _ := Fetch(url, headers, httpMethod, body, connected, transport);
    response := delivered;
  }

  /**
   The String overloads: `URL(string: url)!` traps on a string that does not
   parse, so the parse (the function `parse`) must succeed.
   */
  method FetchFromString(url: string, parse: string -> Option<URL>, headers: seq<HTTPHeader>, httpMethod: HTTPMethod,
                         body: Option<Bytes>, connected: bool, transport: nat -> AttemptOutcome)
    returns (delivered: Response, attempts: nat, request: Option<URLRequest>)
    requires parse(url).Some?
    requires connected ==> DistinctNames(headers)
    ensures delivered == Delivered(parse(url).value, connected, transport)
    ensures connected ==> (delivered, attempts) == RetryFrom(parse(url).value, transport, 0)
    ensures connected ==> request == Some(RequestFor(parse(url).value, headers, httpMethod, body))
    ensures !connected ==> attempts == 0 && request.None?
  {
    delivered, attempts, request := Fetch(parse(url).value, headers, httpMethod, body, connected, transport);
  }

  method FetchSyncFromString(url: string, parse: string -> Option<URL>, headers: seq<HTTPHeader>, httpMethod: HTTPMethod,
                             body: Option<Bytes>, connected: bool, transport: nat -> AttemptOutcome)
    returns (response: Response)
    requires parse(url).Some?
    requires connected ==> DistinctNames(headers)
    ensures response == Delivered(parse(url).value, connected, transport)
  {
    response := FetchSync(parse(url).value, headers, httpMethod, body, connected, transport);
  }

  // ---------------------------------------------------------------------------
  // Scenarios

  function Status(code: int): AttemptOutcome {
    Completed(None, HTTPURLResponse(code, None, None))
  }

  /** A 200 on the first attempt is delivered after one attempt. */
  lemma FirstAttemptOk(url: URL)
    ensures RetryFrom(url, _ => Status(200), 0) == (AttemptResponse(url, Status(200)), 1)
  {
  }

  /** 500, 500, 200: delivered after three attempts, with status 200. */
  lemma ThirdAttemptOk(url: URL)
    ensures var t := (k: nat) => if k < 2 then Status(500) else Status(200);
            RetryFrom(url, t, 0).1 == 3 && RetryFrom(url, t, 0).0.status == 200
  {
    var t := (k: nat) => if k < 2 then Status(500) else Status(200);
    assert t(0) == t(1) == Status(500) && t(2) == Status(200);
    assert !Ok(AttemptResponse(url, Status(500))) && Ok(AttemptResponse(url, Status(200)));
    assert RetryFrom(url, t, 1) == RetryFrom(url, t, 2);
  }

  /** 500 on every attempt: the third 500 is delivered, and a fourth attempt is never made. */
  lemma EveryAttemptFails(url: URL)
    ensures var t := (k: nat) => Status(500);
            RetryFrom(url, t, 0).1 == MaxAttempts && RetryFrom(url, t, 0).0.status == 500
  {
    var t := (k: nat) => Status(500);
    assert t(0) == t(1) == t(2) == Status(500);
    assert !Ok(AttemptResponse(url, Status(500)));
    assert RetryFrom(url, t, 1) == RetryFrom(url, t, 2);
  }

  /** A transport error then a 204: the error is retried and the 204 is delivered. */
  lemma ErrorThenNoContent(url: URL)
    ensures var t := (k: nat) => if k == 0 then Failed(TransportError("timed out")) else Status(204);
            RetryFrom(url, t, 0).1 == 2 && Ok(RetryFrom(url, t, 0).0)
  {
    var t := (k: nat) => if k == 0 then Failed(TransportError("timed out")) else Status(204);
    assert t(0) == Failed(TransportError("timed out")) && t(1) == Status(204);
    assert !Ok(AttemptResponse(url, t(0))) && Ok(AttemptResponse(url, t(1)));
  }
}
