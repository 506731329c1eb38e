/** The scenarios of the collector's unit tests, restated over the model:
    a test server that answers only requests carrying the expected key, and
    one that always fails with status 500, each reached through a client that
    treats the Authorization value as Go's HTTP client does. */
module CollectorTest {
  import opened Wrappers
  import opened Metrics
  import opened Collector

  const TestKey: string := "test-key"
  const CollectBody: string := "{\"character_count\": 1000, \"character_limit\": 500000}\n"
  const FetchBody: string := "{\"character_count\": 12345, \"character_limit\": 500000}\n"
  const ErrorBody: string := "internal error\n"

  // ---------------------------------------------------------------------------
  // What the HTTP client does to the Authorization value

  predicate IsBlank(ch: char) {
    ch == ' ' || ch == '\t'
  }

  /** A header value the client agrees to send: no control character other
      than tab, and no DEL. */
  predicate ValidHeaderValue(v: string) {
    forall i :: 0 <= i < |v| ==>
      ((v[i] as int) >= 0x20 || v[i] == '\t') && (v[i] as int) != 0x7F
  }

  /** The value with its trailing spaces and tabs removed, as it is written
      on the wire. */
  function TrimTrailingBlanks(s: string): (t: string)
    ensures |t| <= |s| && t == s[..|t|]
    ensures t == [] || !IsBlank(t[|t| - 1])
    ensures forall i :: |t| <= i < |s| ==> IsBlank(s[i])
    decreases |s|
  {
    if s != [] && IsBlank(s[|s| - 1]) then TrimTrailingBlanks(s[..|s| - 1]) else s
  }

  /** Trimming a concatenation trims into the first part only when the
      second part is all blanks. */
  lemma {:induction false} TrimTrailingBlanksConcat(p: string, k: string)
    ensures TrimTrailingBlanks(p + k) ==
      if TrimTrailingBlanks(k) == [] then TrimTrailingBlanks(p) else p + TrimTrailingBlanks(k)
    decreases |k|
  {
    if k != [] {
      assert (p + k)[..|p + k| - 1] == p + k[..|k| - 1];
      if IsBlank(k[|k| - 1]) {
        TrimTrailingBlanksConcat(p, k[..|k| - 1]);
      }
    } else {
      assert p + k == p;
    }
  }

  const InvalidAuthorization: string := "net/http: invalid header field value for \"Authorization\""

  /** The handler behind Go's client: a request whose Authorization value
      the client refuses never leaves it, and the handler sees any other
      value with its trailing blanks removed. */
  function GoClient(handler: HttpRequest -> HttpOutcome): (rt: HttpRequest -> HttpOutcome)
    ensures forall req: HttpRequest :: !ValidHeaderValue(req.authorization) ==> rt(req).TransportError?
    ensures forall req: HttpRequest :: ValidHeaderValue(req.authorization) ==>
      rt(req) == handler(req.(authorization := TrimTrailingBlanks(req.authorization)))
  {
    (req: HttpRequest) =>
      if ValidHeaderValue(req.authorization)
      then handler(req.(authorization := TrimTrailingBlanks(req.authorization)))
      else TransportError("Get \"" + req.url + "\": " + InvalidAuthorization)
  }

  // ---------------------------------------------------------------------------
  // The test servers and collectors

  /** A server that answers 200 with `body` when the request carries the
      header for `expectedKey`, and 401 with an empty body otherwise. */
  function KeyCheckingServer(expectedKey: string, body: string): (h: HttpRequest -> HttpOutcome)
    ensures forall req: HttpRequest :: h(req).HttpResponse? && h(req).readError.None?
    ensures forall req: HttpRequest :: req.authorization == AuthorizationHeader(expectedKey) ==>
      h(req).statusCode == 200 && h(req).body == body
    ensures forall req: HttpRequest :: req.authorization != AuthorizationHeader(expectedKey) ==>
      h(req).statusCode == 401 && h(req).body == ""
  {
    (req: HttpRequest) => if req.authorization == AuthorizationHeader(expectedKey)
                          then HttpResponse(200, body, None)
                          else HttpResponse(401, "", None)
  }

  /** A server that fails every request with status 500. */
  function FailingServer(): (h: HttpRequest -> HttpOutcome)
    ensures forall req: HttpRequest :: h(req) == HttpResponse(500, ErrorBody, None)
  {
    (req: HttpRequest) => HttpResponse(500, ErrorBody, None)
  }

  /** A collector for `apiKey` pointed at a test server's URL. */
  function TestCollector(apiKey: string, serverUrl: string): (c: DeepLCollector)
    ensures c.apiKey == apiKey && c.apiUrl == serverUrl
    ensures StandardSeries(c)
  {
    NewDeepLCollector(apiKey).(apiUrl := serverUrl)
  }

  lemma TestKeyHeaderIsSent()
    ensures ValidHeaderValue(AuthorizationHeader(TestKey))
    ensures TrimTrailingBlanks(AuthorizationHeader(TestKey)) == AuthorizationHeader(TestKey)
  {
    assert AuthorizationHeader(TestKey) == "DeepL-Auth-Key test-key";
  }

  // ---------------------------------------------------------------------------
  // The scenarios

  /** Collect against the key-checking server emits exactly three samples. */
  lemma CollectEmitsThree(
    serverUrl: string, newRequest: string -> Option<string>, unmarshal: string -> Result<Usage, string>)
    requires newRequest(serverUrl) == None
    requires unmarshal(CollectBody) == Success(Usage(1000, 500000))
    ensures var ms := Scrape(TestCollector(TestKey, serverUrl),
                             Upstream(newRequest, GoClient(KeyCheckingServer(TestKey, CollectBody)), unmarshal));
      && |ms| == 3
      && ms[0] == Metric(CharacterCountDesc, 1000.0)
      && ms[1] == Metric(CharacterLimitDesc, 500000.0)
      && ms[2] == Metric(CharacterUsagePctDesc, 0.2)
  {
    TestKeyHeaderIsSent();
    PercentExamples();
  }

  /** fetchUsage against the key-checking server returns the decoded pair unchanged. */
  lemma FetchReturnsDecodedUsage(
    serverUrl: string, newRequest: string -> Option<string>, unmarshal: string -> Result<Usage, string>)
    requires newRequest(serverUrl) == None
    requires unmarshal(FetchBody) == Success(Usage(12345, 500000))
    ensures FetchUsage(TestCollector(TestKey, serverUrl),
                       Upstream(newRequest, GoClient(KeyCheckingServer(TestKey, FetchBody)), unmarshal))
            == Success(Usage(12345, 500000))
  {
    TestKeyHeaderIsSent();
  }

  /** The header the key-checking server compares is the set value with its
      trailing blanks removed: it matches the test key's header exactly when
      the key, so trimmed, is the test key. */
  lemma {:induction false} SentHeaderMatches(apiKey: string)
    ensures TrimTrailingBlanks(AuthorizationHeader(apiKey)) == AuthorizationHeader(TestKey)
            <==> TrimTrailingBlanks(apiKey) == TestKey
  {
    TrimTrailingBlanksConcat(AuthPrefix, apiKey);
    if TrimTrailingBlanks(apiKey) == [] {
      assert |TrimTrailingBlanks(AuthPrefix)| < |AuthorizationHeader(TestKey)|;
    } else {
      AuthorizationHeaderInjective(TrimTrailingBlanks(apiKey), TestKey);
    }
  }

  /** A collector holding a key that is not the test key, even after the
      client trims trailing blanks, is refused by the key-checking server or
      by the client itself, and emits nothing. */
  lemma WrongKeyEmitsNothing(
    apiKey: string, serverUrl: string,
    newRequest: string -> Option<string>, unmarshal: string -> Result<Usage, string>)
    requires TrimTrailingBlanks(apiKey) != TestKey
    requires newRequest(serverUrl) == None
    ensures var up := Upstream(newRequest, GoClient(KeyCheckingServer(TestKey, CollectBody)), unmarshal);
      var r := FetchUsage(TestCollector(apiKey, serverUrl), up);
      && (ValidHeaderValue(AuthorizationHeader(apiKey)) ==> r == Failure(BadStatus(401, "")))
      && (!ValidHeaderValue(AuthorizationHeader(apiKey)) ==> r.Failure? && r.error.TransportFailed?)
      && Scrape(TestCollector(apiKey, serverUrl), up) == []
  {
    SentHeaderMatches(apiKey);
  }

  /** The test key followed by trailing blanks reaches the server as the test
      key's header, so the scrape emits the three samples. */
  lemma TrailingBlanksAccepted(
    blanks: string, serverUrl: string,
    newRequest: string -> Option<string>, unmarshal: string -> Result<Usage, string>)
    requires forall i :: 0 <= i < |blanks| ==> IsBlank(blanks[i])
    requires newRequest(serverUrl) == None
    requires unmarshal(CollectBody) == Success(Usage(1000, 500000))
    ensures |Scrape(TestCollector(TestKey + blanks, serverUrl),
                    Upstream(newRequest, GoClient(KeyCheckingServer(TestKey, CollectBody)), unmarshal))| == 3
  {
    var key := TestKey + blanks;
    TestKeyHeaderIsSent();
    TrimTrailingBlanksConcat(TestKey, blanks);
    assert TrimTrailingBlanks(TestKey) == TestKey;
    SentHeaderMatches(key);
    var h := AuthorizationHeader(key);
    assert h == AuthorizationHeader(TestKey) + blanks;
    assert ValidHeaderValue(h) by {
      forall i | 0 <= i < |h|
        ensures ((h[i] as int) >= 0x20 || h[i] == '\t') && (h[i] as int) != 0x7F
      {
        if i >= |AuthorizationHeader(TestKey)| {
          assert h[i] == blanks[i - |AuthorizationHeader(TestKey)|];
        } else {
          assert h[i] == AuthorizationHeader(TestKey)[i];
        }
      }
    }
  }

  /** A 500 response fails the fetch with a message naming the status and
      the body, and the scrape emits nothing; a key the client refuses to
      send fails with a transport error instead. */
  lemma FailingServerEmitsNothing(
    apiKey: string, serverUrl: string,
    newRequest: string -> Option<string>, unmarshal: string -> Result<Usage, string>)
    requires newRequest(serverUrl) == None
    ensures var up := Upstream(newRequest, GoClient(FailingServer()), unmarshal);
      var r := FetchUsage(TestCollector(apiKey, serverUrl), up);
      && r.Failure?
      && (ValidHeaderValue(AuthorizationHeader(apiKey)) ==>
            && r.error.Message() == "API returned status 500: internal error\n"
            && r.error.Message()[..23] == "API returned status 500")
      && (!ValidHeaderValue(AuthorizationHeader(apiKey)) ==> r.error.TransportFailed?)
      && Scrape(TestCollector(apiKey, serverUrl), up) == []
  {
    StatusMessageExample();
  }
}
