/** The DeepL usage collector: endpoint selection by API-key tier, the usage
    request and the classification of its outcome, and the three usage gauges
    emitted per scrape.

    The network and the JSON decoder are not modelled; they enter as an
    `Upstream` value that says what each of them does. */
module Collector {
  import opened Wrappers
  import opened Decimal
  import opened Metrics

  /** Go's `int64`, the type of both fields of the usage response. */
  newtype int64 = x: int | -0x8000_0000_0000_0000 <= x < 0x8000_0000_0000_0000

  const ProApiUrl: string := "https://api.deepl.com/v2/usage"
  const FreeApiUrl: string := "https://api-free.deepl.com/v2/usage"

  /** Keys of the free tier end in this suffix. */
  const FreeKeySuffix: string := ":fx"

  /** The scheme word of the Authorization header, with its separating space. */
  const AuthPrefix: string := "DeepL-Auth-Key "

  const StatusOK: int := 200

  const CharacterCountDesc: Desc :=
    Desc("deepl_character_count",
         "Current number of characters translated in the current billing period")
  const CharacterLimitDesc: Desc :=
    Desc("deepl_character_limit",
         "Maximum number of characters that can be translated in the current billing period")
  const CharacterUsagePctDesc: Desc :=
    Desc("deepl_character_usage_percent", "Percentage of character limit used")

  /** The decoded body of a usage response. */
  datatype Usage = Usage(characterCount: int64, characterLimit: int64)

  /** The collector: the key, the endpoint chosen for it, and the three
      descriptors. The HTTP client is part of `Upstream`. */
  datatype DeepLCollector = DeepLCollector(
    apiKey: string,
    apiUrl: string,
    characterCount: Desc,
    characterLimit: Desc,
    characterUsagePct: Desc)

  /** The collector describes the three fixed series. */
  predicate StandardSeries(c: DeepLCollector) {
    && c.characterCount == CharacterCountDesc
    && c.characterLimit == CharacterLimitDesc
    && c.characterUsagePct == CharacterUsagePctDesc
  }

  /** What a collector built by `NewDeepLCollector` looks like. */
  predicate WellFormed(c: DeepLCollector) {
    && (c.apiUrl == ProApiUrl || c.apiUrl == FreeApiUrl)
    && StandardSeries(c)
  }

  /** The tier test: longer than three characters and ending, case-sensitively, in ":fx". */
  predicate IsFreeKey(apiKey: string) {
    |apiKey| > 3 && apiKey[|apiKey| - 3..] == FreeKeySuffix
  }

  function NewDeepLCollector(apiKey: string): (c: DeepLCollector)
    ensures WellFormed(c)
    ensures c.apiKey == apiKey
    ensures c.apiUrl == FreeApiUrl <==> IsFreeKey(apiKey)
    ensures c.apiUrl == ProApiUrl <==> !IsFreeKey(apiKey)
  {
    var apiUrl := if IsFreeKey(apiKey) then FreeApiUrl else ProApiUrl;
    DeepLCollector(apiKey, apiUrl, CharacterCountDesc, CharacterLimitDesc, CharacterUsagePctDesc)
  }

  /** The descriptors in the order `Describe` sends them. */
  function Descriptors(c: DeepLCollector): (ds: seq<Desc>)
    ensures |ds| == 3
    ensures StandardSeries(c) ==>
      ds[0].fqName == "deepl_character_count" &&
      ds[1].fqName == "deepl_character_limit" &&
      ds[2].fqName == "deepl_character_usage_percent"
  {
    [c.characterCount, c.characterLimit, c.characterUsagePct]
  }

  method Describe(c: DeepLCollector, ch: Channel<Desc>)
    modifies ch
    ensures ch.sent == old(ch.sent) + Descriptors(c)
  {
    ch.Send(c.characterCount);
    ch.Send(c.characterLimit);
    ch.Send(c.characterUsagePct);
  }

  /** The value of the Authorization header: the scheme prefix, then the key verbatim. */
  function AuthorizationHeader(apiKey: string): (h: string)
    ensures |h| == |AuthPrefix| + |apiKey|
    ensures h[..|AuthPrefix|] == AuthPrefix
    ensures h[|AuthPrefix|..] == apiKey
  {
    AuthPrefix + apiKey
  }

  /** The parts of an outgoing request the model keeps. */
  datatype HttpRequest = HttpRequest(verb: string, url: string, authorization: string)

  /** What the HTTP client reports for one request: either a transport error,
      or a response with its status code, the body text read from it and the
      error, if any, that stopped reading the body. */
  datatype HttpOutcome =
    | TransportError(cause: string)
    | HttpResponse(statusCode: int, body: string, readError: Option<string>)

  /** The collaborators the collector cannot see into: building a request for
      a URL (which may fail), performing it, and decoding a JSON body. */
  datatype Upstream = Upstream(
    newRequest: string -> Option<string>,
    roundTrip: HttpRequest -> HttpOutcome,
    unmarshal: string -> Result<Usage, string>)

  /** The five ways a usage fetch fails. */
  datatype FetchError =
    | RequestFailed(cause: string)
    | TransportFailed(cause: string)
    | BadStatus(statusCode: int, body: string)
    | ReadFailed(cause: string)
    | ParseFailed(cause: string)
  {
    /** The text of the error, as the wrapping `fmt.Errorf` calls build it:
        a status error starts with `StatusPrefix` and ends with the body, every
        other kind starts with "failed to " and ends with its cause. */
    function Message(): (m: string)
      ensures BadStatus? <==> |m| >= |StatusPrefix| && m[..|StatusPrefix|] == StatusPrefix
      ensures BadStatus? ==> |m| >= |body| && m[|m| - |body|..] == body
      ensures !BadStatus? ==> |m| >= 10 && m[..10] == "failed to "
      ensures !BadStatus? ==> |m| >= |cause| && m[|m| - |cause|..] == cause
    {
      match this
      case RequestFailed(cause) => FailedMessage("failed to create request: ", cause)
      case TransportFailed(cause) => FailedMessage("failed to fetch usage: ", cause)
      case BadStatus(code, body) => StatusPrefix + FormatInt(code) + ": " + body
      case ReadFailed(cause) => FailedMessage("failed to read response: ", cause)
      case ParseFailed(cause) => FailedMessage("failed to parse response: ", cause)
    }
  }

  const StatusPrefix: string := "API returned status "

  /** "failed to ..." followed by the wrapped cause; never a status message. */
  function FailedMessage(context: string, cause: string): (m: string)
    requires |context| >= 10 && context[..10] == "failed to "
    ensures |m| >= 10 && m[..10] == "failed to "
    ensures |m| >= |cause| && m[|m| - |cause|..] == cause
    ensures !(|m| >= |StatusPrefix| && m[..|StatusPrefix|] == StatusPrefix)
  {
    var m := context + cause;
    assert m[0] == 'f' != StatusPrefix[0];
    m
  }

  /** The request the collector sends for a usage fetch. */
  function UsageRequest(c: DeepLCollector): (req: HttpRequest)
    ensures req.verb == "GET" && req.url == c.apiUrl
    ensures req.authorization == AuthorizationHeader(c.apiKey)
  {
    HttpRequest("GET", c.apiUrl, AuthorizationHeader(c.apiKey))
  }

  /** One usage fetch: each check in turn, returning at the first that fails. */
  function FetchUsage(c: DeepLCollector, up: Upstream): (r: Result<Usage, FetchError>)
    ensures up.newRequest(c.apiUrl).Some? ==>
      r == Failure(RequestFailed(up.newRequest(c.apiUrl).value))
    ensures r.Success? ==>
      var out := up.roundTrip(UsageRequest(c));
      && up.newRequest(c.apiUrl).None?
      && out.HttpResponse? && out.statusCode == StatusOK && out.readError.None?
      && up.unmarshal(out.body) == Success(r.value)
    ensures r.Failure? && r.error.BadStatus? ==>
      var out := up.roundTrip(UsageRequest(c));
      && out.HttpResponse? && out.statusCode != StatusOK
      && r.error == BadStatus(out.statusCode, out.body)
  {
    match up.newRequest(c.apiUrl)
    case Some(err) => Failure(RequestFailed(err))
    case None =>
      match up.roundTrip(UsageRequest(c))
      case TransportError(err) => Failure(TransportFailed(err))
      case HttpResponse(status, body, readError) =>
        if status != StatusOK then
          Failure(BadStatus(status, body))
        else if readError.Some? then
          Failure(ReadFailed(readError.value))
        else
          match up.unmarshal(body)
          case Failure(err) => Failure(ParseFailed(err))
          case Success(usage) => Success(usage)
  }

  /** The usage percentage: 0 when there is no positive limit, otherwise the
      count as a share of the limit, times 100, without clamping. */
  function UsagePercent(u: Usage): (p: real)
    ensures u.characterLimit <= 0 ==> p == 0.0
    ensures u.characterLimit > 0 ==>
      p * (u.characterLimit as real) == 100.0 * (u.characterCount as real)
  {
    if u.characterLimit > 0 then
      ((u.characterCount as real) / (u.characterLimit as real)) * 100.0
    else
      0.0
  }

  /** The samples one `Collect` call sends, in order. */
  function Scrape(c: DeepLCollector, up: Upstream): (ms: seq<Metric>)
    ensures FetchUsage(c, up).Failure? <==> ms == []
    ensures FetchUsage(c, up).Success? <==> |ms| == 3
    ensures forall i :: 0 <= i < |ms| ==> ms[i].desc == Descriptors(c)[i]
    ensures FetchUsage(c, up).Success? ==>
      var u := FetchUsage(c, up).value;
      && ms[0].value == u.characterCount as real
      && ms[1].value == u.characterLimit as real
      && ms[2].value == UsagePercent(u)
  {
    match FetchUsage(c, up)
    case Failure(_) => []
    case Success(u) =>
      [ Metric(c.characterCount, u.characterCount as real),
        Metric(c.characterLimit, u.characterLimit as real),
        Metric(c.characterUsagePct, UsagePercent(u)) ]
  }

  method Collect(c: DeepLCollector, up: Upstream, ch: Channel<Metric>)
    modifies ch
    ensures ch.sent == old(ch.sent) + Scrape(c, up)
  {
    var result := FetchUsage(c, up);
    if result.Failure? {
      return;
    }
    var usage := result.value;
    ch.Send(Metric(c.characterCount, usage.characterCount as real));
    ch.Send(Metric(c.characterLimit, usage.characterLimit as real));
    var usagePercent := 0.0;
    if usage.characterLimit > 0 {
      usagePercent := ((usage.characterCount as real) / (usage.characterLimit as real)) * 100.0;
    }
    ch.Send(Metric(c.characterUsagePct, usagePercent));
  }

  // ---------------------------------------------------------------------------
  // Endpoint selection

  /** A key selects the free endpoint exactly when it is some non-empty text
      followed by ":fx"; every other key, ":fx" itself included, selects pro. */
  lemma FreeEndpointIffSuffix(apiKey: string)
    ensures NewDeepLCollector(apiKey).apiUrl == FreeApiUrl <==>
      exists prefix: string :: prefix != [] && apiKey == prefix + FreeKeySuffix
  {
    if IsFreeKey(apiKey) {
      var prefix := apiKey[..|apiKey| - 3];
      assert apiKey == prefix + FreeKeySuffix;
    }
    if exists prefix: string :: prefix != [] && apiKey == prefix + FreeKeySuffix {
      var prefix: string :| prefix != [] && apiKey == prefix + FreeKeySuffix;
      assert apiKey[|apiKey| - 3..] == FreeKeySuffix;
    }
  }

  lemma EndpointExamples()
    ensures NewDeepLCollector("test-key:fx").apiUrl == FreeApiUrl
    ensures NewDeepLCollector("test-key").apiUrl == ProApiUrl
    ensures NewDeepLCollector(":fx").apiUrl == ProApiUrl
    ensures NewDeepLCollector("fx").apiUrl == ProApiUrl
    ensures NewDeepLCollector("test-key:FX").apiUrl == ProApiUrl
  {
    assert "test-key:fx"[8..] == FreeKeySuffix;
    assert "test-key"[5..] != FreeKeySuffix by { assert "test-key"[5] == 'k'; }
    assert "test-key:FX"[8..] != FreeKeySuffix by { assert "test-key:FX"[9] == 'F'; }
  }

  // ---------------------------------------------------------------------------
  // Authorization header

  /** Distinct keys give distinct header values: the value the code sets holds the key verbatim. */
  lemma AuthorizationHeaderInjective(a: string, b: string)
    ensures AuthorizationHeader(a) == AuthorizationHeader(b) <==> a == b
  {
  }

  lemma AuthorizationHeaderExample()
    ensures AuthorizationHeader("test-key") == "DeepL-Auth-Key test-key"
  {
  }

  // ---------------------------------------------------------------------------
  // Error messages

  /** The position of the first `ch` in `s`, or `|s|` when there is none. */
  function IndexOf(s: string, ch: char): (k: nat)
    ensures k <= |s|
    ensures k < |s| ==> s[k] == ch
    ensures forall i :: 0 <= i < k ==> s[i] != ch
    decreases |s|
  {
    if s == [] || s[0] == ch then 0 else 1 + IndexOf(s[1..], ch)
  }

  /** Reads the status code and the body back out of a status error message. */
  function ParseStatusMessage(m: string): Option<(int, string)> {
    if |m| < |StatusPrefix| || m[..|StatusPrefix|] != StatusPrefix then None
    else
      var rest := m[|StatusPrefix|..];
      var k := IndexOf(rest, ':');
      if k + 2 <= |rest| && rest[k + 1] == ' ' then
        match ParseInt(rest[..k])
        case Some(code) => Some((code, rest[k + 2..]))
        case None => None
      else None
  }

  /** A status error message carries the status code and the body in full. */
  lemma {:induction false} StatusMessageRoundTrip(code: int, body: string)
    ensures ParseStatusMessage(BadStatus(code, body).Message()) == Some((code, body))
  {
    var digits := FormatInt(code);
    var m := BadStatus(code, body).Message();
    assert m == StatusPrefix + (digits + ": " + body);
    assert m[..|StatusPrefix|] == StatusPrefix;
    var rest := m[|StatusPrefix|..];
    assert rest == digits + ": " + body;
    var k := IndexOf(rest, ':');
    assert rest[|digits|] == ':';
    assert k == |digits|;
    assert rest[..k] == digits;
    assert rest[k + 2..] == body;
    ParseFormatInt(code);
  }

  /** Only a status error produces a message that reads as one. */
  lemma StatusMessageOnlyForStatus(e: FetchError)
    ensures ParseStatusMessage(e.Message()).Some? <==> e.BadStatus?
  {
    if e.BadStatus? {
      StatusMessageRoundTrip(e.statusCode, e.body);
    } else {
      assert e.Message()[0] == 'f';
    }
  }

  lemma StatusMessageExample()
    ensures BadStatus(500, "internal error\n").Message() == "API returned status 500: internal error\n"
  {
    assert FormatInt(500) == "500";
  }

  // ---------------------------------------------------------------------------
  // Fetch classification

  /** Which outcome each combination of upstream behaviour produces; with the
      postconditions of `FetchUsage` this is the whole decision table. */
  lemma FetchOutcomes(c: DeepLCollector, up: Upstream)
    ensures up.newRequest(c.apiUrl).None? ==>
      var out := up.roundTrip(UsageRequest(c));
      var r := FetchUsage(c, up);
      && (out.TransportError? ==> r == Failure(TransportFailed(out.cause)))
      && (out.HttpResponse? && out.statusCode != StatusOK ==>
            r == Failure(BadStatus(out.statusCode, out.body)))
      && (out.HttpResponse? && out.statusCode == StatusOK && out.readError.Some? ==>
            r == Failure(ReadFailed(out.readError.value)))
      && (out.HttpResponse? && out.statusCode == StatusOK && out.readError.None? ==>
            match up.unmarshal(out.body)
            case Failure(err) => r == Failure(ParseFailed(err))
            case Success(u) => r == Success(u))
  {
  }

  // ---------------------------------------------------------------------------
  // Usage percentage

  /** With a positive second factor, a product has the sign of the first. */
  lemma ProductSign(x: real, l: real)
    requires l > 0.0
    ensures x * l > 0.0 ==> x > 0.0
    ensures x * l >= 0.0 ==> x >= 0.0
  {
  }

  /** Above the limit the percentage exceeds 100: nothing clamps it. */
  lemma PercentNotClamped(u: Usage)
    requires 0 < u.characterLimit < u.characterCount
    ensures UsagePercent(u) > 100.0
  {
    var p := UsagePercent(u);
    var l := u.characterLimit as real;
    assert (p - 100.0) * l == 100.0 * ((u.characterCount as real) - l) > 0.0;
    ProductSign(p - 100.0, l);
  }

  /** Within budget the percentage lies between 0 and 100. */
  lemma PercentInRange(u: Usage)
    requires 0 <= u.characterCount <= u.characterLimit
    ensures 0.0 <= UsagePercent(u) <= 100.0
  {
    if u.characterLimit > 0 {
      var p := UsagePercent(u);
      var l := u.characterLimit as real;
      assert p * l == 100.0 * (u.characterCount as real) >= 0.0;
      ProductSign(p, l);
      assert (100.0 - p) * l == 100.0 * (l - (u.characterCount as real)) >= 0.0;
      ProductSign(100.0 - p, l);
    }
  }

  lemma PercentExamples()
    ensures UsagePercent(Usage(1000, 500000)) == 0.2
    ensures UsagePercent(Usage(12345, 0)) == 0.0
    ensures UsagePercent(Usage(5, -1)) == 0.0
  {
  }

  // ---------------------------------------------------------------------------
  // Emission

  /** A successful scrape of a collector with the standard descriptors emits
      the three series by name, in the order `Describe` lists them. */
  lemma ScrapeSeriesNames(c: DeepLCollector, up: Upstream)
    requires StandardSeries(c) && FetchUsage(c, up).Success?
    ensures |Scrape(c, up)| == 3
    ensures Scrape(c, up)[0].desc.fqName == "deepl_character_count"
    ensures Scrape(c, up)[1].desc.fqName == "deepl_character_limit"
    ensures Scrape(c, up)[2].desc.fqName == "deepl_character_usage_percent"
  {
  }
}
