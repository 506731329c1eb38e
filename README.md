# DeepL usage exporter — collector model

This project models the collector of a Prometheus exporter for the DeepL
translation API's usage endpoint (`collector.go`). Construction picks the
upstream endpoint once, from the API key's tier. After that, each scrape
makes the collector do three things:

- send one GET request to that endpoint, with the header `Authorization: DeepL-Auth-Key <key>`;
- classify the outcome as one of five error kinds or as a decoded
  `(character_count, character_limit)` pair;
- emit either nothing or exactly three gauges: count, limit and usage percentage.

Layout:

- `wrappers.dfy`: module `Wrappers`, with `Option` and `Result`.
- `decimal.dfy`: module `Decimal`. It models Go's `%d` formatting verb,
  which the status error message uses, together with the parser that
  inverts it.
- `metrics.dfy`: module `Metrics`. It holds series descriptors, gauge
  samples and `Channel<T>`, a class that records what is sent on a channel
  (`ch <- x`).
- `collector.dfy`: module `Collector`. It holds the collector, the request,
  the fetch classification, the percentage, `Describe` and `Collect`, and
  the lemmas about them.
- `collector_test.dfy`: module `CollectorTest`. It holds the unit-test
  scenarios of `collector_test.go`, stated as lemmas over every HTTP layer
  and decoder that behave as those tests' servers do. The servers are
  reached through `GoClient`, which treats the Authorization value as Go's
  HTTP client does. The client refuses a value holding a control character
  other than tab. It writes any other value without its trailing spaces and
  tabs. So the key is verbatim in the value the code sets, not always in
  what the server receives.

The collector is a value (`DeepLCollector`). The source never changes it
after `NewDeepLCollector` builds it. Three tests override `apiURL`
(collector_test.go:54, 84, 107); the model does this with a datatype
update. `Describe` and `Collect` are methods that `Send` on a `Channel`. Each of them is proved to send exactly the sequence
given by a specification function (`Descriptors`, `Scrape`). The properties
are proved about those functions.

The network and the JSON decoder enter as an `Upstream` value with three
functions:

- `newRequest`: the error, if any, of building a request for a URL;
- `roundTrip`: what the HTTP client reports for a request. This is a
  transport error, or a response with its status, the body text read and
  the error, if any, that stopped the read;
- `unmarshal`: what `json.Unmarshal` makes of a body.

So `fetchUsage` becomes the total function `FetchUsage`.

Points where the code's behaviour is easy to misread:

- The free-tier test needs the key to be longer than three characters as
  well as to end in `:fx` (collector.go:37). So `":fx"` alone selects the
  pro endpoint.
- Any status other than exactly 200 is an error, including other 2xx codes
  (collector.go:129).
- Count and limit are signed 64-bit integers, not non-negative ones
  (collector.go:22-23). A negative limit gives a percentage of 0.
- On a non-200 response the body read error is ignored (collector.go:130).
  The message carries whatever part of the body was read.

Go measures key length and slices in bytes, and the model uses characters.
For this test the two agree. `":fx"` is three ASCII bytes, and ASCII bytes
occur in UTF-8 only as whole characters. So "more than three bytes, the last
three being `:fx`" and "more than three characters, the last three being
`:fx`" hold of the same keys.

## Model

| member | source | states |
|---|---|---|
| `Collector.NewDeepLCollector` | collector.go:35-69 | stores the key unchanged; the endpoint is always one of the two constants, free exactly when the key passes the tier test and pro otherwise; the descriptors are the three fixed series |
| `Collector.FreeEndpointIffSuffix` | collector.go:36-42 | a key selects the free endpoint if and only if it is a non-empty text followed by `:fx` |
| `Collector.EndpointExamples` | collector_test.go:20-29 | `test-key:fx` selects free; `test-key`, `:fx`, `fx` and `test-key:FX` select pro |
| `Collector.Descriptors` | collector.go:50-67 | three descriptors; for a collector with the standard descriptors (whatever its URL), named count, limit and usage percent, in that order |
| `Collector.Describe` | collector.go:71-75 | sends exactly the three descriptors, in order, and nothing else |
| `Metrics.Channel.Send` | collector.go:72-74 | a send appends one element to what the channel has received |
| `Collector.AuthorizationHeader` | collector.go:117 | the header value is the prefix `DeepL-Auth-Key ` followed by the key verbatim |
| `Collector.AuthorizationHeaderInjective` | collector.go:117 | two keys give the same header value if and only if they are equal |
| `Collector.AuthorizationHeaderExample` | collector_test.go:44 | the key `test-key` gives the header the test server expects |
| `Collector.UsageRequest` | collector.go:112-117 | the request is a GET to the collector's endpoint carrying that key's header |
| `Collector.FetchUsage` | collector.go:111-145 | a request-building error fails the fetch; success only with status 200, a full read and a successful decode, returning the decoded pair unchanged; a status error only for a non-200 response, carrying its code and body |
| `Collector.FetchOutcomes` | collector.go:119-144 | the converse: each transport, status, read and decode outcome yields its own error kind, checked in that order, and a clean response yields the decoded usage |
| `Collector.FetchError.Message` | collector.go:114-141 | a status error's message starts with `API returned status ` and ends with the body; every other kind's message starts with `failed to ` and ends with its cause, so it never reads as a status message |
| `Collector.StatusMessageRoundTrip` | collector.go:131 | the status error message `API returned status <code>: <body>` determines both the code and the whole body |
| `Collector.StatusMessageOnlyForStatus` | collector.go:114-141 | only a status error produces a message that reads as a status message |
| `Collector.StatusMessageExample` | collector_test.go:113 | status 500 with body `internal error\n` gives `API returned status 500: internal error\n` |
| `Decimal.FormatNat` | collector.go:131 | `%d` of a natural number is a non-empty digit string without leading zeros, and `"0"` only for zero |
| `Decimal.FormatInt` | collector.go:131 | `%d` of an integer is non-empty; a negative value gives a minus sign followed only by digits, any other value only digits |
| `Decimal.ParseFormatNat` | collector.go:131 | reading back the digits of a natural number gives that number |
| `Decimal.ParseFormatInt` | collector.go:131 | reading back `%d` of any integer gives that integer |
| `Decimal.FormatIntInjective` | collector.go:131 | distinct status codes give distinct decimal texts |
| `Decimal.FormatIntExamples` | collector.go:131 | `%d` of 500, 200 and -7 is `500`, `200` and `-7` |
| `Collector.UsagePercent` | collector.go:99-102 | exactly 0 when the limit is at most 0; otherwise the value whose product with the limit is 100 times the count |
| `Collector.PercentNotClamped` | collector.go:99-102 | a count above a positive limit gives a percentage above 100 |
| `Collector.PercentInRange` | collector.go:99-102 | a count between 0 and the limit gives a percentage between 0 and 100 |
| `Collector.PercentExamples` | collector.go:99-102 | 1000 of 500000 is 0.2; a zero or negative limit gives 0 |
| `Collector.Scrape` | collector.go:77-109 | no samples exactly when the fetch fails, three exactly when it succeeds; the samples follow the descriptors' order, carry the raw count and limit, and then the percentage |
| `Collector.Collect` | collector.go:77-109 | sends exactly the samples of `Scrape`, in order, and nothing else |
| `Collector.ScrapeSeriesNames` | collector.go:87-108 | a successful scrape of any collector with the standard descriptors, the test collectors with overridden URLs included, emits `deepl_character_count`, `deepl_character_limit` and `deepl_character_usage_percent`, in that order |
| `CollectorTest.GoClient` | collector.go:119 | the client refuses to send an Authorization value holding a control character other than tab (a transport error); any other value reaches the handler with its trailing spaces and tabs removed |
| `CollectorTest.TrimTrailingBlanks` | collector.go:119 | the sent value is the longest prefix of the set value that does not end in a space or tab |
| `CollectorTest.TrimTrailingBlanksConcat` | collector.go:119 | trimming `prefix + key` trims into the prefix only when the key is all blanks |
| `CollectorTest.KeyCheckingServer` | collector_test.go:43-50 | 200 with the given body exactly when the Authorization value is the expected key's header, otherwise 401 with an empty body |
| `CollectorTest.FailingServer` | collector_test.go:100-103 | every request gets status 500 with body `internal error\n` |
| `CollectorTest.TestCollector` | collector_test.go:53-54 | a collector for the key with the fixed series, pointed at the test server's URL |
| `CollectorTest.TestKeyHeaderIsSent` | collector_test.go:44 | the test key's header is sent unchanged |
| `CollectorTest.CollectEmitsThree` | collector_test.go:42-71 | against the key-checking server returning count 1000 and limit 500000, a scrape emits three samples: 1000, 500000 and 0.2 |
| `CollectorTest.FetchReturnsDecodedUsage` | collector_test.go:73-97 | against that server, the fetch returns count 12345 and limit 500000 unchanged |
| `CollectorTest.SentHeaderMatches` | collector_test.go:44 | the server's comparison succeeds exactly when the key, with trailing blanks removed, is the test key |
| `CollectorTest.WrongKeyEmitsNothing` | collector_test.go:43-47 | a key that is not the test key after trimming gets the server's 401 (or, if the client refuses its header, a transport error) and no samples |
| `CollectorTest.TrailingBlanksAccepted` | collector_test.go:43-50 | the test key followed by spaces or tabs is accepted by the server, and the scrape emits three samples |
| `CollectorTest.FailingServerEmitsNothing` | collector_test.go:99-116 | a 500 response gives an error whose message starts with `API returned status 500` and holds the body; a key the client refuses gives a transport error; the scrape emits nothing either way |

## Left out

- The real HTTP exchange is not modelled. That covers `http.NewRequestWithContext`, `client.Do`, reading and closing the body, and the 10-second client and context timeout (collector.go:16, 47-49, 78-79, 112-127). It is I/O. Its outcome is an input (`Upstream`). The client timeout and the context deadline also cover reading the body, so a timeout appears in one of three ways. Before the response it is a transport error. While reading a 200 response it is a read error (collector.go:134-137). While reading a non-200 response it is a truncated body inside the status message (collector.go:130). The `readError` field and the body read so far express the last two.
- The inside of `encoding/json` is not modelled. It is a foreign library. Its result for each body is an input, so for example "missing fields decode as zero" belongs to the decoder.
- Error wrapping with `%w` is kept only as text. The model keeps the message of an error and not the wrapped error value.
- Prometheus `Desc` registration and `MustNewConstMetric` are library plumbing. The gauge value type is implied, and a sample is a descriptor with a value.
- Collector.UsagePercent: the model uses exact real arithmetic. The source casts `int64` to `float64` and divides in `float64`, so its results are rounded and the model claims no bit-exact float results.
- Collector.Scrape: the count and limit samples are the exact integer values as reals. The source's `float64` casts can round values above 2^53.
- Logging is side output only and is not modelled (collector.go:39-41, 83, 125).
- main.go is not part of this model. It holds configuration from the environment, the HTTP server with `/metrics` and `/healthz`, signal handling and the 5-second graceful shutdown; all of that is I/O and concurrency.
- The key and the response bodies are modelled as Unicode text (`string`). A Go `string` from the environment, or a body copied with `string(body)` (collector.go:130-131), can hold bytes that are not valid UTF-8, and the model cannot represent those.
- Concurrent scrapes are not modelled. Each `Collect` call is independent and shares no mutable state, so one call at a time describes each of them.
