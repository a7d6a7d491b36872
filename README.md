# Insighter core, modelled in Dafny

Insighter is a social-media analytics dashboard with a chat assistant. This
project models three parts of its front end and proves properties about them:

- **Dashboard aggregations** (`Frontend/app/page.tsx`). The page folds the
  parsed CSV rows into the figures it charts: engagement grouped by post type
  and by genre, with a running average; the sentiment column totals; the
  device column totals and the three averaged device shares; the per-day
  engagement buckets; and the date-ordered series for the area chart.
  Module `Dashboard` holds the folds. Module `Tally` holds the shared
  "group by key, count and sum" specification they are proved against.
- **Chat endpoint and flow client** (`Frontend/app/api/collection/route.js`).
  `LangflowClient` builds the run endpoint and the request body, sets the
  bearer token, and turns the hosted flow API's answer into a value or an
  error. The `POST` handler validates the chat request, runs the fixed flow,
  and extracts the reply text or passes the raw response back. This is
  module `Collection`.
- **Chat widget** (`Frontend/app/components/ChatBot.tsx`). A state machine
  over `isOpen`, `messages`, `input` and `isLoading`. It is modelled as a
  class in module `Chat`.

JavaScript values that cross the chat transport are modelled by module
`Json`. It covers parsed JSON, `undefined` as a missing value, truthiness,
`.` and `?.` reads with V8's TypeError text, `JSON.stringify`, and `String(...)`.
Module `Strings` holds the JavaScript string operations the core uses: `trim`,
`split`, and number-to-text conversion. Module `Wrappers` holds `Option` and
`Result`.

Every `fetch` is a parameter. The model never performs one: each network
call's outcome is given, and the request that would have been sent is
returned. The `Date` constructor is a parameter too (`dateKey` and `when`).

Three behaviours of the chat endpoint are worth stating plainly:

- A flow response without `outputs` is answered with status 200 and
  `{response}` (Frontend/app/api/collection/route.js:168,176;
  `Collection.ShapeReplyCases`).
- An error body from the flow API that is not JSON fails with the JSON parse
  error before the status is looked at, and there is no raw-text fallback
  (route.js:20-26; `Collection.PostResult`).
- When streaming is requested, the handler never extracts a reply. It answers
  `{response}`, or 500 with the thrown message when opening the event stream
  throws inside `runFlow`'s `try` (route.js:98-111,168-179;
  `Collection.StreamThrowAnswered`).

## Model

| member | source | states |
|---|---|---|
| Strings.BlankIffAllSpace | Frontend/app/components/ChatBot.tsx:18 | `!input.trim()` holds exactly when every character of the input is JavaScript white space |
| Strings.TrimIdempotent | Frontend/app/components/ChatBot.tsx:30 | trimming the trimmed text changes nothing, so the text sent is already in trimmed form |
| Strings.SplitJoin | Frontend/app/page.tsx:147 | splitting on "/" gives back the parts a "/"-joined string was made of, when no part holds "/" |
| Strings.JoinSplit | Frontend/app/page.tsx:147 | joining the pieces of `split("/")` with "/" restores the string |
| Json.Lookup | Frontend/app/api/collection/route.js:118-123 | a property read finds a value exactly when the object has a member of that name, and returns that member's value |
| Json.WalkSucceedsIff | Frontend/app/api/collection/route.js:169-173 | a chain of plain reads succeeds exactly when no intermediate value is `undefined` or `null`; it then equals the optional-chaining result, and otherwise throws V8's TypeError for the first such value |
| Tally.KeysDistinct | Frontend/app/page.tsx:64-78 | the keys of the accumulator object are distinct |
| Tally.KeysExact | Frontend/app/page.tsx:64-78 | a key gets an entry exactly when some row carries it |
| Tally.TalliesSnoc | Frontend/app/page.tsx:66-76 | one more row changes the table as the callback does: it creates the entry if the key is new, adds the engagements and increments the count |
| Tally.CountsCoverSamples | Frontend/app/page.tsx:75 | the counts across all entries add up to the number of rows |
| Tally.CountIsMultiplicity | Frontend/app/page.tsx:75 | an entry's count is the number of rows carrying its key |
| Dashboard.FindEntry | Frontend/app/page.tsx:66 | `acc[type]` finds the own property with that key, or reports that none exists |
| Dashboard.Callback | Frontend/app/page.tsx:64-77 | the callback creates `acc[type]` named after the row's cell when the key is missing, then adds the row's engagements, one more count and the recomputed average to that entry alone |
| Dashboard.GroupEngagement | Frontend/app/page.tsx:64-94 | the in-place reduce yields exactly the intended accumulator: one property per distinct key in first-appearance order, holding the name, summed engagements, count and average |
| Dashboard.PostTypeEngagement | Frontend/app/page.tsx:64-78 | `postTypeEngagement` is the accumulator keyed on `post_type`, each entry named by the cell of the row that created it |
| Dashboard.GenrePerformance | Frontend/app/page.tsx:80-94 | `genrePerformance` is the accumulator keyed on `genre`, each entry named by the cell of the row that created it |
| Dashboard.EntriesSnoc | Frontend/app/page.tsx:66-76 | one more row changes the accumulator as the callback does: a new key gets an entry named after the row's cell, then that entry gains the engagements, one more count and the recomputed average |
| Dashboard.GroupTableMeaning | Frontend/app/page.tsx:64-94 | a key has an entry exactly when some row carries it; the entry's count is that key's multiplicity among the rows and its engagements the sum of theirs |
| Dashboard.GroupNames | Frontend/app/page.tsx:65-73 | every entry's `name` is the cell of the first row with its key, so it is `undefined` exactly when that cell was missing, and the name read as a property key is the entry's key |
| Dashboard.MissingCellNamed | Frontend/app/page.tsx:65-77 | a row with neither a type nor engagements is listed by `Object.values` as `{name: undefined, engagements: NaN, count: 1, avgEngagement: NaN}` |
| Dashboard.GroupAverages | Frontend/app/page.tsx:76 | every listed entry has count at least 1; its average is `NaN` exactly when its sum is; otherwise average times count equals the sum |
| Dashboard.GroupCountsCoverRows | Frontend/app/page.tsx:75 | every row is counted once: the counts of the entries `Object.values` lists add up to the number of rows |
| Dashboard.InheritedKeyIsLost | Frontend/app/page.tsx:66-76 | a single row whose key is "constructor" leaves the as-written table empty, whereas the intended table counts it once |
| Dashboard.SentimentAnalysis | Frontend/app/page.tsx:96-105 | the fold's totals are the three column sums and its count is the number of rows |
| Dashboard.SentimentSumNaN | Frontend/app/page.tsx:98-100 | a column total is `NaN` exactly when some row's cell is `NaN` |
| Dashboard.DeviceTotals | Frontend/app/page.tsx:107-121 | the fold's totals are the device column sums, with a `NaN` cell counted as 0, and `total` is the number of rows |
| Dashboard.DeviceSumBounded | Frontend/app/page.tsx:110-116 | when every cell is a percentage, a column sum lies between 0 and 100 times the number of rows |
| Dashboard.DeviceData | Frontend/app/page.tsx:124-138 | the series is Mobile, Desktop and Tablet in that order; each value is 0 when there are no rows, and otherwise the column sum divided by the row count |
| Dashboard.DeviceDataBounded | Frontend/app/page.tsx:107-138 | when every parsed cell is a percentage, every slice of the device chart is a percentage |
| Dashboard.SlashDateOrder | Frontend/app/page.tsx:145-148 | a date written "MM/DD/YYYY" is split and read as month, then day, then year |
| Tally.FindKey | Frontend/app/page.tsx:160 | `acc[key]` finds the bucket of that date, or reports that none exists |
| Dashboard.BucketCallback | Frontend/app/page.tsx:140-172 | a row with a missing or invalid date leaves the buckets as they were; otherwise its day's bucket is created when missing and gains the row's engagements and one more post |
| Dashboard.BucketsSnoc | Frontend/app/page.tsx:140-172 | one more row changes the declarative buckets exactly as the callback changes the accumulator |
| Dashboard.TimeEngagement | Frontend/app/page.tsx:140-173 | the in-place reduce yields exactly the group-by table of the rows that have a valid date, keyed on the day, with the missing or invalid ones skipped |
| Dashboard.DatedSamplesBounded | Frontend/app/page.tsx:141-171 | at most one sample per row reaches the buckets, and every row does exactly when every row has a valid date |
| Dashboard.BucketPostsBounded | Frontend/app/page.tsx:155-168 | the bucket post counts add up to at most the number of rows, and to exactly that number when every date is valid |
| Dashboard.InsertByDate | Frontend/app/page.tsx:264-266 | inserting a bucket into a date-ordered series keeps it ordered and adds exactly that bucket |
| Dashboard.SortByDate | Frontend/app/page.tsx:264-266 | the chart series is ascending by date and is a permutation of the buckets |
| Collection.EndpointParts | Frontend/app/api/collection/route.js:66 | the run endpoint splits on "/" into "lf", the collection id, "api", "v1", "run" and the flow id with its `stream` flag; a boolean flag is written "true" or "false" |
| Collection.RequestBodyFields | Frontend/app/api/collection/route.js:67-72 | the request body carries the input, the input and output types and the tweaks unchanged, under the API's field names |
| Collection.ErrorMessageStatus | Frontend/app/api/collection/route.js:21-26 | the error for a non-OK status starts with the status code, which reads back from the message, and ends with the serialized body |
| Collection.PostResult | Frontend/app/api/collection/route.js:13-32 | `post` returns a value exactly when the response was OK and its body parsed, and that value is the parsed body; a non-OK status with a parsed body throws the status message |
| Collection.RunFlowResult | Frontend/app/api/collection/route.js:87-111 | `runFlow` throws exactly when the session failed, or when the stream was to be opened and opening it threw; it rethrows that same error, and otherwise returns the initiating response unchanged |
| Collection.RunFlowEvents | Frontend/app/api/collection/route.js:98-111 | `runFlow` opens the stream exactly when streaming was asked for and a stream URL came back, and it opens that URL, first; it reports "Error initiating session" to `onError`, once and last, exactly when `runFlow` throws and an `onError` was given |
| Collection.Headers.Default | Frontend/app/api/collection/route.js:9 | the default headers hold only the JSON content type |
| Collection.LangflowClient.constructor | Frontend/app/api/collection/route.js:3-7 | the client keeps the base URL and the application token it is given |
| Collection.LangflowClient.Post | Frontend/app/api/collection/route.js:9-33 | the caller's headers gain the bearer token, which overrides any Authorization entry, and nothing else changes; the request goes to base URL plus endpoint with those headers and the body; the result is `PostResult` of the reply |
| Collection.LangflowClient.InitiateSession | Frontend/app/api/collection/route.js:57-73 | one POST to the run endpoint, carrying the content type, the bearer token and the request body built from the arguments |
| Collection.LangflowClient.RunFlow | Frontend/app/api/collection/route.js:75-113 | the session's request is sent; the outcome is `RunFlowResult` and the callbacks fire as `RunFlowEvents` states, including the catch reached when opening the stream throws |
| Collection.Accept | Frontend/app/api/collection/route.js:117-130 | status 400 with "inputValue is required." exactly when the parsed body is not `null` and its `inputValue` is falsy; a body that fails to parse or is `null` gives 500; accepted fields are read from the body, with "chat", "chat" and `false` used only for missing ones |
| Collection.ShapeReplyCases | Frontend/app/api/collection/route.js:168-176 | without streaming and with truthy `outputs`, the reply is 200 `{message}` with the text at the end of the reply path, or 500 exactly when an intermediate value on that path is missing; otherwise 200 `{response}` with the raw response |
| Collection.ExtractedReply | Frontend/app/api/collection/route.js:173 | once the text is found at the end of the reply path, the reply is 200 with `{message: text}` |
| Collection.EnvelopeWalk | Frontend/app/api/collection/route.js:169-173 | the reply path of the flow's chat-message envelope leads to its text |
| Collection.EnvelopeReply | Frontend/app/api/collection/route.js:168-173 | a well-formed non-streaming envelope is answered 200 with `{message: text}` |
| Collection.Handle | Frontend/app/api/collection/route.js:116-181 | a rejected request sends nothing and gets the 400 or 500 reply; an accepted one sends exactly one request with the fixed flow, collection and tweaks, fires the callbacks of `RunFlowEvents`, and answers 500 with the message of whatever `runFlow` threw, or the shaped reply |
| Collection.StreamThrowAnswered | Frontend/app/api/collection/route.js:98-111 | when streaming was asked for, a stream URL came back and opening the stream throws, the stream is attempted, `onError` is told, and the handler answers 500 with the thrown message |
| Chat.ReplyText | Frontend/app/components/ChatBot.tsx:33-46 | a reply is shown exactly when the response was OK, its body parsed and `data && data.message` is truthy; what is shown is `data.message` |
| Chat.ChatBot.constructor | Frontend/app/components/ChatBot.tsx:7-15 | the widget starts closed, with only the greeting from the assistant, an empty input and no send in progress |
| Chat.ChatBot.Open | Frontend/app/components/ChatBot.tsx:66 | the launcher sets `isOpen` and changes nothing else |
| Chat.ChatBot.Close | Frontend/app/components/ChatBot.tsx:78 | the close button clears `isOpen` and changes nothing else |
| Chat.ChatBot.SetInput | Frontend/app/components/ChatBot.tsx:118 | typing replaces `input` and changes nothing else |
| Chat.ChatBot.BeginSend | Frontend/app/components/ChatBot.tsx:17-31 | a blank input changes nothing and sends nothing; otherwise the untrimmed input is appended as the user's message, loading starts and `{inputValue: input.trim()}` is sent |
| Chat.ChatBot.FinishSend | Frontend/app/components/ChatBot.tsx:33-59 | exactly one entry is appended, the reply or the fixed apology; then loading stops and the input is cleared |
| Chat.ChatBot.HandleSend | Frontend/app/components/ChatBot.tsx:17-60 | the list is append-only and grows by 0 for a blank input or by exactly the user's message and one reply otherwise; input and loading are reset after every non-blank send; the transcript shape is kept |
| Chat.TranscriptExtends | Frontend/app/components/ChatBot.tsx:21-55 | appending the user's non-blank message and a reply keeps the transcript shape: the greeting first, then alternating user and assistant entries |
| Chat.SendBodyAccepted | Frontend/app/components/ChatBot.tsx:25-31 | the body the widget sends passes the endpoint's validation: the input is the trimmed text, the types default to "chat" and streaming is off |
| Chat.EndpointRepliesShown | Frontend/app/components/ChatBot.tsx:33-55 | a non-empty text reply from the endpoint is shown as is; an error reply and a raw `{response}` reply both show the apology |

## Left out

- The CSV fetch and `Papa.parse` (Frontend/app/page.tsx:55-60) are left out. The rows arrive already parsed, each numeric cell holding what `Number(...)` or `parseFloat(...)` made of it, with `None` for `NaN`.
- Dashboard.GroupEngagement: engagements are integers. A fractional `total_engagements` and floating-point rounding of the sums and averages are not modelled.
- Dashboard.SentimentAnalysis: the totals are exact reals, not IEEE doubles, so rounding is not modelled.
- Dashboard.DeviceTotals: exact reals, not IEEE doubles. A cell that `parseFloat` reads as `Infinity` is not modelled.
- Dashboard.TimeEngagement: the `Date` construction and `toISOString` are a parameter (`dateKey`). The calendar arithmetic, the time zone and a `RangeError` are not modelled. An invalid date gives no key.
- Dashboard.SortByDate: `new Date(a.date)` is a parameter (`when`, in milliseconds). The engine's sort algorithm, and so the relative order of buckets with the same time, is not modelled.
- The ordering `Object.values` gives to integer-like keys is not modelled. The model keeps first-appearance order for every key.
- Prototype-member names as keys are modelled for the group-by tables only, as a finding (below). The corrected fold is used everywhere else.
- `handleStream` (Frontend/app/api/collection/route.js:35-55) is left out. Opening an `EventSource` and the stream's messages are I/O. The model records that the stream is opened and with which URL, and takes as a parameter (`streamThrow`) whether the `EventSource` construction throws and with which message.
- The `onUpdate` and `onClose` callbacks only log. Of the callbacks, only `onError`'s call is modelled.
- All `console` logging is left out.
- The application token is a string parameter. Reading `process.env` is I/O. An unset variable, which sends "Bearer undefined", is not modelled.
- Json: numbers are integers. Floating-point numbers, their `JSON.stringify` text and `NaN` inside JSON are not modelled.
- Json: lone surrogate code points are not modelled, because strings hold Unicode scalar values.
- Json: property reads see own members only. Inherited prototype members are not modelled. None of the names the endpoint reads is one.
- Overlapping sends (Enter pressed while a reply is awaited) are React state interleavings. Only sequential, completed sends are modelled.
- The rendering of the widget and the dashboard (markup, classes, the "Thinking..." row) is left out.
- `response.text()` on a non-OK chat response only feeds a log line and is not modelled.
- `dataGenerator.py` and the layout component are not part of this model.

## Findings

| source | as written | input that shows it | evidently intended | confidence | as-written member | corrected member |
|---|---|---|---|---|---|---|
| Frontend/app/page.tsx:66-76 | `if (!acc[type])` on a plain `{}` finds the member inherited from `Object.prototype` when the key is one of its names. No own entry is created, and the row's numbers land on the inherited member, which `Object.values(acc)` does not list. | one row with `post_type` "constructor" and `total_engagements` 7: `postTypeEngagement` has no entries | every row is counted once under its own key: one entry "constructor" with engagements 7 and count 1 | medium, not executed | Dashboard.InheritedKeyIsLost | Dashboard.GroupCountsCoverRows |
