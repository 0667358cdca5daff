# wikibot in Dafny

A model of the request-handling core of wikibot, a chat webhook bot: a POST to
`/<command>` is routed to the handler registered for that command, the command
token is stripped from the message text, the `wiki` handler builds an
`opensearch` URL for the encyclopedia API, and whatever comes back is turned
into exactly one reply — a result line, or an apology carrying an error message.

Everything lives in `lib/wikibot.js`; the model splits it by component:

- `basics.dfy` (module `Basics`): an `Option` type and `IndexOf`, the first
  position of a character in a string, with the lemmas the decoder needs.
- `query.dfy` (module `Query`): `makeQuery`'s URL-building loop as the method
  `MakeQuery`, proved equal to the function `QueryUrl`; a decoder `DecodeQuery`
  that reads a URL back into its action and parameters, and the round trip that
  shows the URL holds one `&key=value` segment per parameter, in order, and
  nothing else. `encodeURIComponent` is the uninterpreted parameter `encode`.
- `replies.dfy` (module `Replies`): the hook and reply values, `constructError`
  and `constructResponse`, the three error messages the code passes, and the
  inverse `ErrorMessageOf` that recovers the message of an error reply.
- `dispatch.dfy` (module `Dispatch`): `stripCommand`, the registry (a map built
  once, holding `wiki`), the router, the `wiki` handler's decision, and `Serve`,
  one request end to end, with the HTTP call as the parameter `fetch`.

Callbacks become return values: the router returns what it does with the
request, a handler returns its reply, and `Serve` returns the one reply a
request gets. A reply-or-nothing value (`Delivery`, `Option<Route>`) is used
only by the members that model the two places where the code as written sends
no reply at all (see "## Findings").

What the code does, and the model with it:

- `stripCommand` drops exactly `|command|` characters (`text.substr(command.length)`),
  so the space after the token stays: `wiki albert` forwards ` albert`.
- `constructError` takes only `(hook, message)`. The command name at line 52,
  the search text at line 76 and the status and error text at line 103 are
  dropped, so the user sees `'%s'` and `%d` literally.
- The error template is `Sorry, <user_name>, I can't process that request because
  of this error: <message>`, with no mark before the user name and no quotes
  around the message.
- The result line is `%s - "%s"... %s` over entry `idx` of `res[0]`, `res[1]` and
  `res[2]`, with the first field unquoted. The `opensearch` answer is the echoed
  search text followed by the titles, the snippets and the URLs, so as written the
  line reads one array too early (see "## Findings").
- `util` is never required in the file, so line 115 as written would fail on
  every result; the model gives it the meaning of Node's `util.format`, where
  `%s` prints a string as it is and a missing array entry as `undefined`.
- The `wiki` callback tests `if (error)` (line 70). An empty error message is falsy, so
  `cb("")` goes on to `res.length` with `res` undefined, throws, and sends no
  reply; a non-empty message gets the error reply.
- JavaScript indexes a string like an array of one-character strings, so the
  echoed search text is modelled as the sequence of its characters (`Chars`).

## Model

| member | source | states |
|---|---|---|
| Dispatch.StripCommand | lib/wikibot.js:84-86 | the result is the suffix of `text` whose length is `|text| - |command|`, or empty when the text is no longer than the command |
| Dispatch.StripCommandPrefix | lib/wikibot.js:84-86 | stripping `command` from `command + rest` gives exactly `rest` |
| Dispatch.StripKeepsDelimiter | lib/wikibot.js:85 | `wiki albert` is forwarded as ` albert`: the separating space is kept |
| Query.MakeQuery | lib/wikibot.js:88-93 | the loop builds exactly the endpoint, the action, then one `&key=encode(value)` segment per parameter in order |
| Query.SegmentsAppend | lib/wikibot.js:91-93 | one more loop step appends exactly the next parameter's segment |
| Query.DecodeSegmentsRoundTrip | lib/wikibot.js:91-93 | with plain keys and an encoder that escapes `&`, the segments read back as each key with its encoded value, in order |
| Query.QueryRoundTrip | lib/wikibot.js:90-93 | the whole URL reads back as its action and its parameters and nothing else |
| Query.Encoded | lib/wikibot.js:92 | one key/encoded-value pair per parameter, at the same position |
| Dispatch.WikiQueryReadsBack | lib/wikibot.js:63-69 | the `wiki` request is an `opensearch` with `search=text`, `limit=1`, `redirects=resolve`, `format=json` in that order; only `search` depends on the text |
| Replies.ConstructError | lib/wikibot.js:107-111 | the reply is the apology addressed to the user followed by the message verbatim |
| Replies.ErrorRoundTrip | lib/wikibot.js:107-111 | the message of an error reply is recovered unchanged from its text |
| Replies.ErrorInjective | lib/wikibot.js:107-111 | different messages to the same user give different replies |
| Replies.CommandNotFoundText | lib/wikibot.js:52 | the unknown-command reply, word for word, with `'%s'` unfilled |
| Replies.NoResultsText | lib/wikibot.js:76 | the no-results reply, word for word, with `'%s'` unfilled |
| Replies.HttpRequestFailedText | lib/wikibot.js:103 | the HTTP-failure reply, word for word, with `%d` and `%s` unfilled |
| Replies.ConstructResponse | lib/wikibot.js:113-117 | with entry `idx` present in `res[0]`, `res[1]`, `res[2]` the text is `title - "snippet"... url`; each missing entry (title, snippet or URL) prints as `undefined`; the three arrays must exist |
| Replies.ResponseLayout | lib/wikibot.js:115 | a result line opens with the title, carries the snippet after ` - "`, closes with the URL, and is 9 characters longer than the three fields |
| Dispatch.RouteCommand | lib/wikibot.js:44-53 | the request is dispatched exactly when the command is registered, to that handler with the command stripped from the text and the user kept; otherwise the answer is the not-found error |
| Dispatch.RouteForwardsRest | lib/wikibot.js:46-49 | a registered command prefixed to `rest` hands the handler exactly `rest` |
| Dispatch.UnknownCommandsAnswerAlike | lib/wikibot.js:52 | any two unknown commands get the same reply: the name never reaches it |
| Dispatch.RouteAsWritten | lib/wikibot.js:44-53 | the lookup on a plain object loses the reply exactly for unregistered names inherited from `Object.prototype` |
| Dispatch.InheritedCommandGetsNoReply | lib/wikibot.js:16 | a request to `/toString` gets no reply from the router as written |
| Dispatch.RouteAgreesOffInherited | lib/wikibot.js:44-53 | off the inherited names the corrected router does what the code does |
| Dispatch.WikiReplyAsWritten | lib/wikibot.js:70-78 | no reply exactly for an empty error message or when the guard passes with fewer than three arrays; a non-empty transport error and a failed guard get the matching error reply; a passed guard with three arrays gets `constructResponse(res, 0)`, `undefined` fields included |
| Dispatch.EchoShiftsReply | lib/wikibot.js:73-74 | with one article found the code replies `<first character of the echo> - "<title>"... <snippet>` |
| Dispatch.NoMatchPrintsUndefined | lib/wikibot.js:73-74 | with nothing found and a non-empty echo the code replies `<first character> - "undefined"... undefined`, not the no-results error |
| Dispatch.GuardGapLosesReply | lib/wikibot.js:73-74 | the one-array result `[["Albert Einstein"]]` passes the guard and loses the reply |
| Dispatch.WikiReply | lib/wikibot.js:70-78 | a transport error's message reaches the user; a result line from the first title, snippet and URL exactly when all three exist; the no-results error otherwise |
| Dispatch.WikiReplyAgreesWithSource | lib/wikibot.js:70-78 | on an answer with an article the corrected callback sends what the code sends for the answer without its echo; it sends what the code sends for every non-empty transport error and every answer failing both guards |
| Dispatch.Serve | lib/wikibot.js:43-53 | one reply for every request; an unregistered command gets the not-found error |
| Dispatch.ServeWiki | lib/wikibot.js:48-49 | a `wiki` request searches for the text after the token and replies with the `wiki` callback's reply for what the search returned |
| Dispatch.AlbertEinsteinScenario | lib/wikibot.js:63-79 | `wiki albert einstein` with one article in the four-part answer replies `Albert Einstein - "German physicist"... <url>` through the corrected callback |
| Dispatch.NoResultsScenario | lib/wikibot.js:76 | `wiki zzzznotaword` with an echo and no titles replies with the no-results error through the corrected callback |
| Dispatch.TransportErrorScenario | lib/wikibot.js:70-71 | given a transport error carrying line 103's message, the reply is that message unformatted |
| Dispatch.UnknownCommandScenario | lib/wikibot.js:52 | the command `foo` replies with the not-found error whatever the hook's text |

## Findings

| source | as written | input that shows it | evidently intended | confidence | as-written member | corrected member |
|---|---|---|---|---|---|---|
| lib/wikibot.js:73-74 | the guard tests `res[0]` and lines 74 and 115 read entry 0 of `res[0]`, `res[1]`, `res[2]`, but the answer holds the echoed search text at 0 and the titles, snippets and URLs at 1 to 3 | an answer with echo `albert einstein` and one article; an answer with a non-empty echo and no titles | the guard tests the titles and the line reads entry 0 of `res[1]`, `res[2]`, `res[3]` | high, not executed | Dispatch.EchoShiftsReply | Dispatch.WikiReply |
| lib/wikibot.js:73 | the guard checks `res.length > 0 && res[0].length > 0`, then line 115 indexes `res[1]` and `res[2]`; with either missing that throws a TypeError and no reply is sent | `res = [["Albert Einstein"]]` | a result line only when entry 0 exists in all three arrays, the no-results error otherwise | high, not executed | Dispatch.GuardGapLosesReply | Dispatch.WikiReply |
| lib/wikibot.js:44-46 | `commands` is a plain `{}`, so `commands[command]` also finds the members every object inherits (`toString`, `constructor`, `__proto__`, ...); they are truthy, get called as the handler and never call back | a POST to `/toString` | only registered commands dispatch; every other name gets the not-found error | high, not executed | Dispatch.InheritedCommandGetsNoReply | Dispatch.RouteCommand |

`Serve` uses the corrected members. The as-written ones are
`Dispatch.WikiReplyAsWritten` and `Dispatch.RouteAsWritten`.
`Dispatch.RouteAgreesOffInherited` shows that the corrected router changes
behaviour only on the inherited names. `Dispatch.WikiReplyAgreesWithSource` shows
that the corrected callback is the code's callback moved one array along, with a
guard on all three arrays it reads. It therefore also sends the no-results error
where the code, reading past the end of an array, would print `undefined`.

## Left out

- The restify server, its route registration, `bodyParser` and `server.listen` (lib/wikibot.js:21-26, 29, 57-59): HTTP framework plumbing. The command is a parameter of `Serve`.
- `slack.respond`'s decoding of the hook and `res.send` (lib/wikibot.js:19, 34, 40): a foreign library and I/O. The hook is a value; sending is returning the reply.
- `http.get` and its error handler (lib/wikibot.js:98-104): a network call. It is the parameter `fetch`, from the URL to what the callback receives: an error message, or the answer as arrays.
- Dispatch.TransportErrorScenario: `fetch` delivers what lines 98-104 evidently mean, not what they do. Line 99 passes `http.get`'s response object unparsed, so as written `res.length` at line 73 is undefined and every successful search gets the no-results reply. Line 103 reads `res.statusCode` with no `res` in scope, so as written a failed request throws a ReferenceError before `cb` runs and gets no reply. The scenario holds only for a transport error that carries line 103's message.
- Environment configuration and all `console` logging (lib/wikibot.js:11-13 and the `console` lines): no effect on the reply.
- The internals of `encodeURIComponent`: `encode` is uninterpreted. The round-trip lemmas assume only that its output never contains `&`, which `encodeURIComponent` guarantees by escaping it.
- `util.format` is not required in the file (line 115); the model gives that line `util.format`'s meaning as described above instead of the ReferenceError it would raise.
- Dispatch.RouteAsWritten: returns `None` for an inherited name instead of modelling what each inherited member does when called; every one of them either returns or throws without calling back, so no reply is sent in each case.
- The assignment to `hook.text` in place (line 48) is modelled as a new hook value; nothing else reads the old text.
- The startup mutation of `commands` (lines 16, 63) is modelled as the constant map `Commands`.
- JavaScript strings count UTF-16 code units; the model counts Dafny characters.
