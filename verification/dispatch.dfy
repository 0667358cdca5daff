/** The command router of the POST handler (lib/wikibot.js:43-53), the command
    registry built at startup (lib/wikibot.js:16, 63), and the `wiki` handler
    (lib/wikibot.js:63-80). The network call is the `fetch` parameter: it takes
    the URL `makeQuery` built and yields what the HTTP callback receives. */
module Dispatch {
  import opened Basics
  import opened Query
  import opened Replies

  // ---------------------------------------------------------------------------
  // Stripping the command token

  /** `text.substr(command.length)` (lib/wikibot.js:84-86): the suffix of `text`
      left after dropping `|command|` characters, or nothing if `text` is shorter. */
  function StripCommand(command: string, text: string): (r: string)
    ensures |r| == if |text| <= |command| then 0 else |text| - |command|
    ensures r == text[|text| - |r|..]
  {
    if |command| <= |text| then text[|command|..] else ""
  }

  /** Stripping undoes prefixing with the command, and only the command: any
      delimiter after it stays at the front of what is left. */
  lemma StripCommandPrefix(command: string, rest: string)
    ensures StripCommand(command, command + rest) == rest
  {
  }

  /** The space after the token survives: "wiki albert" is forwarded as " albert". */
  lemma StripKeepsDelimiter()
    ensures StripCommand("wiki", "wiki albert") == " albert"
  {
  }

  // ---------------------------------------------------------------------------
  // The registry

  /** The handlers the bot defines. */
  datatype Handler = Wiki

  /** The registry as the startup code leaves it: `wiki` and nothing else. */
  const Commands: map<string, Handler> := map["wiki" := Wiki]

  // ---------------------------------------------------------------------------
  // The router

  /** What the router does with a request: hand it on, or answer it itself. */
  datatype Route = Dispatch(handler: Handler, hook: Hook) | Answer(reply: Reply)

  /** The router, looking up only the commands the registry holds: a registered
      handler gets the hook with the command stripped from its text; any other
      command gets the "command not found" error, whose `%s` stays unfilled. */
  function RouteCommand(registry: map<string, Handler>, command: string, hook: Hook): (d: Route)
    ensures d.Dispatch? <==> command in registry
    ensures d.Dispatch? ==>
      d.handler == registry[command] && d.hook.userName == hook.userName
      && d.hook.text == StripCommand(command, hook.text)
    ensures d.Answer? ==> ErrorMessageOf(hook.userName, d.reply.text) == Some(CommandNotFound)
  {
    if command in registry then
      Dispatch(registry[command], hook.(text := StripCommand(command, hook.text)))
    else
      Answer(ConstructError(hook, CommandNotFound))
  }

  /** Routing `command + rest` to a registered command hands the handler exactly `rest`. */
  lemma RouteForwardsRest(registry: map<string, Handler>, command: string, user: string, rest: string)
    requires command in registry
    ensures RouteCommand(registry, command, Hook(user, command + rest)) == Dispatch(registry[command], Hook(user, rest))
  {
  }

  /** The unknown-command reply never names the command: any two unknown
      commands get the same reply. */
  lemma UnknownCommandsAnswerAlike(registry: map<string, Handler>, c1: string, c2: string, hook: Hook)
    requires c1 !in registry && c2 !in registry
    ensures RouteCommand(registry, c1, hook) == RouteCommand(registry, c2, hook)
  {
  }

  /** The members every plain JavaScript object inherits from `Object.prototype`
      (as Node's V8 engine provides them). */
  const InheritedMembers: set<string> := {
    "constructor", "toString", "toLocaleString", "valueOf", "hasOwnProperty",
    "isPrototypeOf", "propertyIsEnumerable", "__defineGetter__", "__defineSetter__",
    "__lookupGetter__", "__lookupSetter__", "__proto__"}

  /** The router as lib/wikibot.js:44-53 writes it: `commands` is a plain object, so
      `commands[command]` also finds the inherited members, which are truthy. Such
      a member is then called as the handler; none of them calls back, so the
      request gets no reply (None). */
  function RouteAsWritten(registry: map<string, Handler>, command: string, hook: Hook): (d: Option<Route>)
    ensures d.None? <==> command !in registry && command in InheritedMembers
  {
    if command in registry then
      Some(Dispatch(registry[command], hook.(text := StripCommand(command, hook.text))))
    else if command in InheritedMembers then
      None
    else
      Some(Answer(ConstructError(hook, CommandNotFound)))
  }

  /** A request to `/toString` is never answered by the router as written. */
  lemma InheritedCommandGetsNoReply(hook: Hook)
    ensures RouteAsWritten(Commands, "toString", hook).None?
  {
  }

  /** Apart from the inherited member names, the corrected router does what the
      source does. */
  lemma RouteAgreesOffInherited(registry: map<string, Handler>, command: string, hook: Hook)
    requires command in registry || command !in InheritedMembers
    ensures RouteAsWritten(registry, command, hook) == Some(RouteCommand(registry, command, hook))
  {
  }

  // ---------------------------------------------------------------------------
  // The wiki handler

  /** The parameters the `wiki` handler sends, in the order of its object literal. */
  function WikiParams(text: string): Params
  {
    [("search", Str(text)), ("limit", Num(1)), ("redirects", Str("resolve")), ("format", Str("json"))]
  }

  /** The URL the `wiki` handler requests for a search text. */
  function WikiQueryUrl(encode: Encoder, text: string): string
  {
    QueryUrl(encode, "opensearch", WikiParams(text))
  }

  /** The `wiki` request is always an `opensearch` with `search`, `limit`,
      `redirects` and `format`, in that order, and only `search` depends on the text. */
  lemma WikiQueryReadsBack(encode: Encoder, text: string)
    requires EscapesAmpersand(encode)
    ensures DecodeQuery(WikiQueryUrl(encode, text)) == Some(("opensearch",
      [("search", encode(Str(text))), ("limit", encode(Num(1))),
       ("redirects", encode(Str("resolve"))), ("format", encode(Str("json")))]))
  {
    var params := WikiParams(text);
    assert PlainKeys(params) by {
      forall k | 0 <= k < |params| ensures PlainKey(params[k].0) {
        KeysArePlain(k, text);
      }
    }
    QueryRoundTrip(encode, "opensearch", params);
    assert '&' !in "opensearch";
    var pairs := Encoded(encode, params);
    assert pairs == [pairs[0], pairs[1], pairs[2], pairs[3]];
  }

  /** Each key of the `wiki` parameters is plain. */
  lemma KeysArePlain(k: nat, text: string)
    requires k < 4
    ensures PlainKey(WikiParams(text)[k].0)
  {
  }

  /** What the HTTP callback receives: `cb(message)`, an error and nothing else, or
      `cb(null, res)`, the answer as JavaScript arrays. */
  datatype SearchOutcome = TransportError(message: string) | Results(res: seq<seq<string>>)

  /** A string as JavaScript indexes it: `s.length` entries, `s[i]` the
      one-character string at `i`. */
  function Chars(s: string): (r: seq<string>)
    ensures |r| == |s|
    ensures forall i :: 0 <= i < |s| ==> r[i] == [s[i]]
  {
    seq(|s|, i requires 0 <= i < |s| => [s[i]])
  }

  /** The `opensearch` answer as the callback indexes it: the echoed search text,
      then the titles, the snippets and the URLs. */
  function OpenSearchAnswer(echo: string, titles: seq<string>, snippets: seq<string>, urls: seq<string>): seq<seq<string>>
  {
    [Chars(echo), titles, snippets, urls]
  }

  /** The check at lib/wikibot.js:73. */
  predicate SourceGuard(res: seq<seq<string>>)
  {
    |res| > 0 && |res[0]| > 0
  }

  /** Whether the handler sent a reply: `NoReply` when it threw before calling back. */
  datatype Delivery = Sent(reply: Reply) | NoReply

  /** The `wiki` callback as written (lib/wikibot.js:70-78). An empty error message
      is falsy, so `cb("")` falls through to `res.length` on an undefined `res` and
      throws. The guard checks only `res[0]`; when it passes with `res[1]` or `res[2]`
      missing, indexing them throws. Each throw leaves the request without a reply. */
  function WikiReplyAsWritten(hook: Hook, outcome: SearchOutcome): (d: Delivery)
    ensures d.NoReply? <==>
      (outcome.TransportError? && outcome.message == "")
      || (outcome.Results? && SourceGuard(outcome.res) && |outcome.res| < 3)
    ensures outcome.TransportError? && outcome.message != "" ==>
      d == Sent(ConstructError(hook, outcome.message))
    ensures outcome.Results? && !SourceGuard(outcome.res) ==> d == Sent(ConstructError(hook, NoResults))
    ensures outcome.Results? && SourceGuard(outcome.res) && |outcome.res| >= 3 ==>
      d == Sent(ConstructResponse(outcome.res, 0))
  {
    match outcome
    case TransportError(message) =>
      if message != "" then Sent(ConstructError(hook, message)) else NoReply
    case Results(res) =>
      if |res| > 0 && |res[0]| > 0 then
        if |res| < 3 then NoReply else Sent(ConstructResponse(res, 0))
      else
        Sent(ConstructError(hook, NoResults))
  }

  /** A one-array result passes the guard and loses the reply. */
  lemma GuardGapLosesReply(hook: Hook)
    ensures WikiReplyAsWritten(hook, Results([["Albert Einstein"]])) == NoReply
  {
  }

  /** With one article found, the code's reply reads one array too early: the first
      character of the echoed search text stands where the title belongs, the title
      where the snippet belongs, and the snippet where the URL belongs. */
  lemma EchoShiftsReply(hook: Hook, echo: string, title: string, snippet: string, url: string)
    requires echo != ""
    ensures WikiReplyAsWritten(hook, Results(OpenSearchAnswer(echo, [title], [snippet], [url])))
      == Sent(Reply([echo[0]] + " - \"" + title + "\"... " + snippet))
  {
  }

  /** With nothing found, the echoed search text still passes the guard, so the
      code sends a line of `undefined` fields instead of the no-results error. */
  lemma NoMatchPrintsUndefined(hook: Hook, echo: string)
    requires echo != ""
    ensures WikiReplyAsWritten(hook, Results(OpenSearchAnswer(echo, [], [], [])))
      == Sent(Reply([echo[0]] + " - \"" + "undefined" + "\"... " + "undefined"))
  {
  }

  /** The answer has a first title, snippet and URL: entry 0 of `res[1]`, `res[2]`
      and `res[3]`. */
  predicate HasArticle(res: seq<seq<string>>)
  {
    |res| >= 4 && HasResultAt(res[1..], 0)
  }

  /** The `wiki` callback reading the arrays where the answer puts them: a result
      line from the first title, snippet and URL exactly when all three exist, the
      no-results error otherwise, and any transport error passed through. */
  function WikiReply(hook: Hook, outcome: SearchOutcome): (r: Reply)
    ensures outcome.TransportError? ==> ErrorMessageOf(hook.userName, r.text) == Some(outcome.message)
    ensures outcome.Results? && HasArticle(outcome.res) ==>
      r.text == outcome.res[1][0] + " - \"" + outcome.res[2][0] + "\"... " + outcome.res[3][0]
    ensures outcome.Results? && !HasArticle(outcome.res) ==>
      ErrorMessageOf(hook.userName, r.text) == Some(NoResults)
  {
    match outcome
    case TransportError(message) => ConstructError(hook, message)
    case Results(res) =>
      if HasArticle(res) then ConstructResponse(res[1..], 0) else ConstructError(hook, NoResults)
  }

  /** The corrected callback is the code's callback moved one array along: on an
      answer with an article it sends what the code sends for the answer without
      its echo; it agrees with the code on every non-empty transport error and on
      every answer that fails both guards. */
  lemma WikiReplyAgreesWithSource(hook: Hook, outcome: SearchOutcome)
    ensures outcome.Results? && HasArticle(outcome.res) ==>
      WikiReplyAsWritten(hook, Results(outcome.res[1..])) == Sent(WikiReply(hook, outcome))
    ensures outcome.TransportError? && outcome.message != "" ==>
      WikiReplyAsWritten(hook, outcome) == Sent(WikiReply(hook, outcome))
    ensures outcome.Results? && !SourceGuard(outcome.res) && !HasArticle(outcome.res) ==>
      WikiReplyAsWritten(hook, outcome) == Sent(WikiReply(hook, outcome))
  {
  }

  // ---------------------------------------------------------------------------
  // One request, end to end

  /** Runs a registered handler on the hook the router prepared. */
  function RunHandler(handler: Handler, encode: Encoder, fetch: string -> SearchOutcome, hook: Hook): Reply
  {
    match handler
    case Wiki => WikiReply(hook, fetch(WikiQueryUrl(encode, hook.text)))
  }

  /** The reply to one webhook request for `command`: exactly one, always. */
  function Serve(encode: Encoder, fetch: string -> SearchOutcome, command: string, hook: Hook): (r: Reply)
    ensures command !in Commands ==> r == ConstructError(hook, CommandNotFound)
  {
    match RouteCommand(Commands, command, hook)
    case Answer(reply) => reply
    case Dispatch(handler, stripped) => RunHandler(handler, encode, fetch, stripped)
  }

  /** A `wiki` request searches for the text after the token, space included, and
      gets the reply the `wiki` callback makes of the search outcome. */
  lemma ServeWiki(encode: Encoder, fetch: string -> SearchOutcome, user: string, rest: string)
    ensures Serve(encode, fetch, "wiki", Hook(user, "wiki" + rest))
      == WikiReply(Hook(user, rest), fetch(WikiQueryUrl(encode, rest)))
  {
  }

  /** "wiki albert einstein" with one article found: the reply is the result line
      of its title, snippet and URL. */
  lemma AlbertEinsteinScenario(encode: Encoder, fetch: string -> SearchOutcome, echo: string)
    requires fetch(WikiQueryUrl(encode, " albert einstein")) == Results(OpenSearchAnswer(echo,
      ["Albert Einstein"], ["German physicist"], ["https://en.wikipedia.org/wiki/Albert_Einstein"]))
    ensures Serve(encode, fetch, "wiki", Hook("ada", "wiki albert einstein")).text
      == "Albert Einstein" + " - \"" + "German physicist" + "\"... " + "https://en.wikipedia.org/wiki/Albert_Einstein"
  {
    var rest := " albert einstein";
    assert "wiki" + rest == "wiki albert einstein";
    ServeWiki(encode, fetch, "ada", rest);
    assert HasArticle(OpenSearchAnswer(echo,
      ["Albert Einstein"], ["German physicist"], ["https://en.wikipedia.org/wiki/Albert_Einstein"]));
  }

  /** "wiki zzzznotaword" with nothing found: the no-results error, its `%s` unfilled. */
  lemma NoResultsScenario(encode: Encoder, fetch: string -> SearchOutcome, echo: string)
    requires fetch(WikiQueryUrl(encode, " zzzznotaword")) == Results(OpenSearchAnswer(echo, [], [], []))
    ensures Serve(encode, fetch, "wiki", Hook("ada", "wiki zzzznotaword")).text
      == "Sorry, " + "ada" + ", I can't process that request because of this error: "
         + "Could not find any results for: '%s'."
  {
    var rest := " zzzznotaword";
    assert "wiki" + rest == "wiki zzzznotaword";
    ServeWiki(encode, fetch, "ada", rest);
    NoResultsText(Hook("ada", rest));
  }

  /** A transport error carrying the message of line 103: the error text reaches the
      user with `%d` and `%s` unfilled. */
  lemma TransportErrorScenario(encode: Encoder, fetch: string -> SearchOutcome, user: string, rest: string)
    requires fetch(WikiQueryUrl(encode, rest)) == TransportError(HttpRequestFailed)
    ensures Serve(encode, fetch, "wiki", Hook(user, "wiki" + rest)).text
      == "Sorry, " + user + ", I can't process that request because of this error: "
         + "Error making HTTP request: %d - %s."
  {
  }

  /** An unknown command `foo`: the not-found error, whatever the hook's text. */
  lemma UnknownCommandScenario(encode: Encoder, fetch: string -> SearchOutcome, hook: Hook)
    ensures Serve(encode, fetch, "foo", hook).text
      == "Sorry, " + hook.userName + ", I can't process that request because of this error: "
         + "Command not found: '%s'."
  {
  }
}
