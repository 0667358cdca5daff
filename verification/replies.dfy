/** The response formatter: the two shapes of reply the bot sends back,
    `constructError` (lib/wikibot.js:107-111) and `constructResponse`
    (lib/wikibot.js:113-117). */
module Replies {
  import opened Basics

  /** One decoded webhook invocation: who asked, and the raw message text
      (command token included). */
  datatype Hook = Hook(userName: string, text: string)

  /** The single `{ text: ... }` object sent back for a webhook invocation. */
  datatype Reply = Reply(text: string)

  // The messages the handlers pass. `constructError` has no third parameter, so
  // the value each caller passes after the message is dropped and `%s` (or
  // `%d`) reaches the user as written.
  const CommandNotFound: string := "Command not found: '%s'."
  const NoResults: string := "Could not find any results for: '%s'."
  const HttpRequestFailed: string := "Error making HTTP request: %d - %s."

  /** Everything an error reply to `userName` says before the message. */
  function ErrorLead(userName: string): string
  {
    "Sorry, " + userName + ", I can't process that request because of this error: "
  }

  /** The error reply: the fixed apology addressed to the user, then the message
      verbatim, with no placeholder filled in. */
  function ConstructError(hook: Hook, message: string): (r: Reply)
    ensures |ErrorLead(hook.userName)| <= |r.text|
    ensures r.text[..|ErrorLead(hook.userName)|] == ErrorLead(hook.userName)
    ensures r.text[|ErrorLead(hook.userName)|..] == message
  {
    Reply(ErrorLead(hook.userName) + message)
  }

  /** The message of an error reply addressed to `userName`; None for any other text. */
  function ErrorMessageOf(userName: string, text: string): Option<string>
  {
    var lead := ErrorLead(userName);
    if |lead| <= |text| && text[..|lead|] == lead then Some(text[|lead|..]) else None
  }

  /** An error reply gives its message back unchanged. */
  lemma ErrorRoundTrip(hook: Hook, message: string)
    ensures ErrorMessageOf(hook.userName, ConstructError(hook, message).text) == Some(message)
  {
  }

  /** The unknown-command reply, word for word: the `%s` is not filled in. */
  lemma CommandNotFoundText(hook: Hook)
    ensures ConstructError(hook, CommandNotFound).text
      == "Sorry, " + hook.userName + ", I can't process that request because of this error: "
         + "Command not found: '%s'."
  {
  }

  /** The no-results reply, word for word: the `%s` is not filled in. */
  lemma NoResultsText(hook: Hook)
    ensures ConstructError(hook, NoResults).text
      == "Sorry, " + hook.userName + ", I can't process that request because of this error: "
         + "Could not find any results for: '%s'."
  {
  }

  /** The HTTP-failure reply, word for word: neither `%d` nor `%s` is filled in. */
  lemma HttpRequestFailedText(hook: Hook)
    ensures ConstructError(hook, HttpRequestFailed).text
      == "Sorry, " + hook.userName + ", I can't process that request because of this error: "
         + "Error making HTTP request: %d - %s."
  {
  }

  /** Different messages to the same user give different replies. */
  lemma ErrorInjective(hook: Hook, m1: string, m2: string)
    requires ConstructError(hook, m1) == ConstructError(hook, m2)
    ensures m1 == m2
  {
  }

  /** What `%s` prints for the element `s[i]` of an array: the element, or
      `undefined` past the end of the array. */
  function FormatAt(s: seq<string>, i: nat): string
  {
    if i < |s| then s[i] else "undefined"
  }

  /** `res` has an entry at `idx` in each of the three arrays the reply reads. */
  predicate HasResultAt(res: seq<seq<string>>, idx: nat)
  {
    |res| >= 3 && idx < |res[0]| && idx < |res[1]| && idx < |res[2]|
  }

  /** The result reply `%s - "%s"... %s` over entry `idx` of `res[0]`, `res[1]`
      and `res[2]`. The arrays `res[0]` to `res[2]` must exist: indexing a missing
      one throws. An entry missing from an existing array prints as `undefined`. */
  function ConstructResponse(res: seq<seq<string>>, idx: nat): (r: Reply)
    requires |res| >= 3
    ensures HasResultAt(res, idx) ==>
      r.text == res[0][idx] + " - \"" + res[1][idx] + "\"... " + res[2][idx]
    ensures idx >= |res[0]| ==>
      r.text == "undefined" + " - \"" + FormatAt(res[1], idx) + "\"... " + FormatAt(res[2], idx)
    ensures idx >= |res[1]| ==>
      r.text == FormatAt(res[0], idx) + " - \"" + "undefined" + "\"... " + FormatAt(res[2], idx)
    ensures idx >= |res[2]| ==>
      r.text == FormatAt(res[0], idx) + " - \"" + FormatAt(res[1], idx) + "\"... " + "undefined"
  {
    var title, snippet, url := FormatAt(res[0], idx), FormatAt(res[1], idx), FormatAt(res[2], idx);
    Reply(title + " - \"" + snippet + "\"... " + url)
  }

  /** A result reply opens with the title, closes with the URL, and carries the
      snippet between the two fixed separators. */
  lemma ResponseLayout(res: seq<seq<string>>, idx: nat)
    requires HasResultAt(res, idx)
    ensures var text, title, snippet, url := ConstructResponse(res, idx).text, res[0][idx], res[1][idx], res[2][idx];
      |text| == |title| + |snippet| + |url| + 9
      && text[..|title|] == title
      && text[|title| + 4..|title| + 4 + |snippet|] == snippet
      && text[|text| - |url|..] == url
  {
  }
}
