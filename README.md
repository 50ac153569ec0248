# Dragon's Den pitch evaluator — a Dafny model of its server core

The server takes a business pitch and a list of "dragon" persona ids. It
sends the pitch to a hosted language model once per persona, under that
persona's system prompt. It then cuts a JSON object out of each free-text
reply and returns one feedback record per persona. A second endpoint folds
the records into a summary and asks the model for an improved pitch. A
third endpoint checks the class password.

This project models that logic as pure Dafny functions, with lemmas about them:

- `wrappers.dfy` (`Wrappers`): `Option` (JavaScript's `undefined`) and `Result` (a thrown error).
- `text.dfy` (`Text`): first/last character search, ASCII upper-casing,
  `Array.prototype.join`, and lemmas that pin down where every item and
  separator sits in a joined string.
- `personas.dfy` (`Personas`): the `DRAGON_PROMPTS` table. It has nine ids,
  and each prompt is built from its opening paragraph, the shared instruction
  and the JSON template with the persona's two hints, all copied exactly.
  Lookup is a plain property read.
- `extraction.dfy` (`Extraction`): the greedy match of `/\{[\s\S]*\}/`.
  `RegexMatch` is an independent definition of what the regex returns (leftmost
  start, then longest match); `JsonSpan` (first `{` .. last `}`) is proved
  equal to it. The file also holds the record built from the parsed object.
  `JSON.parse` is a parameter: `None` means it threw, `Some(obj)` is the
  parsed object.
- `synthesis.dfy` (`Synthesis`): the display name, one summary entry per
  record, the `"\n\n"` join, and the user message of the improvement call.
- `upstream.dfy` (`Upstream`): the two kinds of upstream call. A request is
  kept as the values it is built from: the persona id and pitch, or the pitch
  and summary. `PersonaCallWire` and `ImproveCallWire` give the exact
  parameters each call sends. The oracle is a function of the request, so
  any oracle on the parameters actually sent is one of these.
- `handlers.dfy` (`Handlers`): `/api/evaluate-pitch`, `/api/check-password`
  and `/api/improve-pitch`. Each handler maps the request body, the configured
  `CLASS_PASSWORD` and an upstream oracle to the response plus the list of
  upstream requests it issued. That list makes "no upstream call before the
  guards pass" something a contract can state.

Modelling choices:

- The password and the secret are both `Option<string>`. The test is strict
  equality, so when `CLASS_PASSWORD` is unset, a body that omits the password
  passes (`UnsetSecretAdmitsOmittedPassword`).
- `dragonIds.map(getDragonFeedback)` starts every call before any is awaited.
  So once the guards pass, the model issues every persona's request, even
  when one of them fails. The batch result is all-or-nothing.
- If `feedback` is truthy but not an array, `feedback.map` throws before the
  upstream call. The result is a 500 with no call.

Behaviour worth noting:

- An unknown persona id is not an error. Its request goes upstream with no
  system prompt, and its reply is extracted like any other
  (`UnknownIdStillEvaluated`).
- An empty `dragonIds` array is accepted and gives 200 with an empty list
  and no upstream call (`EmptyIdListAccepted`). An empty `feedback` array is
  accepted too, and its summary is the empty string.
- In a summary entry the question follows `"\nKey Question: "`.
- check-password answers a mismatch with status 401 and `{valid: false}`.

## Model

| member | source | states |
|---|---|---|
| Personas.Lookup | server.js:103 | the lookup gives a prompt exactly for the nine table ids and undefined (None) for every other id, with no error |
| Personas.LookupKnownIds | server.js:15-103 | the table's keys are exactly skylar, morgan, alex, terra, zara, phoenix, jobs, christensen and blakely; each known id gives a non-empty prompt that asks for the "rating", "critique" and "question" fields; any other id gives nothing |
| Personas.PromptRequestsFeedbackJson | server.js:15-96 | every persona prompt is non-empty and contains the three JSON keys the extractor reads |
| Extraction.JsonSpan | server.js:114 | there is no match exactly when no '{' is followed by a '}'; a match starts with '{', ends with '}', has no '{' before it and no '}' after it |
| Extraction.JsonSpanIsRegexMatch | server.js:114 | the computed span is the match of the greedy regex: leftmost start, then longest; it is the only such match |
| Extraction.NoSpanIffFirstBraceUnclosed | server.js:114-126 | extraction fails exactly when the text has no '{', or no '}' after its first '{' |
| Extraction.Get | server.js:120-122 | a property read on the parsed object is undefined exactly when the key is absent, and otherwise the stored value |
| Extraction.ExtractFeedback | server.js:113-126 | the error is 'no span' exactly when there is no brace span, and 'malformed' exactly when the parser rejects the span; a record's dragonId is the requested id, and each of rating, critique and question is the parsed value under that key, or absent when the key is absent, without type or range checks |
| Extraction.SurroundedSpan | server.js:114 | for a reply made of prose, one brace-delimited object and prose, with no "{" before the object and no "}" after it, the match is exactly the object |
| Extraction.SurroundedObject | server.js:114-123 | for such a reply, a successful parse of the object gives the record of its three fields under the requested id |
| Extraction.GreedySpansTwoObjects | server.js:114 | with two objects in the reply, the match runs from the first object's '{' to the second's '}' and includes the text between them |
| Text.UpperChar | server.js:197 | toUpperCase on one character: a-z map to A-Z, every other character is unchanged |
| Text.Join | server.js:199 | `Array.prototype.join` on strings: the items with the separator between each pair of neighbours; its layout is stated by the four lemmas below |
| Text.JoinLength | server.js:199 | a join of n items is as long as the items plus n-1 separators |
| Text.JoinItemAt | server.js:199 | item i of a join sits at its offset, after every earlier item and its separator |
| Text.JoinSepAt | server.js:199 | the separator follows every item but the last |
| Text.JoinAppend | server.js:199 | joining two non-empty lists is joining each and putting one separator between |
| Synthesis.DisplayName | server.js:197 | `charAt(0).toUpperCase() + slice(1)`; what it gives is stated by `DisplayNameShape` |
| Synthesis.DisplayNameShape | server.js:197 | the display name has the id's length, its first character is the upper case of the id's first character, and it keeps everything after that; only a lower-case first letter changes; an empty id gives an empty name; applying it twice is the same as once |
| Synthesis.Show | server.js:198 | a placeholder shows undefined as "undefined" and a present value as its rendering |
| Synthesis.Entry | server.js:198 | the template literal of one summary entry; its layout is stated by `EntryLayout` |
| Synthesis.EntryLayout | server.js:198 | an entry is the display name, " (", the rating and "/10): ", then the critique, then "\nKey Question: " and the question, at exactly those offsets; the length leaves room for nothing else |
| Synthesis.Entries | server.js:196-198 | one entry per record, in the records' order |
| Synthesis.FeedbackSummary | server.js:196-199 | an empty list gives the empty string; one record gives exactly its entry |
| Synthesis.SummaryLength | server.js:196-199 | the summary is exactly as long as its entries plus one "\n\n" between each pair of neighbours, so n-1 separators for n entries and nothing before or after |
| Synthesis.SummaryEntryAt | server.js:196-199 | the i-th entry of the summary is record i's entry, at its offset, in record order |
| Synthesis.SummarySeparatorAt | server.js:196-199 | exactly "\n\n" follows every entry but the last, and the next entry starts right after it |
| Synthesis.SummaryAppend | server.js:196-199 | one more record appends "\n\n" and its entry to the summary of the earlier records |
| Synthesis.ImproveMessage | server.js:215-221 | the template literal of the improvement call's user message; its layout is stated by `ImproveMessageLayout` |
| Synthesis.ImproveMessageLayout | server.js:215-221 | the message opens with "Original Pitch:\n", then the pitch verbatim, then "\n\nDragon Feedback:\n", then the summary verbatim, and ends with the fixed closing request; the length leaves room for nothing else |
| Upstream.PersonaCallWire | server.js:100-108 | a persona call sends the model id, 1024 tokens, and the table prompt as system text, which is absent exactly for ids outside the table; the user message is "Business Pitch:\n\n" followed by the pitch |
| Upstream.ImproveCallWire | server.js:201-222 | the improvement call sends the model id, 2048 tokens and the fixed consultant instruction; the user message holds the original pitch and the summary verbatim after their headings |
| Handlers.DragonFeedback | server.js:98-131 | getDragonFeedback fails with an upstream error exactly when the call fails; when the call returns text, the result is exactly the extraction result of that text, which carries the requested id |
| Handlers.AllOk | server.js:153-155 | the Promise.all join succeeds exactly when every element succeeded; on success it holds every value in order, with the same length; on failure it reports one of the elements' failures |
| Handlers.DragonRequests | server.js:153-154 | the fan-out issues one request per id, in the ids' order |
| Handlers.DragonResults | server.js:153-154 | one result per id, in the ids' order |
| Handlers.EvaluatePitch | server.js:137-163 | a password mismatch gives 401 with no upstream call; then a falsy pitch or a non-array dragonIds gives 400 with no call; otherwise every id's request is issued in order, the status is 200 or 500, it is 200 exactly when every persona succeeded, the i-th record belongs to dragonIds[i], and any failure gives the generic 500 with no partial list |
| Handlers.Authorized | server.js:142 | the password guard: strict equality of the body's password and `CLASS_PASSWORD`, so two absent values are equal; the same test guards improve-pitch (server.js:185) and check-password (server.js:173) |
| Handlers.Truthy | server.js:146 | the truthiness test on a pitch: an absent or empty string is falsy; the same test is applied to `originalPitch` (server.js:189) |
| Handlers.CheckPassword | server.js:170-178 | valid is true exactly when the password equals the configured secret; status 200 when valid, 401 when not |
| Handlers.ImprovePitch | server.js:180-233 | a password mismatch gives 401 with no call; then a falsy pitch or falsy feedback gives 400 with no call; truthy non-array feedback gives 500 with no call; otherwise exactly one call is made, and its text comes back unchanged with 200, or its failure gives 500 |
| Handlers.PasswordCheckMatchesGuards | server.js:142-191 | check-password says valid exactly when evaluate-pitch and improve-pitch let the same password past their first guard |
| Handlers.EmptyPasswordRefused | server.js:173-177 | when a non-empty secret is configured, the empty password gets 401 with valid false |
| Handlers.UnsetSecretAdmitsOmittedPassword | server.js:173-174 | with no secret configured, a body with no password is valid |
| Handlers.EmptyIdListAccepted | server.js:146-157 | an empty dragonIds array passes the shape check: 200 with an empty list and no upstream call |
| Handlers.OneFailureFailsBatch | server.js:153-161 | if any one persona fails, the response is the generic 500, and every persona's request has still been issued |
| Handlers.UnknownIdStillEvaluated | server.js:103-124 | an id outside the table raises no error of its own: its request is sent with no system prompt, and a reply holding an object that parses yields a record under that id |

## Left out

- HTTP plumbing is not modelled: Express routing, `res.status/json`, static file serving, CORS, dotenv, `app.listen` and the health endpoint (server.js:1-13, 133-135, 166-168, 235-240). So are `console.log` and `console.error`.
- A reply whose first content block has no `text` is not modelled. In improve-pitch that would answer 200 with no `improvedPitch` field (server.js:225-227); in getDragonFeedback the extraction would throw and give an upstream error. This cannot arise for the requests as sent, which ask for no tools.
- The SDK call and `message.content[0].text` are not modelled. They become the upstream oracle (`Handlers.Oracle`), which returns the reply text or `None` for any rejection. The model's replies cannot be specified.
- The oracle is a function, so two identical requests (a persona id listed twice) get the same reply in the model. The real service may answer differently.
- Concurrency is not modelled: call completion order, the lack of cancellation, and sibling calls still in flight. Promise.all reports the first rejection in time, and `AllOk` reports the first in list order. The handler discards the error, so the difference cannot be seen.
- `JSON.parse` is not modelled; it is a parameter. Its result is taken to be an object, which holds because the matched text starts with `{`.
- Personas.Lookup: inherited `Object.prototype` names (`constructor`, `toString`, `__proto__`, …) are treated as absent. In JavaScript those reads give a non-undefined value.
- Personas.LookupKnownIds: does not prove the nine prompts pairwise distinct. Comparing the long prompt literals costs more than the verifier's resource limit allows.
- Text.UpperChar: upper-cases ASCII a-z only. Unicode case mapping (including changes in length such as "ß" to "SS") is not modelled.
- Synthesis.Show: how a template literal renders a number or other JSON value is the parameter `render`. Only `undefined` is fixed, and it shows as "undefined".
- Request bodies are not modelled in full. A pitch or password that is a non-string JSON value is left out; it never equals the string secret. So are non-string elements of `dragonIds` and feedback records without a string `dragonId`, where `charAt` throws and the result is a 500.
- In the response, `JSON.stringify` drops fields that are `undefined`. The model keeps them as `None` in the records.
